/** `RelyingPartyRegistration.ProviderDetails`: the asserting party (identity
    provider) side of a registration, its constructor checks and its builder. */
module AssertingParty {
  import opened Wrappers
  import opened StringUtils
  import opened Saml2Credentials

  /** `Saml2MessageBinding`: HTTP-Redirect and HTTP-POST (sections 3.4 and 3.5 of
      SAML 2.0 Bindings). */
  datatype Saml2MessageBinding = Redirect | Post

  /** Every exception raised while building a registration. All but `NullPointer`
      are the `IllegalArgumentException`s of Spring's `Assert`. */
  datatype ConfigError =
    | RegistrationIdEmpty                  // "registrationId cannot be empty"
    | EntityIdEmpty                        // "entityId cannot be empty" (relying party)
    | AssertionConsumerServiceLocationEmpty
    | CredentialsEmpty                     // "credentials cannot be empty"
    | NullCredential                       // "credentials cannot have null values"
    | InvalidCredential(bucket: Usage)     // a null, or one without the bucket's usage
    | SingleSignOnServiceLocationEmpty     // "providerDetails.webSsoUrl cannot be empty"
    | AssertingPartyEntityIdEmpty          // "entityId cannot be null or empty"
    | SingleSignOnServiceLocationNull
    | SingleSignOnServiceBindingNull
    | RegistrationNull                     // "registration cannot be null"
    | NullPointer                          // a usage lambda applied to a null credential

  /** The immutable asserting-party record, the `<IDPSSODescriptor>` of the identity
      provider (section 2.4.3 of SAML 2.0 Metadata). */
  datatype ProviderDetails = ProviderDetails(
    entityId: string,
    wantsAuthnRequestsSigned: bool,
    verificationX509Credentials: set<Saml2X509Credential>,
    encryptionX509Credentials: set<Saml2X509Credential>,
    singleSignOnServiceLocation: string,
    singleSignOnServiceBinding: Saml2MessageBinding)
  {
    /** What the constructor guarantees of every record it lets through. The SSO
        location is only non-null here: it may be blank. */
    predicate Valid() {
      && HasText(Some(entityId))
      && AllHave(verificationX509Credentials, Verification)
      && AllHave(encryptionX509Credentials, Encryption)
    }

    /** Deprecated `getWebSsoUrl()`: the value `getSingleSignOnServiceLocation()` gives. */
    function WebSsoUrl(): (url: string)
      ensures url == singleSignOnServiceLocation
    {
      singleSignOnServiceLocation
    }

    /** Deprecated `isSignAuthNRequest()`: the value `getWantsAuthnRequestsSigned()` gives. */
    function IsSignAuthNRequest(): (sign: bool)
      ensures sign == wantsAuthnRequestsSigned
    {
      wantsAuthnRequestsSigned
    }

    /** Deprecated `getBinding()`: the value `getSingleSignOnServiceBinding()` gives. */
    function Binding(): (binding: Saml2MessageBinding)
      ensures binding == singleSignOnServiceBinding
    {
      singleSignOnServiceBinding
    }

    /** The builder settings `withRelyingPartyRegistration` copies this record into. */
    function CopiedSettings(): ProviderDetailsSettings {
      ProviderDetailsSettings(
        Some(entityId), wantsAuthnRequestsSigned,
        Wrap(verificationX509Credentials), Wrap(encryptionX509Credentials),
        Some(singleSignOnServiceLocation), Some(singleSignOnServiceBinding))
    }
  }

  /** The six fields of `ProviderDetails.Builder`, which are also the six arguments
      of the private `ProviderDetails` constructor. */
  datatype ProviderDetailsSettings = ProviderDetailsSettings(
    entityId: Option<string>,
    wantsAuthnRequestsSigned: bool,
    verificationX509Credentials: set<Entry>,
    encryptionX509Credentials: set<Entry>,
    singleSignOnServiceLocation: Option<string>,
    singleSignOnServiceBinding: Option<Saml2MessageBinding>)

  /** A fresh builder: no entity id, signed AuthnRequests wanted, empty buckets,
      no SSO location, the HTTP-Redirect binding. */
  const DefaultProviderDetailsSettings :=
    ProviderDetailsSettings(None, true, {}, {}, None, Some(Redirect))

  /** The private `ProviderDetails` constructor: its checks, in source order, then
      the record. */
  function NewProviderDetails(s: ProviderDetailsSettings): (r: Result<ProviderDetails, ConfigError>)
    ensures r.Success? <==>
      && HasText(s.entityId)
      && AllCarry(s.verificationX509Credentials, Verification)
      && AllCarry(s.encryptionX509Credentials, Encryption)
      && s.singleSignOnServiceLocation.Some?
      && s.singleSignOnServiceBinding.Some?
    ensures r.Success? ==> r.value.Valid() && r.value.CopiedSettings() == s
  {
    if !HasText(s.entityId) then Failure(AssertingPartyEntityIdEmpty)
    else if !AllCarry(s.verificationX509Credentials, Verification) then Failure(InvalidCredential(Verification))
    else if !AllCarry(s.encryptionX509Credentials, Encryption) then Failure(InvalidCredential(Encryption))
    else if s.singleSignOnServiceLocation.None? then Failure(SingleSignOnServiceLocationNull)
    else if s.singleSignOnServiceBinding.None? then Failure(SingleSignOnServiceBindingNull)
    else
      CarryCorrespondence(s.verificationX509Credentials, {}, Verification);
      CarryCorrespondence(s.encryptionX509Credentials, {}, Encryption);
      WrapUnwrap(s.verificationX509Credentials);
      WrapUnwrap(s.encryptionX509Credentials);
      Success(ProviderDetails(
        s.entityId.value, s.wantsAuthnRequestsSigned,
        Unwrap(s.verificationX509Credentials), Unwrap(s.encryptionX509Credentials),
        s.singleSignOnServiceLocation.value, s.singleSignOnServiceBinding.value))
  }

  /** Copying a valid record into builder settings and constructing again gives the
      same record back. */
  lemma ProviderDetailsCopyRoundTrip(p: ProviderDetails)
    requires p.Valid()
    ensures NewProviderDetails(p.CopiedSettings()) == Success(p)
  {
    var s := p.CopiedSettings();
    CarryCorrespondence({}, p.verificationX509Credentials, Verification);
    CarryCorrespondence({}, p.encryptionX509Credentials, Encryption);
    UnwrapWrap(p.verificationX509Credentials);
    UnwrapWrap(p.encryptionX509Credentials);
  }

  /** The deprecated getters of a constructed record read back what the builder's
      setters (current or deprecated) last wrote. */
  lemma DeprecatedGettersReadBack(s: ProviderDetailsSettings)
    ensures NewProviderDetails(s).Success? ==>
      var p := NewProviderDetails(s).value;
      && Some(p.WebSsoUrl()) == s.singleSignOnServiceLocation
      && p.IsSignAuthNRequest() == s.wantsAuthnRequestsSigned
      && Some(p.Binding()) == s.singleSignOnServiceBinding
  {
  }

  /** The constructor itself, with its check loops over the two buckets. */
  method ConstructProviderDetails(s: ProviderDetailsSettings) returns (r: Result<ProviderDetails, ConfigError>)
    ensures r == NewProviderDetails(s)
  {
    if !HasText(s.entityId) {
      return Failure(AssertingPartyEntityIdEmpty);
    }
    var ok := ValidateBucket(s.verificationX509Credentials, Verification);
    if !ok {
      return Failure(InvalidCredential(Verification));
    }
    ok := ValidateBucket(s.encryptionX509Credentials, Encryption);
    if !ok {
      return Failure(InvalidCredential(Encryption));
    }
    if s.singleSignOnServiceLocation.None? {
      return Failure(SingleSignOnServiceLocationNull);
    }
    if s.singleSignOnServiceBinding.None? {
      return Failure(SingleSignOnServiceBindingNull);
    }
    r := Success(ProviderDetails(
      s.entityId.value, s.wantsAuthnRequestsSigned,
      Unwrap(s.verificationX509Credentials), Unwrap(s.encryptionX509Credentials),
      s.singleSignOnServiceLocation.value, s.singleSignOnServiceBinding.value));
  }

  /** `ProviderDetails.Builder`: every setter overwrites its field (last write wins);
      the credential mutators hand the bucket to a caller-supplied step. */
  class ProviderDetailsBuilder {
    var entityId: Option<string>
    var wantsAuthnRequestsSigned: bool
    var verificationX509Credentials: set<Entry>
    var encryptionX509Credentials: set<Entry>
    var singleSignOnServiceLocation: Option<string>
    var singleSignOnServiceBinding: Option<Saml2MessageBinding>

    /** The builder's current configuration. */
    function Settings(): ProviderDetailsSettings
      reads this
    {
      ProviderDetailsSettings(
        entityId, wantsAuthnRequestsSigned,
        verificationX509Credentials, encryptionX509Credentials,
        singleSignOnServiceLocation, singleSignOnServiceBinding)
    }

    constructor ()
      ensures Settings() == DefaultProviderDetailsSettings
    {
      entityId := None;
      wantsAuthnRequestsSigned := true;
      verificationX509Credentials := {};
      encryptionX509Credentials := {};
      singleSignOnServiceLocation := None;
      singleSignOnServiceBinding := Some(Redirect);
    }

    method EntityId(id: Option<string>)
      modifies this
      ensures Settings() == old(Settings()).(entityId := id)
    {
      entityId := id;
    }

    method WantsAuthnRequestsSigned(wants: bool)
      modifies this
      ensures Settings() == old(Settings()).(wantsAuthnRequestsSigned := wants)
    {
      wantsAuthnRequestsSigned := wants;
    }

    /** `verificationX509Credentials(consumer)`: the consumer's effect on the bucket
        is the function `mutate`. */
    method VerificationX509Credentials(mutate: set<Entry> -> set<Entry>)
      modifies this
      ensures Settings() == old(Settings()).(verificationX509Credentials := mutate(old(verificationX509Credentials)))
    {
      verificationX509Credentials := mutate(verificationX509Credentials);
    }

    method EncryptionX509Credentials(mutate: set<Entry> -> set<Entry>)
      modifies this
      ensures Settings() == old(Settings()).(encryptionX509Credentials := mutate(old(encryptionX509Credentials)))
    {
      encryptionX509Credentials := mutate(encryptionX509Credentials);
    }

    method SingleSignOnServiceLocation(location: Option<string>)
      modifies this
      ensures Settings() == old(Settings()).(singleSignOnServiceLocation := location)
    {
      singleSignOnServiceLocation := location;
    }

    method SingleSignOnServiceBinding(binding: Option<Saml2MessageBinding>)
      modifies this
      ensures Settings() == old(Settings()).(singleSignOnServiceBinding := binding)
    {
      singleSignOnServiceBinding := binding;
    }

    /** Deprecated `webSsoUrl`: writes the SSO location. */
    method WebSsoUrl(url: Option<string>)
      modifies this
      ensures Settings() == old(Settings()).(singleSignOnServiceLocation := url)
    {
      singleSignOnServiceLocation := url;
    }

    /** Deprecated `signAuthNRequest`: writes the WantsAuthnRequestsSigned flag. */
    method SignAuthNRequest(sign: bool)
      modifies this
      ensures Settings() == old(Settings()).(wantsAuthnRequestsSigned := sign)
    {
      wantsAuthnRequestsSigned := sign;
    }

    /** Deprecated `binding`: writes the SSO binding. */
    method Binding(binding: Option<Saml2MessageBinding>)
      modifies this
      ensures Settings() == old(Settings()).(singleSignOnServiceBinding := binding)
    {
      singleSignOnServiceBinding := binding;
    }

    /** `build()`: runs the constructor on the current fields; the builder is left
        as it was. */
    method Build() returns (r: Result<ProviderDetails, ConfigError>)
      ensures r == NewProviderDetails(Settings())
      ensures r.Success? ==> r.value.Valid() && r.value.CopiedSettings() == Settings()
    {
      r := ConstructProviderDetails(Settings());
    }
  }
}
