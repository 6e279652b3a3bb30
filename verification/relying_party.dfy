/** `RelyingPartyRegistration`: the relying party (service provider) record, its
    constructor checks, the legacy flat-credential path and its builder. */
module RelyingParty {
  import opened Wrappers
  import opened StringUtils
  import opened Iteration
  import opened Saml2Credentials
  import opened AssertingParty

  /** The relying party entity id a builder starts with. Placeholders are stored
      verbatim, never resolved here. */
  const DefaultEntityIdTemplate: string := "{baseUrl}/saml2/service-provider-metadata/{registrationId}"

  /** The immutable registration: the relying party's `EntityDescriptor/@entityID`,
      its `AssertionConsumerService` location (section 2.4.4 of SAML 2.0 Metadata),
      its signing and decryption keys, and the asserting party's details. */
  datatype Registration = Registration(
    registrationId: string,
    entityId: string,
    credentials: set<Saml2X509Credential>,
    signingX509Credentials: set<Saml2X509Credential>,
    decryptionX509Credentials: set<Saml2X509Credential>,
    assertionConsumerServiceLocation: string,
    providerDetails: ProviderDetails)
  {
    /** What the constructor guarantees of every registration it lets through. */
    predicate Valid() {
      && HasText(Some(registrationId))
      && HasText(Some(entityId))
      && HasText(Some(assertionConsumerServiceLocation))
      && credentials != {}
      && AllHave(signingX509Credentials, Signing)
      && AllHave(decryptionX509Credentials, Decryption)
      && providerDetails.Valid()
      && HasText(Some(providerDetails.singleSignOnServiceLocation))
    }

    /** The four usage buckets of both parties together. */
    function AllBuckets(): set<Saml2X509Credential> {
      signingX509Credentials + decryptionX509Credentials
        + providerDetails.verificationX509Credentials + providerDetails.encryptionX509Credentials
    }

    /** What every registration a builder produces satisfies: valid, and the flat
        legacy collection is exactly the union of the four buckets. */
    predicate Built() {
      Valid() && credentials == AllBuckets()
    }

    /** Deprecated `getRemoteIdpEntityId()`: the asserting party's entity id. */
    function RemoteIdpEntityId(): (id: string)
      ensures id == providerDetails.entityId
      ensures Valid() ==> HasText(Some(id))
    {
      providerDetails.entityId
    }

    /** Deprecated `getAssertionConsumerServiceUrlTemplate()`: the ACS location. */
    function AssertionConsumerServiceUrlTemplate(): (template: string)
      ensures template == assertionConsumerServiceLocation
      ensures Valid() ==> HasText(Some(template))
    {
      assertionConsumerServiceLocation
    }

    /** Deprecated `getIdpWebSsoUrl()`: the asserting party's SSO location. */
    function IdpWebSsoUrl(): (url: string)
      ensures url == providerDetails.WebSsoUrl()
      ensures Valid() ==> HasText(Some(url))
    {
      providerDetails.singleSignOnServiceLocation
    }

    /** Deprecated `getLocalEntityIdTemplate()`: the relying party's entity id. */
    function LocalEntityIdTemplate(): (template: string)
      ensures template == entityId
      ensures Valid() ==> HasText(Some(template))
    {
      entityId
    }

    /** Deprecated `getCredentials()`: the flat legacy list, each credential once. */
    method GetCredentials() returns (l: seq<Saml2X509Credential>)
      ensures Elements(l) == credentials && Distinct(l)
    {
      l := Enumerate(credentials);
    }

    /** Deprecated `getSigningCredentials()`: a fresh list holding the signing bucket. */
    method GetSigningCredentials() returns (l: seq<Saml2X509Credential>)
      ensures Elements(l) == signingX509Credentials && Distinct(l)
    {
      l := Enumerate(signingX509Credentials);
    }

    /** Deprecated `getDecryptionCredentials()`. */
    method GetDecryptionCredentials() returns (l: seq<Saml2X509Credential>)
      ensures Elements(l) == decryptionX509Credentials && Distinct(l)
    {
      l := Enumerate(decryptionX509Credentials);
    }

    /** Deprecated `getVerificationCredentials()`: a list of the asserting party's bucket. */
    method GetVerificationCredentials() returns (l: seq<Saml2X509Credential>)
      ensures Elements(l) == providerDetails.verificationX509Credentials && Distinct(l)
    {
      l := Enumerate(providerDetails.verificationX509Credentials);
    }

    /** Deprecated `getEncryptionCredentials()`. */
    method GetEncryptionCredentials() returns (l: seq<Saml2X509Credential>)
      ensures Elements(l) == providerDetails.encryptionX509Credentials && Distinct(l)
    {
      l := Enumerate(providerDetails.encryptionX509Credentials);
    }

    /** The relying-party settings `withRelyingPartyRegistration` copies this
        registration into. The flat legacy collection is not copied. */
    function CopiedSettings(): RegistrationSettings {
      RegistrationSettings(
        Some(registrationId), Some(entityId), Some(assertionConsumerServiceLocation),
        {}, Wrap(signingX509Credentials), Wrap(decryptionX509Credentials))
    }
  }

  /** The relying-party fields of `RelyingPartyRegistration.Builder`. */
  datatype RegistrationSettings = RegistrationSettings(
    registrationId: Option<string>,
    entityId: Option<string>,
    assertionConsumerServiceLocation: Option<string>,
    credentials: set<Entry>,
    signingX509Credentials: set<Entry>,
    decryptionX509Credentials: set<Entry>)

  /** Everything a `RelyingPartyRegistration.Builder` holds: its own fields and
      those of its nested `ProviderDetails.Builder`. */
  datatype BuilderState = BuilderState(rp: RegistrationSettings, ap: ProviderDetailsSettings)

  /** The private `RelyingPartyRegistration` constructor: its checks, in source
      order, then the record. */
  function NewRegistration(s: RegistrationSettings, details: ProviderDetails): (r: Result<Registration, ConfigError>)
    ensures r.Success? <==>
      && HasText(s.registrationId)
      && HasText(s.entityId)
      && HasText(s.assertionConsumerServiceLocation)
      && s.credentials != {}
      && None !in s.credentials
      && AllCarry(s.signingX509Credentials, Signing)
      && AllCarry(s.decryptionX509Credentials, Decryption)
      && HasText(Some(details.singleSignOnServiceLocation))
    ensures r.Success? && details.Valid() ==> r.value.Valid()
    ensures r.Success? ==>
      && r.value.CopiedSettings() == s.(credentials := {})
      && Wrap(r.value.credentials) == s.credentials
      && r.value.providerDetails == details
  {
    if !HasText(s.registrationId) then Failure(RegistrationIdEmpty)
    else if !HasText(s.entityId) then Failure(EntityIdEmpty)
    else if !HasText(s.assertionConsumerServiceLocation) then Failure(AssertionConsumerServiceLocationEmpty)
    else if s.credentials == {} then Failure(CredentialsEmpty)
    else if None in s.credentials then Failure(NullCredential)
    else if !AllCarry(s.signingX509Credentials, Signing) then Failure(InvalidCredential(Signing))
    else if !AllCarry(s.decryptionX509Credentials, Decryption) then Failure(InvalidCredential(Decryption))
    else if !HasText(Some(details.singleSignOnServiceLocation)) then Failure(SingleSignOnServiceLocationEmpty)
    else
      CarryCorrespondence(s.signingX509Credentials, {}, Signing);
      CarryCorrespondence(s.decryptionX509Credentials, {}, Decryption);
      assert s.credentials != {} && None !in s.credentials ==> Unwrap(s.credentials) != {} by {
        var e :| e in s.credentials;
        assert Some(e.value) in s.credentials;
      }
      WrapUnwrap(s.credentials);
      WrapUnwrap(s.signingX509Credentials);
      WrapUnwrap(s.decryptionX509Credentials);
      Success(Registration(
        s.registrationId.value, s.entityId.value,
        Unwrap(s.credentials), Unwrap(s.signingX509Credentials), Unwrap(s.decryptionX509Credentials),
        s.assertionConsumerServiceLocation.value, details))
  }

  /** The constructor itself, with its check loops over the flat collection and
      the two relying-party buckets. */
  method ConstructRegistration(s: RegistrationSettings, details: ProviderDetails) returns (r: Result<Registration, ConfigError>)
    ensures r == NewRegistration(s, details)
  {
    if !HasText(s.registrationId) {
      return Failure(RegistrationIdEmpty);
    }
    if !HasText(s.entityId) {
      return Failure(EntityIdEmpty);
    }
    if !HasText(s.assertionConsumerServiceLocation) {
      return Failure(AssertionConsumerServiceLocationEmpty);
    }
    if s.credentials == {} {
      return Failure(CredentialsEmpty);
    }
    if None in s.credentials {
      return Failure(NullCredential);
    }
    var ok := ValidateBucket(s.signingX509Credentials, Signing);
    if !ok {
      return Failure(InvalidCredential(Signing));
    }
    ok := ValidateBucket(s.decryptionX509Credentials, Decryption);
    if !ok {
      return Failure(InvalidCredential(Decryption));
    }
    if !HasText(Some(details.singleSignOnServiceLocation)) {
      return Failure(SingleSignOnServiceLocationEmpty);
    }
    r := Success(Registration(
      s.registrationId.value, s.entityId.value,
      Unwrap(s.credentials), Unwrap(s.signingX509Credentials), Unwrap(s.decryptionX509Credentials),
      s.assertionConsumerServiceLocation.value, details));
  }

  // ---------------------------------------------------------------------------
  // filterCredentials

  /** The reference meaning of `filterCredentials`: the elements that pass the
      filter, in input order. */
  function Filtered(credentials: seq<Entry>, filter: Entry -> bool): seq<Entry>
    decreases |credentials|
  {
    if credentials == [] then []
    else
      var last := credentials[|credentials| - 1];
      Filtered(credentials[..|credentials| - 1], filter) + (if filter(last) then [last] else [])
  }

  /** An element is kept exactly when it is in the input and passes the filter. */
  lemma {:induction false} FilteredMembership(credentials: seq<Entry>, filter: Entry -> bool, x: Entry)
    ensures x in Filtered(credentials, filter) <==> x in credentials && filter(x)
    decreases |credentials|
  {
    if credentials != [] {
      var init := credentials[..|credentials| - 1];
      FilteredMembership(init, filter, x);
      assert credentials == init + [credentials[|credentials| - 1]];
    }
  }

  /** Filtering the concatenation is concatenating the filtered parts: relative
      order is preserved. */
  lemma {:induction false} FilteredAppend(a: seq<Entry>, b: seq<Entry>, filter: Entry -> bool)
    ensures Filtered(a + b, filter) == Filtered(a, filter) + Filtered(b, filter)
    decreases |b|
  {
    if b == [] {
      assert a + b == a;
    } else {
      var init := b[..|b| - 1];
      FilteredAppend(a, init, filter);
      assert (a + b)[..|a + b| - 1] == a + init;
    }
  }

  /** The set of elements kept. */
  lemma FilteredElements(credentials: seq<Entry>, filter: Entry -> bool)
    ensures Elements(Filtered(credentials, filter)) == set x | x in credentials && filter(x)
  {
    forall x ensures x in Filtered(credentials, filter) <==> x in credentials && filter(x) {
      FilteredMembership(credentials, filter, x);
    }
  }

  /** `filterCredentials`: one pass over the input, appending each element that
      passes the filter to a new list. The input is a value and is not changed. */
  method FilterCredentials(credentials: seq<Entry>, filter: Entry -> bool) returns (result: seq<Entry>)
    ensures result == Filtered(credentials, filter)
  {
    result := [];
    for i := 0 to |credentials|
      invariant result == Filtered(credentials[..i], filter)
    {
      assert credentials[..i + 1][..i] == credentials[..i];
      if filter(credentials[i]) {
        result := result + [credentials[i]];
      }
    }
    assert credentials[..|credentials|] == credentials;
  }

  // ---------------------------------------------------------------------------
  // build()

  /** The flat entries whose usages include `u`. */
  function Categorized(credentials: set<Entry>, u: Usage): set<Entry> {
    set e | e in credentials && Carries(e, u)
  }

  /** The legacy reconciliation of `build()`: each flat credential is added to every
      bucket whose usage it carries, then every bucket is added to the flat set. */
  function Reconcile(st: BuilderState): BuilderState {
    var flat := st.rp.credentials;
    var signing := st.rp.signingX509Credentials + Categorized(flat, Signing);
    var decryption := st.rp.decryptionX509Credentials + Categorized(flat, Decryption);
    var verification := st.ap.verificationX509Credentials + Categorized(flat, Verification);
    var encryption := st.ap.encryptionX509Credentials + Categorized(flat, Encryption);
    BuilderState(
      st.rp.(credentials := flat + signing + decryption + verification + encryption,
             signingX509Credentials := signing, decryptionX509Credentials := decryption),
      st.ap.(verificationX509Credentials := verification, encryptionX509Credentials := encryption))
  }

  /** The final call of `build()`: the nested builder's `build()` is an argument, so
      it runs (and may fail) before the registration constructor. */
  function Assemble(st: BuilderState): Result<Registration, ConfigError> {
    var details := NewProviderDetails(st.ap);
    if details.Failure? then Failure(details.error)
    else NewRegistration(st.rp, details.value)
  }

  /** The whole of `build()` on a builder in state `st`. A null in the flat set makes
      the first usage lambda throw before anything is changed. */
  function BuildRegistration(st: BuilderState): Result<Registration, ConfigError> {
    if None in st.rp.credentials then Failure(NullPointer)
    else Assemble(Reconcile(st))
  }

  /** The default entity id template is not blank. */
  lemma DefaultEntityIdHasText()
    ensures HasText(Some(DefaultEntityIdTemplate))
  {
    CharacterGivesText(DefaultEntityIdTemplate, |DefaultEntityIdTemplate| - 1);
  }

  /** Every flat credential carries some usage, so it lands in at least one bucket. */
  lemma FlatCoveredByBuckets(flat: set<Entry>)
    requires None !in flat
    ensures flat <= Categorized(flat, Signing) + Categorized(flat, Decryption)
                    + Categorized(flat, Verification) + Categorized(flat, Encryption)
  {
    forall e: Entry | e in flat
      ensures e in Categorized(flat, Signing) + Categorized(flat, Decryption)
                   + Categorized(flat, Verification) + Categorized(flat, Encryption)
    {
      var c: Saml2X509Credential := e.value;
      if Signing !in c.usages && Decryption !in c.usages && Verification !in c.usages {
        assert forall u: Usage | u != Encryption :: u !in c.usages;
        assert Encryption in c.usages;
      }
    }
  }

  /** After reconciliation the flat set is exactly the union of the four buckets. */
  lemma ReconciledFlatIsBucketUnion(st: BuilderState)
    requires None !in st.rp.credentials
    ensures var st' := Reconcile(st);
      st'.rp.credentials == st'.rp.signingX509Credentials + st'.rp.decryptionX509Credentials
                            + st'.ap.verificationX509Credentials + st'.ap.encryptionX509Credentials
  {
    FlatCoveredByBuckets(st.rp.credentials);
  }

  /** A flat credential reaches every bucket whose usage it carries, on top of what
      the bucket already held; nothing reaches a bucket without its usage unless the
      caller put it there. */
  lemma LegacyCredentialPlacement(st: BuilderState, e: Entry, u: Usage)
    requires e in st.rp.credentials
    ensures var st' := Reconcile(st);
      && st.rp.signingX509Credentials <= st'.rp.signingX509Credentials
      && st.rp.decryptionX509Credentials <= st'.rp.decryptionX509Credentials
      && st.ap.verificationX509Credentials <= st'.ap.verificationX509Credentials
      && st.ap.encryptionX509Credentials <= st'.ap.encryptionX509Credentials
      && (e in st'.rp.signingX509Credentials <==> e in st.rp.signingX509Credentials || Carries(e, Signing))
      && (e in st'.rp.decryptionX509Credentials <==> e in st.rp.decryptionX509Credentials || Carries(e, Decryption))
      && (e in st'.ap.verificationX509Credentials <==> e in st.ap.verificationX509Credentials || Carries(e, Verification))
      && (e in st'.ap.encryptionX509Credentials <==> e in st.ap.encryptionX509Credentials || Carries(e, Encryption))
  {
  }

  /** Every registration `build()` returns satisfies the constructor's invariants, and
      its flat legacy collection is the union of the four buckets. */
  lemma BuiltRegistrationIsWellFormed(st: BuilderState)
    ensures BuildRegistration(st).Success? ==> BuildRegistration(st).value.Built()
  {
    if BuildRegistration(st).Success? {
      var st' := Reconcile(st);
      var details := NewProviderDetails(st'.ap).value;
      var r := BuildRegistration(st).value;
      ReconciledFlatIsBucketUnion(st);
      CarryCorrespondence(st'.ap.verificationX509Credentials, {}, Verification);
      WrapUnwrap(st'.ap.verificationX509Credentials);
      WrapUnwrap(st'.ap.encryptionX509Credentials);
      WrapUnwrap(st'.rp.signingX509Credentials);
      WrapUnwrap(st'.rp.decryptionX509Credentials);
      WrapUnwrap(st'.rp.credentials);
      WrapUnion(r.signingX509Credentials + r.decryptionX509Credentials
                  + details.verificationX509Credentials, details.encryptionX509Credentials);
      WrapUnion(r.signingX509Credentials + r.decryptionX509Credentials, details.verificationX509Credentials);
      WrapUnion(r.signingX509Credentials, r.decryptionX509Credentials);
      assert Wrap(r.credentials) == Wrap(r.AllBuckets());
      UnwrapWrap(r.credentials);
      UnwrapWrap(r.AllBuckets());
    }
  }

  /** What a successful build holds: the builder's strings, the reconciled buckets
      and flat set, and the asserting party built from the reconciled nested
      settings; so the deprecated getters read back what the deprecated setters wrote. */
  lemma BuiltRegistrationContents(st: BuilderState)
    ensures BuildRegistration(st).Success? ==>
      var r := BuildRegistration(st).value;
      var st' := Reconcile(st);
      && Some(r.registrationId) == st.rp.registrationId
      && Some(r.LocalEntityIdTemplate()) == st.rp.entityId
      && Some(r.AssertionConsumerServiceUrlTemplate()) == st.rp.assertionConsumerServiceLocation
      && Wrap(r.credentials) == st'.rp.credentials
      && Wrap(r.signingX509Credentials) == st'.rp.signingX509Credentials
      && Wrap(r.decryptionX509Credentials) == st'.rp.decryptionX509Credentials
      && r.providerDetails.CopiedSettings() == st'.ap
      && Some(r.RemoteIdpEntityId()) == st.ap.entityId
      && Some(r.IdpWebSsoUrl()) == st.ap.singleSignOnServiceLocation
  {
  }

  /** What a build fails on: a null flat entry; then the asserting party's checks;
      then the relying party's checks on the reconciled buckets. */
  lemma BuildFailureConditions(st: BuilderState)
    ensures None in st.rp.credentials ==> BuildRegistration(st) == Failure(NullPointer)
    ensures None !in st.rp.credentials ==>
      var st' := Reconcile(st);
      (BuildRegistration(st).Success? <==>
        && NewProviderDetails(st'.ap).Success?
        && HasText(st.rp.registrationId)
        && HasText(st.rp.entityId)
        && HasText(st.rp.assertionConsumerServiceLocation)
        && st'.rp.credentials != {}
        && AllCarry(st'.rp.signingX509Credentials, Signing)
        && AllCarry(st'.rp.decryptionX509Credentials, Decryption)
        && HasText(st.ap.singleSignOnServiceLocation))
    ensures NewProviderDetails(Reconcile(st).ap).Success? && None !in st.rp.credentials && !HasText(st.rp.registrationId)
      ==> BuildRegistration(st) == Failure(RegistrationIdEmpty)
  {
  }

  /** Copying a registration a builder produced into a new builder and building it
      again gives the same registration. */
  lemma CopyRoundTrip(r: Registration)
    requires r.Built()
    ensures BuildRegistration(BuilderState(r.CopiedSettings(), r.providerDetails.CopiedSettings())) == Success(r)
  {
    var st := BuilderState(r.CopiedSettings(), r.providerDetails.CopiedSettings());
    var st' := Reconcile(st);
    var p := r.providerDetails;
    assert st'.ap == st.ap;
    ProviderDetailsCopyRoundTrip(p);
    assert NewProviderDetails(st'.ap) == Success(p);
    WrapUnion(r.signingX509Credentials + r.decryptionX509Credentials + p.verificationX509Credentials,
              p.encryptionX509Credentials);
    WrapUnion(r.signingX509Credentials + r.decryptionX509Credentials, p.verificationX509Credentials);
    WrapUnion(r.signingX509Credentials, r.decryptionX509Credentials);
    assert st'.rp.signingX509Credentials == Wrap(r.signingX509Credentials);
    assert st'.rp.decryptionX509Credentials == Wrap(r.decryptionX509Credentials);
    assert st'.rp.credentials == Wrap(r.credentials);
    UnwrapWrap(r.credentials);
    UnwrapWrap(r.signingX509Credentials);
    UnwrapWrap(r.decryptionX509Credentials);
    CarryCorrespondence({}, r.signingX509Credentials, Signing);
    CarryCorrespondence({}, r.decryptionX509Credentials, Decryption);
    assert Wrap(r.credentials) != {} by {
      var c :| c in r.credentials;
      assert Some(c) in Wrap(r.credentials);
    }
    assert st'.rp == RegistrationSettings(
      Some(r.registrationId), Some(r.entityId), Some(r.assertionConsumerServiceLocation),
      Wrap(r.credentials), Wrap(r.signingX509Credentials), Wrap(r.decryptionX509Credentials));
    assert NewRegistration(st'.rp, p) == Success(r);
  }

  // ---------------------------------------------------------------------------
  // RelyingPartyRegistration.Builder

  /** `RelyingPartyRegistration.Builder`: setters overwrite (last write wins), the
      credential mutators hand a bucket to a caller-supplied step, and `details` is
      the nested `ProviderDetails.Builder` every provider-details step configures. */
  class RegistrationBuilder {
    var registrationId: Option<string>
    var entityId: Option<string>
    var assertionConsumerServiceLocation: Option<string>
    const details: ProviderDetailsBuilder
    var credentials: set<Entry>
    var signingX509Credentials: set<Entry>
    var decryptionX509Credentials: set<Entry>

    /** The builder's own fields. */
    function Settings(): RegistrationSettings
      reads this
    {
      RegistrationSettings(
        registrationId, entityId, assertionConsumerServiceLocation,
        credentials, signingX509Credentials, decryptionX509Credentials)
    }

    /** The builder's fields and those of its nested builder. */
    ghost function State(): BuilderState
      reads this, details
    {
      BuilderState(Settings(), details.Settings())
    }

    /** The private constructor: the given id, the default entity id template, no ACS
      location, empty collections and a fresh nested builder. */
    constructor (id: Option<string>)
      ensures fresh(details)
      ensures State() == BuilderState(
        RegistrationSettings(id, Some(DefaultEntityIdTemplate), None, {}, {}, {}),
        DefaultProviderDetailsSettings)
    {
      registrationId := id;
      entityId := Some(DefaultEntityIdTemplate);
      assertionConsumerServiceLocation := None;
      details := new ProviderDetailsBuilder();
      credentials := {};
      signingX509Credentials := {};
      decryptionX509Credentials := {};
    }

    method RegistrationId(id: Option<string>)
      modifies this
      ensures State() == old(State()).(rp := old(Settings()).(registrationId := id))
    {
      registrationId := id;
    }

    method EntityId(id: Option<string>)
      modifies this
      ensures State() == old(State()).(rp := old(Settings()).(entityId := id))
    {
      entityId := id;
    }

    /** Deprecated `localEntityIdTemplate`: writes the relying party entity id. */
    method LocalEntityIdTemplate(template: Option<string>)
      modifies this
      ensures State() == old(State()).(rp := old(Settings()).(entityId := template))
    {
      entityId := template;
    }

    method SigningX509Credentials(mutate: set<Entry> -> set<Entry>)
      modifies this
      ensures State() == old(State()).(rp := old(Settings()).(signingX509Credentials := mutate(old(signingX509Credentials))))
    {
      signingX509Credentials := mutate(signingX509Credentials);
    }

    method DecryptionX509Credentials(mutate: set<Entry> -> set<Entry>)
      modifies this
      ensures State() == old(State()).(rp := old(Settings()).(decryptionX509Credentials := mutate(old(decryptionX509Credentials))))
    {
      decryptionX509Credentials := mutate(decryptionX509Credentials);
    }

    method AssertionConsumerServiceLocation(location: Option<string>)
      modifies this
      ensures State() == old(State()).(rp := old(Settings()).(assertionConsumerServiceLocation := location))
    {
      assertionConsumerServiceLocation := location;
    }

    /** Deprecated `assertionConsumerServiceUrlTemplate`: writes the ACS location. */
    method AssertionConsumerServiceUrlTemplate(template: Option<string>)
      modifies this
      ensures State() == old(State()).(rp := old(Settings()).(assertionConsumerServiceLocation := template))
    {
      assertionConsumerServiceLocation := template;
    }

    /** `providerDetails(consumer)`: the consumer's effect on the nested builder is the
        function `configure` on its settings. */
    method ProviderDetails(configure: ProviderDetailsSettings -> ProviderDetailsSettings)
      modifies details
      ensures State() == old(State()).(ap := configure(old(details.Settings())))
    {
      var s := configure(details.Settings());
      details.entityId := s.entityId;
      details.wantsAuthnRequestsSigned := s.wantsAuthnRequestsSigned;
      details.verificationX509Credentials := s.verificationX509Credentials;
      details.encryptionX509Credentials := s.encryptionX509Credentials;
      details.singleSignOnServiceLocation := s.singleSignOnServiceLocation;
      details.singleSignOnServiceBinding := s.singleSignOnServiceBinding;
    }

    /** Deprecated `credentials(consumer)`: the flat collection of any usage. */
    method Credentials(mutate: set<Entry> -> set<Entry>)
      modifies this
      ensures State() == old(State()).(rp := old(Settings()).(credentials := mutate(old(credentials))))
    {
      credentials := mutate(credentials);
    }

    /** Deprecated `remoteIdpEntityId`: writes the asserting party's entity id. */
    method RemoteIdpEntityId(id: Option<string>)
      modifies details
      ensures State() == old(State()).(ap := old(details.Settings()).(entityId := id))
    {
      this.ProviderDetails((s: ProviderDetailsSettings) => s.(entityId := id));
    }

    /** Deprecated `idpWebSsoUrl`: writes the asserting party's SSO location. */
    method IdpWebSsoUrl(url: Option<string>)
      modifies details
      ensures State() == old(State()).(ap := old(details.Settings()).(singleSignOnServiceLocation := url))
    {
      this.ProviderDetails((s: ProviderDetailsSettings) => s.(singleSignOnServiceLocation := url));
    }

    /** `build()`: categorise the flat set into the buckets, merge the buckets back into
        the flat set, build the nested details, then construct. The builder keeps the
        reconciled collections whether or not construction succeeds. */
    method Build() returns (r: Result<Registration, ConfigError>)
      modifies this, details
      ensures r == BuildRegistration(old(State()))
      ensures State() == if None in old(credentials) then old(State()) else Reconcile(old(State()))
      ensures r.Success? ==> r.value.Built()
    {
      BuiltRegistrationIsWellFormed(State());
      if None in credentials {
        return Failure(NullPointer);
      }
      ghost var st := State();
      var flat := Enumerate(credentials);
      var signingCredentials := FilterByUsage(flat, Signing);
      var decryptionCredentials := FilterByUsage(flat, Decryption);
      var verificationCredentials := FilterByUsage(flat, Verification);
      var encryptionCredentials := FilterByUsage(flat, Encryption);

      SigningX509Credentials(c => c + Elements(signingCredentials));
      DecryptionX509Credentials(c => c + Elements(decryptionCredentials));
      details.VerificationX509Credentials(c => c + Elements(verificationCredentials));
      details.EncryptionX509Credentials(c => c + Elements(encryptionCredentials));

      credentials := credentials + signingX509Credentials;
      credentials := credentials + decryptionX509Credentials;
      credentials := credentials + details.verificationX509Credentials;
      credentials := credentials + details.encryptionX509Credentials;
      assert Settings() == Reconcile(st).rp;
      assert details.Settings() == Reconcile(st).ap;

      var built := details.Build();
      if built.Failure? {
        return Failure(built.error);
      }
      r := ConstructRegistration(Settings(), built.value);
    }
  }

  /** One `filterCredentials(this.credentials, c -> c.is...Credential())` call of
      `build()`: the listed flat entries that carry usage `u`. */
  method FilterByUsage(flat: seq<Entry>, u: Usage) returns (result: seq<Entry>)
    ensures result == Filtered(flat, e => Carries(e, u))
    ensures Elements(result) == Categorized(Elements(flat), u)
  {
    result := FilterCredentials(flat, e => Carries(e, u));
    FilteredElements(flat, e => Carries(e, u));
  }

  /** `withRegistrationId`: rejects a blank id before any builder exists. */
  method WithRegistrationId(id: Option<string>) returns (r: Result<RegistrationBuilder, ConfigError>)
    ensures r.Failure? <==> !HasText(id)
    ensures r.Failure? ==> r.error == RegistrationIdEmpty
    ensures r.Success? ==> fresh(r.value) && fresh(r.value.details)
    ensures r.Success? ==> r.value.State() == BuilderState(
      RegistrationSettings(id, Some(DefaultEntityIdTemplate), None, {}, {}, {}),
      DefaultProviderDetailsSettings)
  {
    if !HasText(id) {
      return Failure(RegistrationIdEmpty);
    }
    var b := new RegistrationBuilder(id);
    r := Success(b);
  }

  /** `withRelyingPartyRegistration`: a new builder holding every field of the
      registration except the flat legacy collection. */
  method WithRelyingPartyRegistration(registration: Option<Registration>) returns (r: Result<RegistrationBuilder, ConfigError>)
    ensures registration.None? ==> r == Failure(RegistrationNull)
    ensures registration.Some? ==>
      (r.Failure? <==> !HasText(Some(registration.value.registrationId)))
    ensures r.Failure? && registration.Some? ==> r.error == RegistrationIdEmpty
    ensures r.Success? ==> fresh(r.value) && fresh(r.value.details)
    ensures r.Success? ==> (registration.Some? && r.value.State() ==
      BuilderState(registration.value.CopiedSettings(), registration.value.providerDetails.CopiedSettings()))
  {
    if registration.None? {
      return Failure(RegistrationNull);
    }
    var reg := registration.value;
    var details := reg.providerDetails;
    var started := WithRegistrationId(Some(reg.registrationId));
    if started.Failure? {
      return Failure(started.error);
    }
    var b := started.value;
    b.EntityId(Some(reg.entityId));
    b.SigningX509Credentials(c => c + Wrap(reg.signingX509Credentials));
    b.DecryptionX509Credentials(c => c + Wrap(reg.decryptionX509Credentials));
    b.AssertionConsumerServiceLocation(Some(reg.AssertionConsumerServiceUrlTemplate()));
    assert b.Settings() == reg.CopiedSettings();
    CopyProviderDetails(b.details, details);
    r := Success(b);
  }

  /** The consumer `withRelyingPartyRegistration` hands to `providerDetails`: every
      field of `details` written into the nested builder, the buckets by adding. */
  method CopyProviderDetails(d: ProviderDetailsBuilder, details: ProviderDetails)
    modifies d
    ensures d.Settings() == old(d.Settings()).(
      entityId := Some(details.entityId),
      wantsAuthnRequestsSigned := details.wantsAuthnRequestsSigned,
      verificationX509Credentials := old(d.verificationX509Credentials) + Wrap(details.verificationX509Credentials),
      encryptionX509Credentials := old(d.encryptionX509Credentials) + Wrap(details.encryptionX509Credentials),
      singleSignOnServiceLocation := Some(details.singleSignOnServiceLocation),
      singleSignOnServiceBinding := Some(details.singleSignOnServiceBinding))
  {
    d.EntityId(Some(details.entityId));
    d.WantsAuthnRequestsSigned(details.wantsAuthnRequestsSigned);
    d.VerificationX509Credentials(c => c + Wrap(details.verificationX509Credentials));
    d.EncryptionX509Credentials(c => c + Wrap(details.encryptionX509Credentials));
    d.SingleSignOnServiceLocation(Some(details.singleSignOnServiceLocation));
    d.SingleSignOnServiceBinding(Some(details.singleSignOnServiceBinding));
  }

  /** `withRelyingPartyRegistration(r).build()` reproduces `r`. */
  method RebuildCopy(registration: Registration) returns (r: Result<Registration, ConfigError>)
    requires registration.Built()
    ensures r == Success(registration)
  {
    var copied := WithRelyingPartyRegistration(Some(registration));
    var b := copied.value;
    CopyRoundTrip(registration);
    r := b.Build();
  }
}

/** Two configurations written against the builder API, with what their builds
    return. */
module RegistrationExamples {
  import opened Wrappers
  import opened StringUtils
  import opened Saml2Credentials
  import opened AssertingParty
  import opened RelyingParty

  /** The reconciled state both examples reach: one signing and one verification
      credential, each in its bucket and in the flat collection. */
  function ExampleState(id: string, entity: string, acs: string, idp: string, sso: string,
                        signing: Saml2X509Credential, verification: Saml2X509Credential): BuilderState
  {
    BuilderState(
      RegistrationSettings(Some(id), Some(entity), Some(acs),
                           {Some(signing), Some(verification)}, {Some(signing)}, {}),
      ProviderDetailsSettings(Some(idp), true, {Some(verification)}, {}, Some(sso), Some(Redirect)))
  }

  /** Constructing from that state succeeds, with both buckets and the flat collection
      as given. */
  lemma ExampleStateAssembles(id: string, entity: string, acs: string, idp: string, sso: string,
                              signing: Saml2X509Credential, verification: Saml2X509Credential)
    requires HasText(Some(id)) && HasText(Some(entity)) && HasText(Some(acs))
    requires HasText(Some(idp)) && HasText(Some(sso))
    requires signing.usages == {Signing} && verification.usages == {Verification}
    ensures Assemble(ExampleState(id, entity, acs, idp, sso, signing, verification))
      == Success(Registration(id, entity, {signing, verification}, {signing}, {}, acs,
                              ProviderDetails(idp, true, {verification}, {}, sso, Redirect)))
  {
    assert Unwrap({Some(signing)}) == {signing};
    assert Unwrap({Some(verification)}) == {verification};
    assert Unwrap({Some(signing), Some(verification)}) == {signing, verification};
    assert Unwrap({}) == {};
  }

  /** Building with the two credentials put directly into their buckets. */
  lemma DirectBucketsBuild(id: string, entity: string, acs: string, idp: string, sso: string,
                           signing: Saml2X509Credential, verification: Saml2X509Credential)
    requires HasText(Some(id)) && HasText(Some(entity)) && HasText(Some(acs))
    requires HasText(Some(idp)) && HasText(Some(sso))
    requires signing.usages == {Signing} && verification.usages == {Verification}
    ensures BuildRegistration(BuilderState(
        RegistrationSettings(Some(id), Some(entity), Some(acs), {}, {Some(signing)}, {}),
        ProviderDetailsSettings(Some(idp), true, {Some(verification)}, {}, Some(sso), Some(Redirect))))
      == Success(Registration(id, entity, {signing, verification}, {signing}, {}, acs,
                              ProviderDetails(idp, true, {verification}, {}, sso, Redirect)))
  {
    var st := BuilderState(
        RegistrationSettings(Some(id), Some(entity), Some(acs), {}, {Some(signing)}, {}),
        ProviderDetailsSettings(Some(idp), true, {Some(verification)}, {}, Some(sso), Some(Redirect)));
    var st' := Reconcile(st);
    assert Categorized({}, Signing) == {} && Categorized({}, Decryption) == {};
    assert Categorized({}, Verification) == {} && Categorized({}, Encryption) == {};
    assert st'.rp.signingX509Credentials == {Some(signing)};
    assert st'.ap.verificationX509Credentials == {Some(verification)};
    assert st'.rp.credentials == {Some(signing), Some(verification)};
    assert st' == ExampleState(id, entity, acs, idp, sso, signing, verification);
    ExampleStateAssembles(id, entity, acs, idp, sso, signing, verification);
  }

  /** Building with the two credentials handed over only through the flat collection. */
  lemma FlatCredentialsBuild(id: string, acs: string, idp: string, sso: string,
                             signing: Saml2X509Credential, verification: Saml2X509Credential)
    requires HasText(Some(id)) && HasText(Some(acs)) && HasText(Some(idp)) && HasText(Some(sso))
    requires signing.usages == {Signing} && verification.usages == {Verification}
    ensures BuildRegistration(BuilderState(
        RegistrationSettings(Some(id), Some(DefaultEntityIdTemplate), Some(acs),
                             {Some(signing), Some(verification)}, {}, {}),
        ProviderDetailsSettings(Some(idp), true, {}, {}, Some(sso), Some(Redirect))))
      == Success(Registration(id, DefaultEntityIdTemplate, {signing, verification}, {signing}, {}, acs,
                              ProviderDetails(idp, true, {verification}, {}, sso, Redirect)))
  {
    var flat := {Some(signing), Some(verification)};
    var st := BuilderState(
        RegistrationSettings(Some(id), Some(DefaultEntityIdTemplate), Some(acs), flat, {}, {}),
        ProviderDetailsSettings(Some(idp), true, {}, {}, Some(sso), Some(Redirect)));
    DefaultEntityIdHasText();
    assert Categorized(flat, Signing) == {Some(signing)};
    assert Categorized(flat, Decryption) == {};
    assert Categorized(flat, Verification) == {Some(verification)};
    assert Categorized(flat, Encryption) == {};
    assert Reconcile(st) == ExampleState(id, DefaultEntityIdTemplate, acs, idp, sso, signing, verification);
    ExampleStateAssembles(id, DefaultEntityIdTemplate, acs, idp, sso, signing, verification);
  }

  /** The registration shown in the class documentation: a signing key for the
      relying party, a verification key for the asserting party, defaults elsewhere. */
  const DocumentedRegistrationId: string := "simplesamlphp"
  const DocumentedAcsLocation: string := "{baseUrl}/login/saml2/sso/{registrationId}"
  const DocumentedIdpEntityId: string := "https://simplesaml-for-spring-saml.cfapps.io/saml2/idp/metadata.php"
  const DocumentedSsoLocation: string := "https://simplesaml-for-spring-saml.cfapps.io/saml2/idp/SSOService.php"

  /** The strings of the documented configuration pass `hasText`. */
  lemma DocumentedStringsHaveText()
    ensures HasText(Some(DocumentedRegistrationId)) && HasText(Some(DocumentedAcsLocation))
    ensures HasText(Some(DocumentedIdpEntityId)) && HasText(Some(DocumentedSsoLocation))
  {
    CharacterGivesText(DocumentedRegistrationId, |DocumentedRegistrationId| - 1);
    CharacterGivesText(DocumentedAcsLocation, |DocumentedAcsLocation| - 1);
    CharacterGivesText(DocumentedIdpEntityId, |DocumentedIdpEntityId| - 1);
    CharacterGivesText(DocumentedSsoLocation, |DocumentedSsoLocation| - 1);
  }

  method DocumentedExample(signing: Saml2X509Credential, verification: Saml2X509Credential)
    returns (r: Result<Registration, ConfigError>)
    requires signing.usages == {Signing} && verification.usages == {Verification}
    ensures r == Success(Registration(
      DocumentedRegistrationId, DefaultEntityIdTemplate, {signing, verification}, {signing}, {},
      DocumentedAcsLocation,
      ProviderDetails(DocumentedIdpEntityId, true, {verification}, {}, DocumentedSsoLocation, Redirect)))
  {
    var id := DocumentedRegistrationId;
    var acs := DocumentedAcsLocation;
    var idp := DocumentedIdpEntityId;
    var sso := DocumentedSsoLocation;
    DocumentedStringsHaveText();
    DefaultEntityIdHasText();
    DirectBucketsBuild(id, DefaultEntityIdTemplate, acs, idp, sso, signing, verification);

    var started := WithRegistrationId(Some(id));
    var b := started.value;
    b.EntityId(Some(DefaultEntityIdTemplate));
    b.SigningX509Credentials(c => c + {Some(signing)});
    b.AssertionConsumerServiceLocation(Some(acs));
    assert b.Settings() ==
      RegistrationSettings(Some(id), Some(DefaultEntityIdTemplate), Some(acs), {}, {Some(signing)}, {});
    b.details.EntityId(Some(idp));
    b.details.VerificationX509Credentials(c => c + {Some(verification)});
    b.details.SingleSignOnServiceLocation(Some(sso));
    assert b.details.Settings() ==
      ProviderDetailsSettings(Some(idp), true, {Some(verification)}, {}, Some(sso), Some(Redirect));
    ghost var st := BuilderState(
      RegistrationSettings(Some(id), Some(DefaultEntityIdTemplate), Some(acs), {}, {Some(signing)}, {}),
      ProviderDetailsSettings(Some(idp), true, {Some(verification)}, {}, Some(sso), Some(Redirect)));
    assert b.State() == st;
    r := b.Build();
    assert r == BuildRegistration(st);
  }

  const LegacyRegistrationId: string := "sp-1"
  const LegacyAcsLocation: string := "https://sp.example/acs"
  const LegacyIdpEntityId: string := "https://idp.example/meta"
  const LegacySsoLocation: string := "https://idp.example/sso"

  /** The strings of the legacy configuration pass `hasText`. */
  lemma LegacyStringsHaveText()
    ensures HasText(Some(LegacyRegistrationId)) && HasText(Some(LegacyAcsLocation))
    ensures HasText(Some(LegacyIdpEntityId)) && HasText(Some(LegacySsoLocation))
  {
    CharacterGivesText(LegacyRegistrationId, |LegacyRegistrationId| - 1);
    CharacterGivesText(LegacyAcsLocation, |LegacyAcsLocation| - 1);
    CharacterGivesText(LegacyIdpEntityId, |LegacyIdpEntityId| - 1);
    CharacterGivesText(LegacySsoLocation, |LegacySsoLocation| - 1);
  }

  /** The legacy path: two credentials handed over only through the flat collection
      end up in the buckets of their usages; the entity id and binding are defaults. */
  method LegacyFlatExample(signing: Saml2X509Credential, verification: Saml2X509Credential)
    returns (r: Result<Registration, ConfigError>)
    requires signing.usages == {Signing} && verification.usages == {Verification}
    ensures r == Success(Registration(
      LegacyRegistrationId, DefaultEntityIdTemplate, {signing, verification}, {signing}, {},
      LegacyAcsLocation,
      ProviderDetails(LegacyIdpEntityId, true, {verification}, {}, LegacySsoLocation, Redirect)))
  {
    var id := LegacyRegistrationId;
    var acs := LegacyAcsLocation;
    var idp := LegacyIdpEntityId;
    var sso := LegacySsoLocation;
    LegacyStringsHaveText();
    FlatCredentialsBuild(id, acs, idp, sso, signing, verification);

    var started := WithRegistrationId(Some(id));
    var b := started.value;
    b.Credentials(c => c + {Some(signing), Some(verification)});
    b.AssertionConsumerServiceUrlTemplate(Some(acs));
    assert b.Settings() == RegistrationSettings(Some(id), Some(DefaultEntityIdTemplate), Some(acs),
                                                {Some(signing), Some(verification)}, {}, {});
    b.RemoteIdpEntityId(Some(idp));
    b.IdpWebSsoUrl(Some(sso));
    ghost var st := BuilderState(
      RegistrationSettings(Some(id), Some(DefaultEntityIdTemplate), Some(acs),
                           {Some(signing), Some(verification)}, {}, {}),
      ProviderDetailsSettings(Some(idp), true, {}, {}, Some(sso), Some(Redirect)));
    assert b.State() == st;
    r := b.Build();
    assert r == BuildRegistration(st);
  }
}
