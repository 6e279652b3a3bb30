# SAML 2.0 relying-party registrations and JWT values, in Dafny

This project models two configuration-value types of Spring Security, and the builders that assemble them.

- `RelyingPartyRegistration` is the record a SAML 2.0 service provider (the relying party) keeps for one asserting party (the identity provider). It holds:
  - the relying party's own part: registration id, entity id, assertion consumer service location, and its signing and decryption credentials;
  - the asserting party's part, `ProviderDetails`: entity id, whether AuthnRequests are to be signed, verification and encryption credentials, and the single sign-on service location and binding.

  Both parts are produced by builders. The registration builder also accepts a deprecated flat list of credentials of any usage. `build()` sorts that list into the four usage buckets, then merges the buckets back into the flat list.
- `Jwt` is a JSON Web Token value: the token text, the JOSE headers and the claims set (RFC 7519). Its builder accumulates headers and claims one entry at a time, or takes whole maps.

Java `null` is modelled as `Option.None`. Each failed `Assert` or runtime exception becomes a `Failure` value naming the check that failed. The checks run in the order the code runs them.

Files:
- `wrappers.dfy`: `Option`, `Result` and `Outcome`.
- `string_utils.dfy`: `hasText` and `hasLength`, over Java's definition of whitespace.
- `iteration.dfy`: listing a hash set in some order.
- `saml2_credentials.dfy`: credentials and their usage tags, and the check loops over a credential bucket.
- `asserting_party.dfy`: `ProviderDetails` and its builder.
- `relying_party.dfy`: the registration, `filterCredentials`, the registration builder, and two client configurations.
- `jwt.dfy`: `Jwt` and `JwtBuilder`.

How the builders are modelled:
- Each builder is a class whose fields the setters overwrite.
- A `Consumer` that mutates a collection becomes a function from the old contents to the new.
- `providerDetails(consumer)` becomes a function on the nested builder's settings.
- Each `build()` is specified by a pure function of the builder's state, and its postcondition ties the two together.
- The plain getters of both records are the datatype fields.
- The deprecated getters are functions that return the same field as their replacements.

Two behaviours of the code are easy to misread:
- The flat credentials are merged into every bucket whose usage they carry, not only into buckets left empty (lines 833-836). A credential carrying several usages lands in several buckets.
- `ProviderDetails` rejects only a null single sign-on location, not an empty one (line 360). The registration constructor is what rejects an empty or blank one (line 106). So a `ProviderDetails.Builder` with an empty location builds.

## Model

Source paths are relative to the repository root.

| member | source | states |
|---|---|---|
| Saml2Credentials.ValidateBucket | saml2/saml2-service-provider/src/main/java/org/springframework/security/saml2/provider/service/registration/RelyingPartyRegistration.java:95-104 | the loop over a bucket accepts exactly when every entry is non-null and carries the bucket's usage |
| Saml2Credentials.CarryCorrespondence | saml2/saml2-service-provider/src/main/java/org/springframework/security/saml2/provider/service/registration/RelyingPartyRegistration.java:350-359 | a bucket that passes the check has no null entry and all its credentials carry the usage; for non-null buckets passing the check and every credential carrying the usage are the same |
| AssertingParty.NewProviderDetails | saml2/saml2-service-provider/src/main/java/org/springframework/security/saml2/provider/service/registration/RelyingPartyRegistration.java:341-368 | construction succeeds iff the entity id has text, both buckets pass their usage checks, and the SSO location and binding are non-null; a success is a valid ProviderDetails that stores exactly the given settings |
| AssertingParty.ProviderDetailsCopyRoundTrip | saml2/saml2-service-provider/src/main/java/org/springframework/security/saml2/provider/service/registration/RelyingPartyRegistration.java:341-368 | constructing from the fields of any valid ProviderDetails gives that ProviderDetails back |
| AssertingParty.ProviderDetails.WebSsoUrl | saml2/saml2-service-provider/src/main/java/org/springframework/security/saml2/provider/service/registration/RelyingPartyRegistration.java:459-462 | the deprecated getter returns the SSO location, the value getSingleSignOnServiceLocation gives |
| AssertingParty.ProviderDetails.IsSignAuthNRequest | saml2/saml2-service-provider/src/main/java/org/springframework/security/saml2/provider/service/registration/RelyingPartyRegistration.java:470-472 | the deprecated getter returns the AuthnRequest signing flag, the value getWantsAuthnRequestsSigned gives |
| AssertingParty.ProviderDetails.Binding | saml2/saml2-service-provider/src/main/java/org/springframework/security/saml2/provider/service/registration/RelyingPartyRegistration.java:479-481 | the deprecated getter returns the SSO binding, the value getSingleSignOnServiceBinding gives |
| AssertingParty.DeprecatedGettersReadBack | saml2/saml2-service-provider/src/main/java/org/springframework/security/saml2/provider/service/registration/RelyingPartyRegistration.java:459-481 | on a constructed ProviderDetails the three deprecated getters return the location, flag and binding the builder held |
| AssertingParty.ConstructProviderDetails | saml2/saml2-service-provider/src/main/java/org/springframework/security/saml2/provider/service/registration/RelyingPartyRegistration.java:341-368 | the constructor's checks, including the two loops over the buckets, give the same result as NewProviderDetails |
| AssertingParty.ProviderDetailsBuilder.constructor | saml2/saml2-service-provider/src/main/java/org/springframework/security/saml2/provider/service/registration/RelyingPartyRegistration.java:490-496 | a new builder has no entity id, wants signed AuthnRequests, has empty buckets and no SSO location, and uses the Redirect binding |
| AssertingParty.ProviderDetailsBuilder.EntityId | saml2/saml2-service-provider/src/main/java/org/springframework/security/saml2/provider/service/registration/RelyingPartyRegistration.java:508-511 | replaces the entity id and nothing else |
| AssertingParty.ProviderDetailsBuilder.WantsAuthnRequestsSigned | saml2/saml2-service-provider/src/main/java/org/springframework/security/saml2/provider/service/registration/RelyingPartyRegistration.java:521-524 | replaces the signing flag and nothing else |
| AssertingParty.ProviderDetailsBuilder.VerificationX509Credentials | saml2/saml2-service-provider/src/main/java/org/springframework/security/saml2/provider/service/registration/RelyingPartyRegistration.java:533-536 | applies the caller's mutation to the verification bucket and changes nothing else |
| AssertingParty.ProviderDetailsBuilder.EncryptionX509Credentials | saml2/saml2-service-provider/src/main/java/org/springframework/security/saml2/provider/service/registration/RelyingPartyRegistration.java:545-548 | applies the caller's mutation to the encryption bucket and changes nothing else |
| AssertingParty.ProviderDetailsBuilder.SingleSignOnServiceLocation | saml2/saml2-service-provider/src/main/java/org/springframework/security/saml2/provider/service/registration/RelyingPartyRegistration.java:563-566 | replaces the SSO location and nothing else |
| AssertingParty.ProviderDetailsBuilder.SingleSignOnServiceBinding | saml2/saml2-service-provider/src/main/java/org/springframework/security/saml2/provider/service/registration/RelyingPartyRegistration.java:581-584 | replaces the SSO binding and nothing else |
| AssertingParty.ProviderDetailsBuilder.WebSsoUrl | saml2/saml2-service-provider/src/main/java/org/springframework/security/saml2/provider/service/registration/RelyingPartyRegistration.java:594-597 | the deprecated setter writes the SSO location, as singleSignOnServiceLocation does |
| AssertingParty.ProviderDetailsBuilder.SignAuthNRequest | saml2/saml2-service-provider/src/main/java/org/springframework/security/saml2/provider/service/registration/RelyingPartyRegistration.java:607-610 | the deprecated setter writes the signing flag, as wantsAuthnRequestsSigned does |
| AssertingParty.ProviderDetailsBuilder.Binding | saml2/saml2-service-provider/src/main/java/org/springframework/security/saml2/provider/service/registration/RelyingPartyRegistration.java:621-624 | the deprecated setter writes the SSO binding |
| AssertingParty.ProviderDetailsBuilder.Build | saml2/saml2-service-provider/src/main/java/org/springframework/security/saml2/provider/service/registration/RelyingPartyRegistration.java:630-639 | builds from the current settings; a success is valid and holds exactly those settings |
| RelyingParty.Registration.RemoteIdpEntityId | saml2/saml2-service-provider/src/main/java/org/springframework/security/saml2/provider/service/registration/RelyingPartyRegistration.java:187-189 | the deprecated getter returns the asserting party's entity id, which has text in a valid registration |
| RelyingParty.Registration.AssertionConsumerServiceUrlTemplate | saml2/saml2-service-provider/src/main/java/org/springframework/security/saml2/provider/service/registration/RelyingPartyRegistration.java:199-201 | the deprecated getter returns the ACS location, which has text in a valid registration |
| RelyingParty.Registration.IdpWebSsoUrl | saml2/saml2-service-provider/src/main/java/org/springframework/security/saml2/provider/service/registration/RelyingPartyRegistration.java:210-212 | the deprecated getter returns the asserting party's SSO location (its getWebSsoUrl), which has text in a valid registration |
| RelyingParty.Registration.LocalEntityIdTemplate | saml2/saml2-service-provider/src/main/java/org/springframework/security/saml2/provider/service/registration/RelyingPartyRegistration.java:232-234 | the deprecated getter returns the relying party's entity id, which has text in a valid registration |
| RelyingParty.Registration.GetCredentials | saml2/saml2-service-provider/src/main/java/org/springframework/security/saml2/provider/service/registration/RelyingPartyRegistration.java:245-247 | the flat list holds exactly the flat credentials, each once |
| RelyingParty.Registration.GetVerificationCredentials | saml2/saml2-service-provider/src/main/java/org/springframework/security/saml2/provider/service/registration/RelyingPartyRegistration.java:256-258 | a list of exactly the asserting party's verification credentials, each once |
| RelyingParty.Registration.GetSigningCredentials | saml2/saml2-service-provider/src/main/java/org/springframework/security/saml2/provider/service/registration/RelyingPartyRegistration.java:267-269 | a list of exactly the signing credentials, each once |
| RelyingParty.Registration.GetEncryptionCredentials | saml2/saml2-service-provider/src/main/java/org/springframework/security/saml2/provider/service/registration/RelyingPartyRegistration.java:278-280 | a list of exactly the asserting party's encryption credentials, each once |
| RelyingParty.Registration.GetDecryptionCredentials | saml2/saml2-service-provider/src/main/java/org/springframework/security/saml2/provider/service/registration/RelyingPartyRegistration.java:289-291 | a list of exactly the decryption credentials, each once |
| RelyingParty.NewRegistration | saml2/saml2-service-provider/src/main/java/org/springframework/security/saml2/provider/service/registration/RelyingPartyRegistration.java:79-114 | construction succeeds iff registration id, entity id and ACS location have text, the flat credentials are non-empty with no null, the signing and decryption buckets pass their usage checks, and the asserting party's SSO location has text; with valid ProviderDetails a success is a valid registration; a success holds the given strings, the given buckets and flat set (without nulls) and the given ProviderDetails |
| RelyingParty.ConstructRegistration | saml2/saml2-service-provider/src/main/java/org/springframework/security/saml2/provider/service/registration/RelyingPartyRegistration.java:79-114 | the constructor with its check loops gives the same result as NewRegistration |
| RelyingParty.FilteredMembership | saml2/saml2-service-provider/src/main/java/org/springframework/security/saml2/provider/service/registration/RelyingPartyRegistration.java:854-864 | an element is in the filtered list iff it is in the input and passes the filter |
| RelyingParty.FilteredAppend | saml2/saml2-service-provider/src/main/java/org/springframework/security/saml2/provider/service/registration/RelyingPartyRegistration.java:854-864 | filtering a concatenation concatenates the filtered parts, so relative input order is kept |
| RelyingParty.FilteredElements | saml2/saml2-service-provider/src/main/java/org/springframework/security/saml2/provider/service/registration/RelyingPartyRegistration.java:854-864 | the set of kept elements is the set of input elements passing the filter |
| RelyingParty.FilterCredentials | saml2/saml2-service-provider/src/main/java/org/springframework/security/saml2/provider/service/registration/RelyingPartyRegistration.java:854-864 | the one-pass loop returns the filtered sub-sequence of its input |
| RelyingParty.FilterByUsage | saml2/saml2-service-provider/src/main/java/org/springframework/security/saml2/provider/service/registration/RelyingPartyRegistration.java:824-831 | each filter call of build() returns, in listing order, exactly the flat entries carrying the usage |
| RelyingParty.DefaultEntityIdHasText | saml2/saml2-service-provider/src/main/java/org/springframework/security/saml2/provider/service/registration/RelyingPartyRegistration.java:645 | the default entity id template passes the constructor's hasText check |
| RelyingParty.FlatCoveredByBuckets | saml2/saml2-service-provider/src/main/java/org/springframework/security/saml2/provider/service/registration/RelyingPartyRegistration.java:824-836 | every non-null flat credential lands in at least one usage bucket |
| RelyingParty.ReconciledFlatIsBucketUnion | saml2/saml2-service-provider/src/main/java/org/springframework/security/saml2/provider/service/registration/RelyingPartyRegistration.java:833-841 | after reconciliation the flat collection is exactly the union of the four buckets |
| RelyingParty.LegacyCredentialPlacement | saml2/saml2-service-provider/src/main/java/org/springframework/security/saml2/provider/service/registration/RelyingPartyRegistration.java:824-836 | reconciliation only adds to buckets; a flat credential is in a bucket afterwards iff it was there before or carries that bucket's usage |
| RelyingParty.BuiltRegistrationIsWellFormed | saml2/saml2-service-provider/src/main/java/org/springframework/security/saml2/provider/service/registration/RelyingPartyRegistration.java:823-851 | every registration build() returns is valid, and its flat credentials are the union of its four buckets |
| RelyingParty.BuiltRegistrationContents | saml2/saml2-service-provider/src/main/java/org/springframework/security/saml2/provider/service/registration/RelyingPartyRegistration.java:823-851 | a successful build holds the builder's id, entity id and ACS location, the reconciled flat set and buckets, and the ProviderDetails built from the reconciled nested settings; the deprecated getters read back what the deprecated setters wrote |
| RelyingParty.BuildFailureConditions | saml2/saml2-service-provider/src/main/java/org/springframework/security/saml2/provider/service/registration/RelyingPartyRegistration.java:823-851 | a null flat entry fails the build; otherwise the build succeeds iff the reconciled ProviderDetails builds and every registration check holds; with valid ProviderDetails a blank registration id is the error reported |
| RelyingParty.CopyRoundTrip | saml2/saml2-service-provider/src/main/java/org/springframework/security/saml2/provider/service/registration/RelyingPartyRegistration.java:308-324 | building the copy of a built registration gives the same registration |
| RelyingParty.RegistrationBuilder.constructor | saml2/saml2-service-provider/src/main/java/org/springframework/security/saml2/provider/service/registration/RelyingPartyRegistration.java:643-654 | a new builder holds the id, the default entity id template, no ACS location, empty collections and a default ProviderDetails builder |
| RelyingParty.RegistrationBuilder.RegistrationId | saml2/saml2-service-provider/src/main/java/org/springframework/security/saml2/provider/service/registration/RelyingPartyRegistration.java:662-665 | replaces the registration id and nothing else |
| RelyingParty.RegistrationBuilder.EntityId | saml2/saml2-service-provider/src/main/java/org/springframework/security/saml2/provider/service/registration/RelyingPartyRegistration.java:680-683 | replaces the entity id and nothing else |
| RelyingParty.RegistrationBuilder.SigningX509Credentials | saml2/saml2-service-provider/src/main/java/org/springframework/security/saml2/provider/service/registration/RelyingPartyRegistration.java:693-696 | applies the caller's mutation to the signing bucket and changes nothing else |
| RelyingParty.RegistrationBuilder.DecryptionX509Credentials | saml2/saml2-service-provider/src/main/java/org/springframework/security/saml2/provider/service/registration/RelyingPartyRegistration.java:706-709 | applies the caller's mutation to the decryption bucket and changes nothing else |
| RelyingParty.RegistrationBuilder.AssertionConsumerServiceLocation | saml2/saml2-service-provider/src/main/java/org/springframework/security/saml2/provider/service/registration/RelyingPartyRegistration.java:728-731 | replaces the ACS location and nothing else |
| RelyingParty.RegistrationBuilder.ProviderDetails | saml2/saml2-service-provider/src/main/java/org/springframework/security/saml2/provider/service/registration/RelyingPartyRegistration.java:738-741 | applies the caller's configuration to the nested ProviderDetails builder and leaves the relying party's fields alone |
| RelyingParty.RegistrationBuilder.Credentials | saml2/saml2-service-provider/src/main/java/org/springframework/security/saml2/provider/service/registration/RelyingPartyRegistration.java:761-764 | applies the caller's mutation to the flat legacy collection and changes nothing else |
| RelyingParty.RegistrationBuilder.AssertionConsumerServiceUrlTemplate | saml2/saml2-service-provider/src/main/java/org/springframework/security/saml2/provider/service/registration/RelyingPartyRegistration.java:776-779 | the deprecated setter writes the ACS location |
| RelyingParty.RegistrationBuilder.RemoteIdpEntityId | saml2/saml2-service-provider/src/main/java/org/springframework/security/saml2/provider/service/registration/RelyingPartyRegistration.java:788-791 | the deprecated setter writes the asserting party's entity id through providerDetails(consumer), and nothing else |
| RelyingParty.RegistrationBuilder.IdpWebSsoUrl | saml2/saml2-service-provider/src/main/java/org/springframework/security/saml2/provider/service/registration/RelyingPartyRegistration.java:800-803 | the deprecated setter writes the asserting party's SSO location through providerDetails(consumer), and nothing else |
| RelyingParty.RegistrationBuilder.LocalEntityIdTemplate | saml2/saml2-service-provider/src/main/java/org/springframework/security/saml2/provider/service/registration/RelyingPartyRegistration.java:814-817 | the deprecated setter writes the relying party's entity id |
| RelyingParty.RegistrationBuilder.Build | saml2/saml2-service-provider/src/main/java/org/springframework/security/saml2/provider/service/registration/RelyingPartyRegistration.java:823-851 | returns BuildRegistration of the old state; afterwards the builder holds the reconciled collections (or is unchanged when a flat entry is null); every success satisfies Built |
| RelyingParty.WithRegistrationId | saml2/saml2-service-provider/src/main/java/org/springframework/security/saml2/provider/service/registration/RelyingPartyRegistration.java:298-301 | fails iff the id has no text; otherwise a fresh builder in its initial state for that id |
| RelyingParty.WithRelyingPartyRegistration | saml2/saml2-service-provider/src/main/java/org/springframework/security/saml2/provider/service/registration/RelyingPartyRegistration.java:308-324 | a null registration fails; otherwise a fresh builder holding every field of the registration except the flat collection |
| RelyingParty.CopyProviderDetails | saml2/saml2-service-provider/src/main/java/org/springframework/security/saml2/provider/service/registration/RelyingPartyRegistration.java:316-322 | the consumer handed to providerDetails writes every field of the source ProviderDetails into the nested builder, adding to its buckets |
| RelyingParty.RebuildCopy | saml2/saml2-service-provider/src/main/java/org/springframework/security/saml2/provider/service/registration/RelyingPartyRegistration.java:308-324 | copying a built registration into a builder and building it gives that registration back |
| RegistrationExamples.ExampleStateAssembles | saml2/saml2-service-provider/src/main/java/org/springframework/security/saml2/provider/service/registration/RelyingPartyRegistration.java:41-62 | a builder state with texts, a signing credential and a verification credential assembles the expected registration |
| RegistrationExamples.DirectBucketsBuild | saml2/saml2-service-provider/src/main/java/org/springframework/security/saml2/provider/service/registration/RelyingPartyRegistration.java:41-62 | configuring only the typed buckets builds a registration whose flat list is the union of the buckets |
| RegistrationExamples.FlatCredentialsBuild | saml2/saml2-service-provider/src/main/java/org/springframework/security/saml2/provider/service/registration/RelyingPartyRegistration.java:761-764 | a signing and a verification credential given only through the flat list land in the signing and verification buckets |
| RegistrationExamples.DocumentedExample | saml2/saml2-service-provider/src/main/java/org/springframework/security/saml2/provider/service/registration/RelyingPartyRegistration.java:41-62 | the configuration in the class documentation builds the expected registration |
| RegistrationExamples.LegacyFlatExample | saml2/saml2-service-provider/src/main/java/org/springframework/security/saml2/provider/service/registration/RelyingPartyRegistration.java:761-803 | a configuration written with the deprecated setters (flat credentials, ACS URL template, remote IdP entity id, IdP SSO URL) builds, and each flat credential lands in its usage bucket |
| Jwts.InstantClaim | oauth2/oauth2-jose/src/main/java/org/springframework/security/oauth2/jwt/Jwt.java:52-60 | the cast of a claim succeeds iff the claim is absent or an instant; it then gives that instant, absent exactly when the claim is; otherwise it fails naming the claim |
| Jwts.NewJwt | oauth2/oauth2-jose/src/main/java/org/springframework/security/oauth2/jwt/Jwt.java:71-78 | succeeds iff headers and claims are both non-null and non-empty (headers checked first); a success stores the given instants and copies of both maps |
| Jwts.NewJwtFromClaims | oauth2/oauth2-jose/src/main/java/org/springframework/security/oauth2/jwt/Jwt.java:48-60 | the failures in evaluation order: empty claims, a non-instant "iat", a non-instant "exp", then empty headers; succeeds iff both maps are non-empty and "iat" and "exp" are absent or instants; a success carries the token value and both maps, and its instants are those claims, absent exactly when the claim is |
| Jwts.RebuildFromClaims | oauth2/oauth2-jose/src/main/java/org/springframework/security/oauth2/jwt/Jwt.java:48-78 | constructing from a token's own headers and claims gives the same token when its instants agree with its claims |
| Jwts.JwtBuilder.constructor | oauth2/oauth2-jose/src/main/java/org/springframework/security/oauth2/jwt/Jwt.java:103-112 | a new builder holds the token value, empty entry maps and no whole maps |
| Jwts.JwtBuilder.Header | oauth2/oauth2-jose/src/main/java/org/springframework/security/oauth2/jwt/Jwt.java:114-119 | rejects an empty name, then a null value, changing nothing; otherwise puts the entry, overwriting one of the same name, and touches nothing else |
| Jwts.JwtBuilder.Headers | oauth2/oauth2-jose/src/main/java/org/springframework/security/oauth2/jwt/Jwt.java:121-125 | rejects a null or empty map; otherwise it becomes the headers |
| Jwts.JwtBuilder.Claim | oauth2/oauth2-jose/src/main/java/org/springframework/security/oauth2/jwt/Jwt.java:127-132 | rejects an empty name, then a null value, changing nothing; otherwise puts the entry, overwriting one of the same name, and touches nothing else |
| Jwts.JwtBuilder.Claims | oauth2/oauth2-jose/src/main/java/org/springframework/security/oauth2/jwt/Jwt.java:134-138 | rejects a null or empty map; otherwise it becomes the claims |
| Jwts.JwtBuilder.EffectiveHeaders | oauth2/oauth2-jose/src/main/java/org/springframework/security/oauth2/jwt/Jwt.java:140-145 | a whole header map given wins over the entries; in a builder reachable through its setters the result is empty only if neither a map nor an entry was given, and entries added one at a time never have an empty name |
| Jwts.JwtBuilder.EffectiveClaims | oauth2/oauth2-jose/src/main/java/org/springframework/security/oauth2/jwt/Jwt.java:147-152 | a whole claims map given wins over the entries; in a builder reachable through its setters the result is empty only if neither a map nor an entry was given, and entries added one at a time never have an empty name |
| Jwts.JwtBuilder.Build | oauth2/oauth2-jose/src/main/java/org/springframework/security/oauth2/jwt/Jwt.java:140-156 | the three-argument constructor on the effective maps: a whole map given wins over the entries; the build succeeds iff headers and claims were each given (as a map or an entry) and "iat" and "exp" are absent or instants; a success carries the builder's token value, and its entry-built headers and claims have no empty name; a builder given a header (claims) map never fails for empty headers (claims); a builder with no claims fails with empty claims |
| Jwts.WithTokenValue | oauth2/oauth2-jose/src/main/java/org/springframework/security/oauth2/jwt/Jwt.java:99-101 | a fresh builder in its initial state for that token value |
| Jwts.HeaderMapWins | oauth2/oauth2-jose/src/main/java/org/springframework/security/oauth2/jwt/Jwt.java:103-156 | a fresh builder fails with empty claims; after a header map and one claim, the build uses that map whatever headers were added one at a time |

## Left out

- Placeholder resolution in entity ids and locations (`{baseUrl}`, `{registrationId}`): the strings are stored verbatim and nothing here resolves them.
- Certificate and key contents of `Saml2X509Credential`: a credential is an identity plus its non-empty set of usages, which is all this code inspects.
- Iteration order of `HashSet`: `Enumerate` lists a set in some order, and the model fixes none.
- The order of the lists returned by the getters is left out for the same reason.
- Aliasing, because the model uses values throughout:
  - `ProviderDetails` keeps the builder's own collections (lines 363-364), so later builder changes would show through;
  - the registration's unmodifiable views;
- JwtBuilder.Headers and JwtBuilder.Claims: `headers(map)` and `claims(map)` keep a reference to the caller's map (lines 123, 136 of `Jwt.java`), which `build()` reads only when it runs. The model stores a copy at the call. So `JwtBuilder.Valid()` (a whole map once given is never empty) and the `JwtBuilder.Build` clauses about a given map assume the caller does not change that map afterwards. A caller who empties it or puts a non-instant "iat" into it makes Java's `build()` throw where the model's succeeds.
- NewRegistration: within one bucket, a null entry and an entry without the bucket's usage are one error, `InvalidCredential(bucket)`. Which of the two Java reports first depends on the set's iteration order.
- NewRegistration: the `providerDetails` null check (line 105) is not modelled. `build()` always passes a built value, and the datatype cannot be null.
- RegistrationBuilder.Build: a null in the flat collection is reported as one `NullPointer` error before any change. Java throws from the first filter lambda, which also runs before any change.
- Jwts.NewJwt: the checks of the superclass constructor (`AbstractOAuth2Token`: token text and the order of the two instants) are not modelled, so a success here may be rejected there. AbstractOAuth2Token is not part of this model.
- Jwts.NewJwtFromClaims: a claim value is modelled as a non-null `Value`. Null values inside a map are not representable.
- The JWT token value is a plain string and is never null here.
- JWS/JWE signing and parsing are not part of this model, and neither are `JwtClaimAccessor`'s typed claim getters.
- The callers `BearerTokenAuthenticationToken` and `JwtRequestPostProcessor` are not part of this model.
