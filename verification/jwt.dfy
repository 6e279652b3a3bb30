/** `Jwt`: a JSON Web Token as headers and a claims set (RFC 7519), and the
    builder that accumulates them. Signing, encryption and parsing are elsewhere. */
module Jwts {
  import opened Wrappers
  import opened StringUtils

  /** A header or claim value. Only `java.time.Instant` values matter to this code;
      the other variants stand for any other JSON value. */
  datatype Value = Instant(epochSecond: int) | Text(text: string) | Number(number: int) | Flag(flag: bool)

  type Members = map<string, Value>

  /** `JwtClaimNames.IAT`, the "iat" claim (section 4.1.6 of RFC 7519). */
  const IssuedAtClaim: string := "iat"

  /** `JwtClaimNames.EXP`, the "exp" claim (section 4.1.4 of RFC 7519). */
  const ExpiresAtClaim: string := "exp"

  /** The exceptions of this file: `IllegalArgumentException`s from Spring's `Assert`,
      and the `ClassCastException` of an "iat" or "exp" claim that is not an instant. */
  datatype JwtError =
    | HeadersEmpty
    | ClaimsEmpty
    | ClaimNotInstant(name: string)
    | HeaderNameEmpty
    | HeaderValueNull
    | ClaimNameEmpty
    | ClaimValueNull

  /** `Assert.notEmpty` on a map: not null and with at least one entry. */
  predicate NotEmpty(m: Option<Members>) {
    m.Some? && m.value != map[]
  }

  /** The immutable token; the maps are the constructor's own copies. */
  datatype Jwt = Jwt(
    tokenValue: string,
    issuedAt: Option<int>,
    expiresAt: Option<int>,
    headers: Members,
    claims: Members)

  /** `(Instant) claims.get(name)`: null when absent, the instant when it is one,
      a failed cast otherwise. */
  function InstantClaim(claims: Members, name: string): (r: Result<Option<int>, JwtError>)
    ensures r.Success? <==> InstantOrAbsent(claims, name)
    ensures r.Success? ==> TakenFrom(r.value, claims, name)
    ensures r.Failure? ==> r.error == ClaimNotInstant(name)
  {
    if name !in claims then Success(None)
    else if claims[name].Instant? then Success(Some(claims[name].epochSecond))
    else Failure(ClaimNotInstant(name))
  }

  /** The claim `name` is absent or is an instant. */
  predicate InstantOrAbsent(claims: Members, name: string) {
    name in claims ==> claims[name].Instant?
  }

  /** The instant `t` is what claim `name` says, and absent exactly when the claim is. */
  predicate TakenFrom(t: Option<int>, claims: Members, name: string) {
    && (t.Some? <==> name in claims)
    && (name in claims ==> claims[name] == Instant(t.value))
  }

  /** The five-argument constructor. The token-value and instant-order checks of
      the superclass are not part of this model. */
  function NewJwt(tokenValue: string, issuedAt: Option<int>, expiresAt: Option<int>,
                  headers: Option<Members>, claims: Option<Members>): (r: Result<Jwt, JwtError>)
    ensures r.Success? <==> NotEmpty(headers) && NotEmpty(claims)
    ensures !NotEmpty(headers) ==> r == Failure(HeadersEmpty)
    ensures NotEmpty(headers) && !NotEmpty(claims) ==> r == Failure(ClaimsEmpty)
    ensures r.Success? ==>
      && r.value.headers == headers.value && r.value.claims == claims.value
      && r.value.issuedAt == issuedAt && r.value.expiresAt == expiresAt
      && r.value.tokenValue == tokenValue
  {
    if !NotEmpty(headers) then Failure(HeadersEmpty)
    else if !NotEmpty(claims) then Failure(ClaimsEmpty)
    else Success(Jwt(tokenValue, issuedAt, expiresAt, headers.value, claims.value))
  }

  /** The three-argument constructor: the instants come from the claims. Its
      arguments run first, so an empty claims set is reported before empty headers. */
  function NewJwtFromClaims(tokenValue: string, headers: Option<Members>, claims: Option<Members>): (r: Result<Jwt, JwtError>)
    ensures !NotEmpty(claims) ==> r == Failure(ClaimsEmpty)
    ensures r.Success? <==>
      && NotEmpty(headers) && NotEmpty(claims)
      && InstantOrAbsent(claims.value, IssuedAtClaim) && InstantOrAbsent(claims.value, ExpiresAtClaim)
    ensures NotEmpty(claims) && !InstantOrAbsent(claims.value, IssuedAtClaim)
      ==> r == Failure(ClaimNotInstant(IssuedAtClaim))
    ensures NotEmpty(claims) && InstantOrAbsent(claims.value, IssuedAtClaim)
      && !InstantOrAbsent(claims.value, ExpiresAtClaim)
      ==> r == Failure(ClaimNotInstant(ExpiresAtClaim))
    ensures NotEmpty(claims) && InstantOrAbsent(claims.value, IssuedAtClaim)
      && InstantOrAbsent(claims.value, ExpiresAtClaim) && !NotEmpty(headers)
      ==> r == Failure(HeadersEmpty)
    ensures r.Success? ==>
      && r.value.tokenValue == tokenValue
      && TakenFrom(r.value.issuedAt, claims.value, IssuedAtClaim)
      && TakenFrom(r.value.expiresAt, claims.value, ExpiresAtClaim)
      && r.value.headers == headers.value && r.value.claims == claims.value
  {
    if !NotEmpty(claims) then Failure(ClaimsEmpty)
    else
      match InstantClaim(claims.value, IssuedAtClaim)
      case Failure(e) => Failure(e)
      case Success(issuedAt) =>
        match InstantClaim(claims.value, ExpiresAtClaim)
        case Failure(e) => Failure(e)
        case Success(expiresAt) => NewJwt(tokenValue, issuedAt, expiresAt, headers, claims)
  }

  /** A token built from its own headers and claims is the same token again. */
  lemma RebuildFromClaims(t: Jwt)
    requires t.headers != map[] && t.claims != map[]
    requires TakenFrom(t.issuedAt, t.claims, IssuedAtClaim) && TakenFrom(t.expiresAt, t.claims, ExpiresAtClaim)
    ensures NewJwtFromClaims(t.tokenValue, Some(t.headers), Some(t.claims)) == Success(t)
  {
  }

  /** `Jwt.JwtBuilder`. A whole map given to `headers`/`claims` replaces the entries
      added one at a time, which `build()` then ignores. */
  class JwtBuilder {
    var tokenValue: string
    var buildingClaims: Members
    var buildingHeaders: Members
    var claims: Option<Members>
    var headers: Option<Members>

    /** What the setters' checks keep true: no entry has an empty name, and a whole
        map once given is never empty. */
    ghost predicate Valid()
      reads this
    {
      && "" !in buildingHeaders && "" !in buildingClaims
      && (headers.Some? ==> headers.value != map[])
      && (claims.Some? ==> claims.value != map[])
    }

    constructor (tokenValue: string)
      ensures Valid()
      ensures this.tokenValue == tokenValue
      ensures buildingClaims == map[] && buildingHeaders == map[]
      ensures claims == None && headers == None
    {
      this.tokenValue := tokenValue;
      buildingClaims := map[];
      buildingHeaders := map[];
      claims := None;
      headers := None;
    }

    /** `header(name, value)`: rejects an empty name or a null value; otherwise puts
        the entry, replacing any earlier one of that name. */
    method Header(name: Option<string>, value: Option<Value>) returns (outcome: Outcome<JwtError>)
      requires Valid()
      modifies this
      ensures Valid()
      ensures !HasLength(name) ==> outcome == Fail(HeaderNameEmpty)
      ensures HasLength(name) && value.None? ==> outcome == Fail(HeaderValueNull)
      ensures outcome.Pass? <==> HasLength(name) && value.Some?
      ensures outcome.Fail? ==> unchanged(this)
      ensures outcome.Pass? ==> buildingHeaders == old(buildingHeaders)[name.value := value.value]
      ensures tokenValue == old(tokenValue) && buildingClaims == old(buildingClaims)
      ensures claims == old(claims) && headers == old(headers)
    {
      if !HasLength(name) {
        return Fail(HeaderNameEmpty);
      }
      if value.None? {
        return Fail(HeaderValueNull);
      }
      buildingHeaders := buildingHeaders[name.value := value.value];
      outcome := Pass;
    }

    /** `headers(map)`: rejects a null or empty map; otherwise it becomes the headers. */
    method Headers(m: Option<Members>) returns (outcome: Outcome<JwtError>)
      requires Valid()
      modifies this
      ensures Valid()
      ensures outcome == (if NotEmpty(m) then Pass else Fail(HeadersEmpty))
      ensures headers == (if NotEmpty(m) then m else old(headers))
      ensures tokenValue == old(tokenValue) && buildingClaims == old(buildingClaims)
      ensures buildingHeaders == old(buildingHeaders) && claims == old(claims)
    {
      if !NotEmpty(m) {
        return Fail(HeadersEmpty);
      }
      headers := m;
      outcome := Pass;
    }

    /** `claim(name, value)`: rejects an empty name or a null value; otherwise puts
        the entry, replacing any earlier one of that name. */
    method Claim(name: Option<string>, value: Option<Value>) returns (outcome: Outcome<JwtError>)
      requires Valid()
      modifies this
      ensures Valid()
      ensures !HasLength(name) ==> outcome == Fail(ClaimNameEmpty)
      ensures HasLength(name) && value.None? ==> outcome == Fail(ClaimValueNull)
      ensures outcome.Pass? <==> HasLength(name) && value.Some?
      ensures outcome.Fail? ==> unchanged(this)
      ensures outcome.Pass? ==> buildingClaims == old(buildingClaims)[name.value := value.value]
      ensures tokenValue == old(tokenValue) && buildingHeaders == old(buildingHeaders)
      ensures claims == old(claims) && headers == old(headers)
    {
      if !HasLength(name) {
        return Fail(ClaimNameEmpty);
      }
      if value.None? {
        return Fail(ClaimValueNull);
      }
      buildingClaims := buildingClaims[name.value := value.value];
      outcome := Pass;
    }

    /** `claims(map)`: rejects a null or empty map; otherwise it becomes the claims. */
    method Claims(m: Option<Members>) returns (outcome: Outcome<JwtError>)
      requires Valid()
      modifies this
      ensures Valid()
      ensures outcome == (if NotEmpty(m) then Pass else Fail(ClaimsEmpty))
      ensures claims == (if NotEmpty(m) then m else old(claims))
      ensures tokenValue == old(tokenValue) && buildingClaims == old(buildingClaims)
      ensures buildingHeaders == old(buildingHeaders) && headers == old(headers)
    {
      if !NotEmpty(m) {
        return Fail(ClaimsEmpty);
      }
      claims := m;
      outcome := Pass;
    }

    /** The private `getHeaders()`: the whole map if one was given, else the entries.
        It is empty only when neither a map nor an entry was given. */
    function EffectiveHeaders(): (m: Members)
      reads this
      ensures headers.Some? ==> m == headers.value
      ensures headers.None? ==> m == buildingHeaders
      ensures Valid() ==> (m == map[] <==> headers.None? && buildingHeaders == map[])
      ensures Valid() && headers.None? ==> "" !in m
    {
      if headers.None? then buildingHeaders else headers.value
    }

    /** The private `getClaims()`: the whole map if one was given, else the entries.
        It is empty only when neither a map nor an entry was given. */
    function EffectiveClaims(): (m: Members)
      reads this
      ensures claims.Some? ==> m == claims.value
      ensures claims.None? ==> m == buildingClaims
      ensures Valid() ==> (m == map[] <==> claims.None? && buildingClaims == map[])
      ensures Valid() && claims.None? ==> "" !in m
    {
      if claims.None? then buildingClaims else claims.value
    }

    /** `build()`: the three-argument constructor on the effective maps. */
    method Build() returns (r: Result<Jwt, JwtError>)
      requires Valid()
      ensures r == NewJwtFromClaims(tokenValue, Some(EffectiveHeaders()), Some(EffectiveClaims()))
      ensures r.Success? <==>
        && (headers.Some? || buildingHeaders != map[])
        && (claims.Some? || buildingClaims != map[])
        && InstantOrAbsent(EffectiveClaims(), IssuedAtClaim)
        && InstantOrAbsent(EffectiveClaims(), ExpiresAtClaim)
      ensures r.Success? ==> r.value.tokenValue == tokenValue
      ensures r.Success? && headers.None? ==> "" !in r.value.headers
      ensures r.Success? && claims.None? ==> "" !in r.value.claims
      ensures headers.Some? ==> r != Failure(HeadersEmpty)
      ensures claims.Some? ==> r != Failure(ClaimsEmpty)
      ensures r.Success? && headers.Some? ==> r.value.headers == headers.value
      ensures r.Success? && headers.None? ==> r.value.headers == buildingHeaders
      ensures r.Success? && claims.Some? ==> r.value.claims == claims.value
      ensures r.Success? && claims.None? ==> r.value.claims == buildingClaims
      ensures claims.None? && buildingClaims == map[] ==> r == Failure(ClaimsEmpty)
      ensures headers.None? && buildingHeaders == map[] ==> r.Failure?
    {
      r := NewJwtFromClaims(tokenValue, Some(EffectiveHeaders()), Some(EffectiveClaims()));
    }
  }

  /** `Jwt.withTokenValue`. */
  method WithTokenValue(tokenValue: string) returns (b: JwtBuilder)
    ensures fresh(b) && b.Valid()
    ensures b.tokenValue == tokenValue
    ensures b.buildingClaims == map[] && b.buildingHeaders == map[]
    ensures b.claims == None && b.headers == None
  {
    b := new JwtBuilder(tokenValue);
  }

  /** A fresh builder cannot build: the empty claims set is reported first. Once a
      header map and a claim are given, a build uses that map whatever headers were
      added one at a time. */
  method HeaderMapWins(tokenValue: string, whole: Members) returns (first: Result<Jwt, JwtError>, second: Result<Jwt, JwtError>)
    requires whole != map[]
    ensures first == Failure(ClaimsEmpty)
    ensures second.Success? && second.value.headers == whole
    ensures second.value.claims == map["sub" := Text("user")]
  {
    var b := WithTokenValue(tokenValue);
    first := b.Build();
    var _ := b.Header(Some("alg"), Some(Text("none")));
    var _ := b.Headers(Some(whole));
    var _ := b.Header(Some("typ"), Some(Text("JWT")));
    var _ := b.Claim(Some("sub"), Some(Text("user")));
    assert b.EffectiveHeaders() == whole;
    assert b.EffectiveClaims() == map["sub" := Text("user")];
    assert IssuedAtClaim !in b.EffectiveClaims() && ExpiresAtClaim !in b.EffectiveClaims();
    assert "sub" in b.EffectiveClaims();
    second := b.Build();
  }
}
