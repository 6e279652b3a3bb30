/** `Saml2X509Credential` as the registration sees it: an opaque handle plus the
    usages it was created for. Certificate and key material are not modelled. */
module Saml2Credentials {
  import opened Wrappers

  /** `Saml2X509CredentialType`. */
  datatype Usage = Signing | Decryption | Verification | Encryption

  /** An opaque credential handle (`id`) with its declared usages. */
  datatype Credential = Credential(id: nat, usages: set<Usage>)

  /** A credential always declares at least one usage. */
  type Saml2X509Credential = c: Credential | c.usages != {} witness Credential(0, {Signing})

  /** An element of one of the builders' `HashSet`s, which may hold `null`. */
  type Entry = Option<Saml2X509Credential>

  /** The entry is a credential with usage `u`: `isSigningCredential()`,
      `isDecryptionCredential()`, `isSignatureVerficationCredential()` or
      `isEncryptionCredential()` according to `u`. */
  predicate Carries(e: Entry, u: Usage) {
    e.Some? && u in e.value.usages
  }

  /** Every entry of a bucket is non-null and carries the bucket's usage. */
  predicate AllCarry(bucket: set<Entry>, u: Usage) {
    forall e | e in bucket :: Carries(e, u)
  }

  /** Every credential of an immutable bucket carries the bucket's usage. */
  predicate AllHave(bucket: set<Saml2X509Credential>, u: Usage) {
    forall c | c in bucket :: u in c.usages
  }

  /** The credentials of a bucket, once it is known to hold no `null`. */
  function Unwrap(bucket: set<Entry>): (r: set<Saml2X509Credential>)
    ensures forall c :: c in r <==> Some(c) in bucket
  {
    set e | e in bucket && e.Some? :: e.value
  }

  /** The bucket a copy-to-builder step fills from an immutable collection. */
  function Wrap(s: set<Saml2X509Credential>): (r: set<Entry>)
    ensures None !in r
    ensures forall c :: Some(c) in r <==> c in s
  {
    set c | c in s :: Some(c)
  }

  lemma UnwrapWrap(s: set<Saml2X509Credential>)
    ensures Unwrap(Wrap(s)) == s
  {
  }

  lemma WrapUnwrap(bucket: set<Entry>)
    requires None !in bucket
    ensures Wrap(Unwrap(bucket)) == bucket
  {
    forall e | e in bucket ensures e in Wrap(Unwrap(bucket)) {
      assert e == Some(e.value);
    }
    forall e | e in Wrap(Unwrap(bucket)) ensures e in bucket {
      assert e == Some(e.value);
    }
  }

  lemma WrapUnion(a: set<Saml2X509Credential>, b: set<Saml2X509Credential>)
    ensures Wrap(a + b) == Wrap(a) + Wrap(b)
  {
  }

  /** A checked bucket unwraps to credentials that all carry its usage, and a bucket
      of credentials that all carry a usage passes the check once wrapped. */
  lemma CarryCorrespondence(bucket: set<Entry>, s: set<Saml2X509Credential>, u: Usage)
    ensures AllCarry(bucket, u) ==> None !in bucket && AllHave(Unwrap(bucket), u)
    ensures AllHave(s, u) <==> AllCarry(Wrap(s), u)
  {
  }

  /** The check loop of the registration constructors over one bucket: each element
      must be non-null and carry the bucket's usage; the first offender stops it. */
  method ValidateBucket(bucket: set<Entry>, u: Usage) returns (ok: bool)
    ensures ok <==> AllCarry(bucket, u)
  {
    var rest := bucket;
    while rest != {}
      invariant rest <= bucket
      invariant AllCarry(bucket - rest, u)
      decreases rest
    {
      var e :| e in rest;
      if !Carries(e, u) {
        return false;
      }
      rest := rest - {e};
    }
    return true;
  }
}
