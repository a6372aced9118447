/** Validation of a decoded JWK Set (internal/oidc/jwks.go), from the decoded key list onward. */
module Jwks {
  import opened Wrappers
  import opened Base64Url

  const MAX_JWKS_KEYS: nat := 200

  datatype JWK = JWK(kid: string, kty: string, alg: string, use: string, n: string, e: string)

  datatype KeyError = MissingKid | BadKty | BadAlg | BadUse | MissingN | MissingE | InvalidN | InvalidE

  datatype ParseError =
    | EmptyKeySet
    | TooManyKeys(count: nat)
    | BadKey(index: nat, reason: KeyError)
    | DuplicateKid(index: nat, kid: string)

  predicate DecodesToBytes(s: string) { Decode(s).Some? && Decode(s).value != [] }

  /** The first check that a key fails, if any. */
  function ValidateKey(k: JWK): Option<KeyError> {
    if k.kid == "" then Some(MissingKid)
    else if k.kty != "RSA" then Some(BadKty)
    else if k.alg != "RS256" then Some(BadAlg)
    else if k.use != "sig" then Some(BadUse)
    else if k.n == "" then Some(MissingN)
    else if k.e == "" then Some(MissingE)
    else if !DecodesToBytes(k.n) then Some(InvalidN)
    else if !DecodesToBytes(k.e) then Some(InvalidE)
    else None
  }

  /** Completeness: an RSA signing key with any non-empty modulus and exponent, encoded as section
      6.3.1 of RFC 7518 asks, is accepted. */
  lemma EncodedKeysAreAccepted(kid: string, n: seq<Byte>, e: seq<Byte>)
    requires kid != "" && n != [] && e != []
    ensures ValidateKey(JWK(kid, "RSA", "RS256", "sig", Encode(n), Encode(e))) == None
  {
    RoundTrip(n);
    RoundTrip(e);
  }

  /** Soundness: what an accepted key looks like, text by text. */
  lemma AcceptedKeysExactly(k: JWK)
    ensures ValidateKey(k) == None <==>
            && k.kid != "" && k.kty == "RSA" && k.alg == "RS256" && k.use == "sig"
            && LooksEncoded(k.n) && LooksEncoded(k.e)
  {
    DecodesToBytesExactly(k.n);
    DecodesToBytesExactly(k.e);
  }

  /** Which reason belongs to which defect: the first field that fails, in this order. */
  lemma ReasonsExactly(k: JWK)
    ensures var r := ValidateKey(k);
      var typed := k.kid != "" && k.kty == "RSA" && k.alg == "RS256" && k.use == "sig";
      && (r == Some(MissingKid) <==> k.kid == "")
      && (r == Some(BadKty) <==> k.kid != "" && k.kty != "RSA")
      && (r == Some(BadAlg) <==> k.kid != "" && k.kty == "RSA" && k.alg != "RS256")
      && (r == Some(BadUse) <==> k.kid != "" && k.kty == "RSA" && k.alg == "RS256" && k.use != "sig")
      && (r == Some(MissingN) <==> typed && k.n == "")
      && (r == Some(MissingE) <==> typed && k.n != "" && k.e == "")
      && (r == Some(InvalidN) <==> typed && k.n != "" && k.e != "" && !LooksEncoded(k.n))
      && (r == Some(InvalidE) <==> typed && k.e != "" && LooksEncoded(k.n) && !LooksEncoded(k.e))
  {
    DecodesToBytesExactly(k.n);
    DecodesToBytesExactly(k.e);
  }

  predicate LooksEncoded(s: string) {
    (forall i :: 0 <= i < |s| ==> InAlphabet(s[i]) || Skipped(s[i])) && CountLetters(s) >= 2 && CountLetters(s) % 4 != 1
  }

  /** The first n keys are valid and have pairwise distinct kids. */
  predicate GoodPrefix(keys: seq<JWK>, n: nat)
    requires n <= |keys|
  {
    && (forall i :: 0 <= i < n ==> ValidateKey(keys[i]) == None)
    && (forall i, j :: 0 <= i < j < n ==> keys[i].kid != keys[j].kid)
  }

  /** A JWK Set (section 5 of RFC 7517) that the service will publish. */
  predicate Publishable(keys: seq<JWK>) {
    1 <= |keys| <= MAX_JWKS_KEYS && GoodPrefix(keys, |keys|)
  }

  /** What each answer means for the keys it was given. */
  predicate Verdict(raw: seq<JWK>, r: Result<seq<JWK>, ParseError>) {
    match r
    case Ok(keys) => Publishable(raw) && keys == raw
    case Err(EmptyKeySet) => raw == []
    case Err(TooManyKeys(count)) => count == |raw| > MAX_JWKS_KEYS
    case Err(BadKey(i, reason)) => i < |raw| <= MAX_JWKS_KEYS && GoodPrefix(raw, i)
                                   && ValidateKey(raw[i]) == Some(reason)
    case Err(DuplicateKid(i, kid)) => i < |raw| <= MAX_JWKS_KEYS && GoodPrefix(raw, i) && ValidateKey(raw[i]) == None
                                      && raw[i].kid == kid && exists j :: 0 <= j < i && raw[j].kid == kid
  }

  /** A reported index is the least one at which the keys stop being good. */
  lemma FirstFailure(raw: seq<JWK>, r: Result<seq<JWK>, ParseError>, n: nat)
    requires Verdict(raw, r) && r.Err? && (r.error.BadKey? || r.error.DuplicateKid?) && n <= |raw|
    ensures GoodPrefix(raw, n) <==> n <= r.error.index
  {
  }

  /** The verdict leaves no freedom: it accepts exactly the publishable sets, and the error, with its
      index and reason, is determined by the keys. */
  lemma VerdictIsUnique(raw: seq<JWK>, r: Result<seq<JWK>, ParseError>, r': Result<seq<JWK>, ParseError>)
    requires Verdict(raw, r) && Verdict(raw, r')
    ensures r == r'
    ensures r.Ok? <==> Publishable(raw)
  {
  }

  /** Validating an accepted set again accepts it unchanged. */
  lemma AcceptedTwice(raw: seq<JWK>, r: Result<seq<JWK>, ParseError>, r': Result<seq<JWK>, ParseError>)
    requires Verdict(raw, r) && r.Ok? && Verdict(r.value, r')
    ensures r' == r
  {
  }

  /** The loop over the decoded keys, with its map of kids already seen. */
  method ParseAndValidate(raw: seq<JWK>) returns (r: Result<seq<JWK>, ParseError>)
    ensures Verdict(raw, r)
  {
    if |raw| == 0 {
      return Err(EmptyKeySet);
    }
    if |raw| > MAX_JWKS_KEYS {
      return Err(TooManyKeys(|raw|));
    }
    var seen: map<string, ()> := map[];
    var out: seq<JWK> := [];
    for i := 0 to |raw|
      invariant out == raw[..i] && GoodPrefix(raw, i)
      invariant forall kid :: kid in seen <==> exists j :: 0 <= j < i && raw[j].kid == kid
    {
      var k := raw[i];
      match ValidateKey(k) {
        case Some(reason) =>
          return Err(BadKey(i, reason));
        case None =>
      }
      if k.kid in seen {
        return Err(DuplicateKid(i, k.kid));
      }
      seen := seen[k.kid := ()];
      out := out + [JWK(k.kid, k.kty, k.alg, k.use, k.n, k.e)];
    }
    return Ok(out);
  }
}
