/** Fetching the upstream key set (internal/oidc/fetcher.go). The transport is adversarial: it may
    fail, answer with any status, and break off the body anywhere. */
module Fetcher {
  import opened Wrappers
  import opened Base64Url
  import opened GoTime
  import opened Jwks

  const MAX_JWKS_BODY_BYTES: nat := 1_048_576

  /** encoding/json, which is not part of this model: decoding may reject, encoding may fail. */
  datatype Codec = Codec(decode: seq<Byte> -> Option<seq<JWK>>, marshal: seq<JWK> -> Option<seq<Byte>>)

  /** One upstream reply. `content` is the whole body the server meant to send. If `breaksAt` is set,
      the read that follows that many bytes fails instead of delivering more or the end of the body;
      a body may thus break off anywhere, right after its last byte included. */
  datatype Reply =
    | Unreachable
    | Reply(status: int, content: seq<Byte>, breaksAt: Option<nat>)

  datatype FetchError = Upstream | UpstreamStatus | ReadBody | BodyTooLarge | JwksInvalid

  /** Reads up to `limit` bytes, and asks for the end of the body if it has read fewer. A failure is
      seen unless it lies beyond the limit, where nothing is read any more. */
  function ReadLimited(content: seq<Byte>, breaksAt: Option<nat>, limit: nat): Option<seq<Byte>> {
    if breaksAt.Some? && breaksAt.value < limit && breaksAt.value <= |content| then None
    else Some(content[..Min(limit, |content|)])
  }

  /** The reply carries a complete body of at most 1 MiB, with status 200, that decodes to a
      publishable key set. */
  predicate Acceptable(codec: Codec, reply: Reply) {
    && reply.Reply? && reply.status == 200
    && |reply.content| <= MAX_JWKS_BODY_BYTES
    && (reply.breaksAt.Some? ==> reply.breaksAt.value > |reply.content|)
    && codec.decode(reply.content).Some? && Publishable(codec.decode(reply.content).value)
  }

  method Fetch(codec: Codec, reply: Reply) returns (r: Result<seq<JWK>, FetchError>)
    ensures r.Ok? <==> Acceptable(codec, reply)
    ensures r.Ok? ==> r.value == codec.decode(reply.content).value
    ensures r == Err(Upstream) <==> reply.Unreachable?
    ensures r == Err(UpstreamStatus) <==> reply.Reply? && reply.status != 200
    ensures r == Err(ReadBody) <==> reply.Reply? && reply.status == 200 && reply.breaksAt.Some?
                                    && reply.breaksAt.value <= |reply.content|
                                    && reply.breaksAt.value <= MAX_JWKS_BODY_BYTES
    ensures r == Err(BodyTooLarge) <==> reply.Reply? && reply.status == 200 && |reply.content| > MAX_JWKS_BODY_BYTES
                                        && (reply.breaksAt.Some? ==> reply.breaksAt.value > MAX_JWKS_BODY_BYTES)
  {
    if reply.Unreachable? {
      return Err(Upstream);
    }
    if reply.status != 200 {
      return Err(UpstreamStatus);
    }
    var body := ReadLimited(reply.content, reply.breaksAt, MAX_JWKS_BODY_BYTES + 1);
    if body.None? {
      return Err(ReadBody);
    }
    if |body.value| > MAX_JWKS_BODY_BYTES {
      return Err(BodyTooLarge);
    }
    assert body.value == reply.content;
    var raw := codec.decode(body.value);
    if raw.None? {
      return Err(JwksInvalid);
    }
    var parsed := ParseAndValidate(raw.value);
    VerdictIsUnique(raw.value, parsed, parsed);
    r := match parsed
      case Ok(keys) => Ok(keys)
      case Err(_) => Err(JwksInvalid);
  }
}
