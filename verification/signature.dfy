/**
  verifySlackRequest (internal/server/server.go): Slack's request signing
  scheme. The request carries a timestamp header and a signature header; the
  signature must be "v0=" followed by the lowercase hex encoding of
  HMAC-SHA256(secret, "v0:" + timestamp + ":" + body).

  HMAC-SHA256 is not modelled: it is a function parameter. The clock is the
  parameter `now` (Unix seconds).
 */
module Signature {

  import opened Optional
  import opened Strings

  type Byte = b: int | 0 <= b < 256

  const HexDigits := "0123456789abcdef"

  /** hex.EncodeToString: two lowercase hex digits per byte, high nibble first. */
  function Hex(bs: seq<Byte>): (r: string)
    ensures |r| == 2 * |bs|
    ensures forall i :: 0 <= i < |bs| ==> r[2 * i] == HexDigits[bs[i] / 16] && r[2 * i + 1] == HexDigits[bs[i] % 16]
    decreases |bs|
  {
    if |bs| == 0 then ""
    else [HexDigits[bs[0] / 16], HexDigits[bs[0] % 16]] + Hex(bs[1..])
  }

  lemma HexDigitsDistinct(a: nat, b: nat)
    requires a < 16 && b < 16 && HexDigits[a] == HexDigits[b]
    ensures a == b
  {
  }

  /** The encoding is injective: different digests give different signatures. */
  lemma HexInjective(a: seq<Byte>, b: seq<Byte>)
    requires Hex(a) == Hex(b)
    ensures a == b
  {
    assert |a| == |b|;
    forall i | 0 <= i < |a|
      ensures a[i] == b[i]
    {
      HexDigitsDistinct(a[i] / 16, b[i] / 16);
      HexDigitsDistinct(a[i] % 16, b[i] % 16);
    }
  }

  /** The signed text: version, timestamp header (as received) and raw body. */
  function BaseString(timestamp: string, body: string): string {
    "v0:" + timestamp + ":" + body
  }

  /** For one timestamp, distinct bodies give distinct signed texts. */
  lemma BaseStringInjective(timestamp: string, body1: string, body2: string)
    requires BaseString(timestamp, body1) == BaseString(timestamp, body2)
    ensures body1 == body2
  {
    var n := |"v0:" + timestamp + ":"|;
    assert body1 == BaseString(timestamp, body1)[n..];
    assert body2 == BaseString(timestamp, body2)[n..];
  }

  function ExpectedSignature(secret: string, timestamp: string, body: string,
                             hmac: (string, string) -> seq<Byte>): string {
    "v0=" + Hex(hmac(secret, BaseString(timestamp, body)))
  }

  /** Requests older than this many seconds are rejected. */
  const MaxAge := 300

  /**
    verifySlackRequest: both headers present, a base-10 int64 timestamp, not
    older than five minutes (a timestamp in the future passes), and the
    signature header equal to the expected signature.
   */
  function VerifySlackRequest(secret: string, timestamp: string, signature: string, body: string,
                              now: int, hmac: (string, string) -> seq<Byte>): (ok: bool)
    ensures timestamp == "" || signature == "" ==> !ok
    ensures ParseInt64(timestamp).None? ==> !ok
    ensures ok <==> && timestamp != "" && signature != ""
                    && ParseInt64(timestamp).Some? && now - ParseInt64(timestamp).value <= MaxAge
                    && signature == ExpectedSignature(secret, timestamp, body, hmac)
  {
    if timestamp == "" || signature == "" then false
    else
      match ParseInt64(timestamp)
      case None => false
      case Some(ts) =>
        if now - ts > MaxAge then false
        else signature == "v0=" + Hex(hmac(secret, "v0:" + timestamp + ":" + body))
  }

  /** A request signed as Slack signs it, with a timestamp at most five minutes old, is accepted. */
  lemma GenuineRequestAccepted(secret: string, ts: int, body: string, now: int, hmac: (string, string) -> seq<Byte>)
    requires Int64Min <= ts <= Int64Max
    requires now - ts <= MaxAge
    ensures var timestamp := IntToString(ts);
            VerifySlackRequest(secret, timestamp, ExpectedSignature(secret, timestamp, body, hmac), body, now, hmac)
  {
    ParseIntToString(ts);
    assert IntToString(ts) != "" by {
      if ts < 0 {
      } else {
        assert |NatToString(ts)| > 0;
      }
    }
  }

  /** The staleness check is one-sided: a timestamp in the future is never stale. */
  lemma FutureIsNotStale(secret: string, ts: int, body: string, now: int, hmac: (string, string) -> seq<Byte>)
    requires Int64Min <= ts <= Int64Max
    requires ts >= now
    ensures var timestamp := IntToString(ts);
            VerifySlackRequest(secret, timestamp, ExpectedSignature(secret, timestamp, body, hmac), body, now, hmac)
  {
    GenuineRequestAccepted(secret, ts, body, now, hmac);
  }

  /** A request more than five minutes old is rejected, whatever its signature. */
  lemma StaleRejected(secret: string, ts: int, signature: string, body: string, now: int,
                      hmac: (string, string) -> seq<Byte>)
    requires Int64Min <= ts <= Int64Max
    requires now - ts > MaxAge
    ensures !VerifySlackRequest(secret, IntToString(ts), signature, body, now, hmac)
  {
    ParseIntToString(ts);
  }

  // ---------------------------------------------------------------------------
  // The staleness check as written computes `now - ts` in int64

  const TwoTo64: int := 0x1_0000_0000_0000_0000

  /** Two's-complement int64 arithmetic: the representative of x modulo 2^64 in the int64 range. */
  function WrapInt64(x: int): (r: int)
    ensures Int64Min <= r <= Int64Max
    ensures (x - r) % TwoTo64 == 0
    ensures Int64Min <= x <= Int64Max ==> r == x
  {
    var m := (x - Int64Min) % TwoTo64;
    m + Int64Min
  }

  /**
    verifySlackRequest exactly as written: the age `now - ts` is an int64
    subtraction, which wraps when the timestamp is far enough in the past.
   */
  function VerifySlackRequestAsWritten(secret: string, timestamp: string, signature: string, body: string,
                                       now: int, hmac: (string, string) -> seq<Byte>): (ok: bool)
    requires Int64Min <= now <= Int64Max
    ensures ok <==> && timestamp != "" && signature != ""
                    && ParseInt64(timestamp).Some? && WrapInt64(now - ParseInt64(timestamp).value) <= MaxAge
                    && signature == ExpectedSignature(secret, timestamp, body, hmac)
  {
    if timestamp == "" || signature == "" then false
    else
      match ParseInt64(timestamp)
      case None => false
      case Some(ts) =>
        if WrapInt64(now - ts) > MaxAge then false
        else signature == "v0=" + Hex(hmac(secret, "v0:" + timestamp + ":" + body))
  }

  /** While the subtraction stays in the int64 range the code as written agrees with the intended check. */
  lemma AsWrittenAgreesWithoutOverflow(secret: string, timestamp: string, signature: string, body: string,
                                       now: int, hmac: (string, string) -> seq<Byte>)
    requires Int64Min <= now <= Int64Max
    requires ParseInt64(timestamp).Some? ==> Int64Min <= now - ParseInt64(timestamp).value <= Int64Max
    ensures VerifySlackRequestAsWritten(secret, timestamp, signature, body, now, hmac)
        == VerifySlackRequest(secret, timestamp, signature, body, now, hmac)
  {
  }

  /**
    The timestamp -9223372036854775808 is older than any clock reading, yet
    the wrapped age is negative, so the check as written accepts a correctly
    signed request carrying it; the intended check rejects it.
   */
  lemma AncientTimestampPassesAsWritten(secret: string, body: string, hmac: (string, string) -> seq<Byte>)
    ensures var timestamp := IntToString(Int64Min);
            var now := 1700000000;
            && now - Int64Min > MaxAge
            && VerifySlackRequestAsWritten(secret, timestamp, ExpectedSignature(secret, timestamp, body, hmac),
                                           body, now, hmac)
            && !VerifySlackRequest(secret, timestamp, ExpectedSignature(secret, timestamp, body, hmac),
                                   body, now, hmac)
  {
    ParseIntToString(Int64Min);
    var timestamp := IntToString(Int64Min);
    assert timestamp != "";
    assert WrapInt64(1700000000 - Int64Min) == 1700000000 - Int64Min - TwoTo64;
  }

  /**
    A signature made for one body is accepted for another only if the HMAC
    collides on two different signed texts.
   */
  lemma TamperedBodyNeedsCollision(secret: string, timestamp: string, body: string, forged: string,
                                   now: int, hmac: (string, string) -> seq<Byte>)
    requires body != forged
    requires VerifySlackRequest(secret, timestamp, ExpectedSignature(secret, timestamp, body, hmac), forged, now, hmac)
    ensures BaseString(timestamp, body) != BaseString(timestamp, forged)
    ensures hmac(secret, BaseString(timestamp, body)) == hmac(secret, BaseString(timestamp, forged))
  {
    if BaseString(timestamp, body) == BaseString(timestamp, forged) {
      BaseStringInjective(timestamp, body, forged);
    }
    var h1 := hmac(secret, BaseString(timestamp, body));
    var h2 := hmac(secret, BaseString(timestamp, forged));
    assert "v0=" + Hex(h1) == "v0=" + Hex(h2);
    assert Hex(h1) == ("v0=" + Hex(h1))[3..];
    assert Hex(h2) == ("v0=" + Hex(h2))[3..];
    HexInjective(h1, h2);
  }
}
