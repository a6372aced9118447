/** Unpadded base64url (section 5 of RFC 4648) as Go's base64.RawURLEncoding decodes it: carriage
    return and line feed are skipped, unused trailing bits are ignored, and any other character
    outside the alphabet is an error. */
module Base64Url {
  import opened Wrappers

  type Byte = b: int | 0 <= b < 256
  type Sextet = d: int | 0 <= d < 64

  function Letter(d: Sextet): char {
    if d < 26 then 'A' + d as char
    else if d < 52 then 'a' + (d - 26) as char
    else if d < 62 then '0' + (d - 52) as char
    else if d == 62 then '-' else '_'
  }

  predicate InAlphabet(c: char) {
    'A' <= c <= 'Z' || 'a' <= c <= 'z' || '0' <= c <= '9' || c == '-' || c == '_'
  }

  predicate Skipped(c: char) { c == '\r' || c == '\n' }

  function Digit(c: char): Sextet
    requires InAlphabet(c)
  {
    if 'A' <= c <= 'Z' then (c - 'A') as int
    else if 'a' <= c <= 'z' then (c - 'a') as int + 26
    else if '0' <= c <= '9' then (c - '0') as int + 52
    else if c == '-' then 62 else 63
  }

  /** The digits of a text, or None when it holds a foreign character. */
  function Digits(s: string): Option<seq<Sextet>> {
    if s == [] then Some([])
    else match Digits(s[1..])
      case None => None
      case Some(rest) =>
        if Skipped(s[0]) then Some(rest)
        else if InAlphabet(s[0]) then Some([Digit(s[0])] + rest)
        else None
  }

  function Byte1(a: int, b: int): int { a * 4 + b / 16 }
  function Byte2(b: int, c: int): int { b % 16 * 16 + c / 4 }
  function Byte3(c: int, d: int): int { c % 4 * 64 + d }

  function Unpack(d: seq<Sextet>): seq<Byte> {
    if |d| < 2 then []
    else if |d| == 2 then [Byte1(d[0], d[1])]
    else if |d| == 3 then [Byte1(d[0], d[1]), Byte2(d[1], d[2])]
    else [Byte1(d[0], d[1]), Byte2(d[1], d[2]), Byte3(d[2], d[3])] + Unpack(d[4..])
  }

  /** DecodeString: a single left-over digit carries no whole byte and is an error. */
  function Decode(s: string): Option<seq<Byte>> {
    match Digits(s)
    case None => None
    case Some(d) => if |d| % 4 == 1 then None else Some(Unpack(d))
  }

  function Pack(b: seq<Byte>): seq<Sextet> {
    if b == [] then []
    else if |b| == 1 then [b[0] / 4, b[0] % 4 * 16]
    else if |b| == 2 then [b[0] / 4, b[0] % 4 * 16 + b[1] / 16, b[1] % 16 * 4]
    else [b[0] / 4, b[0] % 4 * 16 + b[1] / 16, b[1] % 16 * 4 + b[2] / 64, b[2] % 64] + Pack(b[3..])
  }

  function Letters(d: seq<Sextet>): (s: string)
    ensures |s| == |d|
  {
    seq(|d|, i requires 0 <= i < |d| => Letter(d[i]))
  }

  /** The encoding a key issuer produces (section 2 of RFC 7515). */
  function Encode(b: seq<Byte>): string { Letters(Pack(b)) }

  lemma DigitOfLetter(d: Sextet)
    ensures InAlphabet(Letter(d)) && !Skipped(Letter(d)) && Digit(Letter(d)) == d
  {
  }

  lemma {:induction false} DigitsOfLetters(d: seq<Sextet>)
    ensures Digits(Letters(d)) == Some(d)
  {
    if d != [] {
      DigitOfLetter(d[0]);
      assert Letters(d)[1..] == Letters(d[1..]);
      DigitsOfLetters(d[1..]);
      assert [d[0]] + d[1..] == d;
    }
  }

  lemma {:induction false} UnpackOfPack(b: seq<Byte>)
    ensures |Pack(b)| % 4 != 1 && Unpack(Pack(b)) == b
  {
    if |b| > 2 {
      UnpackOfPack(b[3..]);
      assert Pack(b)[4..] == Pack(b[3..]);
      assert b == b[..3] + b[3..];
    }
  }

  /** Every byte string survives encoding and decoding. */
  lemma RoundTrip(b: seq<Byte>)
    ensures Decode(Encode(b)) == Some(b)
  {
    DigitsOfLetters(Pack(b));
    UnpackOfPack(b);
  }

  /** The number of alphabet characters in a text. */
  function CountLetters(s: string): nat {
    if s == [] then 0 else (if InAlphabet(s[0]) then 1 else 0) + CountLetters(s[1..])
  }

  lemma {:induction false} DigitsSucceedExactly(s: string)
    ensures Digits(s).Some? <==> forall i :: 0 <= i < |s| ==> InAlphabet(s[i]) || Skipped(s[i])
    ensures Digits(s).Some? ==> |Digits(s).value| == CountLetters(s)
  {
    if s != [] {
      DigitsSucceedExactly(s[1..]);
      assert forall i :: 1 <= i < |s| ==> s[i] == s[1..][i - 1];
    }
  }

  lemma {:induction false} UnpackLength(d: seq<Sextet>)
    ensures |Unpack(d)| == |d| * 3 / 4
  {
    if |d| > 3 {
      UnpackLength(d[4..]);
    }
  }

  /** Exactly which texts decode to at least one byte: only alphabet characters and line breaks,
      and at least two of the former, not one more than a multiple of four. */
  lemma DecodesToBytesExactly(s: string)
    ensures (Decode(s).Some? && Decode(s).value != []) <==>
            ((forall i :: 0 <= i < |s| ==> InAlphabet(s[i]) || Skipped(s[i]))
             && CountLetters(s) >= 2 && CountLetters(s) % 4 != 1)
  {
    DigitsSucceedExactly(s);
    if Digits(s).Some? {
      UnpackLength(Digits(s).value);
    }
  }
}
