/**
 UTF-8 as the browser's TextEncoder and TextDecoder apply it (the WHATWG Encoding Standard, sections "UTF-8 encoder" and
 "UTF-8 decoder"): strings are sequences of Unicode scalar values, malformed input becomes U+FFFD, and the decoder drops
 a leading byte order mark.
 */
module Utf8 {
  type Byte = b: int | 0 <= b < 256

  predicate IsScalar(c: int)
  {
    0 <= c < 0xD800 || 0xE000 <= c < 0x110000
  }

  type Scalar = c: int | 0 <= c < 0xD800 || 0xE000 <= c < 0x110000

  const BYTE_ORDER_MARK: Scalar := 0xFEFF
  const REPLACEMENT: Scalar := 0xFFFD

  function EncodeScalar(c: Scalar): (b: seq<Byte>)
    ensures |b| > 0
  {
    if c < 0x80 then
      var b0: Byte := c;
      [b0]
    else if c < 0x800 then Two(c / 64, c % 64)
    else if c < 0x10000 then Three(c / 64 / 64, c / 64 % 64, c % 64)
    else
      assert c / 64 / 64 / 64 <= 4;
      Four(c / 64 / 64 / 64, c / 64 / 64 % 64, c / 64 % 64, c % 64)
  }

  function Two(h: int, l: int): seq<Byte>
    requires 0 <= h < 32 && 0 <= l < 64
  {
    [0xC0 + h, 0x80 + l]
  }

  function Three(h: int, m: int, l: int): seq<Byte>
    requires 0 <= h < 16 && 0 <= m < 64 && 0 <= l < 64
  {
    [0xE0 + h, 0x80 + m, 0x80 + l]
  }

  function Four(h: int, n: int, m: int, l: int): seq<Byte>
    requires 0 <= h <= 4 && 0 <= n < 64 && 0 <= m < 64 && 0 <= l < 64
  {
    [0xF0 + h, 0x80 + n, 0x80 + m, 0x80 + l]
  }

  function Encode(s: seq<Scalar>): (b: seq<Byte>)
    ensures |s| > 0 ==> |b| > 0
  {
    if |s| == 0 then [] else EncodeScalar(s[0]) + Encode(s[1..])
  }

  /** A partly read scalar: the bits so far, how many bytes are missing and the range the next one must lie in. */
  datatype State = State(bits: nat, missing: nat, lower: Byte, upper: Byte)

  const START := State(0, 0, 0x80, 0xBF)

  function Pow64(n: nat): nat
  {
    if n == 0 then 1 else 64 * Pow64(n - 1)
  }

  /** Every way to complete the scalar gives a scalar. */
  predicate Completable(s: State)
  {
    && s.missing <= 3 && 0x80 <= s.lower <= s.upper <= 0xBF
    && (s.missing > 0 ==>
          var low := (s.bits * 64 + s.lower - 0x80) * Pow64(s.missing - 1);
          var high := (s.bits * 64 + s.upper - 0x7F) * Pow64(s.missing - 1) - 1;
          high < 0xD800 || (0xE000 <= low && high < 0x110000))
  }

  /** The state after a lead byte of two, three or four bytes. */
  function Lead(b: Byte): (s: State)
    requires 0xC2 <= b <= 0xF4
    ensures Completable(s) && s.missing > 0
  {
    assert Pow64(0) == 1 && Pow64(1) == 64 && Pow64(2) == 4096;
    if b <= 0xDF then State(b - 0xC0, 1, 0x80, 0xBF)
    else if b <= 0xEF then State(b - 0xE0, 2, if b == 0xE0 then 0xA0 else 0x80, if b == 0xED then 0x9F else 0xBF)
    else State(b - 0xF0, 3, if b == 0xF0 then 0x90 else 0x80, if b == 0xF4 then 0x8F else 0xBF)
  }

  function Continue(s: State, b: Byte): (t: State)
    requires Completable(s) && s.missing > 0 && s.lower <= b <= s.upper
    ensures Completable(t) && (t.missing == 0 ==> IsScalar(t.bits))
  {
    assert Pow64(0) == 1 && Pow64(1) == 64 && Pow64(2) == 4096;
    State(s.bits * 64 + b - 0x80, s.missing - 1, 0x80, 0xBF)
  }

  function DecodeFrom(s: State, b: seq<Byte>): seq<Scalar>
    requires Completable(s)
    decreases |b|, s.missing
  {
    if |b| == 0 then (if s.missing == 0 then [] else [REPLACEMENT])
    else if s.missing == 0 then
      if b[0] < 0x80 then [b[0]] + DecodeFrom(START, b[1..])
      else if 0xC2 <= b[0] <= 0xF4 then DecodeFrom(Lead(b[0]), b[1..])
      else [REPLACEMENT] + DecodeFrom(START, b[1..])
    else if s.lower <= b[0] <= s.upper then
      var t := Continue(s, b[0]);
      if t.missing == 0 then [t.bits] + DecodeFrom(START, b[1..]) else DecodeFrom(t, b[1..])
    else [REPLACEMENT] + DecodeFrom(START, b)
  }

  function StripMark(s: seq<Scalar>): seq<Scalar>
  {
    if |s| > 0 && s[0] == BYTE_ORDER_MARK then s[1..] else s
  }

  function Decode(b: seq<Byte>): seq<Scalar>
  {
    StripMark(DecodeFrom(START, b))
  }

  /** A continuation byte in range is consumed. */
  lemma ContinueFrom(s: State, b: Byte, rest: seq<Byte>)
    requires Completable(s) && s.missing > 0 && s.lower <= b <= s.upper
    ensures var t := Continue(s, b);
            DecodeFrom(s, [b] + rest) == if t.missing == 0 then [t.bits] + DecodeFrom(START, rest)
              else DecodeFrom(t, rest)
  {
    assert ([b] + rest)[1..] == rest;
  }

  lemma LeadFrom(b: Byte, rest: seq<Byte>)
    requires 0xC2 <= b <= 0xF4
    ensures DecodeFrom(START, [b] + rest) == DecodeFrom(Lead(b), rest)
  {
    assert ([b] + rest)[1..] == rest;
  }

  lemma DecodeTwo(h: int, l: int, rest: seq<Byte>)
    requires 2 <= h < 32 && 0 <= l < 64
    ensures DecodeFrom(START, Two(h, l) + rest) == [h * 64 + l] + DecodeFrom(START, rest)
  {
    hide DecodeFrom, Completable, Pow64;
    LeadFrom(0xC0 + h, [0x80 + l] + rest);
    ContinueFrom(Lead(0xC0 + h), 0x80 + l, rest);
    assert Two(h, l) + rest == [0xC0 + h] + ([0x80 + l] + rest);
  }

  lemma DecodeThree(h: int, m: int, l: int, rest: seq<Byte>)
    requires 0 <= h < 16 && 0 <= m < 64 && 0 <= l < 64
    requires h * 64 + m >= 32 && IsScalar(h * 4096 + m * 64 + l)
    ensures DecodeFrom(START, Three(h, m, l) + rest) == [h * 4096 + m * 64 + l] + DecodeFrom(START, rest)
  {
    hide DecodeFrom, Completable, Pow64;
    LeadFrom(0xE0 + h, [0x80 + m] + ([0x80 + l] + rest));
    ContinueFrom(Lead(0xE0 + h), 0x80 + m, [0x80 + l] + rest);
    ContinueFrom(Continue(Lead(0xE0 + h), 0x80 + m), 0x80 + l, rest);
    assert Three(h, m, l) + rest == [0xE0 + h] + ([0x80 + m] + ([0x80 + l] + rest));
  }

  lemma DecodeFour(h: int, n: int, m: int, l: int, rest: seq<Byte>)
    requires 0 <= h <= 4 && 0 <= n < 64 && 0 <= m < 64 && 0 <= l < 64
    requires 16 <= h * 64 + n < 0x110
    ensures IsScalar(h * 262144 + n * 4096 + m * 64 + l)
    ensures DecodeFrom(START, Four(h, n, m, l) + rest) == [h * 262144 + n * 4096 + m * 64 + l] + DecodeFrom(START, rest)
  {
    hide DecodeFrom, Completable, Pow64;
    var s1 := Lead(0xF0 + h);
    LeadFrom(0xF0 + h, [0x80 + n] + ([0x80 + m] + ([0x80 + l] + rest)));
    ContinueFrom(s1, 0x80 + n, [0x80 + m] + ([0x80 + l] + rest));
    var s2 := Continue(s1, 0x80 + n);
    ContinueFrom(s2, 0x80 + m, [0x80 + l] + rest);
    ContinueFrom(Continue(s2, 0x80 + m), 0x80 + l, rest);
    assert Four(h, n, m, l) + rest == [0xF0 + h] + ([0x80 + n] + ([0x80 + m] + ([0x80 + l] + rest)));
  }

  lemma DecodeScalar(c: Scalar, rest: seq<Byte>)
    ensures DecodeFrom(START, EncodeScalar(c) + rest) == [c] + DecodeFrom(START, rest)
  {
    hide Two, Three, Four;
    if c < 0x80 {
      assert (EncodeScalar(c) + rest)[1..] == rest;
    } else if c < 0x800 {
      DecodeTwo(c / 64, c % 64, rest);
    } else if c < 0x10000 {
      DecodeThree(c / 64 / 64, c / 64 % 64, c % 64, rest);
    } else {
      DecodeFour(c / 64 / 64 / 64, c / 64 / 64 % 64, c / 64 % 64, c % 64, rest);
    }
  }

  lemma {:induction false} DecodeThen(s: seq<Scalar>, rest: seq<Byte>)
    ensures DecodeFrom(START, Encode(s) + rest) == s + DecodeFrom(START, rest)
  {
    if |s| == 0 {
      assert Encode(s) + rest == rest;
    } else {
      assert Encode(s) + rest == EncodeScalar(s[0]) + (Encode(s[1..]) + rest);
      DecodeScalar(s[0], Encode(s[1..]) + rest);
      DecodeThen(s[1..], rest);
    }
  }

  /** A byte that cannot start a character becomes one U+FFFD. */
  lemma StrayByte(b: Byte, rest: seq<Byte>)
    requires 0x80 <= b < 0xC2 || 0xF4 < b
    ensures DecodeFrom(START, [b] + rest) == [REPLACEMENT] + DecodeFrom(START, rest)
  {
    assert ([b] + rest)[1..] == rest;
  }

  lemma Interrupted(s: State, rest: seq<Byte>)
    requires Completable(s) && s.missing > 0
    requires rest == [] || rest[0] < s.lower || s.upper < rest[0]
    ensures DecodeFrom(s, rest) == [REPLACEMENT] + DecodeFrom(START, rest)
  {
  }

  /** The next byte does not go on with a character. */
  predicate NoMore(rest: seq<Byte>)
  {
    rest == [] || rest[0] < 0x80 || 0xBF < rest[0]
  }

  lemma CutAfterOne(b: Byte, rest: seq<Byte>)
    requires 0xC2 <= b <= 0xF4 && NoMore(rest)
    ensures DecodeFrom(START, [b] + rest) == [REPLACEMENT] + DecodeFrom(START, rest)
  {
    hide DecodeFrom;
    LeadFrom(b, rest);
    Interrupted(Lead(b), rest);
  }

  lemma CutAfterTwo(b: Byte, c: Byte, rest: seq<Byte>)
    requires 0xE0 <= b <= 0xF4 && Lead(b).lower <= c <= Lead(b).upper && NoMore(rest)
    ensures DecodeFrom(START, [b] + ([c] + rest)) == [REPLACEMENT] + DecodeFrom(START, rest)
  {
    hide DecodeFrom;
    LeadFrom(b, [c] + rest);
    ContinueFrom(Lead(b), c, rest);
    Interrupted(Continue(Lead(b), c), rest);
  }

  lemma CutAfterThree(b: Byte, c: Byte, d: Byte, rest: seq<Byte>)
    requires 0xF0 <= b <= 0xF4 && Lead(b).lower <= c <= Lead(b).upper && 0x80 <= d <= 0xBF && NoMore(rest)
    ensures DecodeFrom(START, [b] + ([c] + ([d] + rest))) == [REPLACEMENT] + DecodeFrom(START, rest)
  {
    hide DecodeFrom;
    LeadFrom(b, [c] + ([d] + rest));
    ContinueFrom(Lead(b), c, [d] + rest);
    ContinueFrom(Continue(Lead(b), c), d, rest);
    Interrupted(Continue(Continue(Lead(b), c), d), rest);
  }

  /** The bytes of a character are ones that the decoder accepts. */
  lemma EncodedBytes(c: Scalar)
    ensures var b := EncodeScalar(c);
            && (|b| >= 2 ==> 0xC2 <= b[0] <= 0xF4)
            && (|b| >= 3 ==> 0xE0 <= b[0] && Lead(b[0]).lower <= b[1] <= Lead(b[0]).upper && 0x80 <= b[2] <= 0xBF)
            && (|b| >= 4 ==> 0xF0 <= b[0]) && |b| <= 4
  {
    hide Pow64;
  }

  /** A character cut short becomes one U+FFFD, and the byte that follows is read anew. */
  lemma CutShort(c: Scalar, n: nat, rest: seq<Byte>)
    requires 1 <= n < |EncodeScalar(c)| && NoMore(rest)
    ensures DecodeFrom(START, EncodeScalar(c)[..n] + rest) == [REPLACEMENT] + DecodeFrom(START, rest)
  {
    hide DecodeFrom, Lead, EncodeScalar;
    var b := EncodeScalar(c);
    EncodedBytes(c);
    if n == 1 {
      CutAfterOne(b[0], rest);
      assert b[..1] + rest == [b[0]] + rest;
    } else if n == 2 {
      CutAfterTwo(b[0], b[1], rest);
      assert b[..2] + rest == [b[0]] + ([b[1]] + rest);
    } else {
      CutAfterThree(b[0], b[1], b[2], rest);
      assert b[..3] + rest == [b[0]] + ([b[1]] + ([b[2]] + rest));
    }
  }

  /** Bytes that are no character: a byte that starts none, or the beginning of one that does not go on. */
  ghost predicate Broken(bad: seq<Byte>, rest: seq<Byte>)
  {
    || (|bad| == 1 && (0x80 <= bad[0] < 0xC2 || 0xF4 < bad[0]))
    || (NoMore(rest) && exists c: Scalar :: 0 < |bad| < |EncodeScalar(c)| && bad == EncodeScalar(c)[..|bad|])
  }

  /** Each broken stretch becomes one U+FFFD; what comes before and after it is decoded as if it stood alone. */
  lemma MalformedInput(s: seq<Scalar>, bad: seq<Byte>, rest: seq<Byte>)
    requires Broken(bad, rest)
    ensures DecodeFrom(START, Encode(s) + bad + rest) == s + [REPLACEMENT] + DecodeFrom(START, rest)
  {
    hide DecodeFrom, EncodeScalar;
    assert Encode(s) + bad + rest == Encode(s) + (bad + rest);
    DecodeThen(s, bad + rest);
    if |bad| == 1 && (0x80 <= bad[0] < 0xC2 || 0xF4 < bad[0]) {
      assert bad == [bad[0]];
      StrayByte(bad[0], rest);
    } else {
      var c: Scalar :| 0 < |bad| < |EncodeScalar(c)| && bad == EncodeScalar(c)[..|bad|];
      CutShort(c, |bad|, rest);
    }
    assert s + ([REPLACEMENT] + DecodeFrom(START, rest)) == s + [REPLACEMENT] + DecodeFrom(START, rest);
  }

  /** One character of each length: A, e acute, the euro sign and a grinning face. */
  lemma KnownBytes()
    ensures Encode([0x41, 0xE9, 0x20AC, 0x1F600]) == [0x41, 0xC3, 0xA9, 0xE2, 0x82, 0xAC, 0xF0, 0x9F, 0x98, 0x80]
  {
    Encodes(0x41, [0xE9, 0x20AC, 0x1F600]);
    Encodes(0xE9, [0x20AC, 0x1F600]);
    Encodes(0x20AC, [0x1F600]);
    Encodes(0x1F600, []);
    assert Encode([0x1F600]) == [0xF0, 0x9F, 0x98, 0x80] + [];
  }

  lemma Encodes(c: Scalar, s: seq<Scalar>)
    ensures Encode([c] + s) == EncodeScalar(c) + Encode(s)
  {
    assert ([c] + s)[1..] == s;
  }

  /** Decoding what was encoded gives the string back, less a leading byte order mark. */
  lemma RoundTrip(s: seq<Scalar>)
    ensures Decode(Encode(s)) == StripMark(s)
  {
    DecodeThen(s, []);
    assert Encode(s) + [] == Encode(s) && s + [] == s;
  }
}
