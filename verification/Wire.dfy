/** The browser's hand-written protobuf codec: tagged base-128 records, last value wins. */
module Wire {
  import opened Wrappers
  import opened Utf8

  datatype Value = Str(chars: seq<Scalar>) | Num(number: int)

  /** Fields 1 to 13 have a number on the wire; `status` has none and stays in the browser. */
  type Message = map<int, Value>

  const FIRST := 1
  const LAST := 13
  const STATUS := 14
  const STRINGS: set<int> := {1, 2, 4, 5, 6, 8, 10, 11, 12}
  const TWO53 := 0x20_0000_0000_0000
  const TWO31 := 0x8000_0000
  const TWO32 := 0x1_0000_0000

  datatype DecodeError = InvalidVarint | InvalidLength | UnsupportedField

  // ---------- JavaScript numbers ----------

  /** The gap between neighbouring doubles around `v`. */
  function Gap(v: nat): (g: nat)
    ensures g >= 1
  {
    if v < TWO53 then 1 else 2 * Gap(v / 2)
  }

  /** The nearest double, ties to the even mantissa. */
  function ToNumber(v: nat): nat
  {
    var g := Gap(v);
    var q, r := v / g, v % g;
    if 2 * r < g || (2 * r == g && q % 2 == 0) then q * g else (q + 1) * g
  }

  lemma {:induction false} GapIs(v: nat)
    ensures v < TWO53 * Gap(v) && (Gap(v) == 1 || TWO53 * Gap(v) <= 2 * v)
  {
    if v >= TWO53 {
      GapIs(v / 2);
    }
  }

  /**
   A double has 53 significant bits: numbers below 2^53 stay, the others go to the nearest multiple of the gap that
   leaves that many, and from the middle to the even one.
   */
  lemma NearestDouble(v: nat) returns (n: nat)
    ensures var g, d := Gap(v), ToNumber(v);
            && v < TWO53 * g && (g == 1 || TWO53 * g <= 2 * v)
            && d == n * g && 2 * d <= 2 * v + g && 2 * v <= 2 * d + g
            && (2 * d == 2 * v + g || 2 * v == 2 * d + g ==> n % 2 == 0)
  {
    GapIs(v);
    n := Rounded(v, Gap(v));
  }

  lemma Rounded(v: nat, g: nat) returns (n: nat)
    requires g > 0
    ensures var q, r := v / g, v % g;
            var d := if 2 * r < g || (2 * r == g && q % 2 == 0) then q * g else (q + 1) * g;
            && d == n * g && 2 * d <= 2 * v + g && 2 * v <= 2 * d + g
            && (2 * d == 2 * v + g || 2 * v == 2 * d + g ==> n % 2 == 0)
  {
    var q, r := v / g, v % g;
    var below := q * g;
    assert v == below + r && 0 <= r < g;
    assert (q + 1) * g == below + g;
    n := if 2 * r < g || (2 * r == g && q % 2 == 0) then q else q + 1;
  }

  lemma SmallIsExact(v: nat)
    requires v < TWO53
    ensures ToNumber(v) == v
  {
  }

  /** Bit operators first reduce to a signed 32-bit integer. */
  function ToInt32(v: nat): int
  {
    var w := v % TWO32;
    if w >= TWO31 then w - TWO32 else w
  }

  function FieldOf(tag: nat): int
  {
    ToInt32(tag) / 8
  }

  function WireType(tag: nat): nat
  {
    ToInt32(tag) % 8
  }

  // ---------- what the types promise ----------

  /** The declared type of each field; a number is an exact double, a string fits into memory. */
  predicate WellTyped(m: Message)
  {
    forall f | f in m :: FIRST <= f <= STATUS && FieldTyped(f, m[f])
  }

  predicate FieldTyped(f: int, v: Value)
  {
    if f in STRINGS || f == STATUS then v.Str? && |Utf8.Encode(v.chars)| < TWO53
    else
      && v.Num?
      && ToNumber(if v.number < 0 then -v.number else v.number) == if v.number < 0 then -v.number else v.number
  }

  // ---------- varints ----------

  function Varint(n: nat): (b: seq<Byte>)
    ensures |b| > 0
  {
    if n > 127 then [n % 128 + 128] + Varint(n / 128) else [n]
  }

  /** The little-endian base-128 value. */
  function BaseValue(b: seq<Byte>): nat
  {
    if |b| == 0 then 0 else b[0] % 128 + 128 * BaseValue(b[1..])
  }

  /** At most ten bytes, of which exactly the last has the top bit clear. */
  predicate IsVarint(b: seq<Byte>)
  {
    1 <= |b| <= 10 && b[|b| - 1] < 128 && forall i | 0 <= i < |b| - 1 :: b[i] >= 128
  }

  function NumberOf(b: seq<Byte>): nat
  {
    ToNumber(BaseValue(b))
  }

  function Pow128(n: nat): (p: nat)
    ensures p >= 1
  {
    if n == 0 then 1 else 128 * Pow128(n - 1)
  }

  lemma {:induction false} VarintLength(n: nat, k: nat)
    requires k >= 1
    ensures |Varint(n)| <= k <==> n < Pow128(k)
    decreases k
  {
    assert Pow128(1) == 128 by { assert Pow128(0) == 1; }
    if k > 1 && n > 127 {
      VarintLength(n / 128, k - 1);
    }
  }

  lemma {:induction false} VarintValue(n: nat)
    ensures BaseValue(Varint(n)) == n
    ensures Varint(n)[|Varint(n)| - 1] < 128 && forall i | 0 <= i < |Varint(n)| - 1 :: Varint(n)[i] >= 128
  {
    if n > 127 {
      VarintValue(n / 128);
      assert Varint(n)[1..] == Varint(n / 128);
    } else {
      assert Varint(n)[1..] == [];
    }
  }

  method EncodeVarint(v: int) returns (b: seq<Byte>)
    ensures b == Varint(if v < 0 then 0 else v)
  {
    var n: nat := if v < 0 then 0 else v;
    ghost var n0 := n;
    b := [];
    while n > 127
      invariant b + Varint(n) == Varint(n0)
    {
      assert b + ([n % 128 + 128] + Varint(n / 128)) == b + [n % 128 + 128] + Varint(n / 128);
      b := b + [n % 128 + 128];
      n := n / 128;
    }
    b := b + [n];
  }

  // ---------- records ----------

  datatype Record =
    | NumberRecord(tag: seq<Byte>, value: seq<Byte>)
    | StringRecord(tag: seq<Byte>, length: seq<Byte>, content: seq<Byte>)
  {
    function Raw(): seq<Byte>
    {
      if NumberRecord? then tag + value else tag + length + content
    }

    predicate WellFormed()
    {
      && IsVarint(tag)
      && (if NumberRecord? then WireType(NumberOf(tag)) == 0 && IsVarint(value)
          else WireType(NumberOf(tag)) == 2 && IsVarint(length) && |content| == NumberOf(length))
    }

    function Field(): int
    {
      FieldOf(NumberOf(tag))
    }

    function Content(): Value
    {
      if NumberRecord? then Num(NumberOf(value)) else Str(Utf8.Decode(content))
    }

    /** What the record sets; unknown fields set nothing. */
    function Sets(): Message
    {
      if FIRST <= Field() <= LAST then map[Field() := Content()] else map[]
    }
  }

  ghost predicate AllWellFormed(rs: seq<Record>)
  {
    forall i | 0 <= i < |rs| :: rs[i].WellFormed()
  }

  function RawAll(rs: seq<Record>): seq<Byte>
  {
    if |rs| == 0 then [] else rs[0].Raw() + RawAll(rs[1..])
  }

  function Merge(rs: seq<Record>): Message
  {
    if |rs| == 0 then map[] else rs[0].Sets() + Merge(rs[1..])
  }

  lemma {:induction false} MergeConcat(a: seq<Record>, b: seq<Record>)
    ensures Merge(a + b) == Merge(a) + Merge(b)
  {
    hide Record.Sets, Record.Field, Record.Content;
    if |a| == 0 {
      assert a + b == b;
    } else {
      assert (a + b)[1..] == a[1..] + b;
      MergeConcat(a[1..], b);
      OverrideAssoc(a[0].Sets(), Merge(a[1..]), Merge(b));
    }
  }

  lemma OverrideAssoc(a: Message, b: Message, c: Message)
    ensures a + b + c == a + (b + c)
  {
  }

  /** The value of a field is the one its last record carries. */
  lemma {:induction false} LastOneWins(rs: seq<Record>, f: int)
    ensures f in Merge(rs) <==> FIRST <= f <= LAST && exists i :: 0 <= i < |rs| && rs[i].Field() == f
    ensures forall i | 0 <= i < |rs| && FIRST <= f <= LAST && rs[i].Field() == f
              && (forall j | i < j < |rs| :: rs[j].Field() != f) ::
              f in Merge(rs) && Merge(rs)[f] == rs[i].Content()
  {
    hide Record.Field, Record.Content;
    if |rs| > 0 {
      var last := |rs| - 1;
      LastOneWins(rs[..last], f);
      MergeConcat(rs[..last], [rs[last]]);
      assert rs == rs[..last] + [rs[last]];
      assert [rs[last]][1..] == [];
      assert Merge([rs[last]]) == rs[last].Sets();
    }
  }

  // ---------- parsing ----------

  /** The length of the varint at the front, if one ends within `limit` bytes. */
  function VarintEnd(b: seq<Byte>, limit: nat): (n: Option<nat>)
    ensures n.Some? ==> 1 <= n.value <= limit && n.value <= |b|
  {
    if limit == 0 || |b| == 0 then None
    else if b[0] < 128 then Some(1)
    else match VarintEnd(b[1..], limit - 1)
      case None => None
      case Some(n) => Some(n + 1)
  }

  lemma {:induction false} VarintEndIs(b: seq<Byte>, limit: nat, n: nat)
    ensures VarintEnd(b, limit) == Some(n) <==>
            1 <= n <= limit && n <= |b| && b[n - 1] < 128 && forall i | 0 <= i < n - 1 :: b[i] >= 128
    decreases limit
  {
    if limit > 0 && |b| > 0 && b[0] >= 128 && n >= 1 {
      VarintEndIs(b[1..], limit - 1, n - 1);
      if 1 <= n <= limit && n <= |b| && b[n - 1] < 128 && (forall i | 0 <= i < n - 1 :: b[i] >= 128) {
        forall i | 0 <= i < n - 2 ensures b[1..][i] >= 128 { assert b[1..][i] == b[i + 1]; }
      }
      if VarintEnd(b, limit) == Some(n) {
        forall i | 0 <= i < n - 1 ensures b[i] >= 128 { if i > 0 { assert b[i] == b[1..][i - 1]; } }
      }
    }
  }

  function FirstVarint(b: seq<Byte>): (v: Option<seq<Byte>>)
    ensures v.Some? ==> IsVarint(v.value) && v.value <= b
  {
    match VarintEnd(b, 10)
    case None => None
    case Some(n) =>
      VarintEndIs(b, 10, n);
      Some(b[..n])
  }

  /** The varint at the front of the input is unique. */
  lemma FirstVarintIs(v: seq<Byte>, rest: seq<Byte>)
    requires IsVarint(v)
    ensures FirstVarint(v + rest) == Some(v)
  {
    var b := v + rest;
    forall i | 0 <= i < |v| - 1 ensures b[i] >= 128 { assert b[i] == v[i]; }
    assert b[|v| - 1] == v[|v| - 1];
    VarintEndIs(b, 10, |v|);
    assert b[..|v|] == v;
  }

  function StringRecordAfter(tag: seq<Byte>, length: seq<Byte>, rest: seq<Byte>): Result<Record, DecodeError>
  {
    var size := NumberOf(length);
    if size > |rest| then Failure(InvalidLength) else Success(StringRecord(tag, length, rest[..size]))
  }

  function NextRecord(b: seq<Byte>): Result<Record, DecodeError>
  {
    match FirstVarint(b)
    case None => Failure(InvalidVarint)
    case Some(tag) =>
      var rest := b[|tag|..];
      if WireType(NumberOf(tag)) == 0 then
        match FirstVarint(rest)
        case None => Failure(InvalidVarint)
        case Some(value) => Success(NumberRecord(tag, value))
      else if WireType(NumberOf(tag)) == 2 then
        match FirstVarint(rest)
        case None => Failure(InvalidVarint)
        case Some(length) => StringRecordAfter(tag, length, rest[|length|..])
      else Failure(UnsupportedField)
  }

  lemma PrefixGrows(a: seq<Byte>, v: seq<Byte>, b: seq<Byte>)
    requires a <= b && v <= b[|a|..]
    ensures a + v <= b
  {
  }

  lemma VarintIsLong(v: seq<Byte>)
    requires IsVarint(v)
    ensures |v| > 0
  {
  }

  lemma NextRecordSound(b: seq<Byte>)
    ensures NextRecord(b).Success? ==>
            NextRecord(b).value.WellFormed() && NextRecord(b).value.Raw() <= b && |NextRecord(b).value.Raw()| > 0
  {
    hide FirstVarint, NumberOf, WireType, IsVarint;
    if NextRecord(b).Success? {
      var r := NextRecord(b).value;
      var rest := b[|r.tag|..];
      VarintIsLong(r.tag);
      if r.NumberRecord? {
        PrefixGrows(r.tag, r.value, b);
      } else {
        PrefixGrows(r.tag, r.length, b);
        assert rest[|r.length|..] == b[|r.tag + r.length|..];
        PrefixGrows(r.tag + r.length, r.content, b);
      }
    }
  }

  /** A well-formed record at the front is the one that is read, whatever follows. */
  lemma NextRecordComplete(r: Record, rest: seq<Byte>)
    requires r.WellFormed()
    ensures NextRecord(r.Raw() + rest) == Success(r)
  {
    hide FirstVarint, IsVarint, NumberOf, WireType, ToInt32;
    var b := r.Raw() + rest;
    if r.NumberRecord? {
      assert b == r.tag + (r.value + rest);
      FirstVarintIs(r.tag, r.value + rest);
      FirstVarintIs(r.value, rest);
      assert b[|r.tag|..] == r.value + rest;
    } else {
      assert b == r.tag + (r.length + (r.content + rest));
      FirstVarintIs(r.tag, r.length + (r.content + rest));
      FirstVarintIs(r.length, r.content + rest);
      assert b[|r.tag|..] == r.length + (r.content + rest);
      assert b[|r.tag|..][|r.length|..] == r.content + rest;
      assert (r.content + rest)[..|r.content|] == r.content;
    }
  }

  function Parse(b: seq<Byte>): Result<seq<Record>, DecodeError>
  {
    if |b| == 0 then Success([])
    else match NextRecord(b)
      case Failure(e) => Failure(e)
      case Success(r) =>
        NextRecordSound(b);
        match Parse(b[|r.Raw()|..])
        case Failure(e) => Failure(e)
        case Success(rs) => Success([r] + rs)
  }

  function DecodeBytes(b: seq<Byte>): Result<Message, DecodeError>
  {
    match Parse(b)
    case Failure(e) => Failure(e)
    case Success(rs) => Success(Merge(rs))
  }
}
