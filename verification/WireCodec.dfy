/** The loops of wire.ts, what they compute on any bytes, and when decoding undoes encoding. */
module WireCodec {
  import opened Wrappers
  import opened Utf8
  import opened Wire

  // ---------- what a decoded input is ----------

  lemma {:induction false} ParseSound(b: seq<Byte>)
    ensures Parse(b).Success? ==> AllWellFormed(Parse(b).value) && RawAll(Parse(b).value) == b
    decreases |b|
  {
    hide NextRecord, Record.WellFormed, Record.Raw;
    if Parse(b).Success? && |b| > 0 {
      NextRecordSound(b);
      var r := NextRecord(b).value;
      ParseSound(b[|r.Raw()|..]);
      assert Parse(b).value[1..] == Parse(b[|r.Raw()|..]).value;
      assert b == r.Raw() + b[|r.Raw()|..];
    }
  }

  /** Well-formed records at the front are read back in order; what follows is parsed as if it stood alone. */
  lemma {:induction false} ParseThen(rs: seq<Record>, rest: seq<Byte>)
    requires AllWellFormed(rs)
    ensures Parse(RawAll(rs) + rest) ==
            match Parse(rest) { case Failure(e) => Failure(e) case Success(more) => Success(rs + more) }
  {
    hide NextRecord, Record.WellFormed, Record.Raw;
    if |rs| == 0 {
      assert RawAll(rs) + rest == rest;
      assert Parse(rest).Success? ==> [] + Parse(rest).value == Parse(rest).value;
    } else {
      var r := rs[0];
      var tail := RawAll(rs[1..]) + rest;
      assert RawAll(rs) + rest == r.Raw() + tail;
      NextRecordComplete(r, tail);
      NextRecordSound(r.Raw() + tail);
      assert (r.Raw() + tail)[|r.Raw()|..] == tail;
      ParseThen(rs[1..], rest);
      if Parse(rest).Success? {
        assert [r] + (rs[1..] + Parse(rest).value) == rs + Parse(rest).value;
      }
    }
  }

  lemma ParseComplete(rs: seq<Record>)
    requires AllWellFormed(rs)
    ensures Parse(RawAll(rs)) == Success(rs)
  {
    ParseThen(rs, []);
    assert RawAll(rs) + [] == RawAll(rs);
    assert rs + [] == rs;
  }

  /**
   Decoding succeeds exactly on sequences of well-formed records, all bytes consumed, with the last value of each field.
   */
  lemma DecodesRecords(b: seq<Byte>, m: Message)
    ensures DecodeBytes(b) == Success(m) <==>
            exists rs: seq<Record> :: AllWellFormed(rs) && RawAll(rs) == b && Merge(rs) == m
  {
    ParseSound(b);
    if DecodeBytes(b) == Success(m) {
      assert Merge(Parse(b).value) == m;
    }
    if rs: seq<Record> :| AllWellFormed(rs) && RawAll(rs) == b && Merge(rs) == m {
      ParseComplete(rs);
    }
  }

  /** Once a prefix decodes, the whole decodes exactly when the rest does, and the rest overrides it. */
  lemma Concatenation(a: seq<Byte>, b: seq<Byte>)
    ensures DecodeBytes(a).Success? ==>
              DecodeBytes(a + b) ==
              match DecodeBytes(b) { case Failure(e) => Failure(e)
                case Success(m) => Success(DecodeBytes(a).value + m) }
  {
    ParseSound(a);
    if Parse(a).Success? {
      var rs := Parse(a).value;
      ParseThen(rs, b);
      if Parse(b).Success? {
        MergeConcat(rs, Parse(b).value);
      }
    }
  }

  // ---------- encoding ----------

  predicate Skipped(m: Message, f: int)
  {
    f !in m || m[f] == Str([])
  }

  function Sent(n: int): nat
  {
    if n < 0 then 0 else n
  }

  function FieldBytes(f: nat, v: Value): seq<Byte>
  {
    match v
    case Str(chars) => Varint(f * 8 + 2) + Varint(|Utf8.Encode(chars)|) + Utf8.Encode(chars)
    case Num(n) => Varint(f * 8) + Varint(Sent(n))
  }

  function BytesFrom(m: Message, f: nat): seq<Byte>
    decreases LAST + 1 - f
  {
    if f > LAST then [] else (if Skipped(m, f) then [] else FieldBytes(f, m[f])) + BytesFrom(m, f + 1)
  }

  function EncodeBytes(m: Message): seq<Byte>
  {
    BytesFrom(m, FIRST)
  }

  method EncodeField(f: nat, v: Value) returns (out: seq<Byte>)
    requires FIRST <= f <= LAST && FieldTyped(f, v)
    ensures out == FieldBytes(f, v)
  {
    hide Varint, Utf8.Encode;
    if f in STRINGS {
      var b := Utf8.Encode(v.chars);
      var tag := EncodeVarint(f * 8 + 2);
      var length := EncodeVarint(|b|);
      out := tag + length + b;
    } else {
      var tag := EncodeVarint(f * 8);
      var number := EncodeVarint(v.number);
      out := tag + number;
    }
  }

  /** encode */
  method Encode(m: Message) returns (out: seq<Byte>)
    requires WellTyped(m)
    ensures out == EncodeBytes(m)
  {
    hide FieldBytes, FieldTyped, BytesFrom, WellTyped, Skipped;
    out := [];
    var i: nat := 1;
    while i < 14
      invariant 1 <= i <= 14
      invariant out + BytesFrom(m, i) == EncodeBytes(m)
    {
      ghost var rest := BytesFrom(m, i + 1);
      NextField(m, i);
      if !Skipped(m, i) {
        SentIsTyped(m, i);
        var field := EncodeField(i, m[i]);
        assert out + field + rest == out + (field + rest);
        out := out + field;
      } else {
        assert [] + rest == rest;
      }
      i := i + 1;
    }
    NextField(m, i);
    assert out + [] == out;
  }

  lemma NextField(m: Message, f: nat)
    ensures BytesFrom(m, f) ==
            if f > LAST then [] else (if Skipped(m, f) then [] else FieldBytes(f, m[f])) + BytesFrom(m, f + 1)
  {
    hide FieldBytes, Skipped;
  }

  // ---------- decoding ----------

  /** read: the varint at position `p` as a double, and where it ends. */
  method Read(b: seq<Byte>, p: nat) returns (r: Result<nat, DecodeError>, next: nat)
    requires p <= |b|
    ensures match FirstVarint(b[p..])
            case None => r == Failure(InvalidVarint)
            case Some(v) => r == Success(NumberOf(v)) && next == p + |v|
  {
    hide Scaled, FirstVarint, ToNumber;
    var v: nat, shift: nat := 0, 1;
    next := p;
    var i: nat := 0;
    while i < 10 && next < |b|
      invariant 0 <= i <= 10 && next == p + i <= |b|
      invariant shift == Pow128(i) && v == BaseValue(b[p..next])
      invariant forall j | p <= j < next :: b[j] >= 128
    {
      var x := b[next];
      AppendDigit(b[p..next], x);
      assert b[p..next] + [x] == b[p..next + 1];
      next := next + 1;
      v := v + Scaled(x % 128, shift);
      if x < 128 {
        FoundVarint(b, p, i + 1);
        return Success(ToNumber(v)), next;
      }
      shift := shift * 128;
      i := i + 1;
    }
    NoVarintAt(b, p, i);
    return Failure(InvalidVarint), next;
  }

  lemma FoundVarint(b: seq<Byte>, p: nat, n: nat)
    requires 1 <= n <= 10 && p + n <= |b|
    requires b[p + n - 1] < 128 && forall j | p <= j < p + n - 1 :: b[j] >= 128
    ensures FirstVarint(b[p..]) == Some(b[p..p + n])
  {
    var v := b[p..p + n];
    FirstVarintIs(v, b[p + n..]);
    assert v + b[p + n..] == b[p..];
  }

  lemma NoVarintAt(b: seq<Byte>, p: nat, i: nat)
    requires p + i <= |b| && (i == 10 || (i < 10 && p + i == |b|))
    requires forall j | p <= j < p + i :: b[j] >= 128
    ensures FirstVarint(b[p..]) == None
  {
    forall j | 0 <= j < i ensures b[p..][j] >= 128 { assert b[p..][j] == b[p + j]; }
    NoVarint(b[p..], i);
  }

  lemma {:induction false} AppendDigit(b: seq<Byte>, x: Byte)
    ensures BaseValue(b + [x]) == BaseValue(b) + Scaled(x % 128, Pow128(|b|))
  {
    hide Scaled;
    Scale(x % 128, 1);
    if |b| == 0 {
      assert (b + [x])[1..] == [];
    } else {
      assert (b + [x])[1..] == b[1..] + [x];
      AppendDigit(b[1..], x);
      Scale(x % 128, Pow128(|b| - 1));
    }
  }

  /** A digit moved to its place: the accumulator's bits above it are still zero, so the source's `|=` adds. */
  function Scaled(x: nat, place: nat): nat
  {
    x * place
  }

  lemma Scale(x: nat, y: nat)
    ensures 128 * Scaled(x, y) == Scaled(x, 128 * y) && Scaled(x, 1) == x
  {
  }

  lemma NoVarint(b: seq<Byte>, i: nat)
    requires i == 10 <= |b| || i == |b| <= 10
    requires forall j | 0 <= j < i :: b[j] >= 128
    ensures FirstVarint(b) == None
  {
    if VarintEnd(b, 10).Some? {
      var n := VarintEnd(b, 10).value;
      VarintEndIs(b, 10, n);
    }
  }

  function Joined(done: seq<Record>, rest: Result<seq<Record>, DecodeError>): Result<seq<Record>, DecodeError>
  {
    match rest
    case Failure(e) => Failure(e)
    case Success(rs) => Success(done + rs)
  }

  lemma ParseOne(done: seq<Record>, b: seq<Byte>, r: Record, rest: seq<Byte>)
    requires |b| > 0 && NextRecord(b) == Success(r) && b == r.Raw() + rest
    ensures Joined(done, Parse(b)) == Joined(done + [r], Parse(rest))
    ensures Merge(done + [r]) == if FIRST <= r.Field() <= LAST then Merge(done)[r.Field() := r.Content()]
              else Merge(done)
  {
    hide NextRecord, Record.Raw, Record.WellFormed, Record.Field, Record.Content;
    NextRecordSound(b);
    assert b[|r.Raw()|..] == rest;
    if Parse(rest).Success? {
      assert done + ([r] + Parse(rest).value) == done + [r] + Parse(rest).value;
    }
    MergeConcat(done, [r]);
    assert [r][1..] == [];
    assert Merge([r]) == r.Sets() + map[];
  }

  lemma ParseFails(done: seq<Record>, b: seq<Byte>, e: DecodeError)
    requires |b| > 0 && NextRecord(b) == Failure(e)
    ensures Joined(done, Parse(b)) == Failure(e)
  {
  }

  lemma EndOfInput()
    ensures Parse([]) == Success([]) && Merge([]) == map[]
  {
  }

  /** decode */
  method Decode(b: seq<Byte>) returns (r: Result<Message, DecodeError>)
    ensures r == DecodeBytes(b)
  {
    EndOfInput();
    hide Parse, Merge, NextRecord, Record.Raw, Record.Field, Record.Content;
    var p: nat := 0;
    var m: Message := map[];
    ghost var done: seq<Record> := [];
    assert b[0..] == b;
    JoinNothing(Parse(b));
    while p < |b|
      invariant p <= |b|
      invariant Joined(done, Parse(b[p..])) == Parse(b) && m == Merge(done)
      decreases |b| - p
    {
      var i, v, next, failed := ReadRecord(b, p);
      if failed.Some? {
        ParseFails(done, b[p..], failed.value);
        return Failure(failed.value);
      }
      ghost var rec := NextRecord(b[p..]).value;
      ParseOne(done, b[p..], rec, b[next..]);
      done := done + [rec];
      if 1 <= i < 14 {
        m := m[i := v];
      }
      p := next;
    }
    assert b[p..] == [];
    assert done + [] == done;
    return Success(m);
  }

  lemma JoinNothing(parsed: Result<seq<Record>, DecodeError>)
    ensures Joined([], parsed) == parsed
  {
    if parsed.Success? { assert [] + parsed.value == parsed.value; }
  }

  lemma DropDrop(b: seq<Byte>, p: nat, n: nat)
    requires p + n <= |b|
    ensures b[p..][n..] == b[p + n..]
  {
  }

  lemma NextFails(b: seq<Byte>)
    requires FirstVarint(b) == None
    ensures NextRecord(b) == Failure(InvalidVarint)
  {
  }

  lemma NextUnsupported(b: seq<Byte>, tag: seq<Byte>)
    requires FirstVarint(b) == Some(tag) && WireType(NumberOf(tag)) != 0 && WireType(NumberOf(tag)) != 2
    ensures NextRecord(b) == Failure(UnsupportedField)
  {
  }

  lemma NumberNext(b: seq<Byte>, tag: seq<Byte>)
    requires FirstVarint(b) == Some(tag) && WireType(NumberOf(tag)) == 0
    ensures match FirstVarint(b[|tag|..])
            case None => NextRecord(b) == Failure(InvalidVarint)
            case Some(v) =>
              && NextRecord(b) == Success(NumberRecord(tag, v))
              && |tag| + |v| <= |b| && b == tag + v + b[|tag| + |v|..]
  {
    hide FirstVarint, IsVarint, NumberOf, WireType;
    if FirstVarint(b[|tag|..]).Some? {
      PrefixGrows(tag, FirstVarint(b[|tag|..]).value, b);
    }
  }

  lemma StringNext(b: seq<Byte>, tag: seq<Byte>)
    requires FirstVarint(b) == Some(tag) && WireType(NumberOf(tag)) == 2
    ensures match FirstVarint(b[|tag|..])
            case None => NextRecord(b) == Failure(InvalidVarint)
            case Some(l) =>
              && |tag| + |l| <= |b|
              && var start, n := |tag| + |l|, NumberOf(l);
                 if start + n > |b| then NextRecord(b) == Failure(InvalidLength)
                 else
                   && NextRecord(b) == Success(StringRecord(tag, l, b[start..start + n]))
                   && b == tag + l + b[start..start + n] + b[start + n..]
  {
    hide FirstVarint, IsVarint, NumberOf, WireType;
    if FirstVarint(b[|tag|..]).Some? {
      var l := FirstVarint(b[|tag|..]).value;
      PrefixGrows(tag, l, b);
      DropDrop(b, |tag|, |l|);
      var start, n := |tag| + |l|, NumberOf(l);
      if start + n <= |b| {
        assert b[start..][..n] == b[start..start + n];
      }
    }
  }

  /** One turn of the decoding loop: field number, value and the position after it, or what went wrong. */
  method ReadRecord(b: seq<Byte>, p: nat) returns (i: int, v: Value, next: nat, failed: Option<DecodeError>)
    requires p < |b|
    ensures match NextRecord(b[p..])
            case Failure(e) => failed == Some(e)
            case Success(rec) =>
              && failed == None && i == rec.Field() && v == rec.Content()
              && p < next <= |b| && b[p..] == rec.Raw() + b[next..]
  {
    hide NumberOf, ToInt32, Utf8.Decode, FirstVarint, NextRecord;
    i, v, next, failed := 0, Num(0), p, None;
    var tag, q := Read(b, p);
    if tag.Failure? {
      NextFails(b[p..]);
      return i, v, next, Some(tag.error);
    }
    ghost var rest := b[p..];
    ghost var t := FirstVarint(rest).value;
    DropDrop(b, p, |t|);
    i := ToInt32(tag.value) / 8;
    var wt := ToInt32(tag.value) % 8;
    if wt == 0 {
      NumberNext(rest, t);
      var number;
      number, next := Read(b, q);
      if number.Failure? {
        return i, v, next, Some(number.error);
      }
      DropDrop(b, p, next - p);
      v := Num(number.value);
    } else if wt == 2 {
      StringNext(rest, t);
      var n, start := Read(b, q);
      if n.Failure? {
        return i, v, next, Some(n.error);
      }
      if start + n.value > |b| {
        return i, v, next, Some(InvalidLength);
      }
      next := start + n.value;
      DropDrop(b, p, next - p);
      assert b[start..next] == rest[start - p..next - p];
      v := Str(Utf8.Decode(b[start..next]));
    } else {
      NextUnsupported(rest, t);
      return i, v, next, Some(UnsupportedField);
    }
  }

  // ---------- round trip ----------

  /** What the other side gets for a field. */
  function Received(v: Value): Value
  {
    match v
    case Str(chars) => Str(Utf8.StripMark(chars))
    case Num(n) => Num(Sent(n))
  }

  function ReceivedFrom(m: Message, f: nat): Message
  {
    map i | i in m && f <= i <= LAST && !Skipped(m, i) :: Received(m[i])
  }

  /** Numbers of up to 70 bits fit into the ten bytes that `read` accepts. */
  predicate Fits(v: Value)
  {
    v.Num? ==> v.number < Pow128(10)
  }

  lemma VarintIsVarint(n: nat)
    requires n < Pow128(10) && ToNumber(n) == n
    ensures IsVarint(Varint(n)) && NumberOf(Varint(n)) == n
  {
    VarintLength(n, 10);
    VarintValue(n);
  }

  lemma Pow128Of10()
    ensures Pow128(10) > TWO53
  {
    assert Pow128(7) == 562949953421312;
    assert Pow128(8) == 72057594037927936;
    assert Pow128(10) == 128 * (128 * Pow128(8));
  }

  lemma SmallVarint(n: nat)
    requires n < TWO53
    ensures IsVarint(Varint(n)) && NumberOf(Varint(n)) == n
  {
    Pow128Of10();
    VarintIsVarint(n);
  }

  lemma TagFields(f: nat, wt: nat)
    requires FIRST <= f <= LAST && wt < 8
    ensures FieldOf(f * 8 + wt) == f && WireType(f * 8 + wt) == wt
  {
  }

  function RecordOf(f: nat, v: Value): Record
  {
    match v
    case Str(chars) => StringRecord(Varint(f * 8 + 2), Varint(|Utf8.Encode(chars)|), Utf8.Encode(chars))
    case Num(n) => NumberRecord(Varint(f * 8), Varint(Sent(n)))
  }

  lemma RecordOfIs(f: nat, v: Value)
    requires FIRST <= f <= LAST && FieldTyped(f, v) && Fits(v)
    ensures RecordOf(f, v).WellFormed() && RecordOf(f, v).Raw() == FieldBytes(f, v)
    ensures RecordOf(f, v).Sets() == map[f := Received(v)]
  {
    hide Varint, NumberOf, IsVarint, FieldOf, WireType, Utf8.Encode, Utf8.Decode;
    TagFields(f, if v.Str? then 2 else 0);
    SmallVarint(f * 8 + if v.Str? then 2 else 0);
    if v.Str? {
      SmallVarint(|Utf8.Encode(v.chars)|);
      Utf8.RoundTrip(v.chars);
    } else {
      SmallIsExact(0);
      Pow128Of10();
      VarintIsVarint(Sent(v.number));
    }
  }

  lemma Single(r: Record)
    requires r.WellFormed()
    ensures DecodeBytes(r.Raw()) == Success(r.Sets())
  {
    hide Record.WellFormed, Record.Raw, Record.Sets, Parse;
    assert [r][1..] == [];
    assert RawAll([r]) == r.Raw() + [] == r.Raw();
    ParseComplete([r]);
    assert Merge([]) == map[];
    assert Merge([r]) == r.Sets() + map[] == r.Sets();
  }

  lemma OneRecord(f: nat, v: Value)
    requires FIRST <= f <= LAST && FieldTyped(f, v) && Fits(v)
    ensures DecodeBytes(FieldBytes(f, v)) == Success(map[f := Received(v)])
  {
    hide *;
    RecordOfIs(f, v);
    Single(RecordOf(f, v));
  }

  /** A longer number makes the receiver give up. */
  lemma TooLong(f: nat, n: int, rest: seq<Byte>)
    requires FIRST <= f <= LAST && n >= Pow128(10)
    ensures DecodeBytes(FieldBytes(f, Num(n)) + rest) == Failure(InvalidVarint)
  {
    hide Varint, NumberOf, IsVarint, FieldOf, WireType, Merge, Pow128, BaseValue, Gap, ToInt32, FirstVarint,
      StringRecordAfter;
    TagFields(f, 0);
    SmallVarint(f * 8);
    var tag, body := Varint(f * 8), Varint(n);
    var b := FieldBytes(f, Num(n)) + rest;
    assert b == tag + (body + rest);
    FirstVarintIs(tag, body + rest);
    assert b[|tag|..] == body + rest;
    VarintLength(n, 10);
    VarintValue(n);
    forall j | 0 <= j < 10 ensures (body + rest)[j] >= 128 { assert (body + rest)[j] == body[j]; }
    NoVarint(body + rest, 10);
  }

  predicate FitFrom(m: Message, f: nat)
  {
    forall i | i in m && f <= i <= LAST :: Fits(m[i])
  }

  lemma ReceivedSplit(m: Message, f: nat)
    requires f <= LAST
    ensures ReceivedFrom(m, f) == (if Skipped(m, f) then map[] else map[f := Received(m[f])]) + ReceivedFrom(m, f + 1)
  {
    hide Received;
  }

  lemma FitSplit(m: Message, f: nat)
    requires f <= LAST
    ensures FitFrom(m, f) <==> (f in m ==> Fits(m[f])) && FitFrom(m, f + 1)
  {
    hide Fits;
  }

  /** A field that is sent, in front of the rest. */
  lemma FieldThen(m: Message, f: nat, tail: seq<Byte>)
    requires FIRST <= f <= LAST && !Skipped(m, f) && FieldTyped(f, m[f])
    requires DecodeBytes(tail) == if FitFrom(m, f + 1) then Success(ReceivedFrom(m, f + 1)) else Failure(InvalidVarint)
    ensures DecodeBytes(FieldBytes(f, m[f]) + tail) ==
            if FitFrom(m, f) then Success(ReceivedFrom(m, f)) else Failure(InvalidVarint)
  {
    hide DecodeBytes, FieldBytes, FieldTyped, FitFrom, ReceivedFrom, Received, Pow128;
    ReceivedSplit(m, f);
    FitSplit(m, f);
    if Fits(m[f]) {
      OneRecord(f, m[f]);
      Concatenation(FieldBytes(f, m[f]), tail);
    } else {
      TooLong(f, m[f].number, tail);
    }
  }

  lemma SentIsTyped(m: Message, f: nat)
    requires WellTyped(m) && !Skipped(m, f)
    ensures f in m && FieldTyped(f, m[f])
  {
    hide FieldTyped;
  }

  lemma NothingLeft(m: Message)
    ensures DecodeBytes([]) == Success(ReceivedFrom(m, LAST + 1)) && FitFrom(m, LAST + 1)
  {
    assert ReceivedFrom(m, LAST + 1) == map[];
    assert Parse([]) == Success([]) && Merge([]) == map[];
  }

  lemma {:induction false} DecodesFrom(m: Message, f: nat)
    requires WellTyped(m) && FIRST <= f <= LAST + 1
    ensures DecodeBytes(BytesFrom(m, f)) == if FitFrom(m, f) then Success(ReceivedFrom(m, f))
              else Failure(InvalidVarint)
    decreases LAST + 1 - f
  {
    hide DecodeBytes, FieldBytes, FieldTyped, FitFrom, ReceivedFrom, Received, Fits, Skipped, WellTyped;
    if f > LAST {
      NothingLeft(m);
    } else {
      DecodesFrom(m, f + 1);
      var tail := BytesFrom(m, f + 1);
      if Skipped(m, f) {
        assert [] + tail == tail;
        FitsWhenSkipped(m, f);
        SkippedIsNotReceived(m, f);
      } else {
        SentIsTyped(m, f);
        FieldThen(m, f, tail);
      }
    }
  }

  lemma SkippedIsNotReceived(m: Message, f: nat)
    requires f <= LAST && Skipped(m, f)
    ensures ReceivedFrom(m, f) == ReceivedFrom(m, f + 1)
  {
    hide Received;
  }

  lemma FitsWhenSkipped(m: Message, f: nat)
    requires f <= LAST && Skipped(m, f)
    ensures FitFrom(m, f) <==> FitFrom(m, f + 1)
  {
    FitSplit(m, f);
  }

  /** What arrives for any well-typed message: marks stripped, negatives at zero, empty strings and the status gone. */
  lemma Arrives(m: Message)
    requires WellTyped(m)
    ensures DecodeBytes(EncodeBytes(m)) ==
            if FitFrom(m, FIRST) then Success(ReceivedFrom(m, FIRST)) else Failure(InvalidVarint)
  {
    DecodesFrom(m, FIRST);
  }

  /** What a sender can check: no status, no empty string, no string starting with U+FEFF, numbers of 0 to 70 bits. */
  predicate Restorable(m: Message)
  {
    forall f | f in m :: f != STATUS && RestorableValue(m[f])
  }

  predicate RestorableValue(v: Value)
  {
    match v
    case Str(chars) => |chars| > 0 && chars[0] != BYTE_ORDER_MARK
    case Num(n) => 0 <= n < Pow128(10)
  }

  /** Decoding undoes encoding exactly for these messages. */
  lemma RoundTrip(m: Message)
    requires WellTyped(m)
    ensures DecodeBytes(EncodeBytes(m)) == Success(m) <==> Restorable(m)
  {
    hide DecodeBytes, EncodeBytes, Pow128, FieldTyped;
    Arrives(m);
    if Restorable(m) {
      forall f | f in m ensures Fits(m[f]) { assert RestorableValue(m[f]); }
      forall f | f in m ensures f in ReceivedFrom(m, FIRST) && ReceivedFrom(m, FIRST)[f] == m[f] {
        assert RestorableValue(m[f]) && FIRST <= f <= LAST;
      }
      assert ReceivedFrom(m, FIRST) == m;
    } else if FitFrom(m, FIRST) && ReceivedFrom(m, FIRST) == m {
      forall f | f in m ensures f != STATUS && RestorableValue(m[f]) {
        assert f in ReceivedFrom(m, FIRST);
        assert Received(m[f]) == m[f];
        assert m[f].Str? ==> |StripMark(m[f].chars)| == |m[f].chars|;
      }
    }
  }

  /** Fields that are not sent add nothing. */
  lemma {:induction false} SkipTo(m: Message, f: nat, g: nat)
    requires f <= g <= LAST + 1 && forall i | f <= i < g :: Skipped(m, i)
    ensures BytesFrom(m, f) == BytesFrom(m, g)
    decreases g - f
  {
    hide FieldBytes, Skipped;
    if f < g {
      SkipTo(m, f + 1, g);
      assert [] + BytesFrom(m, f + 1) == BytesFrom(m, f + 1);
    }
  }

  /** The bytes of number 300 and body "Hi", as the protobuf encoding has them. */
  lemma KnownBytes()
    ensures EncodeBytes(map[3 := Num(300), 8 := Str([0x48, 0x69])]) == [0x18, 0xAC, 0x02, 0x42, 0x02, 0x48, 0x69]
  {
    hide BytesFrom;
    var m: Message := map[3 := Num(300), 8 := Str([0x48, 0x69])];
    Utf8.Encodes(0x48, [0x69]);
    Utf8.Encodes(0x69, []);
    assert Utf8.Encode([0x48, 0x69]) == [0x48, 0x69];
    assert FieldBytes(3, m[3]) == [0x18] + [0xAC, 0x02];
    assert FieldBytes(8, m[8]) == [0x42] + [0x02] + [0x48, 0x69];
    SkipTo(m, 9, 14);
    NextField(m, 14);
    NextField(m, 8);
    SkipTo(m, 4, 8);
    NextField(m, 3);
    SkipTo(m, 1, 3);
  }

  /** An input that is not restored: a body that begins with a byte order mark arrives without it. */
  lemma MarkIsLost()
    ensures var m := map[8 := Str([BYTE_ORDER_MARK, 0x41])];
            WellTyped(m) && DecodeBytes(EncodeBytes(m)) == Success(map[8 := Str([0x41])])
  {
    hide DecodeBytes, EncodeBytes;
    var s: seq<Scalar> := [BYTE_ORDER_MARK, 0x41];
    var m: Message := map[8 := Str(s)];
    MarkedIsTyped();
    assert FieldTyped(8, m[8]);
    Arrives(m);
    assert s[1..] == [0x41];
    assert Received(m[8]) == Str([0x41]);
    assert ReceivedFrom(m, FIRST) == map[8 := Str([0x41])];
  }

  lemma MarkedIsTyped()
    ensures FieldTyped(8, Str([BYTE_ORDER_MARK, 0x41]))
  {
    var s: seq<Scalar> := [BYTE_ORDER_MARK, 0x41];
    assert s[1..] == [0x41] && s[1..][1..] == [];
    assert |Utf8.Encode(s)| == |EncodeScalar(s[0])| + |Utf8.Encode(s[1..])|;
  }
}
