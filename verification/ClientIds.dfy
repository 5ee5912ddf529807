/**
 Whose message a success reply is about. Redis tells client ids apart exactly, the unique key of MySQL under its
 collation; a send whose id only looks different from a stored one is answered with the stored message.
 */
module ClientIds {
  import opened Acceptance
  import PushMessage

  /** Every request names one of these keys. */
  ghost predicate From(ids: iset<Key>, steps: seq<Step>)
  {
    forall i | 0 <= i < |steps| && steps[i].Start? :: steps[i].f.key in ids
  }

  /** MySQL tells the keys apart as Redis does. */
  ghost predicate Separate(fold: string -> string, ids: iset<Key>)
  {
    forall j, k | j in ids && k in ids && Folded(Init(fold), j) == Folded(Init(fold), k) :: j == k
  }

  /** The row found under the key was sent under exactly this key. */
  predicate Own(s: State, key: Key)
  {
    Folded(s, key) in s.rows && s.rows[Folded(s, key)].key == key
  }

  ghost predicate AllOwn(s: State)
  {
    forall key | key in s.accepted :: Own(s, key)
  }

  // ---------- separate ids suffice ----------

  ghost predicate RequestFrom(ids: iset<Key>, request: Request)
  {
    match request
    case Replied(key, _) => key in ids
    case Existing(asked, f) => asked in ids && f.key in ids
    case Committing(asked, f) => asked in ids && f.key in ids
    case Releasing(asked, f) => asked in ids && f.key in ids
    case Deleting(asked, f) => asked in ids && f.key in ids
    case _ => request.f.key in ids
  }

  ghost predicate AllFrom(ids: iset<Key>, s: State)
  {
    && (forall k | k in s.rows :: s.rows[k].key in ids)
    && (forall r | r in s.requests :: RequestFrom(ids, s.requests[r]))
    && (forall key | key in s.accepted :: key in ids)
  }

  lemma SaveFrom(ids: iset<Key>, s: State, r: nat, f: Frame, outcome: SaveOutcome)
    requires AllFrom(ids, s) && f.key in ids
    ensures AllFrom(ids, SaveStep(s, r, f, outcome))
  {
    hide Clashes, Folded;
  }

  lemma GetFrom(ids: iset<Key>, s: State, r: nat, f: Frame)
    requires AllFrom(ids, s) && f.key in ids
    ensures AllFrom(ids, GetStep(s, r, f))
  {
  }

  lemma AdvanceFrom(ids: iset<Key>, s: State, request: Request, step: Step)
    requires AllFrom(ids, s) && RequestFrom(ids, request) && !step.Start? && !step.Crash? && !step.Expire?
    ensures AllFrom(ids, Advance(s, request, step))
  {
    hide GetStep, SaveStep, Folded, Pending, Clashes;
    if request.Saving? && step.Save? { SaveFrom(ids, s, step.r, request.f, step.outcome); }
    if request.Reserving? && step.Get? { GetFrom(ids, s, step.r, request.f); }
  }

  lemma StepFrom(ids: iset<Key>, s: State, step: Step)
    requires AllFrom(ids, s) && (step.Start? ==> step.f.key in ids)
    ensures AllFrom(ids, Apply(s, step))
  {
    hide Advance;
    if !step.Start? && !step.Crash? && !step.Expire? && step.r in s.requests {
      AdvanceFrom(ids, s, s.requests[step.r], step);
    }
  }

  lemma {:induction false} RunFrom(ids: iset<Key>, s: State, steps: seq<Step>)
    requires AllFrom(ids, s) && From(ids, steps)
    ensures AllFrom(ids, Run(s, steps))
    decreases steps
  {
    hide AllFrom, Apply;
    if |steps| > 0 {
      StepFrom(ids, s, steps[0]);
      RunFrom(ids, Apply(s, steps[0]), steps[1..]);
    }
  }

  lemma SeparateIdsOwn(fold: string -> string, ids: iset<Key>, steps: seq<Step>)
    requires Separate(fold, ids) && From(ids, steps)
    ensures AllOwn(Run(Init(fold), steps))
  {
    var s := Run(Init(fold), steps);
    RunKeeps(Init(fold), steps);
    RunExtends(Init(fold), steps);
    RunFrom(ids, Init(fold), steps);
    forall key | key in s.accepted ensures Own(s, key) {
      var stored := s.rows[Folded(s, key)].key;
      assert Folded(Init(fold), stored) == Folded(s, stored) == Folded(s, key) == Folded(Init(fold), key);
    }
  }

  // ---------- and are needed ----------

  function Plain(key: Key): Frame
  {
    Frame(key, "c", "", 0, "")
  }

  function Storing(key: Key): seq<Step>
  {
    [Start(1, Plain(key)), Get(1, true), SetNX(1, true, true), LookUp(1, true), Allocate(1, true, 1, "m"),
     Reserve(1, true), Save(1, Stores)]
  }

  function Repeating(key: Key): seq<Step>
  {
    [Start(2, Plain(key)), Get(2, true), SetNX(2, true, true), LookUp(2, true), Permit(2, true), Commit(2, true)]
  }

  lemma Unroll(s: State, step: Step, rest: seq<Step>)
    ensures Run(s, [step] + rest) == Run(Apply(s, step), rest)
  {
    assert ([step] + rest)[1..] == rest;
  }

  lemma Three(s: State, a: Step, b: Step, c: Step)
    ensures forall rest :: Run(s, [a, b, c] + rest) == Run(Apply(Apply(Apply(s, a), b), c), rest)
  {
    hide Apply;
    forall rest ensures Run(s, [a, b, c] + rest) == Run(Apply(Apply(Apply(s, a), b), c), rest) {
      Unroll(s, a, [b, c] + rest);
      Unroll(Apply(s, a), b, [c] + rest);
      Unroll(Apply(Apply(s, a), b), c, rest);
      assert [a, b, c] + rest == [a] + ([b, c] + rest);
      assert [b, c] + rest == [b] + ([c] + rest);
    }
  }

  lemma One(s: State, step: Step)
    ensures Run(s, [step]) == Apply(s, step)
  {
    hide Apply;
    Unroll(s, step, []);
    assert [step] + [] == [step];
  }

  lemma {:induction false} RunConcat(s: State, a: seq<Step>, b: seq<Step>)
    ensures Run(s, a + b) == Run(Run(s, a), b)
    decreases a
  {
    hide Apply;
    if |a| == 0 {
      assert a + b == b;
    } else {
      assert (a + b)[1..] == a[1..] + b;
      RunConcat(Apply(s, a[0]), a[1..], b);
    }
  }

  lemma Moves(s: State, step: Step)
    requires if step.Start? then step.r !in s.requests else !step.Crash? && !step.Expire? && step.r in s.requests
    ensures step.r in Apply(s, step).requests
    ensures Apply(s, step).requests[step.r] ==
            if step.Start? then Reserving(step.f) else PushMessage.Requested(s, s.requests[step.r], step)
  {
    hide Advance;
    if !step.Start? { PushMessage.AdvanceKeepsRequest(s, s.requests[step.r], step); }
  }

  /** From the first look at Redis to the look-up in MySQL. */
  lemma LooksUp(s: State, r: nat, f: Frame) returns (t: State)
    requires r !in s.requests && f.key !in s.redis
    ensures var steps := [Start(r, f), Get(r, true), SetNX(r, true, true)];
            forall rest :: Run(s, steps + rest) == Run(t, rest)
    ensures PushMessage.SameTables(s, t) && t.redis == s.redis[f.key := Marker]
    ensures r in t.requests && t.requests[r] == Looking(f)
  {
    hide Apply, PushMessage.Requested;
    var a := Apply(s, Start(r, f));
    Moves(s, Start(r, f));
    PushMessage.Started(s, f, r);
    var b := Apply(a, Get(r, true));
    Moves(a, Get(r, true));
    PushMessage.Got(a, f, r, true);
    t := Apply(b, SetNX(r, true, true));
    Moves(b, SetNX(r, true, true));
    PushMessage.Taken(b, f, r, true, true);
    Three(s, Start(r, f), Get(r, true), SetNX(r, true, true));
  }

  /** A send under another spelling is answered with success, and nothing is stored for it. */
  lemma Repeats(s: State, key: Key)
    requires 2 !in s.requests && key !in s.redis && Folded(s, key) in s.rows
    ensures var t := Run(s, Repeating(key));
            PushMessage.SameTables(s, t) && 2 in t.requests && t.requests[2] == Replied(key, true)
  {
    hide Apply, PushMessage.Requested;
    var a := LooksUp(s, 2, Plain(key));
    var row := FrameOf(s.rows[Folded(s, key)]);
    var rest := [LookUp(2, true), Permit(2, true), Commit(2, true)];
    assert Repeating(key) == [Start(2, Plain(key)), Get(2, true), SetNX(2, true, true)] + rest;
    var b := Apply(a, LookUp(2, true));
    Moves(a, LookUp(2, true));
    assert Folded(a, key) == Folded(s, key);
    PushMessage.LookedUp(a, Plain(key), 2, true);
    var c := Apply(b, Permit(2, true));
    Moves(b, Permit(2, true));
    PushMessage.Permitted(b, key, row, 2, true);
    var d := Apply(c, Commit(2, true));
    Moves(c, Commit(2, true));
    PushMessage.CommitsRecord(c, key, row, 2, true);
    Three(a, LookUp(2, true), Permit(2, true), Commit(2, true));
    assert rest + [] == rest;
  }

  /** From the look-up, which finds nothing, to the transaction. */
  lemma GetsNumber(a: State, r: nat, f: Frame, number: int, messageId: string) returns (t: State)
    requires r in a.requests && a.requests[r] == Looking(f) && Folded(a, f.key) !in a.rows
    requires f.key in a.redis && Pending(a.redis[f.key]) && PushMessage.Named(f, number, messageId).number > 0
    ensures var steps := [LookUp(r, true), Allocate(r, true, number, messageId), Reserve(r, true)];
            forall rest :: Run(a, steps + rest) == Run(t, rest)
    ensures PushMessage.SameTables(a, t) && PushMessage.StillPending(a.redis, t.redis, f.key)
    ensures r in t.requests && t.requests[r] == Saving(PushMessage.Named(f, number, messageId))
  {
    hide Apply, PushMessage.Requested, PushMessage.StillPending, PushMessage.Named;
    var b := Apply(a, LookUp(r, true));
    Moves(a, LookUp(r, true));
    PushMessage.LookedUp(a, f, r, true);
    var c := Apply(b, Allocate(r, true, number, messageId));
    Moves(b, Allocate(r, true, number, messageId));
    PushMessage.Allocated(b, f, r, true, number, messageId);
    t := Apply(c, Reserve(r, true));
    Moves(c, Reserve(r, true));
    NamedKey(f, number, messageId);
    PushMessage.Recorded(c, PushMessage.Named(f, number, messageId), r, true);
    Three(a, LookUp(r, true), Allocate(r, true, number, messageId), Reserve(r, true));
  }

  lemma NamedKey(f: Frame, number: int, messageId: string)
    ensures PushMessage.Named(f, number, messageId).key == f.key
  {
  }

  lemma OnlyChanges(before: map<Key, Value>, after: map<Key, Value>, key: Key)
    requires after - {key} == before - {key}
    ensures forall other | other in after && other != key :: other in before
  {
    forall other | other in after && other != key ensures other in before {
      assert other in after - {key};
    }
  }

  lemma StoresFirst(fold: string -> string, key: Key)
    ensures var s := Init(fold); var t := Run(s, Storing(key));
            && t.rows == map[Folded(s, key) := Row(key, "m", "c", 1)] && t.fold == fold && 2 !in t.requests
            && forall other | other in t.redis :: other == key
  {
    hide Apply, PushMessage.Requested, Run;
    var s := Init(fold);
    var a := LooksUp(s, 1, Plain(key));
    var d := GetsNumber(a, 1, Plain(key), 1, "m");
    var e := Apply(d, Save(1, Stores));
    Moves(d, Save(1, Stores));
    PushMessage.Saved(d, PushMessage.Named(Plain(key), 1, "m"), 1, Stores);
    assert Storing(key) == [Start(1, Plain(key)), Get(1, true), SetNX(1, true, true)]
        + ([LookUp(1, true), Allocate(1, true, 1, "m"), Reserve(1, true)] + [Save(1, Stores)]);
    One(d, Save(1, Stores));
    PushMessage.OthersLeave(s, 2, Storing(key));
    OnlyChanges(a.redis, e.redis, key);
  }

  /** Two keys of one folded form: the second sender is told its message was accepted, but the row is the first's. */
  lemma OtherSpelling(fold: string -> string, j: Key, k: Key) returns (steps: seq<Step>)
    requires j != k && Folded(Init(fold), j) == Folded(Init(fold), k)
    ensures From(iset{j, k}, steps)
    ensures var s := Run(Init(fold), steps);
            k in s.accepted && Folded(s, k) in s.rows && s.rows[Folded(s, k)].key == j
  {
    steps := Storing(j) + Repeating(k);
    var s := Run(Init(fold), Storing(j));
    StoresFirst(fold, j);
    assert Folded(s, k) == Folded(Init(fold), k);
    Repeats(s, k);
    RunConcat(Init(fold), Storing(j), Repeating(k));
    RunKeeps(Init(fold), steps);
    var t := Run(Init(fold), steps);
    assert RequestOk(t, t.requests[2]);
    assert Folded(t, k) == Folded(Init(fold), k);
  }

  /**
   Every success reply, in every run over these keys, is about the message sent under exactly the replied key if and
   only if MySQL tells the keys apart.
   */
  lemma OwnMessageIff(fold: string -> string, ids: iset<Key>)
    ensures (forall steps | From(ids, steps) :: AllOwn(Run(Init(fold), steps))) <==> Separate(fold, ids)
  {
    hide Run, Folded, Init;
    if Separate(fold, ids) {
      forall steps | From(ids, steps) ensures AllOwn(Run(Init(fold), steps)) { SeparateIdsOwn(fold, ids, steps); }
    } else {
      var j, k :| j in ids && k in ids && Folded(Init(fold), j) == Folded(Init(fold), k) && j != k;
      var steps := OtherSpelling(fold, j, k);
      assert From(ids, steps);
      assert !Own(Run(Init(fold), steps), k);
    }
  }
}
