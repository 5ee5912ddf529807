/**
 Session sequence numbers: replicas initialise a Redis counter from the stored maximum and increment it, one command
 at a time. `handed` and `committed` list the numbers given out and the numbers stored in messages, in order.
 */
module Sequence {
  import opened Wrappers

  datatype Replica =
    | Idle
    | Missing              // EXISTS answered 0
    | Read(max: nat)       // the stored maximum, about to SET NX
    | Ready                // about to INCR
    | Holding(n: nat)      // has a number, message not stored yet

  datatype State = State(key: Option<nat>, committed: seq<nat>, handed: seq<nat>, replicas: map<nat, Replica>)

  datatype Step =
    | Exists(r: nat) | ReadMax(r: nat) | SetNX(r: nat) | Incr(r: nat)
    | Commit(r: nat) | Abandon(r: nat)
    | LoseKey                    // the counter expires or the cache is wiped
    | ClientNumber(n: nat)       // a stored message whose positive number came from the client

  /** SELECT COALESCE(MAX(seq), 0). */
  function Max(numbers: seq<nat>): nat
  {
    if |numbers| == 0 then 0
    else
      var rest := Max(numbers[1..]);
      if numbers[0] > rest then numbers[0] else rest
  }

  function ReplicaOf(s: State, r: nat): Replica
  {
    if r in s.replicas then s.replicas[r] else Idle
  }

  function Put(s: State, r: nat, replica: Replica): State
  {
    s.(replicas := s.replicas[r := replica])
  }

  /** What INCR would return now. */
  function NextNumber(s: State): nat
  {
    match s.key
    case None => 1
    case Some(v) => v + 1
  }

  function Apply(s: State, step: Step): State
  {
    match step
    case Exists(r) =>
      if ReplicaOf(s, r) == Idle then Put(s, r, if s.key.Some? then Ready else Missing) else s
    case ReadMax(r) =>
      if ReplicaOf(s, r) == Missing then Put(s, r, if Max(s.committed) <= 0 then Ready else Read(Max(s.committed)))
        else s
    case SetNX(r) =>
      if ReplicaOf(s, r).Read?
      then Put(if s.key.None? then s.(key := Some(ReplicaOf(s, r).max)) else s, r, Ready) else s
    case Incr(r) =>
      if ReplicaOf(s, r) == Ready
      then Put(s.(key := Some(NextNumber(s)), handed := s.handed + [NextNumber(s)]), r, Holding(NextNumber(s))) else s
    case Commit(r) =>
      if ReplicaOf(s, r).Holding? then Put(s.(committed := s.committed + [ReplicaOf(s, r).n]), r, Idle) else s
    case Abandon(r) => Put(s, r, Idle)
    case LoseKey => s.(key := None)
    case ClientNumber(n) => s.(committed := s.committed + [n])
  }

  function Run(s: State, steps: seq<Step>): State
    decreases steps
  {
    if |steps| == 0 then s else Run(Apply(s, steps[0]), steps[1..])
  }

  /** The key is kept and every number comes from the counter. */
  predicate Orderly(steps: seq<Step>)
  {
    forall i | 0 <= i < |steps| :: steps[i] != LoseKey && !steps[i].ClientNumber?
  }

  /** The first use of a session's counter: messages may be stored, nobody is allocating. */
  function Start(committed: seq<nat>): State
  {
    State(None, committed, [], map[])
  }

  predicate Below(numbers: seq<nat>, bound: nat)
  {
    forall i | 0 <= i < |numbers| :: numbers[i] <= bound
  }

  predicate Increasing(numbers: seq<nat>)
  {
    forall i, j | 0 <= i < j < |numbers| :: numbers[i] < numbers[j]
  }

  lemma {:induction false} MaxBounds(numbers: seq<nat>)
    ensures Below(numbers, Max(numbers))
    ensures Max(numbers) > 0 ==> Max(numbers) in numbers
  {
    if |numbers| > 0 {
      MaxBounds(numbers[1..]);
      assert forall i | 0 < i < |numbers| :: numbers[i] == numbers[1..][i - 1];
    }
  }

  lemma MaxAppend(numbers: seq<nat>, n: nat)
    ensures Max(numbers + [n]) == if n > Max(numbers) then n else Max(numbers)
  {
    if |numbers| > 0 {
      assert (numbers + [n])[1..] == numbers[1..] + [n];
      MaxAppend(numbers[1..], n);
    }
  }

  /** The next increment is safe: its number exceeds all that were handed out or stored. */
  predicate NextIsFresh(s: State)
  {
    Below(s.handed, NextNumber(s) - 1) && Max(s.committed) < NextNumber(s)
  }

  ghost predicate Safe(s: State)
  {
    Increasing(s.handed) && ((exists r :: ReplicaOf(s, r) == Ready) ==> NextIsFresh(s))
  }

  // ---------- the invariant ----------

  /** While the key is gone, whoever is past the EXISTS check must not be able to bring back a small counter. */
  ghost predicate ReplicaOk(s: State, replica: Replica)
  {
    match replica
    case Holding(n) => n in s.handed
    case Read(max) => s.key.None? ==> max >= Max(s.committed)
    case Ready => s.key.None? ==> Max(s.committed) == 0
    case _ => true
  }

  ghost predicate Inv(s: State)
  {
    && Increasing(s.handed)
    && (match s.key
        case Some(v) => Below(s.handed, v) && Max(s.committed) <= v
        case None => Below(s.handed, Max(s.committed)))
    && (forall r | r in s.replicas :: ReplicaOk(s, s.replicas[r]))
  }

  lemma InvIsSafe(s: State)
    requires Inv(s)
    ensures Safe(s)
  {
    if r :| ReplicaOf(s, r) == Ready {
      assert ReplicaOk(s, s.replicas[r]);
    }
  }

  lemma StepKeeps(s: State, step: Step)
    requires Inv(s) && step != LoseKey && !step.ClientNumber?
    ensures Inv(Apply(s, step))
  {
    var t := Apply(s, step);
    MaxBounds(s.committed);
    if step.Commit? && ReplicaOf(s, step.r).Holding? {
      var n := ReplicaOf(s, step.r).n;
      assert n in s.handed;
      MaxAppend(s.committed, n);
    }
    if step.Incr? && ReplicaOf(s, step.r) == Ready { InvIsSafe(s); }
    forall r | r in t.replicas ensures ReplicaOk(t, t.replicas[r]) {
      if r in s.replicas { assert ReplicaOk(s, s.replicas[r]); }
    }
  }

  // ---------- what may go wrong without harm ----------

  /**
   What must hold when the key disappears: every number handed out is covered by the stored maximum, nobody is about
   to increment a counter that no longer exists unless nothing was ever stored, and nobody holds an outdated maximum.
   */
  ghost predicate LossTolerable(s: State)
  {
    && Below(s.handed, Max(s.committed))
    && (forall r | r in s.replicas && s.replicas[r] == Ready :: Max(s.committed) == 0)
    && (forall r | r in s.replicas && s.replicas[r].Read? :: s.replicas[r].max >= Max(s.committed))
  }

  /**
   When a number supplied by the client is harmless: the counter has reached it already or, while there is no counter,
   nobody is about to bring one back below it.
   */
  ghost predicate ClientTolerable(s: State, n: nat)
  {
    match s.key
    case Some(v) => n <= v
    case None =>
      && (forall r | r in s.replicas && s.replicas[r] == Ready :: n == 0)
      && (forall r | r in s.replicas && s.replicas[r].Read? :: s.replicas[r].max >= n)
  }

  /** Steps of replicas are always tolerable; losing the key or storing a client's number only in some states. */
  ghost predicate Tolerable(s: State, step: Step)
  {
    match step
    case LoseKey => LossTolerable(s)
    case ClientNumber(n) => ClientTolerable(s, n)
    case _ => true
  }

  ghost predicate TolerableRun(s: State, steps: seq<Step>)
    decreases steps
  {
    |steps| == 0 || (Tolerable(s, steps[0]) && TolerableRun(Apply(s, steps[0]), steps[1..]))
  }

  lemma {:induction false} OrderlyIsTolerable(s: State, steps: seq<Step>)
    requires Orderly(steps)
    ensures TolerableRun(s, steps)
    decreases steps
  {
    hide Apply;
    if |steps| > 0 {
      OrderlyIsTolerable(Apply(s, steps[0]), steps[1..]);
    }
  }

  lemma LossKeeps(s: State)
    requires Inv(s) && LossTolerable(s)
    ensures Inv(Apply(s, LoseKey))
  {
    var lost := Apply(s, LoseKey);
    forall r | r in lost.replicas ensures ReplicaOk(lost, lost.replicas[r]) {
      assert ReplicaOk(s, s.replicas[r]);
    }
  }

  lemma ClientNumberKeeps(s: State, n: nat)
    requires Inv(s) && ClientTolerable(s, n)
    ensures Inv(Apply(s, ClientNumber(n)))
  {
    var t := Apply(s, ClientNumber(n));
    MaxAppend(s.committed, n);
    forall r | r in t.replicas ensures ReplicaOk(t, t.replicas[r]) {
      assert ReplicaOk(s, s.replicas[r]);
    }
  }

  lemma {:induction false} TolerableRunKeeps(s: State, steps: seq<Step>)
    requires Inv(s) && TolerableRun(s, steps)
    ensures Inv(Run(s, steps))
    decreases steps
  {
    hide Inv, Apply, LossTolerable, ClientTolerable;
    if |steps| > 0 {
      match steps[0] {
        case LoseKey => LossKeeps(s);
        case ClientNumber(n) => ClientNumberKeeps(s, n);
        case _ => StepKeeps(s, steps[0]);
      }
      TolerableRunKeeps(Apply(s, steps[0]), steps[1..]);
    }
  }

  lemma RunKeeps(s: State, steps: seq<Step>)
    requires Inv(s) && Orderly(steps)
    ensures Inv(Run(s, steps))
  {
    OrderlyIsTolerable(s, steps);
    TolerableRunKeeps(s, steps);
  }

  lemma StartOk(committed: seq<nat>)
    ensures Inv(Start(committed))
  {
  }

  /**
   Under every interleaving in which the key is not lost and no client supplies a number, or each time harmlessly, the
   numbers handed out strictly increase (so they are pairwise distinct) and the next one exceeds everything handed out
   or stored so far.
   */
  lemma NumbersAreFresh(committed: seq<nat>, steps: seq<Step>)
    requires TolerableRun(Start(committed), steps)
    ensures Increasing(Run(Start(committed), steps).handed)
    ensures var s := Run(Start(committed), steps);
            forall r | ReplicaOf(s, r) == Ready ::
              && Apply(s, Incr(r)).handed == s.handed + [NextNumber(s)]
              && (forall i | 0 <= i < |s.handed| :: s.handed[i] < NextNumber(s))
              && (forall i | 0 <= i < |s.committed| :: s.committed[i] < NextNumber(s))
  {
    var s := Run(Start(committed), steps);
    StartOk(committed);
    TolerableRunKeeps(Start(committed), steps);
    InvIsSafe(s);
    MaxBounds(s.committed);
  }

  // ---------- no gaps ----------

  /** The numbers handed out are the ones that follow the maximum stored when the counter was first used. */
  ghost predicate Consecutive(s: State, base: nat)
  {
    && (forall i | 0 <= i < |s.handed| :: s.handed[i] == base + 1 + i)
    && (match s.key
        case Some(v) => v == base + |s.handed|
        case None =>
          && s.handed == [] && Max(s.committed) == base
          && forall r | r in s.replicas ::
               match s.replicas[r]
               case Read(max) => max == base
               case Ready => base == 0
               case Holding(_) => false
               case _ => true)
  }

  lemma {:induction false} RunConsecutive(s: State, steps: seq<Step>, base: nat)
    requires Consecutive(s, base) && Orderly(steps)
    ensures Consecutive(Run(s, steps), base)
    decreases steps
  {
    if |steps| > 0 {
      assert steps[0] != LoseKey && !steps[0].ClientNumber?;
      StepConsecutive(s, steps[0], base);
      RunConsecutive(Apply(s, steps[0]), steps[1..], base);
    }
  }

  lemma StepConsecutive(s: State, step: Step, base: nat)
    requires Consecutive(s, base) && step != LoseKey && !step.ClientNumber?
    ensures Consecutive(Apply(s, step), base)
  {
  }

  /**
   While the key is kept and every number comes from the counter, the numbers handed out are the stored maximum plus
   one, plus two and so on, however the replicas interleave.
   */
  lemma NumbersAreConsecutive(committed: seq<nat>, steps: seq<Step>)
    requires Orderly(steps)
    ensures var s := Run(Start(committed), steps);
            && (forall i | 0 <= i < |s.handed| :: s.handed[i] == Max(committed) + 1 + i)
            && (forall r | ReplicaOf(s, r) == Ready ::
                  Apply(s, Incr(r)).handed == s.handed + [Max(committed) + 1 + |s.handed|])
  {
    RunConsecutive(Start(committed), steps, Max(committed));
  }

  /** Storing a number that was handed out is always harmless, also after an earlier attempt was given up. */
  lemma HandedIsTolerable(s: State, n: nat)
    requires Inv(s) && n in s.handed
    ensures ClientTolerable(s, n)
  {
    forall r | r in s.replicas ensures ReplicaOk(s, s.replicas[r]) { }
  }

  // ---------- losing the key ----------

  /** Everything that can still follow is safe, as long as the key is not lost again. */
  ghost predicate SafeFromHere(s: State)
  {
    forall steps | Orderly(steps) :: Safe(Run(s, steps))
  }

  lemma Unsafe(s: State, r: nat)
    requires ReplicaOf(s, r) == Ready && !NextIsFresh(s)
    ensures !Safe(s)
  {
  }

  /** A fresh replica runs the whole protocol on the lost key and hands out the stored maximum plus one. */
  lemma FreshReplica(s: State, r: nat) returns (steps: seq<Step>)
    requires s.key.None? && r !in s.replicas
    ensures Orderly(steps)
    ensures ReplicaOf(Run(s, steps), r) == Ready && NextNumber(Run(s, steps)) == Max(s.committed) + 1
    ensures Run(s, steps).handed == s.handed
  {
    var s1 := Apply(s, Exists(r));
    var s2 := Apply(s1, ReadMax(r));
    if Max(s.committed) == 0 {
      steps := [Exists(r), ReadMax(r)];
      assert Run(s, steps) == Run(s1, steps[1..]) == Run(s2, steps[1..][1..]) == s2;
    } else {
      var s3 := Apply(s2, SetNX(r));
      steps := [Exists(r), ReadMax(r), SetNX(r)];
      assert Run(s, steps) == Run(s1, steps[1..]) == Run(s2, steps[1..][1..]) == Run(s3, steps[1..][1..][1..]) == s3;
    }
  }

  lemma NotTolerable(s: State) returns (steps: seq<Step>)
    requires s.key.None? && !LossTolerable(s)
    ensures Orderly(steps) && !Safe(Run(s, steps))
  {
    if r :| r in s.replicas && s.replicas[r] == Ready && Max(s.committed) != 0 {
      steps := [];
      Unsafe(s, r);
    } else if r :| r in s.replicas && s.replicas[r].Read? && s.replicas[r].max < Max(s.committed) {
      steps := [SetNX(r)];
      var t := Apply(s, SetNX(r));
      assert Run(s, steps) == Run(t, steps[1..]) == t;
      Unsafe(t, r);
    } else {
      var r :| r !in s.replicas by { var r := Unused(s.replicas.Keys); }
      steps := FreshReplica(s, r);
      Unsafe(Run(s, steps), r);
    }
  }

  lemma Unused(used: set<nat>) returns (r: nat)
    ensures r !in used
  {
    r := Bound(used);
  }

  lemma Bound(used: set<nat>) returns (b: nat)
    ensures forall x | x in used :: x < b
  {
    if used == {} {
      b := 0;
    } else {
      var x :| x in used;
      var rest := Bound(used - {x});
      b := if x < rest then rest else x + 1;
      assert forall y | y in used :: y == x || y in used - {x};
    }
  }

  /**
   Losing the key after any run so far harmless is harmless for all that can follow exactly in the tolerable states.
   */
  lemma LossIsSafeIff(committed: seq<nat>, steps: seq<Step>)
    requires TolerableRun(Start(committed), steps)
    ensures var s := Run(Start(committed), steps);
            SafeFromHere(Apply(s, LoseKey)) <==> LossTolerable(s)
  {
    var s := Run(Start(committed), steps);
    var lost := Apply(s, LoseKey);
    StartOk(committed);
    TolerableRunKeeps(Start(committed), steps);
    if LossTolerable(s) {
      LossKeeps(s);
      forall more | Orderly(more) ensures Safe(Run(lost, more)) {
        RunKeeps(lost, more);
        InvIsSafe(Run(lost, more));
      }
    } else {
      var more := NotTolerable(lost);
    }
  }

  // ---------- numbers from the client ----------

  /** Whoever increments the counter next falls behind the client's number. */
  lemma ClientNumberAhead(s: State, n: nat) returns (steps: seq<Step>)
    requires !ClientTolerable(s, n)
    ensures Orderly(steps) && !Safe(Run(Apply(s, ClientNumber(n)), steps))
  {
    var t := Apply(s, ClientNumber(n));
    MaxAppend(s.committed, n);
    if s.key.Some? {
      var r := Unused(s.replicas.Keys);
      steps := [Exists(r)];
      var u := Apply(t, Exists(r));
      assert Run(t, steps) == Run(u, steps[1..]) == u;
      Unsafe(u, r);
    } else if r :| r in s.replicas && s.replicas[r] == Ready && n != 0 {
      steps := [];
      Unsafe(t, r);
    } else {
      var r :| r in s.replicas && s.replicas[r].Read? && s.replicas[r].max < n;
      steps := [SetNX(r)];
      var u := Apply(t, SetNX(r));
      assert Run(t, steps) == Run(u, steps[1..]) == u;
      Unsafe(u, r);
    }
  }

  /**
   After any run so far harmless, a client's number is harmless for all that can follow exactly when it is tolerable.
   */
  lemma ClientNumberIsSafeIff(committed: seq<nat>, steps: seq<Step>, n: nat)
    requires TolerableRun(Start(committed), steps)
    ensures var s := Run(Start(committed), steps);
            SafeFromHere(Apply(s, ClientNumber(n))) <==> ClientTolerable(s, n)
  {
    hide Inv, ClientTolerable, Safe;
    var s := Run(Start(committed), steps);
    var t := Apply(s, ClientNumber(n));
    StartOk(committed);
    TolerableRunKeeps(Start(committed), steps);
    if ClientTolerable(s, n) {
      ClientNumberKeeps(s, n);
      forall more | Orderly(more) ensures Safe(Run(t, more)) {
        RunKeeps(t, more);
        InvIsSafe(Run(t, more));
      }
    } else {
      var more := ClientNumberAhead(s, n);
    }
  }

  lemma Unroll(s: State, step: Step, rest: seq<Step>)
    ensures Run(s, [step] + rest) == Run(Apply(s, step), rest)
  {
    assert ([step] + rest)[1..] == rest;
  }

  lemma FirstNumber()
    ensures Run(Start([]), [Exists(1), ReadMax(1), Incr(1), Commit(1)]).handed == [1]
    ensures Run(Start([]), [Exists(1), ReadMax(1), Incr(1), Commit(1)]).committed == [1]
    ensures ReplicaOf(Run(Start([]), [Exists(1), ReadMax(1), Incr(1), Commit(1)]), 2) == ReplicaOf(Start([]), 2)
    ensures Run(Start([]), [Exists(1), ReadMax(1), Incr(1), Commit(1)]).key.Some?
  {
    var s0 := Start([]);
    var s1 := Apply(s0, Exists(1));
    var s2 := Apply(s1, ReadMax(1));
    var s3 := Apply(s2, Incr(1));
    Unroll(s0, Exists(1), [ReadMax(1), Incr(1), Commit(1)]);
    Unroll(s1, ReadMax(1), [Incr(1), Commit(1)]);
    Unroll(s2, Incr(1), [Commit(1)]);
    Unroll(s3, Commit(1), []);
  }

  /** A key lost between the EXISTS check and the increment repeats numbers already stored. */
  lemma LossDuringAllocationRepeats()
    ensures var s := Run(Start([]), [Exists(1), ReadMax(1), Incr(1), Commit(1)]);
            && s.handed == [1] && s.committed == [1]
            && Run(s, [Exists(2), LoseKey, Incr(2)]).handed == [1, 1]
  {
    FirstNumber();
    var s := Run(Start([]), [Exists(1), ReadMax(1), Incr(1), Commit(1)]);
    var s1 := Apply(s, Exists(2));
    var s2 := Apply(s1, LoseKey);
    Unroll(s, Exists(2), [LoseKey, Incr(2)]);
    Unroll(s1, LoseKey, [Incr(2)]);
    Unroll(s2, Incr(2), []);
  }

  /** A positive number supplied by the client can exceed the counter, which then hands out smaller ones. */
  lemma ClientNumberOvertakes(n: nat)
    requires n >= 2
    ensures var s := Run(Start([]), [Exists(1), ReadMax(1), ClientNumber(n)]);
            ReplicaOf(s, 1) == Ready && NextNumber(s) == 1 && s.committed == [n]
  {
    var steps := [Exists(1), ReadMax(1), ClientNumber(n)];
    var s1 := Apply(Start([]), steps[0]);
    var s2 := Apply(s1, steps[1]);
    var s3 := Apply(s2, steps[2]);
    assert steps[1..][1..] == [ClientNumber(n)] && [ClientNumber(n)][1..] == [];
    assert Run(s2, [ClientNumber(n)]) == Run(s3, []) == s3;
  }
}
