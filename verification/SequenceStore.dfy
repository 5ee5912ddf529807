/** nextSequence and ensureSequenceInitialized command by command, with other replicas running in between. */
module SequenceStore {
  import opened Sequence
  import opened Wrappers

  function StepReplica(step: Step): int
  {
    if step == LoseKey || step.ClientNumber? then -1 else step.r
  }

  predicate OthersOnly(r: nat, steps: seq<Step>)
  {
    Orderly(steps) && forall i | 0 <= i < |steps| :: StepReplica(steps[i]) != r
  }

  /** Numbers handed out and stored stay so. */
  ghost predicate Extends(s: State, t: State)
  {
    s.handed <= t.handed && s.committed <= t.committed
  }

  lemma {:induction false} OthersLeave(s: State, r: nat, steps: seq<Step>)
    requires OthersOnly(r, steps)
    ensures ReplicaOf(Run(s, steps), r) == ReplicaOf(s, r) && Extends(s, Run(s, steps))
    decreases steps
  {
    if |steps| > 0 {
      OthersLeave(Apply(s, steps[0]), r, steps[1..]);
    }
  }

  /** One more than the counter or, while there is none, than the stored maximum. */
  function AloneNumber(s: State): nat
  {
    match s.key
    case Some(v) => v + 1
    case None => Max(s.committed) + 1
  }

  class SessionCounter {
    const others: nat -> seq<Step>
    var s: State
    var tick: nat

    ghost predicate Valid(r: nat)
      reads this
    {
      Inv(s) && forall k :: OthersOnly(r, others(k))
    }

    constructor (committed: seq<nat>, others: nat -> seq<Step>)
      ensures s == Start(committed) && Inv(s) && this.others == others
    {
      this.others := others;
      s, tick := Start(committed), 0;
    }

    /** No other replica runs from here on. */
    ghost predicate Alone()
      reads this
    {
      forall k | k >= tick :: others(k) == []
    }

    method Perform(r: nat, step: Step)
      requires Valid(r) && Orderly([step])
      modifies this`s, this`tick
      ensures Valid(r) && Extends(old(s), s)
      ensures s == Run(Apply(old(s), step), others(old(tick)))
      ensures ReplicaOf(s, r) == ReplicaOf(Apply(old(s), step), r)
      ensures old(Alone()) ==> Alone() && s == Apply(old(s), step)
    {
      var next := Apply(s, step);
      assert [step][0] == step;
      StepKeeps(s, step);
      OthersLeave(next, r, others(tick));
      RunKeeps(next, others(tick));
      s := Run(next, others(tick));
      tick := tick + 1;
    }

    method EnsureSequenceInitialized(r: nat)
      requires Valid(r) && ReplicaOf(s, r) == Idle
      modifies this`s, this`tick
      ensures Valid(r) && Extends(old(s), s) && ReplicaOf(s, r) == Ready
      ensures old(Alone()) ==> Alone() && NextNumber(s) == AloneNumber(old(s)) && s.handed == old(s).handed
    {
      Perform(r, Exists(r));
      if ReplicaOf(s, r) == Ready {
        return;
      }
      Perform(r, ReadMax(r));
      if ReplicaOf(s, r) == Ready {
        return;
      }
      Perform(r, SetNX(r));
    }

    /**
     The number returned is above everything handed out or stored when the call began, and is recorded once; if no other
     replica runs, it is the very next one.
     */
    method NextSequence(r: nat) returns (n: nat)
      requires Valid(r) && ReplicaOf(s, r) == Idle
      modifies this`s, this`tick
      ensures Valid(r) && Extends(old(s), s) && ReplicaOf(s, r) == Holding(n)
      ensures (forall i | 0 <= i < |old(s).handed| :: old(s).handed[i] < n)
      ensures (forall i | 0 <= i < |old(s).committed| :: old(s).committed[i] < n)
      ensures n in s.handed
      ensures old(Alone()) ==> n == AloneNumber(old(s)) && s.key == Some(n) && s.handed == old(s).handed + [n]
    {
      EnsureSequenceInitialized(r);
      InvIsSafe(s);
      MaxBounds(s.committed);
      n := NextNumber(s);
      Perform(r, Incr(r));
    }
  }
}
