/** From every state in which the queues are closed the workers can finish: draining is possible and ends. */
module PoolDrains {
  import opened Wrappers
  import opened WorkerPool

  /** Steps of the shard workers, and the signal that all of them have stopped. */
  predicate OnlyWorkers(steps: seq<Step>)
  {
    forall i | 0 <= i < |steps| :: steps[i].Take? || steps[i].Complete? || steps[i].Exit? || steps[i].SignalDone?
  }

  /** Nothing but the workers' own progress. */
  predicate SameCalls(s: State, t: State)
  {
    t.closers == s.closers && t.submitters == s.submitters && t.accepted == s.accepted && t.closed == s.closed
  }

  /** A state in which every queue is closed. */
  predicate Shut(c: Config, s: State)
  {
    |s.queues| == |s.queueClosed| == |s.workers| == c.shards && forall q | 0 <= q < c.shards :: s.queueClosed[q]
  }

  /** What one step of the worker `q` does. */
  lemma WorkerMoves(c: Config, s: State, q: nat)
    requires Shut(c, s) && q < c.shards
    ensures s.workers[q].Running? ==>
              var t := Apply(c, s, Complete(q));
              Shut(c, t) && SameCalls(s, t) && t.workers == s.workers[q := Idle] && t.queues == s.queues
    ensures s.workers[q] == Idle && s.queues[q] != [] ==>
              var t := Apply(c, s, Take(q));
              && Shut(c, t) && SameCalls(s, t) && t.workers == s.workers[q := Running(s.queues[q][0])]
              && t.queues == s.queues[q := s.queues[q][1..]]
    ensures s.workers[q] == Idle && s.queues[q] == [] ==>
              var t := Apply(c, s, Exit(q));
              Shut(c, t) && SameCalls(s, t) && t.workers == s.workers[q := Exited] && t.queues == s.queues
  {
  }

  lemma Unroll(c: Config, s: State, step: Step, rest: seq<Step>)
    ensures Run(c, s, [step] + rest) == Run(c, Apply(c, s, step), rest)
    ensures OnlyWorkers(rest) && (step.Take? || step.Complete? || step.Exit?) ==> OnlyWorkers([step] + rest)
  {
    assert ([step] + rest)[1..] == rest;
  }

  /** One worker finishes its task, empties its queue and stops. */
  lemma {:induction false} ShardDrains(c: Config, s: State, q: nat) returns (steps: seq<Step>)
    requires Shut(c, s) && q < c.shards && (s.workers[q] == Exited ==> s.queues[q] == [])
    ensures OnlyWorkers(steps)
    ensures var t := Run(c, s, steps);
            Shut(c, t) && SameCalls(s, t) && t.workers == s.workers[q := Exited] && t.queues == s.queues[q := []]
    decreases |s.queues[q]|, if s.workers[q].Running? then 2 else if s.workers[q] == Idle then 1 else 0
  {
    hide Apply;
    if s.workers[q] == Exited {
      return [];
    }
    WorkerMoves(c, s, q);
    var step := if s.workers[q].Running? then Complete(q) else if s.queues[q] == [] then Exit(q) else Take(q);
    var rest := ShardDrains(c, Apply(c, s, step), q);
    Unroll(c, s, step, rest);
    return [step] + rest;
  }

  lemma {:induction false} ShardsDrain(c: Config, s: State, n: nat) returns (steps: seq<Step>)
    requires Shut(c, s) && n <= c.shards
    requires forall q | 0 <= q < c.shards && s.workers[q] == Exited :: s.queues[q] == []
    ensures OnlyWorkers(steps)
    ensures var t := Run(c, s, steps);
            && Shut(c, t) && SameCalls(s, t)
            && (forall q | 0 <= q < n :: t.workers[q] == Exited)
            && (forall q | 0 <= q < c.shards && t.workers[q] == Exited :: t.queues[q] == [])
  {
    if n == 0 {
      return [];
    }
    var before := ShardsDrain(c, s, n - 1);
    var last := ShardDrains(c, Run(c, s, before), n - 1);
    RunConcat(c, s, before, last);
    steps := before + last;
  }

  lemma ClosedIsShut(c: Config, s: State)
    requires Inv(c, s) && s.closed && s.writer == None
    ensures Shut(c, s) && forall q | 0 <= q < c.shards && s.workers[q] == Exited :: s.queues[q] == []
  {
    hide FlowOk, LocksOk;
  }

  /** When every worker has stopped the signal follows, and waiting closers see it. */
  lemma Signalled(c: Config, s: State)
    requires Shut(c, s) && forall q | 0 <= q < c.shards :: s.workers[q] == Exited
    ensures var t := Apply(c, s, SignalDone);
            && t == s.(done := true)
            && forall k | k in s.closers && s.closers[k] == AwaitingDone ::
                 Apply(c, t, Return(k, false)).closers == t.closers[k := Returned(true)]
  {
  }

  lemma DrainedIsComplete(c: Config, s: State)
    requires Inv(c, s) && s.done
    ensures multiset(s.completed) == multiset(s.accepted)
  {
    AllDrained(c, s);
  }

  /**
   Once a close has let go of the lock, the workers alone can finish: every accepted task completes exactly once, and
   from then on each waiting Close succeeds as soon as it looks.
   */
  lemma WorkersCanFinish(c: Config, steps: seq<Step>) returns (more: seq<Step>)
    requires ValidConfig(c)
    requires Run(c, Init(c), steps).closed && Run(c, Init(c), steps).writer == None
    ensures OnlyWorkers(more)
    ensures var s, t := Run(c, Init(c), steps), Run(c, Init(c), steps + more);
            && t.done && t.accepted == s.accepted && multiset(t.completed) == multiset(s.accepted)
            && t.closers == s.closers
            && forall k | k in s.closers && s.closers[k] == AwaitingDone ::
                 Apply(c, t, Return(k, false)).closers == t.closers[k := Returned(true)]
  {
    hide Inv, Apply, Shut, Init;
    Reachable(c, steps);
    var s := Run(c, Init(c), steps);
    ClosedIsShut(c, s);
    more := WorkersFinish(c, s);
    RunConcat(c, Init(c), steps, more);
    Reachable(c, steps + more);
    DrainedIsComplete(c, Run(c, s, more));
  }

  lemma WorkersFinish(c: Config, s: State) returns (more: seq<Step>)
    requires Shut(c, s) && forall q | 0 <= q < c.shards && s.workers[q] == Exited :: s.queues[q] == []
    ensures OnlyWorkers(more)
    ensures var t := Run(c, s, more);
            && t.done && t.accepted == s.accepted && t.closers == s.closers
            && forall k | k in s.closers && s.closers[k] == AwaitingDone ::
                 Apply(c, t, Return(k, false)).closers == t.closers[k := Returned(true)]
  {
    hide Apply;
    var drain := ShardsDrain(c, s, c.shards);
    var drained := Run(c, s, drain);
    Signalled(c, drained);
    RunConcat(c, s, drain, [SignalDone]);
    Unroll(c, drained, SignalDone, []);
    assert [SignalDone] + [] == [SignalDone];
    more := drain + [SignalDone];
  }
}
