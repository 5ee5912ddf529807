/** The pool's methods, step by step, with any steps of other submitters, closers and workers in between. */
module PushWorkerPools {
  import opened Wrappers
  import opened WorkerPool

  /** Whose call it is. */
  datatype Actor = Submitting(i: nat) | Closes(k: nat) | Draining(q: nat)

  predicate Foreign(actor: Actor, step: Step)
  {
    match step
    case Arrive(i, _, _) => actor != Submitting(i)
    case RLock(i) => actor != Submitting(i)
    case Check(i) => actor != Submitting(i)
    case Send(i, _, _) => actor != Submitting(i)
    case CallClose(k) => actor != Closes(k)
    case Lock(k) => actor != Closes(k)
    case SetClosed(k) => actor != Closes(k)
    case CloseNext(k) => actor != Closes(k)
    case Return(k, _) => actor != Closes(k)
    case Take(q) => actor != Draining(q)
    case Complete(q) => actor != Draining(q)
    case Exit(q) => actor != Draining(q)
    case SignalDone => true
  }

  predicate AllForeign(actor: Actor, steps: seq<Step>)
  {
    forall i | 0 <= i < |steps| :: Foreign(actor, steps[i])
  }

  /** Where the call stands. */
  predicate SameFor(actor: Actor, s: State, t: State)
  {
    match actor
    case Submitting(i) => (i in s.submitters <==> i in t.submitters)
      && (i in s.submitters ==> t.submitters[i] == s.submitters[i])
    case Closes(k) => (k in s.closers <==> k in t.closers) && (k in s.closers ==> t.closers[k] == s.closers[k])
    case Draining(q) => |s.workers| == |t.workers| && (q < |s.workers| ==> t.workers[q] == s.workers[q])
  }

  /** What no step undoes. */
  ghost predicate Grows(s: State, t: State)
  {
    && s.accepted <= t.accepted
    && (s.closed ==> t.closed) && (s.done ==> t.done)
    && |s.queueClosed| == |t.queueClosed| && forall q | 0 <= q < |s.queueClosed| && s.queueClosed[q] :: t.queueClosed[q]
  }

  lemma StepGrows(c: Config, s: State, step: Step)
    ensures Grows(s, Apply(c, s, step))
  {
    hide ShardOf;
  }

  lemma StepLeaves(c: Config, s: State, actor: Actor, step: Step)
    requires Foreign(actor, step)
    ensures SameFor(actor, s, Apply(c, s, step))
  {
    hide SubmitterStep, CloserStep, WorkerStep;
    SubmitterLeaves(c, s, actor, step);
    CloserLeaves(s, actor, step);
    WorkerLeaves(s, actor, step);
  }

  lemma SubmitterLeaves(c: Config, s: State, actor: Actor, step: Step)
    requires Foreign(actor, step)
    ensures SameFor(actor, s, SubmitterStep(c, s, step))
  {
    hide ShardOf;
  }

  lemma CloserLeaves(s: State, actor: Actor, step: Step)
    requires Foreign(actor, step)
    ensures SameFor(actor, s, CloserStep(s, step))
  {
  }

  lemma WorkerLeaves(s: State, actor: Actor, step: Step)
    requires Foreign(actor, step)
    ensures SameFor(actor, s, WorkerStep(s, step))
  {
  }

  /** Another worker completes only tasks of its own shard. */
  lemma ShardLeft(c: Config, s: State, q: nat, step: Step)
    requires Inv(c, s) && q < c.shards && Foreign(Draining(q), step)
    ensures OfShard(c, Apply(c, s, step).completed, q) == OfShard(c, s.completed, q)
  {
    hide ShardOf, OfShard, LocksOk, ClosedOk, ExitsOk;
    if step.Complete? && step.shard < |s.workers| && s.workers[step.shard].Running? {
      assert ShardFlows(c, s, step.shard);
      OfShardAppend(c, s.completed, s.workers[step.shard].task, q);
    }
  }

  lemma {:induction false} OthersLeave(c: Config, s: State, actor: Actor, steps: seq<Step>)
    requires Inv(c, s) && AllForeign(actor, steps)
    ensures SameFor(actor, s, Run(c, s, steps)) && Grows(s, Run(c, s, steps))
    ensures actor.Draining? && actor.q < c.shards ==>
              OfShard(c, Run(c, s, steps).completed, actor.q) == OfShard(c, s.completed, actor.q)
    decreases steps
  {
    hide Apply, Inv, Foreign, OfShard;
    if |steps| > 0 {
      var t := Apply(c, s, steps[0]);
      StepLeaves(c, s, actor, steps[0]);
      StepGrows(c, s, steps[0]);
      if actor.Draining? && actor.q < c.shards { ShardLeft(c, s, actor.q, steps[0]); }
      OneStep(c, s, steps[0]);
      OthersLeave(c, t, actor, steps[1..]);
    }
  }

  lemma OneStep(c: Config, s: State, step: Step)
    requires Inv(c, s)
    ensures Inv(c, Apply(c, s, step))
  {
    hide Inv, Apply;
    RunKeeps(c, s, [step]);
    assert [step][1..] == [];
    assert Run(c, Apply(c, s, step), []) == Apply(c, s, step);
  }

  lemma Inside(c: Config, s: State)
    requires Inv(c, s)
    ensures Sizes(c, s) && c.shards >= 1
  {
  }

  /** Whoever holds the write lock of a closed pool without closing it finds every queue closed. */
  lemma ClosedMeansAllClosed(c: Config, s: State, k: nat)
    requires Inv(c, s) && k in s.closers && s.closers[k] == Entered && s.closed
    ensures forall q | 0 <= q < c.shards :: s.queueClosed[q]
  {
  }

  lemma ClosingInRange(c: Config, s: State, k: nat)
    requires Inv(c, s) && k in s.closers && s.closers[k].Closing?
    ensures s.closed && s.closers[k].next <= c.shards && forall q | 0 <= q < s.closers[k].next :: s.queueClosed[q]
  {
  }

  lemma SuccessMeansDone(c: Config, s: State, k: nat)
    requires Inv(c, s) && k in s.closers && s.closers[k] == Returned(true)
    ensures s.done && multiset(s.completed) == multiset(s.accepted)
  {
    hide FlowOk, ClosedOk, LocksOk;
    AllDrained(c, s);
  }

  lemma ShardAccount(c: Config, s: State, q: nat)
    requires Inv(c, s) && q < c.shards
    ensures OfShard(c, s.accepted, q) == OfShard(c, s.completed, q) + InHand(s.workers[q]) + s.queues[q]
    ensures s.workers[q].Running? ==> ShardOf(c, s.workers[q].task.user) == q
    ensures s.workers[q] == Exited ==> s.queueClosed[q] && s.queues[q] == []
  {
    assert ShardFlows(c, s, q);
  }

  class PushWorkerPool {
    const c: Config
    /** What others do after the k-th step of the current call. */
    const others: nat -> seq<Step>
    var s: State
    var tick: nat
    ghost var trace: seq<Step>

    ghost predicate Valid()
      reads this
    {
      ValidConfig(c) && s == Run(c, Init(c), trace) && Inv(c, s)
    }

    /** Nobody else acts in this actor's name. */
    ghost predicate OnlyOthers(actor: Actor)
    {
      forall k :: AllForeign(actor, others(k))
    }

    /** From here on nobody else acts at all. */
    ghost predicate Alone()
      reads this
    {
      forall k | k >= tick :: others(k) == []
    }

    constructor (shardCount: int, queueSize: int, hash: string -> nat, others: nat -> seq<Step>)
      ensures Valid() && c == NewConfig(shardCount, queueSize, hash) && s == Init(c) && this.others == others
                && tick == 0
    {
      c := NewConfig(shardCount, queueSize, hash);
      this.others, tick := others, 0;
      s, trace := Init(NewConfig(shardCount, queueSize, hash)), [];
      InitOk(NewConfig(shardCount, queueSize, hash));
    }

    method Perform(ghost actor: Actor, step: Step)
      requires Valid() && OnlyOthers(actor)
      modifies this`s, this`tick, this`trace
      ensures Valid() && tick == old(tick) + 1
      ensures SameFor(actor, Apply(c, old(s), step), s) && Grows(Apply(c, old(s), step), s) && Grows(old(s), s)
      ensures actor.Draining? && actor.q < c.shards ==>
                OfShard(c, s.completed, actor.q) == OfShard(c, Apply(c, old(s), step).completed, actor.q)
      ensures old(Alone()) ==> Alone() && s == Apply(c, old(s), step)
    {
      hide Inv, Apply, OfShard, Init;
      var next := Apply(c, s, step);
      StepGrows(c, s, step);
      OneStep(c, s, step);
      OthersLeave(c, next, actor, others(tick));
      RunKeeps(c, next, others(tick));
      RunConcat(c, Init(c), trace, [step] + others(tick));
      assert ([step] + others(tick))[1..] == others(tick);
      trace := trace + ([step] + others(tick));
      s := Run(c, next, others(tick));
      tick := tick + 1;
    }

    /**
     Wait for the read lock, for at most `tries` attempts, then send without blocking. None stands for a call that is
     still waiting because closers keep the lock.
     */
    method SubmitWithResult(i: nat, task: Task, canceledBefore: bool, canceled: bool, prefersQueue: bool, tries: nat)
      returns (r: Option<SubmitResult>)
      requires Valid() && OnlyOthers(Submitting(i)) && i !in s.submitters
      modifies this`s, this`tick, this`trace
      ensures Valid() && i in s.submitters && s.submitters[i] == (if r.Some? then Answered(r.value) else Arrived(task))
      ensures canceledBefore ==> r == Some(ContextCanceled)
      ensures r == Some(ContextCanceled) ==> canceledBefore || canceled
      ensures r == Some(QueueFull) ==> !canceled
      ensures r == Some(PoolClosed) ==> s.closed
      ensures r == Some(Accepted) ==> exists j :: |old(s).accepted| <= j < |s.accepted| && s.accepted[j] == task
      ensures |old(s).queues| == c.shards >= 1
      ensures old(Alone()) && old(s).writer == None && tries > 0 ==>
                var q := c.hash(task.user) % c.shards;
                && r == Some(if canceledBefore then ContextCanceled
                             else if old(s).closed then PoolClosed
                             else if |old(s).queues[q]| < c.capacity && (!canceled || prefersQueue) then Accepted
                             else if canceled then ContextCanceled
                             else QueueFull)
                && s.accepted == old(s).accepted + (if r == Some(Accepted) then [task] else [])
                && s.queues == (if r == Some(Accepted) then old(s).queues[q := old(s).queues[q] + [task]]
                                else old(s).queues)
                && s.completed == old(s).completed && s.closed == old(s).closed && s.workers == old(s).workers
    {
      hide Run, Init, Inv, ShardOf, OnlyOthers, Alone;
      Inside(c, s);
      ShardInRange(c, task.user);
      HashedTo(c, task.user);
      Perform(Submitting(i), Arrive(i, task, canceledBefore));
      if canceledBefore {
        return Some(ContextCanceled);
      }
      var locked := AcquireRead(i, task, tries);
      if !locked {
        return None;
      }
      Perform(Submitting(i), Check(i));
      if s.submitters[i].Answered? {
        return Some(PoolClosed);
      }
      r := SendTask(i, task, canceled, prefersQueue);
    }

    /** The non-blocking select of the submission. */
    method SendTask(i: nat, task: Task, canceled: bool, prefersQueue: bool) returns (r: Option<SubmitResult>)
      requires Valid() && OnlyOthers(Submitting(i)) && i in s.submitters && s.submitters[i] == Checked(task)
      modifies this`s, this`tick, this`trace
      ensures Valid() && i in s.submitters && r.Some? && s.submitters[i] == Answered(r.value)
      ensures r == Some(if HasRoom(c, old(s), task) && (!canceled || prefersQueue) then Accepted
                        else if canceled then ContextCanceled else QueueFull)
      ensures Grows(old(s), s)
      ensures r == Some(Accepted) ==> |s.accepted| > |old(s).accepted| && s.accepted[|old(s).accepted|] == task
      ensures old(Alone()) ==>
                && s.accepted == old(s).accepted + (if r == Some(Accepted) then [task] else [])
                && s.queues == (if r == Some(Accepted) then Queued(c, old(s), task) else old(s).queues)
                && s.completed == old(s).completed && s.closed == old(s).closed && s.workers == old(s).workers
    {
      hide Run, Init, Inv, ShardOf, OnlyOthers, Alone;
      Inside(c, s);
      ShardInRange(c, task.user);
      Perform(Submitting(i), Send(i, canceled, prefersQueue));
      r := Some(s.submitters[i].result);
    }

    method AcquireRead(i: nat, task: Task, tries: nat) returns (locked: bool)
      requires Valid() && OnlyOthers(Submitting(i)) && i in s.submitters && s.submitters[i] == Arrived(task)
      modifies this`s, this`tick, this`trace
      ensures Valid() && i in s.submitters && s.submitters[i] == (if locked then Locked(task) else Arrived(task))
      ensures Grows(old(s), s)
      ensures old(Alone()) && old(s).writer == None && tries > 0 ==>
                && locked && Alone() && s.queues == old(s).queues && s.accepted == old(s).accepted
                       && s.completed == old(s).completed
                && s.closed == old(s).closed && s.workers == old(s).workers
    {
      hide Run, Init, Inv, OnlyOthers, Alone;
      var left := tries;
      while left > 0 && s.submitters[i].Arrived?
        invariant Valid() && OnlyOthers(Submitting(i)) && Grows(old(s), s)
        invariant i in s.submitters && (s.submitters[i] == Arrived(task) || s.submitters[i] == Locked(task))
        invariant old(Alone()) ==> Alone()
        invariant left == tries ==> s == old(s)
        invariant old(Alone()) && old(s).writer == None && left < tries ==>
                    && s.submitters[i] == Locked(task) && s.queues == old(s).queues && s.accepted == old(s).accepted
                    && s.completed == old(s).completed && s.closed == old(s).closed && s.workers == old(s).workers
      {
        Perform(Submitting(i), RLock(i));
        left := left - 1;
      }
      return s.submitters[i].Locked?;
    }

    /**
     Wait for the write lock, for at most `tries` attempts, close every queue unless an earlier call has, then wait for
     the workers until the context expires after `patience` looks. None stands for a call that is still waiting for the
     lock. Success means that every accepted task has completed.
     */
    method Close(k: nat, tries: nat, patience: nat) returns (r: Option<bool>)
      requires Valid() && OnlyOthers(Closes(k)) && k !in s.closers
      modifies this`s, this`tick, this`trace
      ensures Valid() && k in s.closers && s.closers[k] == (if r.Some? then Returned(r.value) else Waiting)
      ensures r.Some? ==> s.closed && forall q | 0 <= q < c.shards :: s.queueClosed[q]
      ensures r == Some(true) ==> s.done && multiset(s.completed) == multiset(s.accepted)
      ensures old(Alone()) && old(s).writer == None && old(s).readers == {} && tries > 0 ==>
                && r == Some(s.done) && s.done == old(s).done
                && s.queues == old(s).queues && s.accepted == old(s).accepted && s.completed == old(s).completed
    {
      hide Run, Init, Inv, OnlyOthers, Alone;
      Inside(c, s);
      Perform(Closes(k), CallClose(k));
      var locked := AcquireWrite(k, tries);
      if !locked {
        return None;
      }
      CloseOnce(k);
      var ok := Await(k, patience);
      if ok {
        SuccessMeansDone(c, s, k);
      }
      return Some(ok);
    }

    method AcquireWrite(k: nat, tries: nat) returns (locked: bool)
      requires Valid() && OnlyOthers(Closes(k)) && k in s.closers && s.closers[k] == Waiting
      modifies this`s, this`tick, this`trace
      ensures Valid() && k in s.closers && s.closers[k] == if locked then Entered else Waiting
      ensures old(Alone()) && old(s).writer == None && old(s).readers == {} && tries > 0 ==>
                locked && Alone() && SameTasks(old(s), s)
    {
      hide Run, Init, Inv, OnlyOthers, Alone;
      var left := tries;
      while left > 0 && s.closers[k] == Waiting
        invariant Valid() && OnlyOthers(Closes(k)) && k in s.closers
                    && (s.closers[k] == Waiting || s.closers[k] == Entered)
        invariant old(Alone()) ==> Alone()
        invariant left == tries ==> s == old(s)
        invariant old(Alone()) && old(s).writer == None && old(s).readers == {} && left < tries ==>
                    s.closers[k] == Entered && SameTasks(old(s), s)
      {
        Perform(Closes(k), Lock(k));
        left := left - 1;
      }
      return s.closers[k] == Entered;
    }

    /** Under the write lock: set the flag and close the queues one by one, the first time. */
    method CloseOnce(k: nat)
      requires Valid() && OnlyOthers(Closes(k)) && k in s.closers && s.closers[k] == Entered
      modifies this`s, this`tick, this`trace
      ensures Valid() && k in s.closers && s.closers[k] == AwaitingDone
      ensures s.closed && |s.queueClosed| == c.shards && forall q | 0 <= q < c.shards :: s.queueClosed[q]
      ensures old(Alone()) ==> Alone() && SameTasks(old(s), s)
    {
      hide Run, Init, Inv, OnlyOthers, Alone;
      Inside(c, s);
      if s.closed { ClosedMeansAllClosed(c, s, k); }
      Perform(Closes(k), SetClosed(k));
      while s.closers[k].Closing?
        invariant Valid() && OnlyOthers(Closes(k)) && k in s.closers && s.closed && |s.queueClosed| == c.shards
        invariant s.closers[k].Closing? || s.closers[k] == AwaitingDone
        invariant s.closers[k].Closing? ==> s.closers[k].next <= c.shards
        invariant s.closers[k] == AwaitingDone ==> forall q | 0 <= q < c.shards :: s.queueClosed[q]
        invariant old(Alone()) ==> Alone() && SameTasks(old(s), s)
        decreases if s.closers[k].Closing? then 1 + c.shards - s.closers[k].next else 0
      {
        ClosingInRange(c, s, k);
        Perform(Closes(k), CloseNext(k));
      }
    }

    /** Wait until the workers are done or the context expires. */
    method Await(k: nat, patience: nat) returns (ok: bool)
      requires Valid() && OnlyOthers(Closes(k)) && k in s.closers && s.closers[k] == AwaitingDone
      modifies this`s, this`tick, this`trace
      ensures Valid() && Grows(old(s), s) && k in s.closers && s.closers[k] == Returned(ok)
      ensures old(Alone()) ==> SameTasks(old(s), s) && ok == s.done
    {
      hide Run, Init, Inv, OnlyOthers, Alone;
      var left := patience;
      while left > 0 && s.closers[k] == AwaitingDone
        invariant Valid() && OnlyOthers(Closes(k)) && Grows(old(s), s)
        invariant k in s.closers && (s.closers[k] == AwaitingDone || s.closers[k] == Returned(true))
        invariant old(Alone()) ==> Alone() && SameTasks(old(s), s) && (s.closers[k] == Returned(true) ==> s.done)
      {
        Perform(Closes(k), Return(k, false));
        left := left - 1;
      }
      if s.closers[k] == AwaitingDone {
        Perform(Closes(k), Return(k, true));
      }
      return s.closers[k].ok;
    }

    /**
     The worker of one shard, for at most `rounds` looks at its queue: tasks are completed in the order of acceptance,
     with others submitting and closing in between, and the worker stops only when its queue is closed and empty.
     */
    method RunShard(q: nat, rounds: nat) returns (exited: bool, ghost handled: seq<Task>)
      requires Valid() && OnlyOthers(Draining(q)) && q < c.shards && s.workers[q] == Idle
      modifies this`s, this`tick, this`trace
      ensures Valid() && |s.workers| == |s.queues| == |s.queueClosed| == c.shards
      ensures s.workers[q] == if exited then Exited else Idle
      ensures OfShard(c, s.completed, q) == OfShard(c, old(s).completed, q) + handled
      ensures OfShard(c, s.accepted, q) == OfShard(c, s.completed, q) + s.queues[q]
      ensures exited ==> s.queueClosed[q] && s.queues[q] == []
      ensures !exited ==> |handled| <= rounds
      ensures old(Alone()) && rounds > |old(s).queues[q]| ==>
                && handled == old(s).queues[q] && s.queues[q] == [] && s.accepted == old(s).accepted
                && (exited <==> old(s).queueClosed[q])
    {
      hide Run, Init, Inv, OnlyOthers, Alone, OfShard, ShardOf;
      Inside(c, s);
      handled, exited := [], false;
      var left: nat := rounds;
      assert old(s).queues[q][0..] == old(s).queues[q];
      assert OfShard(c, old(s).completed, q) + [] == OfShard(c, old(s).completed, q);
      while left > 0 && !exited
        invariant Valid() && OnlyOthers(Draining(q)) && |s.workers| == |s.queues| == |s.queueClosed| == c.shards
        invariant s.workers[q] == if exited then Exited else Idle
        invariant OfShard(c, s.completed, q) == OfShard(c, old(s).completed, q) + handled
        invariant |handled| <= rounds - left && (exited ==> s.queueClosed[q] && s.queues[q] == [])
        invariant old(Alone()) ==>
                    && Alone() && s.accepted == old(s).accepted && s.queueClosed == old(s).queueClosed
                    && |handled| <= |old(s).queues[q]| && handled == old(s).queues[q][..|handled|]
                    && s.queues[q] == old(s).queues[q][|handled|..]
                    && (|handled| < |old(s).queues[q]| ==> left == rounds - |handled| && !exited)
                    && (left < rounds - |old(s).queues[q]| ==> (exited <==> s.queueClosed[q]))
      {
        var task := CompleteNext(q);
        match task {
          case Some(t) => handled := handled + [t];
          case None => exited := s.workers[q] == Exited;
        }
        left := left - 1;
      }
      ShardAccount(c, s, q);
      assert OfShard(c, s.completed, q) + [] + s.queues[q] == OfShard(c, s.completed, q) + s.queues[q];
    }

    /** Take the first task of the queue and complete it. */
    method HandleTask(q: nat) returns (task: Task)
      requires Valid() && OnlyOthers(Draining(q)) && q < c.shards && |s.workers| == |s.queues| == c.shards
                 && s.workers[q] == Idle && |s.queues[q]| > 0
      modifies this`s, this`tick, this`trace
      ensures Valid() && |s.workers| == |s.queues| == |s.queueClosed| == c.shards && s.workers[q] == Idle
      ensures task == old(s).queues[q][0]
      ensures OfShard(c, s.completed, q) == OfShard(c, old(s).completed, q) + [task]
      ensures old(Alone()) ==>
                && Alone() && s.accepted == old(s).accepted && s.queueClosed == old(s).queueClosed
                && s.queues[q] == old(s).queues[q][1..]
    {
      hide Run, Init, Inv, OnlyOthers, Alone, OfShard, ShardOf;
      Inside(c, s);
      Perform(Draining(q), Take(q));
      Inside(c, s);
      task := s.workers[q].task;
      ShardAccount(c, s, q);
      OfShardAppend(c, s.completed, task, q);
      Perform(Draining(q), Complete(q));
      Inside(c, s);
    }

    /** One look at the queue: complete its first task or, when it is closed and empty, stop. */
    method CompleteNext(q: nat) returns (task: Option<Task>)
      requires Valid() && OnlyOthers(Draining(q)) && q < c.shards && |s.workers| == |s.queues| == c.shards
                 && s.workers[q] == Idle
      modifies this`s, this`tick, this`trace
      ensures Valid() && |s.workers| == |s.queues| == |s.queueClosed| == c.shards
      ensures s.workers[q] == Idle || (task == None && s.workers[q] == Exited && s.queueClosed[q] && s.queues[q] == [])
      ensures task == if |old(s).queues[q]| > 0 then Some(old(s).queues[q][0]) else None
      ensures OfShard(c, s.completed, q) == OfShard(c, old(s).completed, q) + (if task.Some? then [task.value] else [])
      ensures old(Alone()) ==>
                && Alone() && s.accepted == old(s).accepted && s.queueClosed == old(s).queueClosed
                && s.queues[q] == (if task.Some? then old(s).queues[q][1..] else [])
                && (task == None ==> (s.workers[q] == Exited <==> s.queueClosed[q]))
    {
      hide Run, Init, Inv, OnlyOthers, Alone, OfShard, ShardOf;
      Inside(c, s);
      if |s.queues[q]| > 0 {
        var first := HandleTask(q);
        task := Some(first);
      } else {
        task := None;
        Perform(Draining(q), Exit(q));
        assert OfShard(c, old(s).completed, q) + [] == OfShard(c, old(s).completed, q);
      }
      Inside(c, s);
      ShardAccount(c, s, q);
    }
  }

  predicate HasRoom(c: Config, s: State, task: Task)
  {
    ShardOf(c, task.user) < |s.queues| && |s.queues[ShardOf(c, task.user)]| < c.capacity
  }

  function Queued(c: Config, s: State, task: Task): seq<seq<Task>>
    requires ShardOf(c, task.user) < |s.queues|
  {
    var q := ShardOf(c, task.user);
    s.queues[q := s.queues[q] + [task]]
  }

  predicate SameTasks(s: State, t: State)
  {
    s.queues == t.queues && s.accepted == t.accepted && s.completed == t.completed && s.done == t.done
  }
}
