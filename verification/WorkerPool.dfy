/**
 The push worker pool: submitters send to bounded shard queues under a read lock, closers close every queue under the
 write lock, one worker drains each shard. Every lock operation, check, send, close and completion is a step of its own.
 `accepted` and `completed` list the tasks in the order of those events.
 */
module WorkerPool {
  import opened Wrappers

  datatype Task = Task(user: string, id: nat)

  datatype SubmitResult = Accepted | QueueFull | PoolClosed | ContextCanceled

  datatype Submitter =
    | Arrived(task: Task)
    | Locked(task: Task)      // holds the read lock
    | Checked(task: Task)     // holds the read lock and saw the pool open
    | Answered(result: SubmitResult)

  datatype Closer =
    | Waiting
    | Entered                 // holds the write lock
    | Closing(next: nat)      // holds the write lock, queues before `next` are closed
    | AwaitingDone
    | Returned(ok: bool)

  datatype Worker = Idle | Running(task: Task) | Exited

  datatype Config = Config(shards: nat, capacity: nat, hash: string -> nat)

  datatype State = State(
    queues: seq<seq<Task>>,
    queueClosed: seq<bool>,
    workers: seq<Worker>,
    closed: bool,
    done: bool,
    readers: set<nat>,
    writer: Option<nat>,
    submitters: map<nat, Submitter>,
    closers: map<nat, Closer>,
    accepted: seq<Task>,
    completed: seq<Task>)

  datatype Step =
    | Arrive(i: nat, task: Task, canceled: bool)
    | RLock(i: nat)
    | Check(i: nat)
    | Send(i: nat, canceled: bool, prefersQueue: bool)
    | CallClose(c: nat)
    | Lock(c: nat)
    | SetClosed(c: nat)
    | CloseNext(c: nat)
    | Return(c: nat, expired: bool)
    | Take(shard: nat)
    | Complete(shard: nat)
    | Exit(shard: nat)
    | SignalDone

  predicate ValidConfig(c: Config)
  {
    c.shards >= 1 && c.capacity >= 1
  }

  /** Non-positive sizes are replaced by one. */
  function NewConfig(shardCount: int, queueSize: int, hash: string -> nat): (c: Config)
    ensures ValidConfig(c)
  {
    Config(if shardCount <= 0 then 1 else shardCount, if queueSize <= 0 then 1 else queueSize, hash)
  }

  function ShardOf(c: Config, user: string): nat
  {
    if c.shards <= 1 then 0 else c.hash(user) % c.shards
  }

  function Init(c: Config): State
  {
    State(seq(c.shards, i => []), seq(c.shards, i => false), seq(c.shards, i => Idle),
          false, false, {}, None, map[], map[], [], [])
  }

  function Unlock(s: State, i: nat, result: SubmitResult): State
  {
    s.(submitters := s.submitters[i := Answered(result)], readers := s.readers - {i})
  }

  function SendStep(c: Config, s: State, i: nat, task: Task, canceled: bool, prefersQueue: bool): State
  {
    var shard := ShardOf(c, task.user);
    if shard >= |s.queues| then s
    else if |s.queues[shard]| < c.capacity && (!canceled || prefersQueue) then
      Unlock(s.(queues := s.queues[shard := s.queues[shard] + [task]], accepted := s.accepted + [task]), i, Accepted)
    else if canceled then Unlock(s, i, ContextCanceled)
    else Unlock(s, i, QueueFull)
  }

  function SubmitterStep(c: Config, s: State, step: Step): State
  {
    match step
    case Arrive(i, task, canceled) =>
      if i in s.submitters then s
      else s.(submitters := s.submitters[i := if canceled then Answered(ContextCanceled) else Arrived(task)])
    case RLock(i) =>
      if i in s.submitters && s.submitters[i].Arrived? && s.writer.None?
      then s.(submitters := s.submitters[i := Locked(s.submitters[i].task)], readers := s.readers + {i}) else s
    case Check(i) =>
      if i in s.submitters && s.submitters[i].Locked?
      then (if s.closed then Unlock(s, i, PoolClosed)
        else s.(submitters := s.submitters[i := Checked(s.submitters[i].task)])) else s
    case Send(i, canceled, prefersQueue) =>
      if i in s.submitters && s.submitters[i].Checked?
        then SendStep(c, s, i, s.submitters[i].task, canceled, prefersQueue) else s
    case _ => s
  }

  function CloserStep(s: State, step: Step): State
  {
    match step
    case CallClose(k) => if k in s.closers then s else s.(closers := s.closers[k := Waiting])
    case Lock(k) =>
      if k in s.closers && s.closers[k] == Waiting && s.writer.None? && s.readers == {}
      then s.(closers := s.closers[k := Entered], writer := Some(k)) else s
    case SetClosed(k) =>
      if k in s.closers && s.closers[k] == Entered
      then (if s.closed then s.(closers := s.closers[k := AwaitingDone], writer := None)
            else s.(closers := s.closers[k := Closing(0)], closed := true)) else s
    case CloseNext(k) =>
      if k in s.closers && s.closers[k].Closing?
      then (var next := s.closers[k].next;
            if next < |s.queueClosed|
              then s.(queueClosed := s.queueClosed[next := true], closers := s.closers[k := Closing(next + 1)])
            else s.(closers := s.closers[k := AwaitingDone], writer := None)) else s
    case Return(k, expired) =>
      if k in s.closers && s.closers[k] == AwaitingDone && (s.done || expired)
      then s.(closers := s.closers[k := Returned(s.done)]) else s
    case _ => s
  }

  function WorkerStep(s: State, step: Step): State
  {
    match step
    case Take(k) =>
      if k < |s.workers| == |s.queues| && s.workers[k] == Idle && |s.queues[k]| > 0
      then s.(workers := s.workers[k := Running(s.queues[k][0])], queues := s.queues[k := s.queues[k][1..]]) else s
    case Complete(k) =>
      if k < |s.workers| && s.workers[k].Running?
      then s.(workers := s.workers[k := Idle], completed := s.completed + [s.workers[k].task]) else s
    case Exit(k) =>
      if k < |s.workers| == |s.queues| == |s.queueClosed| && s.workers[k] == Idle && |s.queues[k]| == 0
        && s.queueClosed[k]
      then s.(workers := s.workers[k := Exited]) else s
    case SignalDone =>
      if forall k | 0 <= k < |s.workers| :: s.workers[k] == Exited then s.(done := true) else s
    case _ => s
  }

  function Apply(c: Config, s: State, step: Step): State
  {
    match step
    case Arrive(_, _, _) => SubmitterStep(c, s, step)
    case RLock(_) => SubmitterStep(c, s, step)
    case Check(_) => SubmitterStep(c, s, step)
    case Send(_, _, _) => SubmitterStep(c, s, step)
    case Take(_) => WorkerStep(s, step)
    case Complete(_) => WorkerStep(s, step)
    case Exit(_) => WorkerStep(s, step)
    case SignalDone => WorkerStep(s, step)
    case _ => CloserStep(s, step)
  }

  function Run(c: Config, s: State, steps: seq<Step>): State
    decreases steps
  {
    if |steps| == 0 then s else Run(c, Apply(c, s, steps[0]), steps[1..])
  }

  lemma {:induction false} RunConcat(c: Config, s: State, a: seq<Step>, b: seq<Step>)
    ensures Run(c, s, a + b) == Run(c, Run(c, s, a), b)
    decreases a
  {
    if |a| == 0 {
      assert a + b == b;
    } else {
      assert (a + b)[1..] == a[1..] + b;
      RunConcat(c, Apply(c, s, a[0]), a[1..], b);
    }
  }

  // ---------- the invariant ----------

  ghost predicate Sizes(c: Config, s: State)
  {
    |s.queues| == |s.queueClosed| == |s.workers| == c.shards
  }

  /** Readers are the submitters inside, the writer is the closer inside, and they exclude each other. */
  ghost predicate LocksOk(s: State)
  {
    && (forall i | i in s.submitters && (s.submitters[i].Locked? || s.submitters[i].Checked?) :: i in s.readers)
    && (s.writer.Some? ==> s.readers == {})
    && (forall k | k in s.closers && (s.closers[k].Entered? || s.closers[k].Closing?) :: s.writer == Some(k))
  }

  /** Queues are closed only after the flag is set; outside a running close, all of them or none. */
  ghost predicate ClosedOk(s: State)
  {
    && (forall i | i in s.submitters && s.submitters[i].Checked? :: !s.closed)
    && (!s.closed ==> forall q | 0 <= q < |s.queueClosed| :: !s.queueClosed[q])
    && (forall k | k in s.closers && s.closers[k].Entered? ::
          s.closed ==> forall q | 0 <= q < |s.queueClosed| :: s.queueClosed[q])
    && (forall k | k in s.closers && s.closers[k].Closing? ::
          && s.closed && s.closers[k].next <= |s.queueClosed|
          && forall q | 0 <= q < |s.queueClosed| :: s.queueClosed[q] <==> q < s.closers[k].next)
    && (s.closed && s.writer.None? ==> forall q | 0 <= q < |s.queueClosed| :: s.queueClosed[q])
  }

  function OfShard(c: Config, tasks: seq<Task>, shard: nat): seq<Task>
  {
    if |tasks| == 0 then []
    else
      var front := OfShard(c, tasks[..|tasks| - 1], shard);
      if ShardOf(c, tasks[|tasks| - 1].user) == shard then front + [tasks[|tasks| - 1]] else front
  }

  lemma OfShardAppend(c: Config, tasks: seq<Task>, task: Task, shard: nat)
    ensures OfShard(c, tasks + [task], shard)
              == OfShard(c, tasks, shard) + (if ShardOf(c, task.user) == shard then [task] else [])
  {
    assert (tasks + [task])[..|tasks|] == tasks;
  }

  function InHand(worker: Worker): seq<Task>
  {
    if worker.Running? then [worker.task] else []
  }

  /** What a shard accepted is what it completed, then what its worker holds, then its queue, in that order. */
  ghost predicate ShardFlows(c: Config, s: State, q: nat)
    requires q < |s.queues| && q < |s.workers|
  {
    && OfShard(c, s.accepted, q) == OfShard(c, s.completed, q) + InHand(s.workers[q]) + s.queues[q]
    && |s.queues[q]| <= c.capacity
    && (s.workers[q].Running? ==> ShardOf(c, s.workers[q].task.user) == q)
    && (forall i | 0 <= i < |s.queues[q]| :: ShardOf(c, s.queues[q][i].user) == q)
  }

  ghost predicate FlowOk(c: Config, s: State)
    requires Sizes(c, s)
  {
    forall q: nat | q < c.shards :: ShardFlows(c, s, q)
  }

  ghost predicate ExitsOk(c: Config, s: State)
    requires Sizes(c, s)
  {
    && (forall q | 0 <= q < c.shards && s.workers[q] == Exited :: s.queueClosed[q] && s.queues[q] == [])
    && (s.done ==> forall q | 0 <= q < c.shards :: s.workers[q] == Exited)
    && (forall k | k in s.closers && s.closers[k] == Returned(true) :: s.done)
  }

  ghost predicate Inv(c: Config, s: State)
  {
    ValidConfig(c) && Sizes(c, s) && LocksOk(s) && ClosedOk(s) && FlowOk(c, s) && ExitsOk(c, s)
  }

  lemma InitOk(c: Config)
    requires ValidConfig(c)
    ensures Inv(c, Init(c))
  {
  }

  lemma ShardInRange(c: Config, user: string)
    requires ValidConfig(c)
    ensures ShardOf(c, user) < c.shards
  {
  }

  lemma HashedTo(c: Config, user: string)
    requires ValidConfig(c)
    ensures ShardOf(c, user) == c.hash(user) % c.shards
  {
  }

  /** A task that is sent goes to the end of its shard's queue and of the accepted tasks. */
  lemma SendFlows(c: Config, s: State, i: nat, task: Task, canceled: bool, prefersQueue: bool)
    requires ValidConfig(c) && Sizes(c, s) && FlowOk(c, s)
    ensures var t := SendStep(c, s, i, task, canceled, prefersQueue); Sizes(c, t) && FlowOk(c, t)
  {
    hide ShardOf, OfShard, InHand;
    var shard := ShardOf(c, task.user);
    ShardInRange(c, task.user);
    var t := SendStep(c, s, i, task, canceled, prefersQueue);
    forall q: nat | q < c.shards ensures ShardFlows(c, t, q) {
      assert ShardFlows(c, s, q);
      if t.accepted != s.accepted {
        OfShardAppend(c, s.accepted, task, q);
        AddsTail(OfShard(c, s.completed, q) + InHand(s.workers[q]), s.queues[q], task);
      }
    }
  }

  lemma AddsTail(done: seq<Task>, queue: seq<Task>, task: Task)
    ensures done + queue + [task] == done + (queue + [task]) && done + queue + [] == done + queue
  {
  }

  lemma SendKeeps(c: Config, s: State, i: nat, canceled: bool, prefersQueue: bool)
    requires Inv(c, s) && i in s.submitters && s.submitters[i].Checked?
    ensures Inv(c, SendStep(c, s, i, s.submitters[i].task, canceled, prefersQueue))
  {
    hide FlowOk, ShardOf;
    var task := s.submitters[i].task;
    SendFlows(c, s, i, task, canceled, prefersQueue);
    ShardInRange(c, task.user);
  }

  lemma SubmitterKeeps(c: Config, s: State, step: Step)
    requires Inv(c, s)
    ensures Inv(c, SubmitterStep(c, s, step))
  {
    hide ShardFlows, SendStep;
    if step.Send? && step.i in s.submitters && s.submitters[step.i].Checked? {
      SendKeeps(c, s, step.i, step.canceled, step.prefersQueue);
    } else {
      SameFlow(c, s, SubmitterStep(c, s, step));
    }
  }

  lemma SameFlow(c: Config, s: State, t: State)
    requires Sizes(c, s) && FlowOk(c, s)
    requires t.queues == s.queues && t.workers == s.workers && t.accepted == s.accepted && t.completed == s.completed
    requires |t.queueClosed| == |s.queueClosed|
    ensures Sizes(c, t) && FlowOk(c, t)
  {
    forall q: nat | q < c.shards ensures ShardFlows(c, t, q) { assert ShardFlows(c, s, q); }
  }

  lemma CloserKeeps(c: Config, s: State, step: Step)
    requires Inv(c, s)
    ensures Inv(c, CloserStep(s, step))
  {
    hide FlowOk, ClosedOk, LocksOk, ExitsOk, CloserStep;
    CloserFlow(c, s, step);
    CloserExits(c, s, step);
    CloserCloses(s, step);
    CloserLocks(s, step);
  }

  lemma CloserFlow(c: Config, s: State, step: Step)
    requires Sizes(c, s) && FlowOk(c, s)
    ensures Sizes(c, CloserStep(s, step)) && FlowOk(c, CloserStep(s, step))
  {
    hide FlowOk;
    SameFlow(c, s, CloserStep(s, step));
  }

  lemma CloserExits(c: Config, s: State, step: Step)
    requires Sizes(c, s) && Sizes(c, CloserStep(s, step)) && ExitsOk(c, s)
    ensures ExitsOk(c, CloserStep(s, step))
  {
  }

  lemma CloserLocks(s: State, step: Step)
    requires LocksOk(s)
    ensures LocksOk(CloserStep(s, step))
  {
  }

  lemma CloserCloses(s: State, step: Step)
    requires LocksOk(s) && ClosedOk(s)
    ensures ClosedOk(CloserStep(s, step))
  {
    match step
    case SetClosed(k) => SetClosedCloses(s, k);
    case CloseNext(k) => CloseNextCloses(s, k);
    case _ =>
  }

  lemma SetClosedCloses(s: State, k: nat)
    requires LocksOk(s) && ClosedOk(s)
    ensures ClosedOk(CloserStep(s, SetClosed(k)))
  {
  }

  lemma CloseNextCloses(s: State, k: nat)
    requires LocksOk(s) && ClosedOk(s)
    ensures ClosedOk(CloserStep(s, CloseNext(k)))
  {
  }

  /** The head of the queue moves into the worker's hand. */
  lemma HeadMoves(done: seq<Task>, queue: seq<Task>)
    requires |queue| > 0
    ensures done + [] + queue == done + [queue[0]] + queue[1..]
  {
  }

  lemma Hands(worker: Worker, task: Task)
    ensures worker == Idle ==> InHand(worker) == []
    ensures InHand(Running(task)) == [task]
  {
  }

  lemma TakeFlows(c: Config, s: State, shard: nat)
    requires Sizes(c, s) && FlowOk(c, s)
    ensures Sizes(c, WorkerStep(s, Take(shard))) && FlowOk(c, WorkerStep(s, Take(shard)))
  {
    hide ShardOf, OfShard, InHand;
    var t := WorkerStep(s, Take(shard));
    forall q: nat | q < c.shards ensures ShardFlows(c, t, q) {
      assert ShardFlows(c, s, q);
      if q == shard && t != s {
        HeadMoves(OfShard(c, s.completed, q), s.queues[q]);
        Hands(s.workers[q], s.queues[q][0]);
        assert t.queues[q] == s.queues[q][1..];
      } else {
        assert t.queues[q] == s.queues[q] && t.workers[q] == s.workers[q];
      }
    }
  }

  lemma CompleteFlows(c: Config, s: State, shard: nat)
    requires Sizes(c, s) && FlowOk(c, s)
    ensures Sizes(c, WorkerStep(s, Complete(shard))) && FlowOk(c, WorkerStep(s, Complete(shard)))
  {
    hide ShardOf, OfShard;
    var t := WorkerStep(s, Complete(shard));
    if t != s {
      assert ShardFlows(c, s, shard);
      forall q: nat | q < c.shards ensures ShardFlows(c, t, q) {
        assert ShardFlows(c, s, q);
        OfShardAppend(c, s.completed, s.workers[shard].task, q);
      }
    }
  }

  lemma WorkerFlows(c: Config, s: State, step: Step)
    requires Sizes(c, s) && FlowOk(c, s)
    ensures Sizes(c, WorkerStep(s, step)) && FlowOk(c, WorkerStep(s, step))
  {
    hide ShardOf, OfShard;
    match step
    case Take(shard) => TakeFlows(c, s, shard);
    case Complete(shard) => CompleteFlows(c, s, shard);
    case _ =>
      var t := WorkerStep(s, step);
      forall q: nat | q < c.shards ensures ShardFlows(c, t, q) {
        assert ShardFlows(c, s, q);
      }
  }

  lemma WorkerKeeps(c: Config, s: State, step: Step)
    requires Inv(c, s)
    ensures Inv(c, WorkerStep(s, step))
  {
    hide FlowOk;
    WorkerFlows(c, s, step);
  }

  lemma {:induction false} RunKeeps(c: Config, s: State, steps: seq<Step>)
    requires Inv(c, s)
    ensures Inv(c, Run(c, s, steps))
    decreases steps
  {
    hide Inv, SubmitterStep, CloserStep, WorkerStep;
    if |steps| > 0 {
      SubmitterKeeps(c, s, steps[0]);
      CloserKeeps(c, s, steps[0]);
      WorkerKeeps(c, s, steps[0]);
      RunKeeps(c, Apply(c, s, steps[0]), steps[1..]);
    }
  }

  lemma Reachable(c: Config, steps: seq<Step>)
    requires ValidConfig(c)
    ensures Inv(c, Run(c, Init(c), steps))
  {
    InitOk(c);
    RunKeeps(c, Init(c), steps);
  }

  // ---------- what callers may rely on ----------

  /**
   No send or close ever meets a closed queue; queues stay within capacity and hold only the tasks of users whose hash
   falls on their shard.
   */
  lemma ChannelsAreSafe(c: Config, steps: seq<Step>, i: nat, k: nat)
    requires ValidConfig(c)
    ensures var s := Run(c, Init(c), steps);
            && |s.queues| == |s.queueClosed| == c.shards
            && (forall q | 0 <= q < c.shards :: |s.queues[q]| <= c.capacity)
            && (forall q, j | 0 <= q < c.shards && 0 <= j < |s.queues[q]| ::
                  c.hash(s.queues[q][j].user) % c.shards == q)
            && (i in s.submitters && s.submitters[i].Checked? ==>
                  forall q | 0 <= q < c.shards :: !s.queueClosed[q])
            && (k in s.closers && s.closers[k].Closing? && s.closers[k].next < c.shards ==>
                  !s.queueClosed[s.closers[k].next])
  {
    Reachable(c, steps);
    var s := Run(c, Init(c), steps);
    forall q | 0 <= q < c.shards
      ensures |s.queues[q]| <= c.capacity
      ensures forall j | 0 <= j < |s.queues[q]| :: c.hash(s.queues[q][j].user) % c.shards == q
    {
      assert ShardFlows(c, s, q);
      forall j | 0 <= j < |s.queues[q]| ensures c.hash(s.queues[q][j].user) % c.shards == q {
        HashedTo(c, s.queues[q][j].user);
      }
    }
  }

  function OfUser(tasks: seq<Task>, user: string): seq<Task>
  {
    if |tasks| == 0 then []
    else
      var front := OfUser(tasks[..|tasks| - 1], user);
      if tasks[|tasks| - 1].user == user then front + [tasks[|tasks| - 1]] else front
  }

  lemma OfUserConcat(a: seq<Task>, b: seq<Task>, user: string)
    ensures OfUser(a + b, user) == OfUser(a, user) + OfUser(b, user)
    decreases b
  {
    if |b| == 0 {
      assert a + b == a;
    } else {
      assert (a + b)[..|a + b| - 1] == a + b[..|b| - 1];
      OfUserConcat(a, b[..|b| - 1], user);
    }
  }

  /** A user's tasks all live in one shard. */
  lemma OfUserInShard(c: Config, tasks: seq<Task>, user: string)
    ensures OfUser(OfShard(c, tasks, ShardOf(c, user)), user) == OfUser(tasks, user)
  {
    hide ShardOf;
    if |tasks| > 0 {
      var front := tasks[..|tasks| - 1];
      OfUserInShard(c, front, user);
      if ShardOf(c, tasks[|tasks| - 1].user) == ShardOf(c, user) {
        OfUserConcat(OfShard(c, front, ShardOf(c, user)), [tasks[|tasks| - 1]], user);
        assert OfUser([tasks[|tasks| - 1]], user)
            == if tasks[|tasks| - 1].user == user then [tasks[|tasks| - 1]] else [] by {
          assert [tasks[|tasks| - 1]][..0] == [];
        }
      }
    }
  }

  /** Tasks of one user complete in the order they were accepted, each at most once. */
  lemma UserOrderKept(c: Config, steps: seq<Step>, user: string)
    requires ValidConfig(c)
    ensures var s := Run(c, Init(c), steps);
            OfUser(s.completed, user) <= OfUser(s.accepted, user)
  {
    hide OfShard, OfUser, ShardOf;
    Reachable(c, steps);
    var s := Run(c, Init(c), steps);
    var q := ShardOf(c, user);
    ShardInRange(c, user);
    assert ShardFlows(c, s, q);
    var rest := InHand(s.workers[q]) + s.queues[q];
    assert OfShard(c, s.accepted, q) == OfShard(c, s.completed, q) + rest;
    OfUserConcat(OfShard(c, s.completed, q), rest, user);
    OfUserInShard(c, s.accepted, user);
    OfUserInShard(c, s.completed, user);
  }

  lemma CountInShard(c: Config, tasks: seq<Task>, task: Task)
    ensures multiset(OfShard(c, tasks, ShardOf(c, task.user)))[task] == multiset(tasks)[task]
  {
    hide ShardOf;
    if |tasks| > 0 {
      CountInShard(c, tasks[..|tasks| - 1], task);
      assert tasks == tasks[..|tasks| - 1] + [tasks[|tasks| - 1]];
    }
  }

  /**
   When Close reports success every accepted task has completed exactly once, and no task can be accepted any more.
   */
  lemma CloseDrains(c: Config, steps: seq<Step>, more: seq<Step>, k: nat)
    requires ValidConfig(c)
    ensures var s := Run(c, Init(c), steps);
            k in s.closers && s.closers[k] == Returned(true) ==>
              && multiset(s.completed) == multiset(s.accepted)
              && Run(c, s, more).accepted == s.accepted
  {
    Reachable(c, steps);
    var s := Run(c, Init(c), steps);
    if k in s.closers && s.closers[k] == Returned(true) {
      AllDrained(c, s);
      AcceptsNoMore(c, s, more);
    }
  }

  lemma AllDrained(c: Config, s: State)
    requires Inv(c, s) && s.done
    ensures multiset(s.completed) == multiset(s.accepted) && s.closed
  {
    hide OfShard, ShardOf, LocksOk;
    forall task ensures multiset(s.completed)[task] == multiset(s.accepted)[task] {
      var q := ShardOf(c, task.user);
      ShardInRange(c, task.user);
      assert ShardFlows(c, s, q);
      assert OfShard(c, s.accepted, q) == OfShard(c, s.completed, q);
      CountInShard(c, s.accepted, task);
      CountInShard(c, s.completed, task);
    }
    assert s.workers[0] == Exited;
  }

  lemma {:induction false} AcceptsNoMore(c: Config, s: State, steps: seq<Step>)
    requires Inv(c, s) && s.closed
    ensures Run(c, s, steps).accepted == s.accepted
    decreases steps
  {
    if |steps| > 0 {
      ClosedStays(c, s, steps[0]);
      SubmitterKeeps(c, s, steps[0]);
      CloserKeeps(c, s, steps[0]);
      WorkerKeeps(c, s, steps[0]);
      AcceptsNoMore(c, Apply(c, s, steps[0]), steps[1..]);
    }
  }

  lemma ClosedStays(c: Config, s: State, step: Step)
    requires Inv(c, s) && s.closed
    ensures Apply(c, s, step).closed && Apply(c, s, step).accepted == s.accepted
  {
  }
}
