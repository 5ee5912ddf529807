/**
 The logic worker that empties the outbox: claim, hand the message over, finish or reschedule, one external command at a
 time. Commands may be lost, or take effect although their answer is lost, and any steps of other processes run after
 each.
 */
module LogicWorker {
  import opened Faults
  import opened Wrappers
  import Outbox = DeliveryOutbox
  import opened DeliveryPipeline
  import opened NoLostDelivery
  import opened NoLostDeliveryRuns
  import PipelineHistory

  datatype Error = LeaseLost | Unavailable

  /** Whose step it is; -1 stands for steps of no logic worker. */
  function OutboxWorker(step: Outbox.Step): int
  {
    if step.Enqueue? then -1 else step.w
  }

  function StepWorker(step: Step): int
  {
    match step
    case OutboxStep(outboxStep) => OutboxWorker(outboxStep)
    case Publish(w, _, _, _) => w
    case TrackNext(w, _, _) => w
    case _ => -1
  }

  predicate OthersOnly(w: nat, steps: seq<Step>)
  {
    forall i | 0 <= i < |steps| :: StepWorker(steps[i]) != w
  }

  /** The worker is where it was, with the same progress; rows that were done still are. */
  ghost predicate Undisturbed(s: State, t: State, w: nat)
  {
    && Outbox.WorkerOf(t.outbox, w) == Outbox.WorkerOf(s.outbox, w)
    && ProgressOf(t, w) == ProgressOf(s, w)
    && DoneStays(s, t)
  }

  ghost predicate DoneStays(s: State, t: State)
  {
    forall id | id in s.outbox.rows && s.outbox.rows[id].status == Outbox.Done ::
      id in t.outbox.rows && t.outbox.rows[id] == s.outbox.rows[id]
  }

  lemma OutboxLeaves(s: Outbox.State, w: nat, step: Outbox.Step)
    requires OutboxWorker(step) != w
    ensures Outbox.WorkerOf(Outbox.Apply(s, step), w) == Outbox.WorkerOf(s, w)
  {
  }

  lemma OutboxKeepsDone(s: Outbox.State, step: Outbox.Step)
    ensures forall id | id in s.rows && s.rows[id].status == Outbox.Done ::
              id in Outbox.Apply(s, step).rows && Outbox.Apply(s, step).rows[id] == s.rows[id]
  {
  }

  lemma WorkerStepLeaves(s: State, w: nat, step: Outbox.Step)
    ensures DoneStays(s, WorkerStep(s, step))
    ensures OutboxWorker(step) != w ==> Undisturbed(s, WorkerStep(s, step), w)
  {
    hide Outbox.Apply, HandedOver;
    OutboxKeepsDone(s.outbox, step);
    if OutboxWorker(step) != w { OutboxLeaves(s.outbox, w, step); }
  }

  lemma HandOverLeaves(s: State, w: nat, step: Step)
    requires step.Publish? || step.TrackNext?
    ensures var t := Apply(s, 0, step); t.outbox == s.outbox && (step.w != w ==> ProgressOf(t, w) == ProgressOf(s, w))
    ensures forall m :: Apply(s, m, step) == Apply(s, 0, step)
  {
  }

  predicate ConsumerStep(step: Step)
  {
    !step.OutboxStep? && !step.Publish? && !step.TrackNext?
  }

  lemma ConsumersLeave(s: State, maxAttempts: nat, step: Step)
    requires ConsumerStep(step)
    ensures var t := Apply(s, maxAttempts, step); t.outbox == s.outbox && t.progress == s.progress
  {
    hide Current, ClaimStep, DeliverStep, ReleaseStep, CompleteStep, FailureStep, CommitStep, WorkerStep, PublishStep,
      TrackStep;
    match step
    case ClaimRecipient(c, owner, written, ok) => ClaimLeaves(s, c, owner, written, ok);
    case Deliver(c, written, ok) => DeliverLeaves(s, c, written, ok);
    case Release(c, written) => DeliverLeaves(s, c, written, true);
    case Complete(c, written, ok) => CompleteLeaves(s, c, written, ok);
    case Commit(c, written, ok) => CompleteLeaves(s, c, written, ok);
    case WriteFailure(c, index, written, ok) => FailureLeaves(s, maxAttempts, c, index, written, ok);
    case _ =>
  }

  predicate Same(s: State, t: State)
  {
    t.outbox == s.outbox && t.progress == s.progress
  }

  lemma ClaimLeaves(s: State, c: nat, owner: nat, written: bool, ok: bool)
    ensures Same(s, ClaimStep(s, c, owner, written, ok))
  {
  }

  lemma DeliverLeaves(s: State, c: nat, written: bool, ok: bool)
    ensures Same(s, DeliverStep(s, c, written, ok)) && Same(s, ReleaseStep(s, c, written))
  {
  }

  lemma CompleteLeaves(s: State, c: nat, written: bool, ok: bool)
    ensures Same(s, CompleteStep(s, c, written, ok)) && Same(s, CommitStep(s, c, written, ok))
  {
  }

  lemma FailureLeaves(s: State, maxAttempts: nat, c: nat, index: nat, written: bool, ok: bool)
    ensures Same(s, FailureStep(s, maxAttempts, c, index, written, ok))
  {
  }

  lemma StepLeaves(s: State, maxAttempts: nat, w: nat, step: Step)
    ensures DoneStays(s, Apply(s, maxAttempts, step))
    ensures StepWorker(step) != w ==> Undisturbed(s, Apply(s, maxAttempts, step), w)
  {
    hide WorkerStep, PublishStep, TrackStep, ClaimStep, DeliverStep, ReleaseStep, CompleteStep, FailureStep, CommitStep;
    if ConsumerStep(step) {
      ConsumersLeave(s, maxAttempts, step);
    } else if step.OutboxStep? {
      WorkerStepLeaves(s, w, step.step);
    } else {
      HandOverLeaves(s, w, step);
    }
  }

  lemma {:induction false} OthersLeave(s: State, maxAttempts: nat, w: nat, steps: seq<Step>)
    requires OthersOnly(w, steps)
    ensures Undisturbed(s, Run(s, maxAttempts, steps), w)
    decreases steps
  {
    hide Apply, StepWorker;
    if |steps| > 0 {
      StepLeaves(s, maxAttempts, w, steps[0]);
      OthersLeave(Apply(s, maxAttempts, steps[0]), maxAttempts, w, steps[1..]);
    }
  }

  // ---------- what one own step does ----------

  lemma Publishes(s: State, w: nat, index: nat, written: bool, ok: bool)
    requires Outbox.WorkerOf(s.outbox, w).Claimed? && Outbox.WorkerOf(s.outbox, w).event.group
    ensures var t := PublishStep(s, w, index, written, ok);
            && t.outbox == s.outbox
            && ProgressOf(t, w) == (if ok then ProgressOf(s, w).(published := true) else ProgressOf(s, w))
            && (ok ==> Log(t, Main(index)) == Log(s, Main(index)) + [FirstJob(Outbox.WorkerOf(s.outbox, w).event)])
  {
  }

  /** The group job of an event: all recipients, no attempt yet. */
  function FirstJob(event: Outbox.Event): Job
  {
    Job(event.messageId, event.recipients, 0)
  }

  ghost predicate GainedJob(s: State, t: State, partition: nat, event: Outbox.Event)
  {
    exists o: nat :: |Log(s, Main(partition))| <= o < |Log(t, Main(partition))|
                     && Log(t, Main(partition))[o] == FirstJob(event)
  }

  ghost predicate AllTracked(s: State, event: Outbox.Event, n: nat)
  {
    n <= |event.recipients| && forall i | 0 <= i < n :: Pair(event.messageId, event.recipients[i]) in s.tracked
  }

  lemma NoneTracked(s: State, event: Outbox.Event)
    ensures AllTracked(s, event, 0)
  {
  }

  lemma OneMoreTracked(s: State, sent: State, t: State, event: Outbox.Event, i: nat)
    requires AllTracked(s, event, i) && PipelineHistory.Remembers(s, t) && PipelineHistory.Remembers(sent, t)
    requires i < |event.recipients| && Pair(event.messageId, event.recipients[i]) in sent.tracked
    ensures AllTracked(t, event, i + 1)
  {
  }

  lemma StillTracked(s: State, t: State, event: Outbox.Event)
    requires AllTracked(s, event, |event.recipients|) && PipelineHistory.Remembers(s, t)
    ensures AllTracked(t, event, |event.recipients|)
  {
  }

  lemma StillGained(s: State, before: State, after: State, t: State, partition: nat, event: Outbox.Event)
    requires PipelineHistory.Remembers(s, before) && PipelineHistory.Remembers(after, t)
    requires GainedJob(before, after, partition, event)
    ensures GainedJob(s, t, partition, event)
  {
    var o: nat :| |Log(before, Main(partition))| <= o < |Log(after, Main(partition))|
                  && Log(after, Main(partition))[o] == FirstJob(event);
    assert Log(s, Main(partition)) <= Log(before, Main(partition));
    assert Log(after, Main(partition)) <= Log(t, Main(partition));
    assert o < |Log(t, Main(partition))| && Log(t, Main(partition))[o] == FirstJob(event);
  }

  lemma Gains(s: State, sent: State, t: State, partition: nat, event: Outbox.Event)
    requires Log(sent, Main(partition)) == Log(s, Main(partition)) + [FirstJob(event)]
    requires PipelineHistory.Remembers(sent, t)
    ensures GainedJob(s, t, partition, event)
  {
    var o := |Log(s, Main(partition))|;
    assert Log(sent, Main(partition)) <= Log(t, Main(partition));
    assert o < |Log(t, Main(partition))| && Log(t, Main(partition))[o] == FirstJob(event);
  }

  lemma Tracks(s: State, w: nat, written: bool, ok: bool)
    requires Outbox.WorkerOf(s.outbox, w).Claimed?
               && ProgressOf(s, w).index < |Outbox.WorkerOf(s.outbox, w).event.recipients|
    ensures var t := TrackStep(s, w, written, ok);
            && t.outbox == s.outbox
            && ProgressOf(t, w) == (if ok then ProgressOf(s, w).(index := ProgressOf(s, w).index + 1)
                                    else ProgressOf(s, w))
            && var event := Outbox.WorkerOf(s.outbox, w).event;
               ok ==> Pair(event.messageId, event.recipients[ProgressOf(s, w).index]) in t.tracked
  {
  }

  lemma Claims(s: State, w: nat, event: Outbox.Event, now: int)
    requires Outbox.WorkerOf(s.outbox, w) == Outbox.Loaded(event)
    ensures var t := WorkerStep(s, Outbox.Claim(w, now));
            if event.id in s.outbox.rows && Outbox.Due(s.outbox.rows[event.id], now)
            then Outbox.WorkerOf(t.outbox, w) == Outbox.Claimed(event, s.outbox.rows[event.id].attempts + 1, now)
                 && ProgressOf(t, w) == Progress(0, false)
            else Outbox.WorkerOf(t.outbox, w) == Outbox.Idle
  {
  }

  lemma Finishes(s: State, w: nat)
    requires Outbox.WorkerOf(s.outbox, w).Claimed? && HandedOver(Outbox.WorkerOf(s.outbox, w).event, ProgressOf(s, w))
    ensures var t := WorkerStep(s, Outbox.Finish(w)); var event := Outbox.WorkerOf(s.outbox, w).event;
            && Outbox.WorkerOf(t.outbox, w) == Outbox.Idle
            && (StillMine(s, event) ==>
                  && event.id in t.outbox.rows
                  && t.outbox.rows[event.id] == Outbox.FinishRow(s.outbox.rows[event.id]))
  {
    hide HandedOver;
  }

  /** The WHERE clause of the finishing updates. */
  predicate StillMine(s: State, event: Outbox.Event)
  {
    event.id in s.outbox.rows && Outbox.Holds(s.outbox.rows[event.id], Outbox.Generation(event))
  }

  lemma ClaimIsUpdate(s: State, w: nat, now: int)
    ensures WorkerStep(s, Outbox.Claim(w, now)).outbox == Outbox.Apply(s.outbox, Outbox.Claim(w, now))
  {
    hide Outbox.Apply;
  }

  lemma SettleIsUpdate(s: State, w: nat, delivered: bool, failedAt: int)
    requires Outbox.WorkerOf(s.outbox, w).Claimed?
    requires delivered ==> HandedOver(Outbox.WorkerOf(s.outbox, w).event, ProgressOf(s, w))
    ensures var step := if delivered then Outbox.Finish(w) else Outbox.Reschedule(w, failedAt);
            WorkerStep(s, step).outbox == Outbox.Apply(s.outbox, step)
  {
    hide Outbox.Apply, HandedOver;
  }

  lemma Leaves(s: State, w: nat, now: int)
    ensures Outbox.WorkerOf(WorkerStep(s, Outbox.Stop(w)).outbox, w) == Outbox.Idle
    ensures Outbox.WorkerOf(s.outbox, w).Claimed? ==>
              Outbox.WorkerOf(WorkerStep(s, Outbox.Reschedule(w, now)).outbox, w) == Outbox.Idle
  {
  }

  class Worker {
    const w: nat
    const maxAttempts: nat
    /** Whether a group dispatcher is configured. */
    const dispatcher: bool
    /** How the k-th external command of this worker turns out, and what runs elsewhere right after it. */
    const faults: nat -> Fault
    const others: nat -> seq<Step>
    var world: State
    var tick: nat
    ghost var trace: seq<Step>
    ghost const start: State

    ghost predicate Valid()
      reads this
    {
      && (forall k :: OthersOnly(w, others(k)))
      && Inv(start, maxAttempts) && world == Run(start, maxAttempts, trace)
    }

    constructor (w: nat, maxAttempts: nat, dispatcher: bool, faults: nat -> Fault, others: nat -> seq<Step>,
        world: State)
      requires Inv(world, maxAttempts) && forall k :: OthersOnly(w, others(k))
      ensures Valid() && this.world == world && this.w == w && this.maxAttempts == maxAttempts
                && this.dispatcher == dispatcher
    {
      this.w, this.maxAttempts, this.dispatcher, this.faults, this.others := w, maxAttempts, dispatcher, faults, others;
      this.world, tick, trace, start := world, 0, [], world;
    }

    function Me(): Outbox.Worker
      reads this
    {
      Outbox.WorkerOf(world.outbox, w)
    }

    /** From here on nobody else acts and every command succeeds and is answered. */
    ghost predicate Alone()
      reads this
    {
      forall k | k >= tick :: others(k) == [] && faults(k) == Fine
    }

    predicate Written()
      reads this
    {
      faults(tick) != Lost
    }

    predicate Answered()
      reads this
    {
      faults(tick) == Fine
    }

    method Perform(step: Step)
      requires Valid() && StepWorker(step) == w
      modifies this`world, this`tick, this`trace
      ensures Valid() && tick == old(tick) + 1
      ensures Undisturbed(Apply(old(world), maxAttempts, step), world, w) && DoneStays(old(world), world)
      ensures PipelineHistory.Remembers(old(world), world)
      ensures PipelineHistory.Remembers(Apply(old(world), maxAttempts, step), world)
      ensures old(Alone()) ==>
                Alone() && faults(old(tick)) == Fine && world == Apply(old(world), maxAttempts, step)
    {
      hide Apply, Inv, StepWorker, PipelineHistory.Remembers;
      var next := Apply(world, maxAttempts, step);
      PipelineHistory.StepNudge(world, maxAttempts, step);
      PipelineHistory.RunRemembers(next, maxAttempts, others(tick));
      PipelineHistory.ExtendTrans(world, next, Run(next, maxAttempts, others(tick)));
      StepLeaves(world, maxAttempts, w, step);
      OthersLeave(next, maxAttempts, w, others(tick));
      RunConcat(start, maxAttempts, trace, [step] + others(tick));
      assert ([step] + others(tick))[1..] == others(tick);
      trace := trace + ([step] + others(tick));
      world := Run(next, maxAttempts, others(tick));
      tick := tick + 1;
    }

    /** The tracking script for one recipient. */
    method DeliverTo(event: Outbox.Event, i: nat) returns (ok: bool)
      requires Valid() && Me().Claimed? && Me().event == event && i < |event.recipients|
      requires ProgressOf(world, w) == Progress(i, false)
      modifies this`world, this`tick, this`trace
      ensures Valid() && Me() == old(Me()) && DoneStays(old(world), world) && tick == old(tick) + 1
      ensures ok <==> faults(old(tick)) == Fine
      ensures ok ==> ProgressOf(world, w) == Progress(i + 1, false)
      ensures PipelineHistory.Remembers(old(world), world)
      ensures ok && AllTracked(old(world), event, i) ==> AllTracked(world, event, i + 1)
      ensures old(Alone()) ==> ok && Alone() && world.outbox == old(world).outbox
    {
      hide Inv, Run, Apply, Valid, PipelineHistory.Remembers, DoneStays, AllTracked, Alone;
      ok := Answered();
      ghost var sent := Apply(world, maxAttempts, TrackNext(w, Written(), ok));
      TrackApplies(world, Written(), ok);
      Perform(TrackNext(w, Written(), ok));
      if ok && AllTracked(old(world), event, i) { OneMoreTracked(old(world), sent, world, event, i); }
    }

    /** dispatchToRecipients: the tracking script for each recipient in turn, up to the first failure. */
    method DispatchToRecipients(event: Outbox.Event) returns (ok: bool)
      requires Valid() && Me().Claimed? && Me().event == event && ProgressOf(world, w) == Progress(0, false)
      modifies this`world, this`tick, this`trace
      ensures Valid() && Me() == old(Me()) && DoneStays(old(world), world) && old(tick) <= tick
      ensures ok ==> ProgressOf(world, w) == Progress(|event.recipients|, false)
      ensures ok <==> forall k | old(tick) <= k < tick :: faults(k) == Fine
      ensures PipelineHistory.Remembers(old(world), world)
      ensures ok ==> AllTracked(world, event, |event.recipients|)
      ensures old(Alone()) ==> ok && Alone() && world.outbox == old(world).outbox
    {
      hide Inv, Run, Apply, Valid, PipelineHistory.Remembers, DoneStays, AllTracked, Alone;
      PipelineHistory.ExtendsItself(world);
      DoneTrans(world, world, world);
      NoneTracked(world, event);
      var i := 0;
      while i < |event.recipients|
        invariant 0 <= i <= |event.recipients| && Valid() && Me() == old(Me()) && DoneStays(old(world), world)
        invariant ProgressOf(world, w) == Progress(i, false) && old(tick) <= tick
        invariant forall k | old(tick) <= k < tick :: faults(k) == Fine
        invariant PipelineHistory.Remembers(old(world), world) && AllTracked(world, event, i)
        invariant old(Alone()) ==> Alone() && world.outbox == old(world).outbox
      {
        label next:
        ok := DeliverTo(event, i);
        DoneTrans(old(world), old@next(world), world);
        PipelineHistory.ExtendTrans(old(world), old@next(world), world);
        if !ok {
          return;
        }
        i := i + 1;
      }
      ok := true;
    }

    /** deliverMessageToRecipients: publish one group job, or run the tracking script for each recipient in turn. */
    method Deliver(event: Outbox.Event, partition: nat) returns (ok: bool)
      requires Valid() && Me().Claimed? && Me().event == event && ProgressOf(world, w) == Progress(0, false)
      modifies this`world, this`tick, this`trace
      ensures Valid() && Me() == old(Me()) && DoneStays(old(world), world) && old(tick) <= tick
      ensures ok ==> HandedOver(event, ProgressOf(world, w))
      ensures ok <==> forall k | old(tick) <= k < tick :: faults(k) == Fine
      ensures PipelineHistory.Remembers(old(world), world)
      ensures ok ==> Handed(old(world), world, partition, event)
      ensures old(Alone()) ==> ok && Alone() && world.outbox == old(world).outbox
    {
      hide Inv, Run, Apply, Valid, PipelineHistory.Remembers, GainedJob, AllTracked, DoneStays;
      if event.group && dispatcher {
        ok := Answered();
        ghost var sent := Apply(world, maxAttempts, Publish(w, partition, Written(), ok));
        PublishApplies(world, partition, Written(), ok);
        Perform(Publish(w, partition, Written(), ok));
        if ok { Gains(old(world), sent, world, partition, event); }
      } else {
        ok := DispatchToRecipients(event);
      }
    }

    lemma PublishApplies(s: State, partition: nat, written: bool, ok: bool)
      requires Outbox.WorkerOf(s.outbox, w).Claimed? && Outbox.WorkerOf(s.outbox, w).event.group
      ensures var t := Apply(s, maxAttempts, Publish(w, partition, written, ok));
              && t.outbox == s.outbox
              && ProgressOf(t, w) == (if ok then ProgressOf(s, w).(published := true) else ProgressOf(s, w))
              && (ok ==> Log(t, Main(partition)) ==
                         Log(s, Main(partition)) + [FirstJob(Outbox.WorkerOf(s.outbox, w).event)])
    {
      hide PublishStep;
      Publishes(s, w, partition, written, ok);
    }

    lemma TrackApplies(s: State, written: bool, ok: bool)
      requires Outbox.WorkerOf(s.outbox, w).Claimed?
      requires ProgressOf(s, w).index < |Outbox.WorkerOf(s.outbox, w).event.recipients|
      ensures var t := Apply(s, maxAttempts, TrackNext(w, written, ok));
              && t.outbox == s.outbox
              && ProgressOf(t, w) == (if ok then ProgressOf(s, w).(index := ProgressOf(s, w).index + 1)
                                      else ProgressOf(s, w))
              && var event := Outbox.WorkerOf(s.outbox, w).event;
                 ok ==> Pair(event.messageId, event.recipients[ProgressOf(s, w).index]) in t.tracked
    {
      hide TrackStep;
      Tracks(s, w, written, ok);
    }

    lemma WorkerApplies(s: State, step: Outbox.Step)
      ensures Apply(s, maxAttempts, OutboxStep(step)) == WorkerStep(s, step)
    {
      hide WorkerStep;
    }

    /** A step of the outbox protocol whose statement was executed, or the end of the attempt when it was lost. */
    method Update(step: Outbox.Step)
      requires Valid() && OutboxWorker(step) == w
      modifies this`world, this`tick, this`trace
      ensures Valid() && tick == old(tick) + 1 && DoneStays(old(world), world)
      ensures var done := if faults(old(tick)) == Lost then Outbox.Stop(w) else step;
              Undisturbed(WorkerStep(old(world), done), world, w)
      ensures PipelineHistory.Remembers(old(world), world)
      ensures old(Alone()) ==> Alone() && faults(old(tick)) == Fine && world == WorkerStep(old(world), step)
    {
      hide Inv, Run, Apply, WorkerStep, PipelineHistory.Remembers;
      var done := if Written() then step else Outbox.Stop(w);
      WorkerApplies(world, done);
      Perform(OutboxStep(done));
    }

    /**
     processDeliveryOutboxEvent; an event whose frame or recipients cannot be decoded counts as failed. Success(true)
     means the row is done and every recipient of the snapshot is tracked, dead-lettered or carried by a live record;
     the finishing update is reached only after everything was handed over.
     */
    method ProcessEvent(event: Outbox.Event, readable: bool, partition: nat, claimAt: int, failedAt: int)
      returns (r: Result<bool, Error>)
      requires Valid() && Me() == Outbox.Loaded(event)
      modifies this`world, this`tick, this`trace
      ensures Valid() && Me() == Outbox.Idle && DoneStays(old(world), world)
      ensures r == Success(true) ==>
                && readable && event.id in world.outbox.rows && world.outbox.rows[event.id].status == Outbox.Done
                && AllSettled(world, world.outbox.rows[event.id].messageId, world.outbox.rows[event.id].recipients, -1)
      ensures r == Failure(Unavailable) ==> exists k | old(tick) <= k < tick :: faults(k) != Fine
      ensures r == Success(true) ==> Handed(old(world), world, partition, event)
      ensures old(Alone()) && event.id in old(world).outbox.rows
              && old(world).outbox.rows[event.id].attempts == event.attempts ==>
                var row := old(world).outbox.rows[event.id];
                if row.status == Outbox.Done || row.status == Outbox.Dead || row.availableAt > claimAt then
                  r == Success(false) && world.outbox.rows == old(world).outbox.rows
                else
                  && r == Success(readable) && event.id in world.outbox.rows
                  && Outbox.AttemptEnded(row, world.outbox.rows[event.id], claimAt, readable, failedAt)
    {
      hide Inv, Run, WorkerStep, Outbox.Apply, HandedOver, AllSettled, Outbox.FinishRow, DoneStays, Valid, Alone,
        PipelineHistory.Remembers, Handed, Outbox.AttemptEnded;
      ghost var current := event.id in world.outbox.rows && world.outbox.rows[event.id].attempts == event.attempts;
      if current { Outbox.CurrentAttempt(world.outbox, w, event, claimAt, readable, failedAt); }
      ClaimIsUpdate(world, w, claimAt);
      var due := event.id in world.outbox.rows && Outbox.Due(world.outbox.rows[event.id], claimAt);
      Claims(world, w, event, claimAt);
      Leaves(world, w, failedAt);
      var answered := Answered();
      Update(Outbox.Claim(w, claimAt));
      if !answered {
        label unanswered:
        assert faults(old(tick)) != Fine;
        GiveUp();
        DoneTrans(old(world), old@unanswered(world), world);
        return Failure(Unavailable);
      }
      if !due {
        return Success(false);
      }
      label claimed:
      r := HandOver(event, readable, partition, failedAt);
      DoneTrans(old(world), old@claimed(world), world);
      PipelineHistory.ExtendsItself(world);
      if r == Success(true) { HandedStays(old(world), old@claimed(world), world, world, partition, event); }
    }

    /** A claimed event: deliver it if it can be read, then settle. */
    method HandOver(event: Outbox.Event, readable: bool, partition: nat, failedAt: int)
      returns (r: Result<bool, Error>)
      requires Valid() && Me().Claimed? && Me().event == event && ProgressOf(world, w) == Progress(0, false)
      modifies this`world, this`tick, this`trace
      ensures Valid() && Me() == Outbox.Idle && DoneStays(old(world), world) && old(tick) < tick
      ensures r == Success(true) ==>
                && readable && event.id in world.outbox.rows && world.outbox.rows[event.id].status == Outbox.Done
                && AllSettled(world, world.outbox.rows[event.id].messageId, world.outbox.rows[event.id].recipients, -1)
      ensures r == Failure(Unavailable) ==> exists k | old(tick) <= k < tick :: faults(k) != Fine
      ensures r == Success(true) ==> Handed(old(world), world, partition, event)
      ensures old(Alone()) && StillMine(old(world), event) ==>
                && r == Success(readable)
                && world.outbox == Outbox.Apply(old(world).outbox, if readable then Outbox.Finish(w)
                                                                   else Outbox.Reschedule(w, failedAt))
    {
      hide Inv, Run, Outbox.Apply, HandedOver, AllSettled, DoneStays, Valid, Alone, PipelineHistory.Remembers,
        GainedJob, AllTracked, Handed;
      PipelineHistory.ExtendsItself(world);
      var delivered := readable;
      if readable {
        delivered := Deliver(event, partition);
      }
      label handed:
      r := Settle(event, delivered, failedAt);
      DoneTrans(old(world), old@handed(world), world);
      PipelineHistory.ExtendsItself(world);
      if r == Success(true) { HandedStays(old(world), old(world), old@handed(world), world, partition, event); }
    }

    /** The group job is on record, or the tracking script has run for every recipient. */
    ghost predicate Handed(s: State, t: State, partition: nat, event: Outbox.Event)
    {
      if event.group && dispatcher then GainedJob(s, t, partition, event)
      else AllTracked(t, event, |event.recipients|)
    }

    lemma HandedStays(s: State, before: State, after: State, t: State, partition: nat, event: Outbox.Event)
      requires PipelineHistory.Remembers(s, before) && PipelineHistory.Remembers(after, t)
      requires Handed(before, after, partition, event)
      ensures Handed(s, t, partition, event)
    {
      hide GainedJob, AllTracked, PipelineHistory.Remembers;
      if event.group && dispatcher {
        StillGained(s, before, after, t, partition, event);
      } else {
        StillTracked(after, t, event);
      }
    }

    method GiveUp()
      requires Valid()
      modifies this`world, this`tick, this`trace
      ensures Valid() && Me() == Outbox.Idle && DoneStays(old(world), world) && tick == old(tick) + 1
    {
      hide Inv, Run, WorkerStep, Apply;
      Leaves(world, w, 0);
      WorkerApplies(world, Outbox.Stop(w));
      Perform(OutboxStep(Outbox.Stop(w)));
    }

    /** The fenced update that ends an attempt: done after a complete hand-over, otherwise pending again or dead. */
    method Settle(event: Outbox.Event, delivered: bool, failedAt: int) returns (r: Result<bool, Error>)
      requires Valid() && Me().Claimed? && Me().event == event
                 && (delivered ==> HandedOver(event, ProgressOf(world, w)))
      modifies this`world, this`tick, this`trace
      ensures Valid() && Me() == Outbox.Idle && DoneStays(old(world), world) && tick == old(tick) + 1
      ensures r == (if faults(old(tick)) != Fine then Failure(Unavailable)
                    else if !StillMine(old(world), event) then Failure(LeaseLost) else Success(delivered))
      ensures r == Success(true) ==>
                && event.id in world.outbox.rows && world.outbox.rows[event.id].status == Outbox.Done
                && AllSettled(world, world.outbox.rows[event.id].messageId, world.outbox.rows[event.id].recipients, -1)
      ensures PipelineHistory.Remembers(old(world), world)
      ensures old(Alone()) ==>
                && faults(old(tick)) == Fine
                && world.outbox == Outbox.Apply(old(world).outbox, if delivered then Outbox.Finish(w)
                                                                   else Outbox.Reschedule(w, failedAt))
    {
      hide Inv, Run, WorkerStep, HandedOver, AllSettled, Alone, PipelineHistory.Remembers;
      SettleIsUpdate(world, w, delivered, failedAt);
      var answered, mine := Answered(), StillMine(world, event);
      Leaves(world, w, failedAt);
      if delivered { Finishes(world, w); }
      Update(if delivered then Outbox.Finish(w) else Outbox.Reschedule(w, failedAt));
      if !answered {
        return Failure(Unavailable);
      }
      if !mine {
        return Failure(LeaseLost);
      }
      if delivered { DoneIsSettled(event.id); }
      return Success(delivered);
    }

    lemma DoneIsSettled(row: nat)
      requires Valid() && row in world.outbox.rows && world.outbox.rows[row].status == Outbox.Done
      ensures AllSettled(world, world.outbox.rows[row].messageId, world.outbox.rows[row].recipients, -1)
    {
      RunKeeps(start, maxAttempts, trace);
      assert RowSettled(world, world.outbox.rows[row]);
    }
  }

  lemma DoneTrans(s: State, t: State, u: State)
    requires DoneStays(s, t) && DoneStays(t, u)
    ensures DoneStays(s, u)
  {
  }
}
