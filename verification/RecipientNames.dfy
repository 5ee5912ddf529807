/**
 No outbox row, worker or Kafka record ever names an empty recipient, so an empty name can stand for "none failed".
 */
module RecipientNames {
  import Outbox = DeliveryOutbox
  import opened DeliveryPipeline

  predicate Named(recipients: seq<string>)
  {
    "" !in recipients
  }

  ghost predicate OutboxNamed(s: Outbox.State)
  {
    && (forall id | id in s.rows :: Named(s.rows[id].recipients))
    && (forall w | w in s.workers && s.workers[w] != Outbox.Idle :: Named(s.workers[w].event.recipients))
  }

  predicate JobsNamed(jobs: seq<Job>)
  {
    forall o | 0 <= o < |jobs| :: Named(jobs[o].recipients)
  }

  ghost predicate LogsNamed(logs: map<Partition, seq<Job>>)
  {
    forall p | p in logs :: JobsNamed(logs[p])
  }

  ghost predicate AllNamed(s: State)
  {
    OutboxNamed(s.outbox) && LogsNamed(s.logs)
  }

  lemma OutboxKeeps(s: Outbox.State, step: Outbox.Step)
    requires OutboxNamed(s)
    ensures OutboxNamed(Outbox.Apply(s, step))
  {
  }

  lemma AppendKeeps(s: State, p: Partition, job: Job)
    requires LogsNamed(s.logs) && Named(job.recipients)
    ensures LogsNamed(Append(s, p, job).logs)
  {
    var t := Append(s, p, job);
    forall q | q in t.logs ensures JobsNamed(t.logs[q]) {
      if q in s.logs { assert JobsNamed(s.logs[q]); }
    }
  }

  lemma WorkerKeeps(s: State, step: Outbox.Step)
    requires AllNamed(s)
    ensures AllNamed(WorkerStep(s, step))
  {
    hide Outbox.Apply, OutboxNamed, HandedOver, LogsNamed;
    OutboxKeeps(s.outbox, step);
  }

  lemma PublishKeeps(s: State, w: nat, index: nat, written: bool, ok: bool)
    requires AllNamed(s)
    ensures AllNamed(PublishStep(s, w, index, written, ok))
  {
    hide LogsNamed, Named;
    var worker := Outbox.WorkerOf(s.outbox, w);
    if worker.Claimed? {
      assert Named(worker.event.recipients);
      AppendKeeps(s, Main(index), Job(worker.event.messageId, worker.event.recipients, 0));
    }
  }

  lemma FailureKeeps(s: State, maxAttempts: nat, c: nat, index: nat, written: bool, ok: bool)
    requires AllNamed(s)
    ensures AllNamed(FailureStep(s, maxAttempts, c, index, written, ok))
  {
    hide Named, OutboxNamed;
    var me := ConsumerOf(s, c);
    if me.Failed? && HasRecord(s, me.p, me.pos) {
      RecordNamed(s, me.p, me.pos);
      var job := Log(s, me.p)[me.pos];
      AppendKeeps(s, Retry(index), job.(attempt := job.attempt + 1));
    }
  }

  lemma RecordNamed(s: State, p: Partition, pos: nat)
    requires LogsNamed(s.logs) && pos < |Log(s, p)|
    ensures Named(Log(s, p)[pos].recipients)
  {
    assert JobsNamed(s.logs[p]);
  }

  /** The remaining steps write no record. */
  predicate Silent(s: State, t: State)
  {
    t.outbox == s.outbox && t.logs == s.logs && t.deadLetters == s.deadLetters
  }

  lemma TrackIsSilent(s: State, w: nat, written: bool, ok: bool)
    ensures Silent(s, TrackStep(s, w, written, ok))
  {
  }

  lemma ClaimIsSilent(s: State, c: nat, owner: nat, written: bool, ok: bool)
    ensures Silent(s, ClaimStep(s, c, owner, written, ok))
  {
  }

  lemma DeliverIsSilent(s: State, c: nat, written: bool, ok: bool)
    ensures Silent(s, DeliverStep(s, c, written, ok)) && Silent(s, ReleaseStep(s, c, written))
  {
  }

  lemma CompleteIsSilent(s: State, c: nat, written: bool, ok: bool)
    ensures Silent(s, CompleteStep(s, c, written, ok)) && Silent(s, CommitStep(s, c, written, ok))
  {
  }

  lemma LogsLeft(s: State, maxAttempts: nat, step: Step)
    requires !step.OutboxStep? && !step.Publish? && !step.WriteFailure?
    ensures Silent(s, Apply(s, maxAttempts, step))
  {
    hide Current, TrackStep, ClaimStep, DeliverStep, ReleaseStep, CompleteStep, CommitStep;
    match step
    case TrackNext(w, written, ok) => TrackIsSilent(s, w, written, ok);
    case ClaimRecipient(c, owner, written, ok) => ClaimIsSilent(s, c, owner, written, ok);
    case Deliver(c, written, ok) => DeliverIsSilent(s, c, written, ok);
    case Release(c, written) => DeliverIsSilent(s, c, written, true);
    case Complete(c, written, ok) => CompleteIsSilent(s, c, written, ok);
    case Commit(c, written, ok) => CompleteIsSilent(s, c, written, ok);
    case _ =>
  }

  lemma StepKeeps(s: State, maxAttempts: nat, step: Step)
    requires AllNamed(s)
    ensures AllNamed(Apply(s, maxAttempts, step))
  {
    hide OutboxNamed, LogsNamed, WorkerStep, PublishStep, FailureStep, TrackStep, ClaimStep, DeliverStep, ReleaseStep,
      CompleteStep, CommitStep;
    if step.OutboxStep? {
      WorkerKeeps(s, step.step);
    } else if step.Publish? {
      PublishKeeps(s, step.w, step.index, step.written, step.ok);
    } else if step.WriteFailure? {
      FailureKeeps(s, maxAttempts, step.c, step.index, step.written, step.ok);
    } else {
      LogsLeft(s, maxAttempts, step);
    }
  }

  lemma {:induction false} RunKeeps(s: State, maxAttempts: nat, steps: seq<Step>)
    requires AllNamed(s)
    ensures AllNamed(Run(s, maxAttempts, steps))
    decreases steps
  {
    hide AllNamed, Apply;
    if |steps| > 0 {
      StepKeeps(s, maxAttempts, steps[0]);
      RunKeeps(Apply(s, maxAttempts, steps[0]), maxAttempts, steps[1..]);
    }
  }

  /** In every reachable state no Kafka record names an empty recipient. */
  lemma RecordsAreNamed(maxAttempts: nat, steps: seq<Step>, p: Partition, pos: nat)
    ensures var s := Run(Init, maxAttempts, steps);
            pos < |Log(s, p)| ==> "" !in Log(s, p)[pos].recipients
  {
    RunKeeps(Init, maxAttempts, steps);
    var s := Run(Init, maxAttempts, steps);
    if pos < |Log(s, p)| { RecordNamed(s, p, pos); }
  }
}
