/** What one step of the delivery pipeline leaves alone: records, dead letters, tracking and the other consumers. */
module PipelineHistory {
  import Outbox = DeliveryOutbox
  import opened DeliveryPipeline

  function StepConsumer(step: Step): int
  {
    if step.OutboxStep? || step.Publish? || step.TrackNext? || step.KeyLost? then -1 else step.c
  }

  predicate OthersOnly(c: nat, steps: seq<Step>)
  {
    forall i | 0 <= i < |steps| :: StepConsumer(steps[i]) != c
  }

  /** No record, dead letter or tracking is ever taken back. */
  ghost predicate Remembers(s: State, t: State)
  {
    s.tracked <= t.tracked && s.deadLetters <= t.deadLetters && forall p :: Log(s, p) <= Log(t, p)
  }

  /** A state in which some consumer `c` moved and no other, and nothing was taken back. */
  ghost predicate Nudge(s: State, t: State, c: int)
  {
    && (forall d: nat | d != c :: ConsumerOf(t, d) == ConsumerOf(s, d))
    && Remembers(s, t)
  }

  lemma PublishNudge(s: State, w: nat, index: nat, written: bool, ok: bool)
    ensures Nudge(s, PublishStep(s, w, index, written, ok), -1)
  {
  }

  lemma TrackNudge(s: State, w: nat, written: bool, ok: bool)
    ensures Nudge(s, TrackStep(s, w, written, ok), -1)
  {
  }

  lemma OutboxNudge(s: State, step: Outbox.Step)
    ensures Nudge(s, WorkerStep(s, step), -1)
  {
    hide Outbox.Apply;
  }

  lemma ClaimNudge(s: State, c: nat, owner: nat, written: bool, ok: bool)
    ensures Nudge(s, ClaimStep(s, c, owner, written, ok), c)
  {
  }

  lemma DeliverNudge(s: State, c: nat, written: bool, ok: bool)
    ensures Nudge(s, DeliverStep(s, c, written, ok), c)
  {
  }

  lemma ReleaseNudge(s: State, c: nat, written: bool)
    ensures Nudge(s, ReleaseStep(s, c, written), c)
  {
  }

  lemma CompleteNudge(s: State, c: nat, written: bool, ok: bool)
    ensures Nudge(s, CompleteStep(s, c, written, ok), c)
  {
  }

  lemma CommitNudge(s: State, c: nat, written: bool, ok: bool)
    ensures Nudge(s, CommitStep(s, c, written, ok), c)
  {
  }

  lemma FailureNudge(s: State, maxAttempts: nat, c: nat, index: nat, written: bool, ok: bool)
    ensures Nudge(s, FailureStep(s, maxAttempts, c, index, written, ok), c)
  {
  }

  lemma StepNudge(s: State, maxAttempts: nat, step: Step)
    ensures Nudge(s, Apply(s, maxAttempts, step), StepConsumer(step))
  {
    hide WorkerStep, PublishStep, TrackStep, ClaimStep, DeliverStep, ReleaseStep, CompleteStep, FailureStep, CommitStep,
      Current;
    match step
    case ClaimRecipient(c, owner, written, ok) => ClaimNudge(s, c, owner, written, ok);
    case Deliver(c, written, ok) => DeliverNudge(s, c, written, ok);
    case Release(c, written) => ReleaseNudge(s, c, written);
    case Complete(c, written, ok) => CompleteNudge(s, c, written, ok);
    case Commit(c, written, ok) => CommitNudge(s, c, written, ok);
    case WriteFailure(c, index, written, ok) => FailureNudge(s, maxAttempts, c, index, written, ok);
    case OutboxStep(outboxStep) => OutboxNudge(s, outboxStep);
    case Publish(w, index, written, ok) => PublishNudge(s, w, index, written, ok);
    case TrackNext(w, written, ok) => TrackNudge(s, w, written, ok);
    case _ =>
  }

  lemma ExtendsItself(s: State)
    ensures Remembers(s, s)
  {
  }

  lemma ExtendTrans(s: State, t: State, u: State)
    requires Remembers(s, t) && Remembers(t, u)
    ensures Remembers(s, u)
  {
    forall p ensures Log(s, p) <= Log(u, p) {
      assert Log(s, p) <= Log(t, p) <= Log(u, p);
    }
  }

  lemma RecordKept(s: State, t: State, p: Partition, pos: nat)
    requires Remembers(s, t) && pos < |Log(s, p)|
    ensures pos < |Log(t, p)| && Log(t, p)[pos] == Log(s, p)[pos]
  {
    assert Log(s, p) <= Log(t, p);
  }

  /** Other processes neither move this consumer nor rewrite a record. */
  lemma {:induction false} OthersLeave(s: State, maxAttempts: nat, c: nat, steps: seq<Step>)
    requires OthersOnly(c, steps)
    ensures ConsumerOf(Run(s, maxAttempts, steps), c) == ConsumerOf(s, c)
    ensures Remembers(s, Run(s, maxAttempts, steps))
    decreases steps
  {
    hide Apply, StepConsumer;
    if |steps| > 0 {
      var next := Apply(s, maxAttempts, steps[0]);
      StepNudge(s, maxAttempts, steps[0]);
      OthersLeave(next, maxAttempts, c, steps[1..]);
      ExtendTrans(s, next, Run(next, maxAttempts, steps[1..]));
    }
  }

  lemma TrackedKept(s: State, t: State)
    requires Remembers(s, t)
    ensures s.tracked <= t.tracked
  {
  }

  lemma {:induction false} RunRemembers(s: State, maxAttempts: nat, steps: seq<Step>)
    ensures Remembers(s, Run(s, maxAttempts, steps))
    decreases steps
  {
    hide Apply, Remembers;
    if |steps| == 0 {
      ExtendsItself(s);
    } else {
      var next := Apply(s, maxAttempts, steps[0]);
      StepNudge(s, maxAttempts, steps[0]);
      RunRemembers(next, maxAttempts, steps[1..]);
      ExtendTrans(s, next, Run(next, maxAttempts, steps[1..]));
    }
  }
}
