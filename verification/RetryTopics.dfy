/** Which topic a group message is in, by its attempt: failures climb the retry topic before the dead letters. */
module RetryTopics {
  import Outbox = DeliveryOutbox
  import opened DeliveryPipeline
  import opened PipelineHistory
  import RecipientNames

  /** Some log holds the same job one attempt earlier. */
  ghost predicate FailedBefore(s: State, job: Job)
  {
    exists p, o: nat :: o < |Log(s, p)| && OneEarlier(Log(s, p)[o], job)
  }

  predicate OneEarlier(earlier: Job, job: Job)
  {
    && earlier.messageId == job.messageId && earlier.recipients == job.recipients
    && earlier.attempt + 1 == job.attempt
  }

  ghost predicate RecordFits(s: State, maxAttempts: nat, p: Partition, job: Job)
  {
    match p
    case Main(_) => job.attempt == 0
    case Retry(_) => 1 <= job.attempt <= maxAttempts && FailedBefore(s, job)
  }

  ghost predicate Climbing(s: State, maxAttempts: nat)
  {
    && (forall p, o: nat | o < |Log(s, p)| :: RecordFits(s, maxAttempts, p, Log(s, p)[o]))
    && (forall i | 0 <= i < |s.deadLetters| ::
          s.deadLetters[i].attempt == maxAttempts + 1 && FailedBefore(s, s.deadLetters[i]))
  }

  lemma StaysFailed(s: State, t: State, job: Job)
    requires Remembers(s, t) && FailedBefore(s, job)
    ensures FailedBefore(t, job)
  {
    var p, o: nat :| o < |Log(s, p)| && OneEarlier(Log(s, p)[o], job);
    assert Log(s, p) <= Log(t, p);
    assert o < |Log(t, p)| && Log(t, p)[o] == Log(s, p)[o];
  }

  lemma AppendClimbs(s: State, maxAttempts: nat, p: Partition, job: Job)
    requires Climbing(s, maxAttempts) && RecordFits(s, maxAttempts, p, job)
    ensures Climbing(Append(s, p, job), maxAttempts)
  {
    hide FailedBefore;
    var t := Append(s, p, job);
    assert Remembers(s, t);
    forall q, o: nat | o < |Log(t, q)| ensures RecordFits(t, maxAttempts, q, Log(t, q)[o]) {
      if o < |Log(s, q)| { assert RecordFits(s, maxAttempts, q, Log(s, q)[o]); }
      if q.Retry? { StaysFailed(s, t, Log(t, q)[o]); }
    }
    forall i | 0 <= i < |t.deadLetters|
      ensures t.deadLetters[i].attempt == maxAttempts + 1 && FailedBefore(t, t.deadLetters[i])
    {
      StaysFailed(s, t, t.deadLetters[i]);
    }
  }

  lemma SameRecords(s: State, t: State, maxAttempts: nat)
    requires Climbing(s, maxAttempts) && t.logs == s.logs && t.deadLetters == s.deadLetters
    ensures Climbing(t, maxAttempts)
  {
    assert forall p :: Log(t, p) == Log(s, p);
    forall p, o: nat | o < |Log(t, p)| ensures RecordFits(t, maxAttempts, p, Log(t, p)[o]) {
      assert RecordFits(s, maxAttempts, p, Log(s, p)[o]);
      if p.Retry? { SameFailed(s, t, Log(t, p)[o]); }
    }
    forall i | 0 <= i < |t.deadLetters| ensures FailedBefore(t, t.deadLetters[i]) {
      SameFailed(s, t, t.deadLetters[i]);
    }
  }

  lemma SameFailed(s: State, t: State, job: Job)
    requires t.logs == s.logs && FailedBefore(s, job)
    ensures FailedBefore(t, job)
  {
    var p, o: nat :| o < |Log(s, p)| && OneEarlier(Log(s, p)[o], job);
    assert Log(t, p) == Log(s, p);
  }

  lemma PublishClimbs(s: State, maxAttempts: nat, w: nat, index: nat, written: bool, ok: bool)
    requires Climbing(s, maxAttempts)
    ensures Climbing(PublishStep(s, w, index, written, ok), maxAttempts)
  {
    hide Climbing;
    var worker := Outbox.WorkerOf(s.outbox, w);
    if worker.Claimed? {
      var job := Job(worker.event.messageId, worker.event.recipients, 0);
      var sent := if written || ok then Append(s, Main(index), job) else s;
      AppendClimbs(s, maxAttempts, Main(index), job);
      SameRecords(sent, sent.(progress := s.progress[w := ProgressOf(s, w).(published := true)]), maxAttempts);
    }
  }

  lemma DeadLetterClimbs(s: State, maxAttempts: nat, job: Job)
    requires Climbing(s, maxAttempts) && job.attempt == maxAttempts + 1 && FailedBefore(s, job)
    ensures Climbing(s.(deadLetters := s.deadLetters + [job]), maxAttempts)
  {
    var t := s.(deadLetters := s.deadLetters + [job]);
    forall p, o: nat | o < |Log(t, p)| ensures RecordFits(t, maxAttempts, p, Log(t, p)[o]) {
      assert RecordFits(s, maxAttempts, p, Log(s, p)[o]);
      if p.Retry? { SameFailed(s, t, Log(t, p)[o]); }
    }
    forall i | 0 <= i < |t.deadLetters| ensures FailedBefore(t, t.deadLetters[i]) {
      SameFailed(s, t, t.deadLetters[i]);
    }
  }

  lemma FailureClimbs(s: State, maxAttempts: nat, c: nat, index: nat, written: bool, ok: bool)
    requires Climbing(s, maxAttempts)
    ensures Climbing(FailureStep(s, maxAttempts, c, index, written, ok), maxAttempts)
  {
    hide Climbing, FailedBefore;
    var me := ConsumerOf(s, c);
    if me.Failed? && HasRecord(s, me.p, me.pos) {
      var job := Log(s, me.p)[me.pos];
      var again := job.(attempt := job.attempt + 1);
      FailsAgain(s, maxAttempts, me.p, me.pos, again);
      if again.attempt <= maxAttempts {
        AppendClimbs(s, maxAttempts, Retry(index), again);
      } else {
        DeadLetterClimbs(s, maxAttempts, again);
      }
      var t := FailureStep(s, maxAttempts, c, index, written, ok);
      SameRecords(t.(consumers := s.consumers), t, maxAttempts);
    }
  }

  lemma FailsAgain(s: State, maxAttempts: nat, p: Partition, pos: nat, again: Job)
    requires Climbing(s, maxAttempts) && pos < |Log(s, p)| && OneEarlier(Log(s, p)[pos], again)
    ensures again.attempt <= maxAttempts + 1 && FailedBefore(s, again)
  {
    assert RecordFits(s, maxAttempts, p, Log(s, p)[pos]);
  }

  lemma OutboxClimbs(s: State, maxAttempts: nat, step: Outbox.Step)
    requires Climbing(s, maxAttempts)
    ensures Climbing(WorkerStep(s, step), maxAttempts)
  {
    hide Climbing, Outbox.Apply, HandedOver;
    SameRecords(s, WorkerStep(s, step), maxAttempts);
  }

  lemma StepClimbs(s: State, maxAttempts: nat, step: Step)
    requires Climbing(s, maxAttempts)
    ensures Climbing(Apply(s, maxAttempts, step), maxAttempts)
  {
    hide Climbing, Current, WorkerStep, PublishStep, TrackStep, ClaimStep, DeliverStep, ReleaseStep, CompleteStep,
      FailureStep, CommitStep;
    if step.OutboxStep? {
      OutboxClimbs(s, maxAttempts, step.step);
    } else if step.Publish? {
      PublishClimbs(s, maxAttempts, step.w, step.index, step.written, step.ok);
    } else if step.WriteFailure? {
      FailureClimbs(s, maxAttempts, step.c, step.index, step.written, step.ok);
    } else {
      RecipientNames.LogsLeft(s, maxAttempts, step);
      SameRecords(s, Apply(s, maxAttempts, step), maxAttempts);
    }
  }

  lemma {:induction false} RunClimbs(s: State, maxAttempts: nat, steps: seq<Step>)
    requires Climbing(s, maxAttempts)
    ensures Climbing(Run(s, maxAttempts, steps), maxAttempts)
    decreases steps
  {
    hide Climbing, Apply;
    if |steps| > 0 {
      StepClimbs(s, maxAttempts, steps[0]);
      RunClimbs(Apply(s, maxAttempts, steps[0]), maxAttempts, steps[1..]);
    }
  }

  /**
   In every reachable state the records of the main topic are first attempts, those of the retry topic attempts 1 to
   `maxAttempts`, dead letters attempt `maxAttempts` + 1; each but the first is in some log one attempt earlier too. So
   a message is dead-lettered only after all its retries were on record.
   */
  lemma AttemptsClimb(maxAttempts: nat, steps: seq<Step>)
    ensures Climbing(Run(Init, maxAttempts, steps), maxAttempts)
  {
    RunClimbs(Init, maxAttempts, steps);
  }
}
