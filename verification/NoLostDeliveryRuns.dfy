/** Each step of the pipeline keeps the invariant; so every run does, and nothing owed is ever lost. */
module NoLostDeliveryRuns {
  import opened Wrappers
  import Outbox = DeliveryOutbox
  import RecipientLease
  import opened DeliveryPipeline
  import opened NoLostDelivery

  // ---------- logic workers ----------

  lemma HandedOverSettles(s: State, w: nat)
    requires WorkersSettled(s) && w in s.outbox.workers && s.outbox.workers[w].Claimed?
    requires HandedOver(s.outbox.workers[w].event, ProgressOf(s, w))
    ensures AllSettled(s, s.outbox.workers[w].event.messageId, s.outbox.workers[w].event.recipients, -1)
  {
    var e := s.outbox.workers[w].event;
    assert WorkerSettled(s, s.outbox.workers[w], ProgressOf(s, w));
    if !ProgressOf(s, w).published {
      forall r | r in e.recipients ensures Settled(s, Pair(e.messageId, r), -1) {
        var k :| 0 <= k < |e.recipients| && e.recipients[k] == r;
      }
    }
  }

  /** Only a worker that handed everything over turns a row to done. */
  lemma RowsFitStep(s: State, step: Outbox.Step)
    requires Outbox.Inv(s.outbox) && WorkersSettled(s)
    ensures RowsFit(s, s.(outbox := WorkerStep(s, step).outbox))
  {
    hide AllSettled, WorkersSettled, Settled, Outbox.DistinctClaims, Outbox.RetryDelay;
    var t := s.(outbox := WorkerStep(s, step).outbox);
    forall id | id in t.outbox.rows
      ensures (id in s.outbox.rows && s.outbox.rows[id] == t.outbox.rows[id]) || RowSettled(t, t.outbox.rows[id])
    {
      if t.outbox.rows[id].status == Outbox.Done && !(id in s.outbox.rows && s.outbox.rows[id] == t.outbox.rows[id]) {
        var worker := Outbox.WorkerOf(s.outbox, step.w);
        assert Outbox.WorkerOk(s.outbox, worker);
        HandedOverSettles(s, step.w);
        SameLogsGrow(s, t);
        AllSettledGrows(s, t, worker.event.messageId, worker.event.recipients, -1);
      }
    }
  }

  lemma WorkersFitStep(s: State, step: Outbox.Step)
    ensures WorkersFit(s, WorkerStep(s, step))
  {
    var t := WorkerStep(s, step);
    forall w | w in t.outbox.workers
      ensures (w in s.outbox.workers && s.outbox.workers[w] == t.outbox.workers[w]
                && ProgressOf(s, w) == ProgressOf(t, w))
              || WorkerSettled(t, t.outbox.workers[w], ProgressOf(t, w))
    {
    }
  }

  lemma OutboxStepKeeps(s: State, maxAttempts: nat, step: Outbox.Step)
    requires Inv(s, maxAttempts)
    ensures Inv(WorkerStep(s, step), maxAttempts)
  {
    hide AllSettled, Outbox.Inv, RowSettled, WorkerSettled, ConsumerOk, AttemptsBounded, CommittedSettled, Outbox.Apply,
      Grows, WorkersFit;
    var t := WorkerStep(s, step);
    Outbox.ApplyKeeps(s.outbox, step);
    SameLogsBound(s, t, maxAttempts);
    SameLogsGrow(s, t);
    RowsFitStep(s, step);
    var u := s.(outbox := t.outbox);
    assert RowsFit(s, t) by {
      SameLogsGrow(u, t);
      forall id | id in t.outbox.rows && RowSettled(u, t.outbox.rows[id]) ensures RowSettled(t, t.outbox.rows[id]) {
        RowGrows(u, t, t.outbox.rows[id]);
      }
    }
    WorkersFitStep(s, step);
    GrowthKeeps(s, t, maxAttempts);
  }

  lemma PublishKeeps(s: State, maxAttempts: nat, w: nat, index: nat, written: bool, ok: bool)
    requires Inv(s, maxAttempts)
    ensures Inv(PublishStep(s, w, index, written, ok), maxAttempts)
  {
    hide Outbox.Inv, RowSettled, ConsumerOk, AttemptsBounded, CommittedSettled, Grows, Settled;
    var worker := Outbox.WorkerOf(s.outbox, w);
    if worker.Claimed? && worker.event.group && (written || ok) {
      var e := worker.event;
      var job := Job(e.messageId, e.recipients, 0);
      var sent := Append(s, Main(index), job);
      AppendGrows(s, Main(index), job, maxAttempts);
      GrowthKeeps(s, sent, maxAttempts);
      if ok {
        var t := sent.(progress := s.progress[w := ProgressOf(s, w).(published := true)]);
        SameLogsGrow(sent, t);
        SameLogsBound(sent, t, maxAttempts);
        AllSettledGrows(sent, t, e.messageId, e.recipients, -1);
        GrowthKeeps(sent, t, maxAttempts);
      }
    }
  }

  lemma TrackNextKeeps(s: State, maxAttempts: nat, w: nat, written: bool, ok: bool)
    requires Inv(s, maxAttempts)
    ensures Inv(TrackStep(s, w, written, ok), maxAttempts)
  {
    hide Outbox.Inv, RowSettled, ConsumerOk, AttemptsBounded, CommittedSettled, Grows, Settled, AllSettled;
    var worker := Outbox.WorkerOf(s.outbox, w);
    var progress := ProgressOf(s, w);
    if worker.Claimed? && progress.index < |worker.event.recipients| && (written || ok) {
      var e := worker.event;
      var sent := Track(s, Pair(e.messageId, e.recipients[progress.index]));
      TrackingKeeps(s, sent, maxAttempts);
      if ok {
        var t := sent.(progress := s.progress[w := progress.(index := progress.index + 1)]);
        SameLogsGrow(sent, t);
        SameLogsBound(sent, t, maxAttempts);
        assert WorkerSettled(sent, worker, progress);
        assert WorkerSettled(t, worker, ProgressOf(t, w)) by {
          if progress.published { AllSettledGrows(sent, t, e.messageId, e.recipients, -1); }
        }
        GrowthKeeps(sent, t, maxAttempts);
      }
    }
  }

  // ---------- group consumers ----------

  lemma ClaimRecipientKeeps(s: State, maxAttempts: nat, c: nat, owner: nat, written: bool, ok: bool)
    requires Inv(s, maxAttempts)
    ensures Inv(ClaimStep(s, c, owner, written, ok), maxAttempts)
  {
    hide Outbox.Inv, RowSettled, WorkerSettled, AttemptsBounded, CommittedSettled, SettledBefore;
    var me := ConsumerOf(s, c);
    var pair := Current(s, me);
    if pair.Some? && me.at == Unclaimed {
      assert ConsumerOk(s, me);
      var (key, result) := RecipientLease.ClaimScript(KeyOf(s, pair.value), owner);
      var held := SetKey(s, pair.value, key);
      TrackingKeeps(s, held, maxAttempts);
      ConsumerGrows(s, held, me);
      if !ok {
        ConsumerGrows(s, held, Failed(me.p, me.pos));
        ConsumerMoves(if written then held else s, maxAttempts, c, Failed(me.p, me.pos));
        return;
      }
      match result
      case Claimed =>
        ConsumerMoves(held, maxAttempts, c, me.(at := Owner(owner)));
      case AlreadyDone => ConsumerMoves(s, maxAttempts, c, me.(index := me.index + 1));
      case Busy => ConsumerMoves(s, maxAttempts, c, me.(index := 0));
    }
  }

  lemma DeliverKeeps(s: State, maxAttempts: nat, c: nat, written: bool, ok: bool)
    requires Inv(s, maxAttempts)
    ensures Inv(DeliverStep(s, c, written, ok), maxAttempts)
  {
    hide Outbox.Inv, RowSettled, WorkerSettled, AttemptsBounded, CommittedSettled, SettledBefore;
    var me := ConsumerOf(s, c);
    var pair := Current(s, me);
    if pair.Some? && me.at.Owner? {
      assert ConsumerOk(s, me);
      var sent := if written || ok then Track(s, pair.value) else s;
      TrackingKeeps(s, sent, maxAttempts);
      ConsumerGrows(s, sent, me);
      ConsumerMoves(sent, maxAttempts, c, me.(at := if ok then Sent(me.at.owner) else Unsent(me.at.owner)));
    }
  }

  lemma ReleaseKeeps(s: State, maxAttempts: nat, c: nat, written: bool)
    requires Inv(s, maxAttempts)
    ensures Inv(ReleaseStep(s, c, written), maxAttempts)
  {
    hide Outbox.Inv, RowSettled, WorkerSettled, AttemptsBounded, CommittedSettled, SettledBefore;
    var me := ConsumerOf(s, c);
    var pair := Current(s, me);
    if pair.Some? && me.at.Unsent? {
      assert ConsumerOk(s, me);
      var freed := if written then SetKey(s, pair.value,
        RecipientLease.ReleaseScript(KeyOf(s, pair.value), me.at.owner)) else s;
      TrackingKeeps(s, freed, maxAttempts);
      ConsumerGrows(s, freed, Failed(me.p, me.pos));
      ConsumerMoves(freed, maxAttempts, c, Failed(me.p, me.pos));
    }
  }

  lemma CompleteKeeps(s: State, maxAttempts: nat, c: nat, written: bool, ok: bool)
    requires Inv(s, maxAttempts)
    ensures Inv(CompleteStep(s, c, written, ok), maxAttempts)
  {
    hide Outbox.Inv, RowSettled, WorkerSettled, AttemptsBounded, CommittedSettled, SettledBefore;
    var me := ConsumerOf(s, c);
    var pair := Current(s, me);
    if pair.Some? && me.at.Sent? {
      assert ConsumerOk(s, me);
      var (key, completed) := RecipientLease.CompleteScript(KeyOf(s, pair.value), me.at.owner);
      var held := SetKey(s, pair.value, key);
      TrackingKeeps(s, held, maxAttempts);
      ConsumerGrows(s, held, me);
      if !ok {
        ConsumerGrows(s, held, Failed(me.p, me.pos));
        ConsumerMoves(if written then held else s, maxAttempts, c, Failed(me.p, me.pos));
      } else if completed {
        ConsumerMoves(held, maxAttempts, c, me.(index := me.index + 1, at := Unclaimed));
      } else {
        ConsumerMoves(s, maxAttempts, c, me.(index := 0, at := Unclaimed));
      }
    }
  }

  /** When every recipient is tracked, the record being worked on is settled. */
  lemma FinishedSettles(s: State, me: Consumer)
    requires ConsumerOk(s, me) && me.Working? && Current(s, me).None?
    ensures SettledBefore(s, me.p, me.pos + 1)
  {
    var job := Log(s, me.p)[me.pos];
    forall r | r in job.recipients ensures Settled(s, Pair(job.messageId, r), job.attempt) {
      var k :| 0 <= k < |job.recipients| && job.recipients[k] == r;
    }
    assert JobSettled(s, job);
  }

  lemma FailureKeeps(s: State, maxAttempts: nat, c: nat, index: nat, written: bool, ok: bool)
    requires Inv(s, maxAttempts)
    ensures Inv(FailureStep(s, maxAttempts, c, index, written, ok), maxAttempts)
  {
    hide Outbox.Inv, RowSettled, WorkerSettled, AttemptsBounded, CommittedSettled, SettledBefore, Settled, Grows;
    var me := ConsumerOf(s, c);
    if me.Failed? && HasRecord(s, me.p, me.pos) {
      assert ConsumerOk(s, me);
      var job := Log(s, me.p)[me.pos];
      var again := job.(attempt := job.attempt + 1);
      if written || ok {
        var sent := if again.attempt <= maxAttempts then Append(s, Retry(index), again)
                    else s.(deadLetters := s.deadLetters + [again]);
        if again.attempt <= maxAttempts {
          AppendGrows(s, Retry(index), again, maxAttempts);
        } else {
          DeadLetterGrows(s, again);
          SameLogsBound(s, sent, maxAttempts);
        }
        GrowthKeeps(s, sent, maxAttempts);
        ConsumerGrows(s, sent, me);
        LogKept(s, sent, me.p, me.pos);
        if ok {
          assert JobSettled(sent, job);
          OneMore(sent, me.p, me.pos);
          ConsumerMoves(sent, maxAttempts, c, Processed(me.p, me.pos));
        } else {
          ConsumerMoves(sent, maxAttempts, c, Working(me.p, me.pos, 0, Unclaimed));
        }
      } else {
        ConsumerMoves(s, maxAttempts, c, Working(me.p, me.pos, 0, Unclaimed));
      }
    }
  }

  lemma LogKept(s: State, t: State, p: Partition, o: nat)
    requires Grows(s, t) && o < |Log(s, p)|
    ensures o < |Log(t, p)| && Log(t, p)[o] == Log(s, p)[o]
  {
    assert Log(s, p) <= Log(t, p);
  }

  lemma OneMore(s: State, p: Partition, pos: nat)
    requires SettledBefore(s, p, pos) && pos < |Log(s, p)| && JobSettled(s, Log(s, p)[pos])
    ensures SettledBefore(s, p, pos + 1)
  {
  }

  lemma CommitStepKeeps(s: State, maxAttempts: nat, c: nat, written: bool, ok: bool)
    requires Inv(s, maxAttempts)
    ensures Inv(CommitStep(s, c, written, ok), maxAttempts)
  {
    hide Outbox.Inv, RowSettled, WorkerSettled, AttemptsBounded, CommittedSettled, SettledBefore, Settled, Grows;
    var me := ConsumerOf(s, c);
    if me.Processed? && (written || ok) {
      assert ConsumerOk(s, me);
      CommitKeeps(s, maxAttempts, me.p, me.pos + 1);
      var stored := s.(committed := s.committed[me.p := me.pos + 1]);
      assert ConsumerOk(stored, stored.consumers[c]);
      if ok { ConsumerMoves(stored, maxAttempts, c, Ready(me.p, me.pos + 1)); }
    }
  }

  lemma SimpleConsumerKeeps(s: State, maxAttempts: nat, step: Step)
    requires Inv(s, maxAttempts)
    requires step.Join? || step.Fetch? || step.Finished? || step.Reprocess? || step.Crash?
    ensures Inv(Apply(s, maxAttempts, step), maxAttempts)
  {
    hide Outbox.Inv, RowSettled, WorkerSettled, AttemptsBounded, SettledBefore, Settled;
    var me := ConsumerOf(s, step.c);
    assert ConsumerOk(s, me);
    match step
    case Join(c, p) => ConsumerMoves(s, maxAttempts, c, Ready(p, Committed(s, p)));
    case Fetch(c) =>
      if me.Ready? && HasRecord(s, me.p, me.pos) {
        ConsumerMoves(s, maxAttempts, c, Working(me.p, me.pos, 0, Unclaimed));
      }
    case Finished(c) =>
      if me.Working? && Current(s, me).None? {
        FinishedSettles(s, me);
        ConsumerMoves(s, maxAttempts, c, Processed(me.p, me.pos));
      }
    case Reprocess(c) => if me.Working? { ConsumerMoves(s, maxAttempts, c, Working(me.p, me.pos, 0, Unclaimed)); }
    case Crash(c) => ConsumerMoves(s, maxAttempts, c, Stopped);
  }

  // ---------- runs ----------

  lemma StepKeeps(s: State, maxAttempts: nat, step: Step)
    requires Inv(s, maxAttempts)
    ensures Inv(Apply(s, maxAttempts, step), maxAttempts)
  {
    hide Inv, WorkerStep, PublishStep, TrackStep, ClaimStep, DeliverStep, ReleaseStep, CompleteStep, FailureStep,
      CommitStep;
    match step
    case OutboxStep(outboxStep) => OutboxStepKeeps(s, maxAttempts, outboxStep);
    case Publish(w, index, written, ok) => PublishKeeps(s, maxAttempts, w, index, written, ok);
    case TrackNext(w, written, ok) => TrackNextKeeps(s, maxAttempts, w, written, ok);
    case ClaimRecipient(c, owner, written, ok) => ClaimRecipientKeeps(s, maxAttempts, c, owner, written, ok);
    case Deliver(c, written, ok) => DeliverKeeps(s, maxAttempts, c, written, ok);
    case Release(c, written) => ReleaseKeeps(s, maxAttempts, c, written);
    case Complete(c, written, ok) => CompleteKeeps(s, maxAttempts, c, written, ok);
    case WriteFailure(c, index, written, ok) => FailureKeeps(s, maxAttempts, c, index, written, ok);
    case Commit(c, written, ok) => CommitStepKeeps(s, maxAttempts, c, written, ok);
    case KeyLost(pair) => KeyLostKeeps(s, maxAttempts, pair);
    case _ => SimpleConsumerKeeps(s, maxAttempts, step);
  }

  lemma KeyLostKeeps(s: State, maxAttempts: nat, pair: Pair)
    requires Inv(s, maxAttempts)
    ensures Inv(SetKey(s, pair, None), maxAttempts)
  {
    hide Outbox.Inv, RowSettled, WorkerSettled, AttemptsBounded, CommittedSettled, ConsumerOk, Grows;
    TrackingKeeps(s, SetKey(s, pair, None), maxAttempts);
  }

  lemma {:induction false} RunKeeps(s: State, maxAttempts: nat, steps: seq<Step>)
    requires Inv(s, maxAttempts)
    ensures Inv(Run(s, maxAttempts, steps), maxAttempts)
    decreases steps
  {
    hide Inv, Apply;
    if |steps| > 0 {
      StepKeeps(s, maxAttempts, steps[0]);
      RunKeeps(Apply(s, maxAttempts, steps[0]), maxAttempts, steps[1..]);
    }
  }

  /** The row's work for the recipient is still to be done, is done, or is on record elsewhere. */
  ghost predicate Accounted(s: State, id: nat, recipient: string)
    requires id in s.outbox.rows
  {
    var pair := Pair(s.outbox.rows[id].messageId, recipient);
    || s.outbox.rows[id].status != Outbox.Done
    || pair in s.tracked
    || DeadLettered(s, pair)
    || exists p, o: nat :: Live(s, p, o) && Carries(Log(s, p)[o], pair)
  }

  lemma InvAccounts(s: State, maxAttempts: nat, id: nat, recipient: string)
    requires Inv(s, maxAttempts) && id in s.outbox.rows && recipient in s.outbox.rows[id].recipients
    ensures Accounted(s, id, recipient)
  {
    if s.outbox.rows[id].status == Outbox.Done {
      var pair := Pair(s.outbox.rows[id].messageId, recipient);
      assert RowSettled(s, s.outbox.rows[id]);
      assert Settled(s, pair, -1);
      if pair !in s.tracked && !DeadLettered(s, pair) {
        var p, o: nat :| CarriedBy(s, pair, p, o, -1);
        assert Live(s, p, o) && Carries(Log(s, p)[o], pair);
      }
    }
  }

  /**
   In every reachable state, for every committed message and each recipient of its outbox snapshot: the outbox row is
   not done, or the pair has been tracked, is dead-lettered, or is carried by a record no consumer group has committed.
   */
  lemma NothingIsLost(maxAttempts: nat, steps: seq<Step>, id: nat, recipient: string)
    ensures var s := Run(Init, maxAttempts, steps);
            id in s.outbox.rows && recipient in s.outbox.rows[id].recipients ==> Accounted(s, id, recipient)
  {
    hide Accounted;
    RunKeeps(Init, maxAttempts, steps);
    var s := Run(Init, maxAttempts, steps);
    if id in s.outbox.rows && recipient in s.outbox.rows[id].recipients {
      InvAccounts(s, maxAttempts, id, recipient);
    }
  }

  /** A lease key says delivered only if the recipient's copy was tracked, even when keys are lost and taken again. */
  lemma DeliveredMeansTracked(maxAttempts: nat, steps: seq<Step>, pair: Pair)
    ensures var s := Run(Init, maxAttempts, steps);
            KeyOf(s, pair) == Some(RecipientLease.Delivered) ==> pair in s.tracked
  {
    RunKeeps(Init, maxAttempts, steps);
  }

  /** A committed record is no longer needed: each of its recipients is settled without it. */
  lemma CommittedRecordsAreSettled(maxAttempts: nat, steps: seq<Step>, p: Partition, o: nat)
    ensures var s := Run(Init, maxAttempts, steps);
            o < Committed(s, p) ==> o < |Log(s, p)| && JobSettled(s, Log(s, p)[o])
  {
    RunKeeps(Init, maxAttempts, steps);
    var s := Run(Init, maxAttempts, steps);
    assert SettledBefore(s, p, Committed(s, p));
  }
}
