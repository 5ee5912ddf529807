/** No delivery obligation is ever lost: the invariant of module DeliveryPipeline and its proof. */
module NoLostDelivery {
  import Outbox = DeliveryOutbox
  import RecipientLease
  import opened DeliveryPipeline

  predicate Carries(job: Job, pair: Pair)
  {
    job.messageId == pair.messageId && pair.recipient in job.recipients
  }

  /** A record at or after the committed offset: some consumer will read it (again). */
  predicate Live(s: State, p: Partition, o: nat)
  {
    Committed(s, p) <= o < |Log(s, p)|
  }

  ghost predicate CarriedBy(s: State, pair: Pair, p: Partition, o: nat, above: int)
  {
    Live(s, p, o) && Carries(Log(s, p)[o], pair) && Log(s, p)[o].attempt > above
  }

  ghost predicate DeadLettered(s: State, pair: Pair)
  {
    exists i | 0 <= i < |s.deadLetters| :: Carries(s.deadLetters[i], pair)
  }

  /**
   The pair is tracked, dead-lettered, or carried by an uncommitted record of a later attempt than `above`.
   Counting only later attempts keeps a record from vouching for itself when it is committed.
   */
  ghost predicate Settled(s: State, pair: Pair, above: int)
  {
    || pair in s.tracked
    || DeadLettered(s, pair)
    || exists p, o: nat :: CarriedBy(s, pair, p, o, above)
  }

  ghost predicate AllSettled(s: State, messageId: string, recipients: seq<string>, above: int)
  {
    forall r | r in recipients :: Settled(s, Pair(messageId, r), above)
  }

  ghost predicate JobSettled(s: State, job: Job)
  {
    AllSettled(s, job.messageId, job.recipients, job.attempt)
  }

  ghost predicate TrackedUpTo(s: State, messageId: string, recipients: seq<string>, n: nat)
  {
    n <= |recipients| && forall k | 0 <= k < n :: Pair(messageId, recipients[k]) in s.tracked
  }

  // ---------- the invariant ----------

  /** Every record before `pos` has been settled by whoever read it. */
  ghost predicate SettledBefore(s: State, p: Partition, pos: nat)
  {
    pos <= |Log(s, p)| && forall o | 0 <= o < pos :: JobSettled(s, Log(s, p)[o])
  }

  ghost predicate ConsumerOk(s: State, consumer: Consumer)
  {
    match consumer
    case Stopped => true
    case Ready(p, pos) => SettledBefore(s, p, pos)
    case Failed(p, pos) => SettledBefore(s, p, pos) && pos < |Log(s, p)|
    case Processed(p, pos) => SettledBefore(s, p, pos + 1)
    case Working(p, pos, index, at) =>
      && SettledBefore(s, p, pos) && pos < |Log(s, p)|
      && TrackedUpTo(s, Log(s, p)[pos].messageId, Log(s, p)[pos].recipients, index)
      && (at != Unclaimed ==> index < |Log(s, p)[pos].recipients|)
      && (at.Sent? ==> Pair(Log(s, p)[pos].messageId, Log(s, p)[pos].recipients[index]) in s.tracked)
  }

  ghost predicate RowSettled(s: State, row: Outbox.Row)
  {
    row.status == Outbox.Done ==> AllSettled(s, row.messageId, row.recipients, -1)
  }

  ghost predicate WorkerSettled(s: State, worker: Outbox.Worker, progress: Progress)
  {
    worker.Claimed? ==>
      var e := worker.event;
      && TrackedUpTo(s, e.messageId, e.recipients, progress.index)
      && (progress.published ==> AllSettled(s, e.messageId, e.recipients, -1))
  }

  ghost predicate RowsSettled(s: State)
  {
    forall id | id in s.outbox.rows :: RowSettled(s, s.outbox.rows[id])
  }

  ghost predicate WorkersSettled(s: State)
  {
    forall w | w in s.outbox.workers :: WorkerSettled(s, s.outbox.workers[w], ProgressOf(s, w))
  }

  ghost predicate CommittedSettled(s: State)
  {
    forall p :: SettledBefore(s, p, Committed(s, p))
  }

  ghost predicate ConsumersOk(s: State)
  {
    forall c | c in s.consumers :: ConsumerOk(s, s.consumers[c])
  }

  ghost predicate KeysOk(s: State)
  {
    forall pair | pair in s.leases && s.leases[pair] == RecipientLease.Delivered :: pair in s.tracked
  }

  ghost predicate AttemptsBounded(s: State, maxAttempts: nat)
  {
    forall p, o | 0 <= o < |Log(s, p)| :: Log(s, p)[o].attempt <= maxAttempts
  }

  ghost predicate Inv(s: State, maxAttempts: nat)
  {
    && Outbox.Inv(s.outbox)
    && RowsSettled(s) && WorkersSettled(s)
    && CommittedSettled(s) && ConsumersOk(s) && KeysOk(s)
    && AttemptsBounded(s, maxAttempts)
  }

  // ---------- settled stays settled ----------

  /** Logs and dead letters only grow, tracked pairs stay, and no offset is committed. */
  ghost predicate Grows(s: State, t: State)
  {
    && s.tracked <= t.tracked
    && |s.deadLetters| <= |t.deadLetters| && t.deadLetters[..|s.deadLetters|] == s.deadLetters
    && (forall p :: Log(s, p) <= Log(t, p))
    && t.committed == s.committed
  }

  lemma SettledGrows(s: State, t: State, pair: Pair, above: int)
    requires Grows(s, t) && Settled(s, pair, above)
    ensures Settled(t, pair, above)
  {
    if pair in s.tracked {
    } else if DeadLettered(s, pair) {
      var i :| 0 <= i < |s.deadLetters| && Carries(s.deadLetters[i], pair);
      assert t.deadLetters[i] == s.deadLetters[i];
    } else {
      var p, o: nat :| CarriedBy(s, pair, p, o, above);
      assert CarriedBy(t, pair, p, o, above);
    }
  }

  lemma AllSettledGrows(s: State, t: State, messageId: string, recipients: seq<string>, above: int)
    requires Grows(s, t) && AllSettled(s, messageId, recipients, above)
    ensures AllSettled(t, messageId, recipients, above)
  {
    forall r | r in recipients ensures Settled(t, Pair(messageId, r), above) {
      SettledGrows(s, t, Pair(messageId, r), above);
    }
  }

  lemma SettledBeforeGrows(s: State, t: State, p: Partition, pos: nat)
    requires Grows(s, t) && SettledBefore(s, p, pos)
    ensures SettledBefore(t, p, pos)
  {
    assert Log(s, p) <= Log(t, p);
    forall o | 0 <= o < pos ensures JobSettled(t, Log(t, p)[o]) {
      var job := Log(s, p)[o];
      assert JobSettled(s, job);
      AllSettledGrows(s, t, job.messageId, job.recipients, job.attempt);
    }
  }

  lemma ConsumerGrows(s: State, t: State, consumer: Consumer)
    requires Grows(s, t) && ConsumerOk(s, consumer)
    ensures ConsumerOk(t, consumer)
  {
    if !consumer.Stopped? {
      assert Log(s, consumer.p) <= Log(t, consumer.p);
      SettledBeforeGrows(s, t, consumer.p, if consumer.Processed? then consumer.pos + 1 else consumer.pos);
    }
  }

  lemma RowGrows(s: State, t: State, row: Outbox.Row)
    requires Grows(s, t) && RowSettled(s, row)
    ensures RowSettled(t, row)
  {
    if row.status == Outbox.Done { AllSettledGrows(s, t, row.messageId, row.recipients, -1); }
  }

  lemma WorkerGrows(s: State, t: State, worker: Outbox.Worker, progress: Progress)
    requires Grows(s, t) && WorkerSettled(s, worker, progress)
    ensures WorkerSettled(t, worker, progress)
  {
    if worker.Claimed? && progress.published {
      AllSettledGrows(s, t, worker.event.messageId, worker.event.recipients, -1);
    }
  }

  // ---------- committing ----------

  /** Committing an offset whose records are settled leaves every settled pair settled: follow it to later attempts. */
  lemma {:induction false} SettledCommit(s: State, t: State, p: Partition, pos: nat, maxAttempts: nat, pair: Pair,
      above: int)
    requires AttemptsBounded(s, maxAttempts) && CommittedSettled(s) && SettledBefore(s, p, pos)
    requires t == s.(committed := s.committed[p := pos])
    requires Settled(s, pair, above)
    ensures Settled(t, pair, above)
    decreases maxAttempts - above
  {
    if pair in s.tracked {
    } else if DeadLettered(s, pair) {
      assert DeadLettered(t, pair);
    } else {
      var q, o: nat :| CarriedBy(s, pair, q, o, above);
      if Live(t, q, o) {
        assert CarriedBy(t, pair, q, o, above);
      } else {
        assert q == p && o < pos;
        var job := Log(s, p)[o];
        assert JobSettled(s, job) && Pair(job.messageId, pair.recipient) == pair;
        SettledCommit(s, t, p, pos, maxAttempts, pair, job.attempt);
        Weaken(t, pair, job.attempt, above);
      }
    }
  }

  lemma Weaken(s: State, pair: Pair, strong: int, weak: int)
    requires weak <= strong && Settled(s, pair, strong)
    ensures Settled(s, pair, weak)
  {
    if exists p, o: nat :: CarriedBy(s, pair, p, o, strong) {
      var p, o: nat :| CarriedBy(s, pair, p, o, strong);
      assert CarriedBy(s, pair, p, o, weak);
    }
  }

  lemma AllSettledCommit(s: State, t: State, p: Partition, pos: nat, maxAttempts: nat, messageId: string,
      recipients: seq<string>, above: int)
    requires AttemptsBounded(s, maxAttempts) && CommittedSettled(s) && SettledBefore(s, p, pos)
    requires t == s.(committed := s.committed[p := pos])
    requires AllSettled(s, messageId, recipients, above)
    ensures AllSettled(t, messageId, recipients, above)
  {
    forall r | r in recipients ensures Settled(t, Pair(messageId, r), above) {
      SettledCommit(s, t, p, pos, maxAttempts, Pair(messageId, r), above);
    }
  }

  lemma SettledBeforeCommit(s: State, t: State, p: Partition, pos: nat, maxAttempts: nat, q: Partition, end: nat)
    requires AttemptsBounded(s, maxAttempts) && CommittedSettled(s) && SettledBefore(s, p, pos)
    requires t == s.(committed := s.committed[p := pos])
    requires SettledBefore(s, q, end)
    ensures SettledBefore(t, q, end)
  {
    forall o | 0 <= o < end ensures JobSettled(t, Log(t, q)[o]) {
      var job := Log(s, q)[o];
      assert JobSettled(s, job);
      AllSettledCommit(s, t, p, pos, maxAttempts, job.messageId, job.recipients, job.attempt);
    }
  }

  lemma CommitKeeps(s: State, maxAttempts: nat, p: Partition, pos: nat)
    requires Inv(s, maxAttempts) && SettledBefore(s, p, pos)
    ensures Inv(s.(committed := s.committed[p := pos]), maxAttempts)
  {
    hide JobSettled, TrackedUpTo, AllSettled, Outbox.Inv;
    var t := s.(committed := s.committed[p := pos]);
    forall id | id in s.outbox.rows ensures RowSettled(t, s.outbox.rows[id]) {
      var row := s.outbox.rows[id];
      if row.status == Outbox.Done { AllSettledCommit(s, t, p, pos, maxAttempts, row.messageId, row.recipients, -1); }
    }
    forall w | w in s.outbox.workers ensures WorkerSettled(t, s.outbox.workers[w], ProgressOf(t, w)) {
      var worker := s.outbox.workers[w];
      assert WorkerSettled(s, worker, ProgressOf(s, w));
      WorkerCommit(s, t, p, pos, maxAttempts, worker, ProgressOf(s, w));
    }
    forall c | c in s.consumers ensures ConsumerOk(t, s.consumers[c]) {
      ConsumerCommit(s, t, p, pos, maxAttempts, s.consumers[c]);
    }
    forall q ensures SettledBefore(t, q, Committed(t, q)) {
      if q != p {
        assert Committed(t, q) == Committed(s, q);
        assert SettledBefore(s, q, Committed(s, q));
      }
      SettledBeforeCommit(s, t, p, pos, maxAttempts, q, Committed(t, q));
    }
    SameLogsBound(s, t, maxAttempts);
  }

  lemma SameLogsBound(s: State, t: State, maxAttempts: nat)
    requires t.logs == s.logs && AttemptsBounded(s, maxAttempts)
    ensures AttemptsBounded(t, maxAttempts)
  {
    forall p, o | 0 <= o < |Log(t, p)| ensures Log(t, p)[o].attempt <= maxAttempts { assert Log(t, p) == Log(s, p); }
  }

  lemma WorkerCommit(s: State, t: State, p: Partition, pos: nat, maxAttempts: nat, worker: Outbox.Worker,
      progress: Progress)
    requires AttemptsBounded(s, maxAttempts) && CommittedSettled(s) && SettledBefore(s, p, pos)
    requires t == s.(committed := s.committed[p := pos])
    requires WorkerSettled(s, worker, progress)
    ensures WorkerSettled(t, worker, progress)
  {
    if worker.Claimed? && progress.published {
      AllSettledCommit(s, t, p, pos, maxAttempts, worker.event.messageId, worker.event.recipients, -1);
    }
  }

  lemma ConsumerCommit(s: State, t: State, p: Partition, pos: nat, maxAttempts: nat, consumer: Consumer)
    requires AttemptsBounded(s, maxAttempts) && CommittedSettled(s) && SettledBefore(s, p, pos)
    requires t == s.(committed := s.committed[p := pos])
    requires ConsumerOk(s, consumer)
    ensures ConsumerOk(t, consumer)
  {
    if !consumer.Stopped? {
      SettledBeforeCommit(s, t, p, pos, maxAttempts, consumer.p, if consumer.Processed? then consumer.pos + 1
        else consumer.pos);
    }
  }

  // ---------- every other step ----------

  ghost predicate RowsFit(s: State, t: State)
  {
    forall id | id in t.outbox.rows ::
      (id in s.outbox.rows && s.outbox.rows[id] == t.outbox.rows[id]) || RowSettled(t, t.outbox.rows[id])
  }

  ghost predicate WorkersFit(s: State, t: State)
  {
    forall w | w in t.outbox.workers ::
      || (w in s.outbox.workers && s.outbox.workers[w] == t.outbox.workers[w] && ProgressOf(s, w) == ProgressOf(t, w))
      || WorkerSettled(t, t.outbox.workers[w], ProgressOf(t, w))
  }

  ghost predicate ConsumersFit(s: State, t: State)
  {
    forall c | c in t.consumers ::
      (c in s.consumers && s.consumers[c] == t.consumers[c]) || ConsumerOk(t, t.consumers[c])
  }

  ghost predicate KeysFit(s: State, t: State)
  {
    forall pair | pair in t.leases && t.leases[pair] == RecipientLease.Delivered ::
      (pair in s.leases && s.leases[pair] == RecipientLease.Delivered) || pair in t.tracked
  }

  /** A step that commits nothing keeps the invariant when whatever it changed fits the new state. */
  lemma GrowthKeeps(s: State, t: State, maxAttempts: nat)
    requires Inv(s, maxAttempts) && Grows(s, t) && AttemptsBounded(t, maxAttempts) && Outbox.Inv(t.outbox)
    requires RowsFit(s, t) && WorkersFit(s, t) && ConsumersFit(s, t) && KeysFit(s, t)
    ensures Inv(t, maxAttempts)
  {
    hide Settled, AllSettled, SettledBefore, RowSettled, WorkerSettled, ConsumerOk, Outbox.Inv, AttemptsBounded, Grows;
    forall id | id in t.outbox.rows ensures RowSettled(t, t.outbox.rows[id]) {
      if id in s.outbox.rows && s.outbox.rows[id] == t.outbox.rows[id] { RowGrows(s, t, t.outbox.rows[id]); }
    }
    forall w | w in t.outbox.workers ensures WorkerSettled(t, t.outbox.workers[w], ProgressOf(t, w)) {
      if w in s.outbox.workers && s.outbox.workers[w] == t.outbox.workers[w] && ProgressOf(s, w) == ProgressOf(t, w) {
        WorkerGrows(s, t, t.outbox.workers[w], ProgressOf(t, w));
      }
    }
    forall c | c in t.consumers ensures ConsumerOk(t, t.consumers[c]) {
      if c in s.consumers && s.consumers[c] == t.consumers[c] { ConsumerGrows(s, t, t.consumers[c]); }
    }
    assert KeysOk(t) by { TrackedStays(s, t); }
    CommittedGrows(s, t);
  }

  lemma TrackedStays(s: State, t: State)
    requires Grows(s, t)
    ensures s.tracked <= t.tracked
  {
  }

  lemma CommittedGrows(s: State, t: State)
    requires Grows(s, t) && CommittedSettled(s)
    ensures CommittedSettled(t)
  {
    forall p ensures SettledBefore(t, p, Committed(t, p)) {
      assert SettledBefore(s, p, Committed(s, p));
      SettledBeforeGrows(s, t, p, Committed(t, p));
    }
  }

  lemma AppendGrows(s: State, p: Partition, job: Job, maxAttempts: nat)
    requires job.attempt <= maxAttempts && CommittedSettled(s) && AttemptsBounded(s, maxAttempts)
    ensures var t := Append(s, p, job);
            && Grows(s, t) && AttemptsBounded(t, maxAttempts)
            && forall r, above: int | r in job.recipients && above < job.attempt ::
                   Settled(t, Pair(job.messageId, r), above)
  {
    var t := Append(s, p, job);
    forall q ensures Log(s, q) <= Log(t, q) && Log(t, q) == if q == p then Log(s, q) + [job] else Log(s, q) {}
    assert SettledBefore(s, p, Committed(s, p));
    forall r, above: int | r in job.recipients && above < job.attempt
      ensures Settled(t, Pair(job.messageId, r), above)
    {
      assert CarriedBy(t, Pair(job.messageId, r), p, |Log(s, p)|, above);
    }
  }

  lemma DeadLetterGrows(s: State, job: Job)
    ensures var t := s.(deadLetters := s.deadLetters + [job]);
            && Grows(s, t)
            && forall r, above: int | r in job.recipients :: Settled(t, Pair(job.messageId, r), above)
  {
    var t := s.(deadLetters := s.deadLetters + [job]);
    forall r | r in job.recipients ensures DeadLettered(t, Pair(job.messageId, r)) {
      assert t.deadLetters[|s.deadLetters|] == job;
    }
  }

  lemma SameLogsGrow(s: State, t: State)
    requires t.logs == s.logs && t.committed == s.committed && t.deadLetters == s.deadLetters && s.tracked <= t.tracked
    ensures Grows(s, t)
  {
    forall p ensures Log(s, p) <= Log(t, p) { assert Log(t, p) == Log(s, p); }
  }

  /** Moving one consumer to a place it has earned. */
  lemma ConsumerMoves(s: State, maxAttempts: nat, c: nat, consumer: Consumer)
    requires Inv(s, maxAttempts) && ConsumerOk(s, consumer)
    ensures Inv(SetConsumer(s, c, consumer), maxAttempts)
  {
    hide ConsumerOk, Outbox.Inv, AttemptsBounded, RowSettled, WorkerSettled, CommittedSettled, Grows;
    var t := SetConsumer(s, c, consumer);
    SameLogsBound(s, t, maxAttempts);
    SameLogsGrow(s, t);
    ConsumerGrows(s, t, consumer);
    GrowthKeeps(s, t, maxAttempts);
  }

  /** Tracking a pair and changing lease keys; a key may say delivered only for a tracked pair. */
  lemma TrackingKeeps(s: State, t: State, maxAttempts: nat)
    requires Inv(s, maxAttempts) && s.tracked <= t.tracked && KeysFit(s, t)
    requires t == s.(tracked := t.tracked, leases := t.leases)
    ensures Inv(t, maxAttempts) && Grows(s, t)
  {
    hide ConsumerOk, Outbox.Inv, AttemptsBounded, RowSettled, WorkerSettled, CommittedSettled, Grows;
    SameLogsBound(s, t, maxAttempts);
    SameLogsGrow(s, t);
    GrowthKeeps(s, t, maxAttempts);
  }
}
