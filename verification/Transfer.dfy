/**
 The group consumer as the source writes it: loops over recipients and retries, one external command at a time.
 Every command may fail with or without effect, and any steps of other processes run after each command. Each method is
 proved to be a run of module DeliveryPipeline, so the invariant holds before and after it.
 */
module Transfer {
  import opened Faults
  import opened Wrappers
  import opened DeliveryPipeline
  import opened NoLostDelivery
  import opened NoLostDeliveryRuns
  import opened PipelineHistory
  import RecipientLease
  import RecipientNames

  datatype Outcome = Handled | Busy | Errored

  class Consumer {
    const id: nat
    const maxAttempts: nat
    /** How the k-th external command of this consumer turns out, and what runs elsewhere right after it. */
    const faults: nat -> Fault
    const others: nat -> seq<Step>
    var world: State
    var tick: nat
    ghost var trace: seq<Step>
    ghost const start: State

    ghost predicate Valid()
      reads this
    {
      && (forall k :: OthersOnly(id, others(k)))
      && Inv(start, maxAttempts) && RecipientNames.AllNamed(start)
      && world == Run(start, maxAttempts, trace)
    }

    function Me(): DeliveryPipeline.Consumer
      reads this
    {
      ConsumerOf(world, id)
    }

    /** The consumer holds record `pos` of `p`, which is `job`. */
    predicate Holding(p: Partition, pos: nat, job: Job)
      reads this
    {
      pos < |Log(world, p)| && Log(world, p)[pos] == job
    }

    constructor (id: nat, maxAttempts: nat, faults: nat -> Fault, others: nat -> seq<Step>, world: State)
      requires Inv(world, maxAttempts) && RecipientNames.AllNamed(world) && forall k :: OthersOnly(id, others(k))
      ensures Valid() && this.world == world && this.id == id && this.maxAttempts == maxAttempts
    {
      this.id, this.maxAttempts, this.faults, this.others := id, maxAttempts, faults, others;
      this.world, tick, trace, start := world, 0, [], world;
    }

    /** From here on nobody else acts and every command succeeds and is answered. */
    ghost predicate Alone()
      reads this
    {
      forall k | k >= tick :: others(k) == [] && faults(k) == Fine
    }

    /** One external command, then whatever other processes do next. */
    method Perform(step: Step)
      requires Valid() && StepConsumer(step) == id
      modifies this`world, this`tick, this`trace
      ensures Valid()
      ensures Me() == ConsumerOf(Apply(old(world), maxAttempts, step), id)
      ensures Remembers(old(world), world) && tick == old(tick) + 1
      ensures Remembers(Apply(old(world), maxAttempts, step), world)
      ensures others(old(tick)) == [] ==> world == Apply(old(world), maxAttempts, step)
      ensures old(Alone()) ==> Alone() && faults(old(tick)) == Fine && others(old(tick)) == []
    {
      hide Apply, Inv;
      var next := Apply(world, maxAttempts, step);
      StepNudge(world, maxAttempts, step);
      OthersLeave(next, maxAttempts, id, others(tick));
      RunConcat(start, maxAttempts, trace, [step] + others(tick));
      assert ([step] + others(tick))[1..] == others(tick);
      trace := trace + ([step] + others(tick));
      world := Run(next, maxAttempts, others(tick));
      tick := tick + 1;
      ExtendTrans(old(world), next, world);
    }

    /** Some command in this range failed. */
    ghost predicate Faulty(from: nat, to: nat)
    {
      exists k | from <= k < to :: faults(k) != Fine
    }

    predicate Written()
      reads this
    {
      faults(tick) != Lost
    }

    predicate Answered()
      reads this
    {
      faults(tick) == Fine
    }

    /** Claim the recipient's lease, as far as an answer came back. */
    method ClaimGroupRecipient(p: Partition, pos: nat, job: Job, index: nat, owner: nat)
      returns (r: Outcome, held: bool)
      requires Valid() && Holding(p, pos, job) && index < |job.recipients|
      requires Me() == Working(p, pos, index, Unclaimed)
      modifies this`world, this`tick, this`trace
      ensures Valid() && Remembers(old(world), world)
      ensures Me() == if held then Working(p, pos, index, Owner(owner)) else At(r, p, pos, index)
      ensures tick == old(tick) + 1 && (r == Errored <==> faults(old(tick)) != Fine) && (held ==> r == Handled)
      ensures old(Alone()) ==> Alone() && ClaimServed(old(world), world, PairOf(job, index), owner, r, held)
    {
      hide Inv, Run, Remembers, Apply, Valid, ClaimServed;
      var ok := Answered();
      ClaimMoves(world, maxAttempts, id, p, pos, index, owner, Written(), ok);
      Perform(ClaimRecipient(id, owner, Written(), ok));
      held := Me() == Working(p, pos, index, Owner(owner));
      r := if !ok then Errored else if Me() == Working(p, pos, 0, Unclaimed) then Busy else Handled;
    }

    static function At(r: Outcome, p: Partition, pos: nat, index: nat): DeliveryPipeline.Consumer
    {
      match r
      case Handled => Working(p, pos, index + 1, Unclaimed)
      case Busy => Working(p, pos, 0, Unclaimed)
      case Errored => Failed(p, pos)
    }

    /** Deliver under the lease; after a failure the lease is given back, whatever the answer. */
    method SendHeld(p: Partition, pos: nat, job: Job, index: nat, owner: nat) returns (sent: bool)
      requires Valid() && Holding(p, pos, job) && index < |job.recipients|
      requires Me() == Working(p, pos, index, Owner(owner))
      modifies this`world, this`tick, this`trace
      ensures Valid() && Remembers(old(world), world)
      ensures Me() == if sent then Working(p, pos, index, Sent(owner)) else Failed(p, pos)
      ensures old(tick) < tick && (sent <==> faults(old(tick)) == Fine)
      ensures tick == old(tick) + if sent then 1 else 2
      ensures !sent && others(old(tick)) == [] && others(old(tick) + 1) == [] && faults(old(tick) + 1) != Lost ==>
                KeyOf(world, PairOf(job, index)) != Some(RecipientLease.Held(owner))
      ensures old(Alone()) ==> sent && Alone() && SameRecords(old(world), world) && world.leases == old(world).leases
    {
      hide Inv, Run, Remembers, Apply, Valid, KeyOf;
      sent := Answered();
      DeliverMoves(world, maxAttempts, id, p, pos, index, owner, Written(), sent);
      Perform(Deliver(id, Written(), sent));
      if !sent {
        label failed:
        RecordKept(old(world), world, p, pos);
        ReleaseMoves(world, maxAttempts, id, p, pos, index, owner, Written());
        Perform(Release(id, Written()));
        ExtendTrans(old(world), old@failed(world), world);
      }
    }

    method CompleteGroupRecipient(p: Partition, pos: nat, job: Job, index: nat, owner: nat) returns (r: Outcome)
      requires Valid() && Holding(p, pos, job) && index < |job.recipients|
      requires Me() == Working(p, pos, index, Sent(owner))
      modifies this`world, this`tick, this`trace
      ensures Valid() && Remembers(old(world), world)
      ensures Me() == At(r, p, pos, index)
      ensures tick == old(tick) + 1 && (r == Errored <==> faults(old(tick)) != Fine)
      ensures old(Alone()) ==> Alone() && CompleteServed(old(world), world, PairOf(job, index), owner, r)
    {
      hide Inv, Run, Remembers, Apply, Valid, CompleteServed;
      var ok := Answered();
      CompleteMoves(world, maxAttempts, id, p, pos, index, owner, Written(), ok);
      Perform(Complete(id, Written(), ok));
      r := if !ok then Errored else if Me() == Working(p, pos, 0, Unclaimed) then Busy else Handled;
    }

    /** Deliver and complete under a lease that is held. */
    method DeliverHeld(p: Partition, pos: nat, job: Job, index: nat, owner: nat) returns (r: Outcome)
      requires Valid() && Holding(p, pos, job) && index < |job.recipients|
      requires Me() == Working(p, pos, index, Owner(owner))
      modifies this`world, this`tick, this`trace
      ensures Valid() && Remembers(old(world), world)
      ensures Me() == At(r, p, pos, index)
      ensures old(tick) < tick && (r == Errored <==> Faulty(old(tick), tick))
      ensures old(Alone()) ==> Alone() && CompleteServed(old(world), world, PairOf(job, index), owner, r)
    {
      hide Inv, Run, Remembers, Alone, Apply, KeyOf, CompleteServed, Valid, PairOf, SameRecords;
      var sent := SendHeld(p, pos, job, index, owner);
      if !sent {
        return Errored;
      }
      label sending:
      RecordKept(old(world), world, p, pos);
      r := CompleteGroupRecipient(p, pos, job, index, owner);
      ExtendTrans(old(world), old@sending(world), world);
      if old(Alone()) { SentCompletes(old(world), old@sending(world), world, PairOf(job, index), owner, r); }
    }

    method DeliverGroupRecipient(p: Partition, pos: nat, job: Job, index: nat, owner: nat) returns (r: Outcome)
      requires Valid() && Holding(p, pos, job) && index < |job.recipients|
      requires Me() == Working(p, pos, index, Unclaimed)
      modifies this`world, this`tick, this`trace
      ensures Valid() && Remembers(old(world), world)
      ensures Me() == At(r, p, pos, index)
      ensures old(tick) < tick && (r == Errored <==> Faulty(old(tick), tick))
      ensures r == Handled ==> PairOf(job, index) in world.tracked
      ensures old(Alone()) ==>
                && Alone() && SameRecords(old(world), world)
                && Served(old(world), world, PairOf(job, index), owner, r)
    {
      hide Inv, Run, Remembers, Alone, Apply, KeyOf, ClaimServed, CompleteServed, Served, Valid, PairOf, SameRecords;
      var held;
      r, held := ClaimGroupRecipient(p, pos, job, index, owner);
      if held {
        label claimed:
        RecordKept(old(world), world, p, pos);
        r := DeliverHeld(p, pos, job, index, owner);
        ExtendTrans(old(world), old@claimed(world), world);
        if old(Alone()) {
          ClaimCompletes(old(world), old@claimed(world), world, PairOf(job, index), owner, r);
        }
      } else if old(Alone()) {
        NotClaimed(old(world), world, PairOf(job, index), owner, r);
      }
      if r == Handled { PassedIsTracked(old(world), p, pos, job, index); }
    }

    lemma PassedIsTracked(before: State, p: Partition, pos: nat, job: Job, index: nat)
      requires Valid() && Remembers(before, world) && pos < |Log(before, p)| && Log(before, p)[pos] == job
      requires index < |job.recipients| && Me() == Working(p, pos, index + 1, Unclaimed)
      ensures PairOf(job, index) in world.tracked
    {
      RunKeeps(start, maxAttempts, trace);
      RecordKept(before, world, p, pos);
      assert ConsumerOk(world, Me());
    }

    lemma RecordIsNamed(p: Partition, pos: nat, job: Job)
      requires Valid() && Holding(p, pos, job)
      ensures "" !in job.recipients
    {
      RecipientNames.RunKeeps(start, maxAttempts, trace);
      RecipientNames.RecordNamed(world, p, pos);
    }

    /** The loop over the recipients, up to the first one that is busy or fails. */
    method DeliverToAll(p: Partition, pos: nat, job: Job, owners: nat -> nat)
      returns (busy: bool, failedRecipient: string)
      requires Valid() && Holding(p, pos, job)
      requires Me() == Working(p, pos, 0, Unclaimed)
      modifies this`world, this`tick, this`trace
      ensures Valid() && Remembers(old(world), world) && Holding(p, pos, job) && old(tick) <= tick
      ensures Me() == if busy then Working(p, pos, 0, Unclaimed)
                      else if failedRecipient != "" then Failed(p, pos)
                      else Working(p, pos, |job.recipients|, Unclaimed)
      ensures failedRecipient != "" <==> Faulty(old(tick), tick)
      ensures busy ==> failedRecipient == ""
      ensures !busy && failedRecipient == "" ==>
                AllTracked(world, job)
      ensures old(Alone()) ==>
                && Alone() && SameRecords(old(world), world) && failedRecipient == ""
                && (busy ==> !NoLease(old(world), job))
                && (!busy ==> AllDelivered(world, job, |job.recipients|))
    {
      hide Inv, Run, Remembers, Alone, Apply, AllDelivered, KeyOf, Valid;
      RecordIsNamed(p, pos, job);
      ExtendsItself(world);
      busy, failedRecipient := false, "";
      NoneDelivered(world, job);
      var i := 0;
      while i < |job.recipients| && failedRecipient == ""
        invariant 0 <= i <= |job.recipients| && old(tick) <= tick && Valid() && Remembers(old(world), world)
                    && Holding(p, pos, job)
        invariant Me() == if failedRecipient != "" then Failed(p, pos) else Working(p, pos, i, Unclaimed)
        invariant Faulty(old(tick), tick) <==> failedRecipient != ""
        invariant failedRecipient == "" ==> forall q | 0 <= q < i :: PairOf(job, q) in world.tracked
        invariant old(Alone()) ==>
                    && Alone() && SameRecords(old(world), world) && failedRecipient == ""
                    && NoNewLease(old(world), world) && AllDelivered(world, job, i)
        decreases |job.recipients| - i, failedRecipient == ""
      {
        label next:
        var r := DeliverGroupRecipient(p, pos, job, i, owners(tick));
        ExtendTrans(old(world), old@next(world), world);
        RecordKept(old(world), world, p, pos);
        TrackedKept(old@next(world), world);
        if old(Alone()) { KeysMove(old(world), old@next(world), world, job, i, owners(old@next(tick)), r); }
        if r == Busy {
          busy := true;
          return;
        }
        if r == Errored {
          failedRecipient := job.recipients[i];
        } else {
          i := i + 1;
        }
      }
    }

    /**
     Handled when the record may be committed; otherwise it will be processed again from its first recipient. The last
     tick is the write to the retry or dead-letter topic; when an earlier command failed, the record with one attempt
     more is in that topic, and otherwise everyone is tracked.
     */
    method ProcessFetchedMessage(p: Partition, pos: nat, job: Job, owners: nat -> nat, retryPartition: nat)
      returns (r: Outcome)
      requires Valid() && Holding(p, pos, job)
      requires Me() == Working(p, pos, 0, Unclaimed)
      modifies this`world, this`tick, this`trace
      ensures Valid() && Remembers(old(world), world)
      ensures Me() == if r == Handled then Processed(p, pos) else Working(p, pos, 0, Unclaimed)
      ensures r == Busy ==> old(tick) <= tick && !Faulty(old(tick), tick)
      ensures r == Errored ==> old(tick) < tick && faults(tick - 1) != Fine && Faulty(old(tick), tick - 1)
      ensures r == Handled ==> old(tick) < tick
      ensures r == Handled && !Faulty(old(tick), tick - 1) ==>
                AllTracked(world, job)
      ensures r == Handled && Faulty(old(tick), tick - 1) && job.attempt < maxAttempts ==>
                GainedRetry(old(world), world, retryPartition, job.(attempt := job.attempt + 1))
      ensures r == Handled && Faulty(old(tick), tick - 1) && job.attempt >= maxAttempts ==>
                GainedDeadLetter(old(world), world, job.(attempt := job.attempt + 1))
      ensures old(Alone()) ==>
                && Alone() && SameRecords(old(world), world)
                && (r == Busy ==> !NoLease(old(world), job))
                && (r != Busy ==> r == Handled && AllDelivered(world, job, |job.recipients|))
    {
      hide Inv, Run, Remembers, Alone, Apply, AllDelivered, KeyOf, GainedRetry, GainedDeadLetter, AllTracked, NoLease,
        Valid;
      var busy, failedRecipient := DeliverToAll(p, pos, job, owners);
      if busy {
        return Busy;
      }
      label looped:
      if failedRecipient != "" {
        var ok := WriteFailed(p, pos, job, retryPartition);
        r := if ok then Handled else Errored;
        if ok { GainedSince(old(world), old@looped(world), world, retryPartition, job.(attempt := job.attempt + 1)); }
      } else {
        FinishRecord(p, pos, job);
        r := Handled;
      }
      ExtendTrans(old(world), old@looped(world), world);
    }

    /** The record goes to the retry topic with one attempt more or, past the last attempt, to the dead letters. */
    method WriteFailed(p: Partition, pos: nat, job: Job, retryPartition: nat) returns (ok: bool)
      requires Valid() && Holding(p, pos, job) && Me() == Failed(p, pos)
      modifies this`world, this`tick, this`trace
      ensures Valid() && Remembers(old(world), world)
      ensures Me() == if ok then Processed(p, pos) else Working(p, pos, 0, Unclaimed)
      ensures tick == old(tick) + 1 && (ok <==> faults(old(tick)) == Fine)
      ensures ok && job.attempt < maxAttempts ==>
                GainedRetry(old(world), world, retryPartition, job.(attempt := job.attempt + 1))
      ensures ok && job.attempt >= maxAttempts ==>
                GainedDeadLetter(old(world), world, job.(attempt := job.attempt + 1))
    {
      hide Inv, Run, Remembers, Apply, KeyOf, GainedRetry, GainedDeadLetter, Valid;
      ok := Answered();
      FailureWrites(world, maxAttempts, id, p, pos, retryPartition, Written(), ok);
      ghost var failed := Apply(world, maxAttempts, WriteFailure(id, retryPartition, Written(), ok));
      Perform(WriteFailure(id, retryPartition, Written(), ok));
      if ok {
        Gained(old(world), failed, world, retryPartition, maxAttempts, job.(attempt := job.attempt + 1));
      }
    }

    method FinishRecord(p: Partition, pos: nat, job: Job)
      requires Valid() && Holding(p, pos, job) && Me() == Working(p, pos, |job.recipients|, Unclaimed)
      modifies this`world, this`tick, this`trace
      ensures Valid() && Remembers(old(world), world) && Me() == Processed(p, pos) && tick == old(tick) + 1
      ensures AllTracked(old(world), job) ==> AllTracked(world, job)
      ensures old(Alone()) ==>
                && Alone() && SameRecords(old(world), world)
                && (AllDelivered(old(world), job, |job.recipients|) ==> AllDelivered(world, job, |job.recipients|))
    {
      hide Inv, Run, Remembers, Alone, Apply, AllDelivered, KeyOf, AllTracked, Valid;
      FinishedKeeps(world, maxAttempts, id, p, pos);
      Perform(Finished(id));
      StillTracked(old(world), world, job);
      if old(Alone()) && AllDelivered(old(world), job, |job.recipients|) { SameDelivered(old(world), world, job); }
    }

    method CommitFetchedMessage(p: Partition, pos: nat, tries: nat) returns (committed: bool)
      requires Valid() && Me() == Processed(p, pos)
      modifies this`world, this`tick, this`trace
      ensures Valid() && Remembers(old(world), world)
      ensures Me() == if committed then Ready(p, pos + 1) else Processed(p, pos)
      ensures !committed ==> tick == old(tick) + tries && forall k | old(tick) <= k < tick :: faults(k) != Fine
      ensures committed ==> old(tick) < tick && faults(tick - 1) == Fine
      ensures old(Alone()) && tries > 0 ==>
                committed && Committed(world, p) == pos + 1 && world.logs == old(world).logs
    {
      hide Inv, Run, Apply, Remembers, Valid, Alone, Committed;
      ExtendsItself(world);
      var left: int := tries;
      while left > 0
        invariant Valid() && Me() == Processed(p, pos) && Remembers(old(world), world)
        invariant 0 <= left <= tries && tick == old(tick) + (tries - left) && forall k | old(tick) <= k < tick ::
                    faults(k) != Fine
        invariant old(Alone()) ==> Alone() && left == tries && world == old(world)
      {
        label trying:
        var ok := Answered();
        CommitMoves(world, maxAttempts, id, p, pos, Written(), ok);
        Perform(Commit(id, Written(), ok));
        ExtendTrans(old(world), old@trying(world), world);
        if ok {
          return true;
        }
        left := left - 1;
      }
      return false;
    }

    /**
     One round of the consume loop; running out of tries stands for shutdown. The position moves past a record only
     after it was processed and its offset committed, and then everyone it names is settled.
     */
    method ConsumeOne(p: Partition, pos: nat, tries: nat, owners: nat -> nat, retryPartition: nat)
      returns (committed: bool)
      requires Valid() && Me() == Ready(p, pos) && HasRecord(world, p, pos)
      modifies this`world, this`tick, this`trace
      ensures Valid()
      ensures committed <==> Me() == Ready(p, pos + 1)
      ensures Remembers(old(world), world)
      ensures committed ==> JobSettled(world, Log(old(world), p)[pos])
      ensures old(Alone()) && tries > 0 && NoLease(old(world), Log(old(world), p)[pos]) ==>
                committed && Committed(world, p) == pos + 1 && AllTracked(world, Log(old(world), p)[pos])
    {
      hide Inv, Run, JobSettled, Remembers, Apply, Alone, NoLease, AllTracked, Valid;
      FetchStarts(p, pos);
      Perform(Fetch(id));
      RecordKept(old(world), world, p, pos);
      label fetched:
      var ok := ProcessUntilHandled(p, pos, Log(world, p)[pos], tries, owners, retryPartition);
      ExtendTrans(old(world), old@fetched(world), world);
      if !ok {
        return false;
      }
      label finishing:
      committed := CommitFetchedMessage(p, pos, tries);
      ExtendTrans(old(world), old@finishing(world), world);
      StillTracked(old@finishing(world), world, Log(old(world), p)[pos]);
      if committed {
        RecordKept(old(world), world, p, pos);
        Settles(p, pos);
      }
    }

    method ProcessUntilHandled(p: Partition, pos: nat, job: Job, tries: nat, owners: nat -> nat, retryPartition: nat)
      returns (ok: bool)
      requires Valid() && Holding(p, pos, job)
      requires Me() == Working(p, pos, 0, Unclaimed)
      modifies this`world, this`tick, this`trace
      ensures Valid() && Remembers(old(world), world)
      ensures Me() == if ok then Processed(p, pos) else Working(p, pos, 0, Unclaimed)
      ensures old(Alone()) && tries > 0 && NoLease(old(world), job) ==>
                ok && Alone() && SameRecords(old(world), world) && AllTracked(world, job)
    {
      hide Inv, Run, Alone, Apply, Remembers, AllDelivered, NoLease, AllTracked;
      ExtendsItself(world);
      ok := false;
      var left := tries;
      while left > 0 && !ok
        invariant Valid() && Remembers(old(world), world) && Holding(p, pos, job)
        invariant Me() == if ok then Processed(p, pos) else Working(p, pos, 0, Unclaimed)
        invariant left == tries ==> world == old(world) && tick == old(tick) && !ok
        invariant old(Alone()) && NoLease(old(world), job) ==>
                    Alone() && (left < tries ==> ok && SameRecords(old(world), world) && AllTracked(world, job))
      {
        label again:
        var r := ProcessFetchedMessage(p, pos, job, owners, retryPartition);
        ok := r == Handled;
        ExtendTrans(old(world), old@again(world), world);
        RecordKept(old(world), world, p, pos);
        left := left - 1;
      }
    }

    lemma FetchStarts(p: Partition, pos: nat)
      requires Me() == Ready(p, pos) && HasRecord(world, p, pos)
      ensures var t := Apply(world, maxAttempts, Fetch(id)); var job := Log(world, p)[pos];
              && ConsumerOf(t, id) == Working(p, pos, 0, Unclaimed) && t.logs == world.logs
              && (NoLease(world, job) ==> NoLease(t, job))
    {
      var t := Apply(world, maxAttempts, Fetch(id));
      var job := Log(world, p)[pos];
      if NoLease(world, job) {
        forall i | 0 <= i < |job.recipients| ensures !LeaseHeld(t, job, i) { assert !LeaseHeld(world, job, i); }
      }
    }

    lemma Settles(p: Partition, pos: nat)
      requires Valid() && Me() == Ready(p, pos + 1)
      ensures pos < |Log(world, p)| && JobSettled(world, Log(world, p)[pos])
    {
      RunKeeps(start, maxAttempts, trace);
      assert ConsumerOk(world, Me());
      RecordSettled(world, p, pos);
    }
  }

  lemma RecordSettled(s: State, p: Partition, pos: nat)
    requires SettledBefore(s, p, pos + 1)
    ensures pos < |Log(s, p)| && JobSettled(s, Log(s, p)[pos])
  {
  }

  function PairOf(job: Job, index: nat): Pair
    requires index < |job.recipients|
  {
    Pair(job.messageId, job.recipients[index])
  }

  predicate Leased(key: Option<RecipientLease.Key>)
  {
    key.Some? && key.value.Held?
  }

  predicate LeaseHeld(s: State, job: Job, index: nat)
    requires index < |job.recipients|
  {
    Leased(KeyOf(s, PairOf(job, index)))
  }

  predicate SameRecords(s: State, t: State)
  {
    t.logs == s.logs && t.deadLetters == s.deadLetters && t.committed == s.committed
  }

  ghost predicate SameKeys(s: State, t: State, pair: Pair)
  {
    forall other | other != pair :: KeyOf(t, other) == KeyOf(s, other)
  }

  ghost predicate GainedRetry(s: State, t: State, index: nat, job: Job)
  {
    exists o: nat :: |Log(s, Retry(index))| <= o < |Log(t, Retry(index))| && Log(t, Retry(index))[o] == job
  }

  ghost predicate GainedDeadLetter(s: State, t: State, job: Job)
  {
    exists i: nat :: |s.deadLetters| <= i < |t.deadLetters| && t.deadLetters[i] == job
  }

  lemma FailureWrites(s: State, maxAttempts: nat, c: nat, p: Partition, pos: nat, index: nat, written: bool, ok: bool)
    requires ConsumerOf(s, c) == Failed(p, pos) && pos < |Log(s, p)|
    ensures var t := Apply(s, maxAttempts, WriteFailure(c, index, written, ok));
            var again := Log(s, p)[pos].(attempt := Log(s, p)[pos].attempt + 1);
            && ConsumerOf(t, c) == (if ok then Processed(p, pos) else Working(p, pos, 0, Unclaimed))
            && (ok && again.attempt <= maxAttempts ==> Log(t, Retry(index)) == Log(s, Retry(index)) + [again])
            && (ok && again.attempt > maxAttempts ==> t.deadLetters == s.deadLetters + [again])
  {
  }

  lemma FinishedKeeps(s: State, maxAttempts: nat, c: nat, p: Partition, pos: nat)
    requires HasRecord(s, p, pos) && ConsumerOf(s, c) == Working(p, pos, |Log(s, p)[pos].recipients|, Unclaimed)
    ensures var t := Apply(s, maxAttempts, Finished(c));
            SameRecords(s, t) && t.leases == s.leases && ConsumerOf(t, c) == Processed(p, pos)
  {
  }

  /** No consumer holds the lease of one of the job's recipients. */
  predicate NoLease(s: State, job: Job)
  {
    forall i | 0 <= i < |job.recipients| :: !LeaseHeld(s, job, i)
  }

  lemma StillTracked(s: State, t: State, job: Job)
    requires Remembers(s, t)
    ensures AllTracked(s, job) ==> AllTracked(t, job)
  {
  }

  predicate AllTracked(s: State, job: Job)
  {
    forall i | 0 <= i < |job.recipients| :: PairOf(job, i) in s.tracked
  }

  /** The keys of the first `n` recipients say delivered. */
  ghost predicate AllDelivered(s: State, job: Job, n: nat)
  {
    n <= |job.recipients| && forall i | 0 <= i < n :: KeyOf(s, PairOf(job, i)) == Some(RecipientLease.Delivered)
  }

  lemma NoneDelivered(s: State, job: Job)
    ensures AllDelivered(s, job, 0) && NoNewLease(s, s)
  {
  }

  lemma SameDelivered(s: State, t: State, job: Job)
    requires AllDelivered(s, job, |job.recipients|) && t.leases == s.leases
    ensures AllDelivered(t, job, |job.recipients|)
  {
    assert forall pair :: KeyOf(t, pair) == KeyOf(s, pair);
  }

  /** Keys that are held were held before, and those that said delivered still do. */
  ghost predicate NoNewLease(s: State, t: State)
  {
    forall pair ::
      && (Leased(KeyOf(t, pair)) ==> Leased(KeyOf(s, pair)))
      && (KeyOf(s, pair) == Some(RecipientLease.Delivered) ==> KeyOf(t, pair) == Some(RecipientLease.Delivered))
  }

  /** One undisturbed recipient: busy because of a lease from before, or now delivered. */
  lemma KeysMove(s: State, t: State, u: State, job: Job, i: nat, owner: nat, r: Outcome)
    requires i < |job.recipients| && NoNewLease(s, t) && AllDelivered(t, job, i)
    requires Served(t, u, PairOf(job, i), owner, r)
    ensures r == Busy ==> LeaseHeld(s, job, i)
    ensures r == Handled ==> NoNewLease(s, u) && AllDelivered(u, job, i + 1)
  {
    hide KeyOf;
  }

  // ---------- one recipient when nobody interferes ----------

  /** A free key, or this token's own, is claimed; a delivered pair is passed; another token's lease is respected. */
  ghost predicate ClaimServed(s: State, t: State, pair: Pair, owner: nat, r: Outcome, held: bool)
  {
    && SameRecords(s, t) && SameKeys(s, t, pair)
    && KeyOf(t, pair) == (if held then Some(RecipientLease.Held(owner)) else KeyOf(s, pair))
    && match KeyOf(s, pair)
       case None => held
       case Some(Delivered) => !held && r == Handled
       case Some(Held(other)) => if other == owner then held else !held && r == Busy
  }

  /** The token's own lease becomes the mark of a delivery. */
  ghost predicate CompleteServed(s: State, t: State, pair: Pair, owner: nat, r: Outcome)
  {
    && SameRecords(s, t) && SameKeys(s, t, pair)
    && (KeyOf(s, pair) == Some(RecipientLease.Held(owner)) ==>
          r == Handled && KeyOf(t, pair) == Some(RecipientLease.Delivered))
  }

  ghost predicate Served(s: State, t: State, pair: Pair, owner: nat, r: Outcome)
  {
    && SameKeys(s, t, pair)
    && match KeyOf(s, pair)
       case Some(Held(other)) =>
         if other == owner then r == Handled && KeyOf(t, pair) == Some(RecipientLease.Delivered)
         else r == Busy && KeyOf(t, pair) == KeyOf(s, pair)
       case _ => r == Handled && KeyOf(t, pair) == Some(RecipientLease.Delivered)
  }

  lemma NotClaimed(s: State, t: State, pair: Pair, owner: nat, r: Outcome)
    requires ClaimServed(s, t, pair, owner, r, false)
    ensures Served(s, t, pair, owner, r) && SameRecords(s, t)
  {
  }

  lemma SentCompletes(s: State, b: State, t: State, pair: Pair, owner: nat, r: Outcome)
    requires SameRecords(s, b) && b.leases == s.leases && CompleteServed(b, t, pair, owner, r)
    ensures CompleteServed(s, t, pair, owner, r)
  {
    assert forall other :: KeyOf(b, other) == KeyOf(s, other);
  }

  lemma ClaimCompletes(s: State, a: State, t: State, pair: Pair, owner: nat, r: Outcome)
    requires exists before :: ClaimServed(s, a, pair, owner, before, true)
    requires CompleteServed(a, t, pair, owner, r)
    ensures Served(s, t, pair, owner, r) && SameRecords(s, t)
  {
  }

  /** What one step wrote is still there after whatever followed. */
  lemma Gained(s: State, after: State, t: State, index: nat, maxAttempts: nat, job: Job)
    requires Remembers(after, t)
    requires job.attempt <= maxAttempts ==> Log(after, Retry(index)) == Log(s, Retry(index)) + [job]
    requires job.attempt > maxAttempts ==> after.deadLetters == s.deadLetters + [job]
    ensures job.attempt <= maxAttempts ==> GainedRetry(s, t, index, job)
    ensures job.attempt > maxAttempts ==> GainedDeadLetter(s, t, job)
  {
    if job.attempt <= maxAttempts {
      var o := |Log(s, Retry(index))|;
      assert Log(after, Retry(index)) <= Log(t, Retry(index));
      assert o < |Log(t, Retry(index))| && Log(t, Retry(index))[o] == Log(after, Retry(index))[o];
    } else {
      assert t.deadLetters[|s.deadLetters|] == after.deadLetters[|s.deadLetters|];
    }
  }

  lemma GainedSince(s: State, before: State, t: State, index: nat, job: Job)
    requires Remembers(s, before)
    ensures GainedRetry(before, t, index, job) ==> GainedRetry(s, t, index, job)
    ensures GainedDeadLetter(before, t, job) ==> GainedDeadLetter(s, t, job)
  {
    assert Log(s, Retry(index)) <= Log(before, Retry(index));
  }

  // ---------- single commands ----------

  lemma ClaimMoves(s: State, maxAttempts: nat, c: nat, p: Partition, pos: nat, index: nat, owner: nat, written: bool,
      ok: bool)
    requires ConsumerOf(s, c) == Working(p, pos, index, Unclaimed)
    requires pos < |Log(s, p)| && index < |Log(s, p)[pos].recipients|
    ensures var t := Apply(s, maxAttempts, ClaimRecipient(c, owner, written, ok)); var me := ConsumerOf(t, c);
            if !ok then me == Failed(p, pos)
            else
              && (me == Working(p, pos, index, Owner(owner)) || me == Working(p, pos, index + 1, Unclaimed)
                  || me == Working(p, pos, 0, Unclaimed))
              && ClaimServed(s, t, PairOf(Log(s, p)[pos], index), owner,
                   if me == Working(p, pos, 0, Unclaimed) then Busy else Handled,
                   me == Working(p, pos, index, Owner(owner)))
  {
  }

  lemma CompleteMoves(s: State, maxAttempts: nat, c: nat, p: Partition, pos: nat, index: nat, owner: nat, written: bool,
      ok: bool)
    requires ConsumerOf(s, c) == Working(p, pos, index, Sent(owner))
    requires pos < |Log(s, p)| && index < |Log(s, p)[pos].recipients|
    ensures var t := Apply(s, maxAttempts, Complete(c, written, ok)); var me := ConsumerOf(t, c);
            if !ok then me == Failed(p, pos)
            else
              && (me == Working(p, pos, index + 1, Unclaimed) || me == Working(p, pos, 0, Unclaimed))
              && CompleteServed(s, t, PairOf(Log(s, p)[pos], index), owner,
                   if me == Working(p, pos, 0, Unclaimed) then Busy else Handled)
  {
  }

  lemma DeliverMoves(s: State, maxAttempts: nat, c: nat, p: Partition, pos: nat, index: nat, owner: nat, written: bool,
      ok: bool)
    requires ConsumerOf(s, c) == Working(p, pos, index, Owner(owner))
    requires pos < |Log(s, p)| && index < |Log(s, p)[pos].recipients|
    ensures var t := Apply(s, maxAttempts, Deliver(c, written, ok));
            && ConsumerOf(t, c) == Working(p, pos, index, if ok then Sent(owner) else Unsent(owner))
            && SameRecords(s, t) && t.leases == s.leases
            && (written || ok ==> PairOf(Log(s, p)[pos], index) in t.tracked)
  {
  }

  lemma ReleaseMoves(s: State, maxAttempts: nat, c: nat, p: Partition, pos: nat, index: nat, owner: nat, written: bool)
    requires ConsumerOf(s, c) == Working(p, pos, index, Unsent(owner))
    requires pos < |Log(s, p)| && index < |Log(s, p)[pos].recipients|
    ensures var t := Apply(s, maxAttempts, Release(c, written)); var pair := PairOf(Log(s, p)[pos], index);
            && ConsumerOf(t, c) == Failed(p, pos) && SameRecords(s, t)
            && (written ==> KeyOf(t, pair) != Some(RecipientLease.Held(owner)))
  {
  }

  lemma CommitMoves(s: State, maxAttempts: nat, c: nat, p: Partition, pos: nat, written: bool, ok: bool)
    requires ConsumerOf(s, c) == Processed(p, pos)
    ensures var t := Apply(s, maxAttempts, Commit(c, written, ok));
            && ConsumerOf(t, c) == (if ok then Ready(p, pos + 1) else Processed(p, pos))
            && (ok ==> Committed(t, p) == pos + 1) && t.logs == s.logs
  {
  }
}
