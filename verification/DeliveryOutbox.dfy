/**
 The delivery outbox: rows, workers holding snapshots of them, and the conditional updates that claim, finish and
 reschedule a row. Each update is one atomic step; workers interleave freely, stop anywhere, and read their own clocks.
 */
module DeliveryOutbox {
  datatype Status = Pending | Processing | Done | Dead

  datatype Row = Row(messageId: string, recipients: seq<string>, group: bool,
                     status: Status, attempts: nat, availableAt: int)

  /** What a worker read of a row before claiming it. */
  datatype Event = Event(id: nat, attempts: nat, messageId: string, recipients: seq<string>, group: bool)

  /**
   `claim` and `claimedAt` record which claim of the row this was (the attempts it set) and when;
   the code does not keep them, it only has event.attempts + 1.
   */
  datatype Worker =
    | Idle
    | Loaded(event: Event)
    | Claimed(event: Event, claim: nat, claimedAt: int)

  datatype State = State(rows: map<nat, Row>, workers: map<nat, Worker>)

  const LEASE := 30_000
  const MAX_ATTEMPTS := 10

  predicate Due(row: Row, now: int)
  {
    (row.status == Pending || row.status == Processing) && row.availableAt <= now
  }

  function Generation(event: Event): nat
  {
    event.attempts + 1
  }

  function RetryDelay(attempt: int): int
  {
    var capped := if attempt < 1 then 1 else if attempt > 5 then 5 else attempt;
    [1_000, 2_000, 4_000, 8_000, 16_000][capped - 1]
  }

  function ClaimRow(row: Row, now: int): Row
  {
    row.(status := Processing, attempts := row.attempts + 1, availableAt := now + LEASE)
  }

  /** The WHERE clause of both finishing updates. */
  predicate Holds(row: Row, generation: nat)
  {
    row.status == Processing && row.attempts == generation
  }

  function FinishRow(row: Row): Row
  {
    row.(status := Done)
  }

  function RescheduleRow(row: Row, generation: nat, now: int): Row
  {
    if generation >= MAX_ATTEMPTS then row.(status := Dead, availableAt := now)
    else row.(status := Pending, availableAt := now + RetryDelay(generation))
  }

  function WorkerOf(s: State, w: nat): Worker
  {
    if w in s.workers then s.workers[w] else Idle
  }

  function EventOf(id: nat, row: Row): Event
  {
    Event(id, row.attempts, row.messageId, row.recipients, row.group)
  }

  datatype Step =
    | Enqueue(id: nat, messageId: string, recipients: seq<string>, group: bool, now: int)
    | Load(w: nat, id: nat, now: int)
    | Claim(w: nat, now: int)
    | Finish(w: nat)
    | Reschedule(w: nat, now: int)
    | Stop(w: nat)

  /** Enqueuing comes with the message's transaction; both ways of finding its recipients leave out empty names. */
  function Apply(s: State, step: Step): State
  {
    match step
    case Enqueue(id, messageId, recipients, group, now) =>
      if id in s.rows || "" in recipients then s
      else s.(rows := s.rows[id := Row(messageId, recipients, group, Pending, 0, now)])
    case Load(w, id, now) =>
      if id in s.rows && Due(s.rows[id], now) then s.(workers := s.workers[w := Loaded(EventOf(id, s.rows[id]))]) else s
    case Claim(w, now) =>
      (match WorkerOf(s, w)
       case Loaded(e) =>
         if e.id in s.rows && Due(s.rows[e.id], now) then
           var row := ClaimRow(s.rows[e.id], now);
           State(s.rows[e.id := row], s.workers[w := Claimed(e, row.attempts, now)])
         else s.(workers := s.workers[w := Idle])
       case _ => s)
    case Finish(w) =>
      (match WorkerOf(s, w)
       case Claimed(e, _, _) =>
         var left := s.(workers := s.workers[w := Idle]);
         if e.id in s.rows && Holds(s.rows[e.id], Generation(e))
         then left.(rows := s.rows[e.id := FinishRow(s.rows[e.id])]) else left
       case _ => s)
    case Reschedule(w, now) =>
      (match WorkerOf(s, w)
       case Claimed(e, _, _) =>
         var left := s.(workers := s.workers[w := Idle]);
         if e.id in s.rows && Holds(s.rows[e.id], Generation(e))
         then left.(rows := s.rows[e.id := RescheduleRow(s.rows[e.id], Generation(e), now)]) else left
       case _ => s)
    case Stop(w) => s.(workers := s.workers[w := Idle])
  }

  function Run(s: State, steps: seq<Step>): State
    decreases steps
  {
    if |steps| == 0 then s else Run(Apply(s, steps[0]), steps[1..])
  }

  const Init := State(map[], map[])

  // ---------- what every interleaving keeps ----------

  ghost predicate RowOk(row: Row)
  {
    (row.status == Pending ==> row.attempts < MAX_ATTEMPTS) && (row.status == Dead ==> row.attempts >= MAX_ATTEMPTS)
  }

  /** A snapshot is of a real row and not from its future. */
  ghost predicate EventOk(s: State, e: Event)
  {
    e.id in s.rows && e.attempts <= s.rows[e.id].attempts
    && e.messageId == s.rows[e.id].messageId && e.recipients == s.rows[e.id].recipients && e.group == s.rows[e.id].group
  }

  ghost predicate WorkerOk(s: State, w: Worker)
  {
    match w
    case Idle => true
    case Loaded(e) => EventOk(s, e)
    case Claimed(e, claim, at) =>
      && EventOk(s, e)
      && Generation(e) <= claim <= s.rows[e.id].attempts
      && (claim == s.rows[e.id].attempts && s.rows[e.id].status == Processing ==>
            s.rows[e.id].availableAt == at + LEASE)
  }

  /** No two workers hold the same claim of a row. */
  ghost predicate DistinctClaims(s: State)
  {
    forall v, w | v in s.workers && w in s.workers && v != w && s.workers[v].Claimed? && s.workers[w].Claimed?
                  && s.workers[v].event.id == s.workers[w].event.id :: s.workers[v].claim != s.workers[w].claim
  }

  ghost predicate Inv(s: State)
  {
    && (forall id | id in s.rows :: RowOk(s.rows[id]))
    && (forall w | w in s.workers :: WorkerOk(s, s.workers[w]))
    && DistinctClaims(s)
  }

  /** Replacing one row and one worker keeps the invariant when the row advances and the worker fits it. */
  lemma PutKeeps(s: State, id: nat, row: Row, w: nat, worker: Worker)
    requires Inv(s) && id in s.rows && RowOk(row)
    requires row.messageId == s.rows[id].messageId && row.recipients == s.rows[id].recipients
               && row.group == s.rows[id].group
    requires row.attempts > s.rows[id].attempts || (row.attempts == s.rows[id].attempts && row.status != Processing)
               || row == s.rows[id]
    requires WorkerOk(State(s.rows[id := row], s.workers), worker)
    requires worker.Claimed? ==> worker.event.id == id && worker.claim > s.rows[id].attempts
    ensures Inv(State(s.rows[id := row], s.workers[w := worker]))
  {
    var t := State(s.rows[id := row], s.workers[w := worker]);
    forall v | v in t.workers ensures WorkerOk(t, t.workers[v]) {
      if v != w { assert WorkerOk(s, s.workers[v]); }
    }
    assert forall v | v in s.workers && s.workers[v].Claimed? && s.workers[v].event.id == id ::
      s.workers[v].claim <= s.rows[id].attempts;
  }

  lemma ApplyKeeps(s: State, step: Step)
    requires Inv(s)
    ensures Inv(Apply(s, step))
  {
    hide DistinctClaims, RowOk, RetryDelay;
    match step
    case Enqueue(id, messageId, recipients, group, now) => EnqueueKeeps(s, step);
    case Load(w, id, now) =>
      if id in s.rows && Due(s.rows[id], now) {
        assert s.rows[id := s.rows[id]] == s.rows;
        PutKeeps(s, id, s.rows[id], w, Loaded(EventOf(id, s.rows[id])));
      }
    case Stop(w) => IdleKeeps(s, w);
    case Claim(w, now) => IdleKeeps(s, w); ClaimKeeps(s, w, now);
    case Finish(w) => IdleKeeps(s, w); FinishKeeps(s, w);
    case Reschedule(w, now) => IdleKeeps(s, w); RescheduleKeeps(s, w, now);
  }

  lemma IdleKeeps(s: State, w: nat)
    requires Inv(s)
    ensures Inv(s.(workers := s.workers[w := Idle]))
  {
    var t := s.(workers := s.workers[w := Idle]);
    forall v | v in t.workers ensures WorkerOk(t, t.workers[v]) {
      if v != w { assert WorkerOk(s, s.workers[v]); }
    }
  }

  lemma EnqueueKeeps(s: State, step: Step)
    requires Inv(s) && step.Enqueue?
    ensures Inv(Apply(s, step))
  {
    var t := Apply(s, step);
    forall v | v in t.workers ensures WorkerOk(t, t.workers[v]) {
      assert WorkerOk(s, s.workers[v]);
    }
  }

  lemma ClaimKeeps(s: State, w: nat, now: int)
    requires Inv(s) && Inv(s.(workers := s.workers[w := Idle]))
    ensures Inv(Apply(s, Claim(w, now)))
  {
    hide DistinctClaims;
    var me := WorkerOf(s, w);
    if me.Loaded? && me.event.id in s.rows && Due(s.rows[me.event.id], now) {
      assert WorkerOk(s, me);
      var row := ClaimRow(s.rows[me.event.id], now);
      PutKeeps(s, me.event.id, row, w, Claimed(me.event, row.attempts, now));
    }
  }

  lemma FinishKeeps(s: State, w: nat)
    requires Inv(s) && Inv(s.(workers := s.workers[w := Idle]))
    ensures Inv(Apply(s, Finish(w)))
  {
    hide DistinctClaims;
    var me := WorkerOf(s, w);
    if me.Claimed? && me.event.id in s.rows && Holds(s.rows[me.event.id], Generation(me.event)) {
      PutKeeps(s, me.event.id, FinishRow(s.rows[me.event.id]), w, Idle);
    }
  }

  lemma RescheduleKeeps(s: State, w: nat, now: int)
    requires Inv(s) && Inv(s.(workers := s.workers[w := Idle]))
    ensures Inv(Apply(s, Reschedule(w, now)))
  {
    hide DistinctClaims, RetryDelay;
    var me := WorkerOf(s, w);
    if me.Claimed? && me.event.id in s.rows && Holds(s.rows[me.event.id], Generation(me.event)) {
      PutKeeps(s, me.event.id, RescheduleRow(s.rows[me.event.id], Generation(me.event), now), w, Idle);
    }
  }

  lemma {:induction false} RunKeeps(s: State, steps: seq<Step>)
    requires Inv(s)
    ensures Inv(Run(s, steps))
    decreases steps
  {
    hide Inv, Apply;
    if |steps| > 0 {
      ApplyKeeps(s, steps[0]);
      RunKeeps(Apply(s, steps[0]), steps[1..]);
    }
  }

  /**
   A finishing or rescheduling update can succeed only for the worker whose claim is the row's most recent one,
   and only if its snapshot was current when it claimed; no other worker could finish the same row then.
   */
  lemma GenerationFencing(steps: seq<Step>, w: nat)
    ensures var s := Run(Init, steps);
            var me := WorkerOf(s, w);
            me.Claimed? ==>
              && me.event.id in s.rows
              && (Holds(s.rows[me.event.id], Generation(me.event)) ==>
                    && me.claim == s.rows[me.event.id].attempts && me.event.attempts == s.rows[me.event.id].attempts - 1
                    && forall v | v in s.workers && v != w && s.workers[v].Claimed?
                           && s.workers[v].event.id == me.event.id ::
                         !Holds(s.rows[me.event.id], Generation(s.workers[v].event)))
  {
    RunKeeps(Init, steps);
  }

  /** A worker whose snapshot was stale when it claimed never finishes or reschedules, however the run goes on. */
  lemma StaleClaimNeverFinishes(steps: seq<Step>, w: nat)
    ensures var s := Run(Init, steps); var me := WorkerOf(s, w);
            me.Claimed? && me.event.attempts + 1 < me.claim ==>
              && Apply(s, Finish(w)).rows == s.rows
              && forall now :: Apply(s, Reschedule(w, now)).rows == s.rows
  {
    RunKeeps(Init, steps);
  }

  /** While the latest claim's lease runs, nobody else can claim the row. */
  lemma LeaseExcludes(steps: seq<Step>, w: nat, now: int)
    ensures var s := Run(Init, steps); var me := WorkerOf(s, w);
            me.Claimed? && me.event.id in s.rows && s.rows[me.event.id].status == Processing
            && me.claim == s.rows[me.event.id].attempts && now < me.claimedAt + LEASE ==>
              !Due(s.rows[me.event.id], now)
  {
    RunKeeps(Init, steps);
  }

  /** Pending rows have attempts to spare, dead ones have used them up. */
  lemma AttemptLimits(steps: seq<Step>, id: nat)
    ensures var s := Run(Init, steps);
            id in s.rows ==> RowOk(s.rows[id])
  {
    RunKeeps(Init, steps);
  }

  /** Rows are never deleted, keep their message and recipients, only count up, and stay done or dead for good. */
  ghost predicate RowAdvances(before: Row, after: Row)
  {
    && after.messageId == before.messageId && after.recipients == before.recipients && after.group == before.group
    && before.attempts <= after.attempts
    && (before.status == Done || before.status == Dead ==> after == before)
  }

  lemma {:induction false} RowsAdvance(s: State, steps: seq<Step>, id: nat)
    requires id in s.rows
    ensures id in Run(s, steps).rows && RowAdvances(s.rows[id], Run(s, steps).rows[id])
    decreases steps
  {
    if |steps| > 0 {
      RowsAdvance(Apply(s, steps[0]), steps[1..], id);
    }
  }

  // ---------- and every row is worked on ----------

  /** Delays double from one second to sixteen. */
  lemma RetriesBackOff(k: nat)
    requires k >= 1
    ensures RetryDelay(1) == 1_000 && (k >= 5 ==> RetryDelay(k) == 16_000)
    ensures k < 5 ==> RetryDelay(k + 1) == 2 * RetryDelay(k)
  {
  }

  /** What is left of a row after one more attempt. */
  predicate Attempted(before: Row, after: Row, status: Status, availableAt: int)
  {
    after == before.(attempts := before.attempts + 1, status := status, availableAt := availableAt)
  }

  /**
   No unfinished row is stuck: in every reachable state, whoever was working on it and wherever that worker stopped, any
   worker that looks from `availableAt` on can claim the row for thirty seconds, and then finish it or, after a failure,
   give it back for later; the tenth failure is the last.
   */
  lemma UnfinishedIsWorkedOn(steps: seq<Step>, id: nat, w: nat, now: int, later: int)
    requires var s := Run(Init, steps);
             id in s.rows && s.rows[id].status != Done && s.rows[id].status != Dead && s.rows[id].availableAt <= now
    ensures var s := Run(Init, steps); var row := s.rows[id]; var k := row.attempts + 1;
            var claimed := Apply(Apply(s, Load(w, id, now)), Claim(w, now));
            && WorkerOf(claimed, w) == Claimed(EventOf(id, row), k, now)
            && Attempted(row, claimed.rows[id], Processing, now + 30_000)
            && Attempted(row, Apply(claimed, Finish(w)).rows[id], Done, now + 30_000)
            && var failed := Apply(claimed, Reschedule(w, later)).rows[id];
               if k >= 10 then Attempted(row, failed, Dead, later)
               else Attempted(row, failed, Pending, later + RetryDelay(k))
  {
    var s := Run(Init, steps);
    var loaded := Apply(s, Load(w, id, now));
    assert WorkerOf(loaded, w) == Loaded(EventOf(id, s.rows[id]));
    hide RetryDelay;
  }

  /** An undisturbed attempt by a worker whose snapshot is current: claim, then finish or give back. */
  lemma CurrentAttempt(s: State, w: nat, event: Event, claimAt: int, delivered: bool, failedAt: int)
    requires WorkerOf(s, w) == Loaded(event) && event.id in s.rows && s.rows[event.id].attempts == event.attempts
    ensures var row := s.rows[event.id]; var k := row.attempts + 1;
            var claimed := Apply(s, Claim(w, claimAt));
            var t := Apply(claimed, if delivered then Finish(w) else Reschedule(w, failedAt));
            if row.status == Done || row.status == Dead || row.availableAt > claimAt then
              WorkerOf(claimed, w) == Idle && claimed.rows == s.rows
            else
              && WorkerOf(claimed, w) == Claimed(event, k, claimAt)
              && event.id in claimed.rows && Holds(claimed.rows[event.id], Generation(event))
              && t.rows.Keys == s.rows.Keys && (forall id | id in s.rows && id != event.id :: t.rows[id] == s.rows[id])
              && AttemptEnded(row, t.rows[event.id], claimAt, delivered, failedAt)
  {
    hide RetryDelay;
  }

  /** Done under the claim's lease, or given back for later, or dead after the tenth failure. */
  predicate AttemptEnded(before: Row, after: Row, claimAt: int, delivered: bool, failedAt: int)
  {
    var k := before.attempts + 1;
    if delivered then Attempted(before, after, Done, claimAt + 30_000)
    else if k >= 10 then Attempted(before, after, Dead, failedAt)
    else Attempted(before, after, Pending, failedAt + RetryDelay(k))
  }

  /** And no other row is: a finished row, or one that is not available yet, is neither loaded nor claimed. */
  lemma OthersAreLeftAlone(s: State, id: nat, w: nat, now: int)
    requires id in s.rows ==> s.rows[id].status == Done || s.rows[id].status == Dead || s.rows[id].availableAt > now
    ensures Apply(s, Load(w, id, now)) == s
    ensures WorkerOf(s, w).Loaded? && WorkerOf(s, w).event.id == id ==>
              Apply(s, Claim(w, now)) == s.(workers := s.workers[w := Idle])
  {
  }
}
