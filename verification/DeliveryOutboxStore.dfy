/** The outbox worker as the source writes it: claim, deliver, then a fenced update, with other workers in between. */
module DeliveryOutboxStore {
  import opened Faults
  import opened Wrappers
  import opened DeliveryOutbox

  datatype Error = LeaseLost | Unavailable

  /** What the environment does while one event is processed. */
  datatype Schedule = Schedule(claimAt: int, claim: Fault, delivered: bool, others: seq<Step>, failedAt: int,
                               finish: Fault)

  function StepWorker(step: Step): int
  {
    match step
    case Enqueue(_, _, _, _, _) => -1
    case Load(w, _, _) => w
    case Claim(w, _) => w
    case Finish(w) => w
    case Reschedule(w, _) => w
    case Stop(w) => w
  }

  predicate OthersOnly(w: nat, steps: seq<Step>)
  {
    forall i | 0 <= i < |steps| :: StepWorker(steps[i]) != w
  }

  lemma {:induction false} OthersLeaveWorker(s: State, w: nat, steps: seq<Step>)
    requires OthersOnly(w, steps)
    ensures WorkerOf(Run(s, steps), w) == WorkerOf(s, w)
    decreases steps
  {
    if |steps| > 0 {
      OthersLeaveWorker(Apply(s, steps[0]), w, steps[1..]);
    }
  }

  class Outbox {
    var rows: map<nat, Row>
    var workers: map<nat, Worker>

    function Snapshot(): State
      reads this
    {
      State(rows, workers)
    }

    constructor ()
      ensures Snapshot() == Init
    {
      rows, workers := map[], map[];
    }

    method OtherWorkers(steps: seq<Step>)
      modifies this
      ensures Snapshot() == Run(old(Snapshot()), steps)
    {
      ghost var start := Snapshot();
      var i := 0;
      while i < |steps|
        invariant 0 <= i <= |steps|
        invariant Run(Snapshot(), steps[i..]) == Run(start, steps)
      {
        assert steps[i..][1..] == steps[i + 1..];
        var next := Apply(Snapshot(), steps[i]);
        rows, workers := next.rows, next.workers;
        i := i + 1;
      }
    }

    /** UPDATE ... SET status = 'processing', attempts = attempts + 1 WHERE the row is still due. */
    method ClaimUpdate(id: nat, now: int) returns (affected: nat)
      modifies this`rows
      ensures affected == (if id in old(rows) && Due(old(rows)[id], now) then 1 else 0)
      ensures rows == if affected == 1 then old(rows)[id := ClaimRow(old(rows)[id], now)] else old(rows)
    {
      if id in rows && (rows[id].status == Pending || rows[id].status == Processing) && rows[id].availableAt <= now {
        rows := rows[id := rows[id].(status := Processing, attempts := rows[id].attempts + 1,
                                     availableAt := now + LEASE)];
        return 1;
      }
      return 0;
    }

    /** UPDATE ... SET status, available_at WHERE status = 'processing' AND attempts = generation. */
    method FencedUpdate(id: nat, generation: nat, status: Status, availableAt: int) returns (affected: nat)
      modifies this`rows
      ensures affected == (if id in old(rows) && Holds(old(rows)[id], generation) then 1 else 0)
      ensures rows == if affected == 1
                then old(rows)[id := old(rows)[id].(status := status, availableAt := availableAt)] else old(rows)
    {
      if id in rows && rows[id].status == Processing && rows[id].attempts == generation {
        rows := rows[id := rows[id].(status := status, availableAt := availableAt)];
        return 1;
      }
      return 0;
    }

    /** A statement that was lost leaves the tables as they are, and the worker stops. */
    method ProcessEvent(w: nat, event: Event, env: Schedule) returns (r: Result<bool, Error>)
      requires WorkerOf(Snapshot(), w) == Loaded(event) && OthersOnly(w, env.others)
      modifies this
      ensures var claimed := Apply(old(Snapshot()), if env.claim == Lost then Stop(w) else Claim(w, env.claimAt));
              if env.claim != Fine then
                Snapshot() == Apply(claimed, Stop(w)) && r == Failure(Unavailable)
              else if WorkerOf(claimed, w).Claimed? then
                var raced := Run(claimed, env.others);
                var mine := event.id in raced.rows && Holds(raced.rows[event.id], Generation(event));
                && Snapshot() == Apply(raced, if env.finish == Lost then Stop(w)
                                              else if env.delivered then Finish(w) else Reschedule(w, env.failedAt))
                && r == if env.finish != Fine then Failure(Unavailable)
                        else if mine then Success(env.delivered) else Failure(LeaseLost)
              else
                Snapshot() == claimed && r == Success(false)
      ensures env.claim == Fine && env.finish == Fine && env.others == [] && event.id in old(rows)
              && event.attempts == old(rows)[event.id].attempts ==>
                var row := old(rows)[event.id];
                if row.status == Done || row.status == Dead || row.availableAt > env.claimAt then
                  r == Success(false) && rows == old(rows)
                else
                  && r == Success(env.delivered) && rows.Keys == old(rows).Keys
                  && (forall id | id in rows && id != event.id :: rows[id] == old(rows)[id])
                  && AttemptEnded(row, rows[event.id], env.claimAt, env.delivered, env.failedAt)
    {
      hide RetryDelay, AttemptEnded;
      if event.id in rows && event.attempts == rows[event.id].attempts {
        CurrentAttempt(Snapshot(), w, event, env.claimAt, env.delivered, env.failedAt);
      }
      var affected := 0;
      if env.claim != Lost {
        affected := ClaimUpdate(event.id, env.claimAt);
      }
      if env.claim != Fine {
        workers := workers[w := Idle];
        return Failure(Unavailable);
      }
      if affected == 0 {
        workers := workers[w := Idle];
        return Success(false);
      }
      workers := workers[w := Claimed(event, rows[event.id].attempts, env.claimAt)];
      OthersLeaveWorker(Snapshot(), w, env.others);
      OtherWorkers(env.others);
      affected := FinishEvent(event, env);
      workers := workers[w := Idle];
      if env.finish != Fine {
        return Failure(Unavailable);
      }
      if affected == 0 {
        return Failure(LeaseLost);
      }
      return Success(env.delivered);
    }

    /** The fenced update that ends an attempt, unless it is lost. */
    method FinishEvent(event: Event, env: Schedule) returns (affected: nat)
      modifies this`rows
      ensures affected == (if env.finish != Lost && event.id in old(rows)
                && Holds(old(rows)[event.id], Generation(event)) then 1 else 0)
      ensures rows == if affected == 0 then old(rows)
                else old(rows)[event.id := if env.delivered then FinishRow(old(rows)[event.id])
                                       else RescheduleRow(old(rows)[event.id], Generation(event), env.failedAt)]
    {
      var claimGeneration := event.attempts + 1;
      affected := 0;
      if env.finish == Lost || event.id !in rows {
        return;
      }
      if env.delivered {
        affected := FencedUpdate(event.id, claimGeneration, Done, rows[event.id].availableAt);
      } else {
        var status := Pending;
        var availableAt := env.failedAt + RetryDelay(claimGeneration);
        if claimGeneration >= MAX_ATTEMPTS {
          status := Dead;
          availableAt := env.failedAt;
        }
        affected := FencedUpdate(event.id, claimGeneration, status, availableAt);
      }
    }
  }
}
