/**
 The retry of one message and the handling of one ACK, command by command: a command may be lost, its answer may be
 lost, and other processes may run any steps of their own after each one.
 */
module PendingAckStore {
  import opened Faults
  import opened Wrappers
  import opened PendingAck
  import Replay

  datatype Outcome = Unanswered | RetryExhausted | NoPayload | WriteError | RetrySuccess

  /** Steps of other retry loops and ACK handlers. */
  predicate Foreign(r: nat, a: nat, step: Step)
  {
    match step
    case Track(_, _, _) => true
    case SaveOffline(_, _) => true
    case AskAck(b, _) => b != a
    case LookUp(b, _) => b != a
    case RaiseCursor(b, _) => b != a
    case RunAck(b, _, _) => b != a
    case RaiseStored(b, _) => b != a
    case _ => step.r != r
  }

  ghost predicate AllForeign(r: nat, a: nat, steps: seq<Step>)
  {
    forall i | 0 <= i < |steps| :: Foreign(r, a, steps[i])
  }

  lemma ForeignLeaves(s: State, maxRetries: nat, r: nat, a: nat, step: Step)
    requires Foreign(r, a, step)
    ensures RetrierOf(Apply(s, maxRetries, step), r) == RetrierOf(s, r)
    ensures AckerOf(Apply(s, maxRetries, step), a) == AckerOf(s, a)
  {
    hide RaiseTo, TrackScript, AckScript, FrameFrom;
    if step.Track? || step.SaveOffline? {
    } else if step.AskAck? || step.LookUp? || step.RaiseCursor? || step.RunAck? || step.RaiseStored? {
      AckLeaves(s, a, step);
    } else {
      RetryLeaves(s, maxRetries, r, step);
    }
  }

  lemma AckLeaves(s: State, a: nat, step: Step)
    requires step.AskAck? || step.LookUp? || step.RaiseCursor? || step.RunAck? || step.RaiseStored?
    requires step.a != a
    ensures AckStep(s, step).retriers == s.retriers && AckerOf(AckStep(s, step), a) == AckerOf(s, a)
  {
    hide RaiseTo, AckScript, FrameFrom;
  }

  lemma RetryLeaves(s: State, maxRetries: nat, r: nat, step: Step)
    requires step.Choose? || step.Increment? || step.MarkOffline? || step.ReadPayload? || step.WriteFrame?
               || step.Rescore? || step.Stop?
    requires step.r != r
    ensures OnlyTouches(s, RetryStep(s, maxRetries, step), step.r)
    ensures RetrierOf(RetryStep(s, maxRetries, step), r) == RetrierOf(s, r)
  {
    var k := step.r;
    hide IncrementStep, ReadStep, WriteStep, RescoreStep, OfflineStep, SetRetrier, OnlyTouches;
    Untouched(s, k);
    var at := RetrierOf(s, k);
    SubstepsTouch(s, maxRetries, step, k, at);
    OthersSame(s, RetryStep(s, maxRetries, step), k, r);
  }

  ghost predicate OnlyTouches(s: State, t: State, k: nat)
  {
    t.ackers == s.ackers && forall r: nat | r != k :: RetrierOf(t, r) == RetrierOf(s, r)
  }

  lemma Untouched(s: State, k: nat)
    ensures OnlyTouches(s, s, k)
  {
  }

  lemma OthersSame(s: State, t: State, k: nat, r: nat)
    requires OnlyTouches(s, t, k) && r != k
    ensures RetrierOf(t, r) == RetrierOf(s, r)
  {
  }

  lemma SubstepsTouch(s: State, maxRetries: nat, step: Step, k: nat, at: Retrier)
    ensures step.Choose? ==> OnlyTouches(s, SetRetrier(s, k, Chosen(step.id)), k)
    ensures OnlyTouches(s, SetRetrier(s, k, Idle), k)
    ensures step.Increment? && at.Chosen? ==>
              OnlyTouches(s, IncrementStep(s, maxRetries, k, at.id, step.applied, step.ok), k)
    ensures step.ReadPayload? && at.Counted? ==> OnlyTouches(s, ReadStep(s, k, at.id, step.ok), k)
    ensures step.WriteFrame? && at.Holding? ==> OnlyTouches(s, WriteStep(s, k, at.id, at.payload, step.ok), k)
    ensures step.Rescore? && at.Due? ==> OnlyTouches(s, RescoreStep(s, k, at.id, step.now + at.delay, step.applied), k)
    ensures step.MarkOffline? && at.Exhausted? ==>
              OnlyTouches(s, SetRetrier(OfflineStep(s, at.id, step.now, step.applied), k,
                Due(at.id, EXHAUSTED_DELAY)), k)
    ensures step.MarkOffline? && at.WriteFailed? ==>
              OnlyTouches(s, SetRetrier(OfflineStep(s, at.id, step.now, step.applied), k, Idle), k)
  {
  }

  lemma {:induction false} OthersLeave(s: State, maxRetries: nat, r: nat, a: nat, steps: seq<Step>)
    requires AllForeign(r, a, steps)
    ensures RetrierOf(Run(s, maxRetries, steps), r) == RetrierOf(s, r)
    ensures AckerOf(Run(s, maxRetries, steps), a) == AckerOf(s, a)
    decreases steps
  {
    hide Apply, Foreign, RetrierOf, AckerOf;
    if |steps| > 0 {
      ForeignLeaves(s, maxRetries, r, a, steps[0]);
      OthersLeave(Apply(s, maxRetries, steps[0]), maxRetries, r, a, steps[1..]);
    }
  }

  // ---------- the keys when nobody interferes ----------

  function RetryAlone(k: Keys, maxRetries: nat, id: string, now: int, writes: bool): Keys
  {
    var attempts := Count(k.retries, id) + 1;
    var counted := k.(retries := k.retries[id := attempts]);
    if attempts > maxRetries then
      counted.(offline := k.offline[id := now], pending := k.pending[id := now + EXHAUSTED_DELAY])
    else if id !in k.index then counted
    else if writes then counted.(pending := k.pending[id := now])
    else counted.(offline := k.offline[id := now])
  }

  function AckAlone(k: Keys, id: string): Keys
  {
    var frame := FrameFrom(k, id);
    AckScript(if frame.Some? then k.(acked := RaiseTo(k.acked, frame.value.session, frame.value.seqNo)) else k, id)
  }

  /** The conversation's cursor stands at `seqNo` or wherever further it stood before; no other cursor moves. */
  predicate RaisedTo(before: map<string, int>, after: map<string, int>, conversation: string, seqNo: int)
  {
    && conversation in after
    && after[conversation] == (if conversation in before && before[conversation] > seqNo then before[conversation]
                               else seqNo)
    && after - {conversation} == before - {conversation}
  }

  lemma RaiseToRaises(before: map<string, int>, conversation: string, seqNo: int)
    requires conversation != "" && seqNo > 0
    ensures RaisedTo(before, RaiseTo(before, conversation, seqNo), conversation, seqNo)
  {
  }

  /** An undisturbed ACK: an unknown id changes nothing; a known one is gone, and its number is acknowledged. */
  lemma AckOutcome(k: Keys, id: string, stored: map<string, int>)
    ensures var t := AckAlone(k, id);
            if id !in k.index then t == k && Raise(stored, FrameFrom(k, id)) == stored
            else
              var p := k.index[id];
              && t.pending == k.pending - {id} && t.offline == k.offline - {id} && t.index == k.index - {id}
              && t.retries == k.retries - {id}
              && (if p.session != "" && p.seqNo > 0 then
                    && RaisedTo(k.acked, t.acked, p.session, p.seqNo)
                    && RaisedTo(stored, Raise(stored, FrameFrom(k, id)), p.session, p.seqNo)
                  else t.acked == k.acked && Raise(stored, FrameFrom(k, id)) == stored)
  {
    if id in k.index && k.index[id].session != "" && k.index[id].seqNo > 0 {
      RaiseToRaises(k.acked, k.index[id].session, k.index[id].seqNo);
      RaiseToRaises(stored, k.index[id].session, k.index[id].seqNo);
    }
  }

  /** An undisturbed tracking script: what is new is pending now, under its payload, with no retry; the rest stays. */
  lemma TrackOutcome(k: Keys, id: string, payload: Payload, now: int)
    ensures var t := TrackScript(k, id, payload, now);
            && id in t.pending && t.pending[id] == (if id in k.pending then k.pending[id] else now)
            && id in t.index && t.index[id] == (if id in k.index then k.index[id] else payload)
            && id in t.retries && t.retries[id] == (if id in k.retries then k.retries[id] else 0)
            && t.pending - {id} == k.pending - {id} && t.index - {id} == k.index - {id}
            && t.retries - {id} == k.retries - {id} && t.offline == k.offline && t.acked == k.acked
  {
  }

  /**
   An undisturbed retry counts one attempt. Up to `maxRetries` it pushes an indexed message and scores it for now, or
   marks it offline if the write fails; beyond that it marks it offline and scores it a minute later.
   */
  lemma RetryOutcome(k: Keys, maxRetries: nat, id: string, now: int, writes: bool)
    ensures var t := RetryAlone(k, maxRetries, id, now, writes);
            var tried := if id in k.retries then k.retries[id] else 0;
            && t.index == k.index && t.acked == k.acked && t.retries == k.retries[id := tried + 1]
            && t.pending == (if tried >= maxRetries then k.pending[id := now + 60_000]
                             else if id in k.index && writes then k.pending[id := now] else k.pending)
            && t.offline == (if tried >= maxRetries || (id in k.index && !writes) then k.offline[id := now]
                             else k.offline)
  {
  }

  // ---------- replay while other commands run ----------

  /** All that runs before the payload of id number `n` is read. */
  function StepsBefore(during: nat -> seq<Step>, n: nat): seq<Step>
  {
    if n == 0 then during(0) else StepsBefore(during, n - 1) + during(n)
  }

  function Position(ids: seq<string>, id: string): (n: nat)
    ensures n <= |ids| && (n < |ids| ==> ids[n] == id)
    ensures id in ids ==> n < |ids|
  {
    if |ids| == 0 || ids[0] == id then 0 else Position(ids[1..], id) + 1
  }

  /** What the HGET of an id answers when its turn comes. */
  function AnswerTo(s: State, maxRetries: nat, ids: seq<string>, during: nat -> seq<Step>, id: string): Option<string>
  {
    ReadIndex(Run(s, maxRetries, StepsBefore(during, Position(ids, id))).keys, id)
  }

  class Gateway {
    const r: nat
    const a: nat
    const maxRetries: nat
    /** How the k-th command turns out, and what runs elsewhere right after it. */
    const faults: nat -> Fault
    const others: nat -> seq<Step>
    var s: State
    var tick: nat
    ghost var trace: seq<Step>

    ghost predicate Valid()
      reads this
    {
      (forall k :: AllForeign(r, a, others(k))) && s == Run(START, maxRetries, trace)
    }

    /** No other process runs and every command from here on is answered. */
    ghost predicate Alone()
      reads this
    {
      forall k | k >= tick :: others(k) == [] && faults(k) == Fine
    }

    constructor (r: nat, a: nat, maxRetries: nat, faults: nat -> Fault, others: nat -> seq<Step>)
      requires forall k :: AllForeign(r, a, others(k))
      ensures Valid() && s == START && this.r == r && this.a == a && this.maxRetries == maxRetries
    {
      this.r, this.a, this.maxRetries, this.faults, this.others := r, a, maxRetries, faults, others;
      s, tick, trace := START, 0, [];
    }

    method Perform(step: Step)
      requires Valid()
      modifies this
      ensures Valid() && tick == old(tick) + 1
      ensures RetrierOf(s, r) == RetrierOf(Apply(old(s), maxRetries, step), r)
      ensures AckerOf(s, a) == AckerOf(Apply(old(s), maxRetries, step), a)
      ensures old(Alone()) ==> Alone() && s == Apply(old(s), maxRetries, step)
    {
      hide Apply;
      var next := Apply(s, maxRetries, step);
      OthersLeave(next, maxRetries, r, a, others(tick));
      RunConcat(START, maxRetries, trace, [step] + others(tick));
      assert ([step] + others(tick))[1..] == others(tick);
      trace := trace + ([step] + others(tick));
      s := Run(next, maxRetries, others(tick));
      tick := tick + 1;
    }

    predicate Applied()
      reads this
    {
      faults(tick) != Lost
    }

    predicate Answered()
      reads this
    {
      faults(tick) == Fine
    }

    // ---------- the commands of a retry ----------

    /** HINCRBY; the answer says whether the attempts are used up. */
    method IncrementRetries(id: string) returns (answered: bool, exhausted: bool)
      requires Valid() && RetrierOf(s, r) == Chosen(id)
      modifies this
      ensures Valid() && tick == old(tick) + 1 && (answered <==> faults(old(tick)) == Fine)
      ensures RetrierOf(s, r) == if !answered then Idle else if exhausted then Exhausted(id) else Counted(id)
      ensures old(Alone()) ==>
                && Alone() && answered && exhausted == (Count(old(s.keys.retries), id) >= maxRetries)
                && s.keys == old(s.keys).(retries := old(s.keys.retries)[id := Count(old(s.keys.retries), id) + 1])
    {
      hide Run, AckStep;
      answered := Answered();
      Perform(Increment(r, Applied(), answered));
      exhausted := RetrierOf(s, r).Exhausted?;
    }

    /** MarkOffline */
    method SaveOffline(id: string, now: int)
      requires Valid() && (RetrierOf(s, r) == Exhausted(id) || RetrierOf(s, r) == WriteFailed(id))
      modifies this
      ensures Valid()
      ensures RetrierOf(s, r) == if old(RetrierOf(s, r)) == Exhausted(id) then Due(id, EXHAUSTED_DELAY) else Idle
      ensures old(Alone()) ==> Alone() && s.keys == old(s.keys).(offline := old(s.keys.offline)[id := now])
    {
      hide Run, AckStep, IncrementStep, ReadStep, WriteStep, RescoreStep;
      Perform(MarkOffline(r, now, Applied()));
    }

    /** HGET on the index */
    method GetPayload(id: string) returns (found: bool)
      requires Valid() && RetrierOf(s, r) == Counted(id)
      modifies this
      ensures Valid()
      ensures if found then RetrierOf(s, r).Holding? && RetrierOf(s, r).id == id else RetrierOf(s, r) == Idle
      ensures old(Alone()) ==> Alone() && s.keys == old(s.keys) && (found <==> id in s.keys.index)
    {
      hide Run, AckStep, IncrementStep, OfflineStep, WriteStep, RescoreStep;
      Perform(ReadPayload(r, Answered()));
      found := RetrierOf(s, r).Holding?;
    }

    method Push(id: string, accepted: bool)
      requires Valid() && RetrierOf(s, r).Holding? && RetrierOf(s, r).id == id
      modifies this
      ensures Valid() && RetrierOf(s, r) == if accepted then Due(id, 0) else WriteFailed(id)
      ensures old(Alone()) ==> Alone() && s.keys == old(s.keys)
    {
      hide Run, AckStep, IncrementStep, OfflineStep, ReadStep, RescoreStep;
      Perform(WriteFrame(r, accepted));
    }

    /** ZADD on the pending set */
    method ScoreAgain(id: string, delay: int, now: int)
      requires Valid() && RetrierOf(s, r) == Due(id, delay)
      modifies this
      ensures Valid() && RetrierOf(s, r) == Idle
      ensures old(Alone()) ==> Alone() && s.keys == old(s.keys).(pending := old(s.keys.pending)[id := now + delay])
    {
      hide Run, AckStep, IncrementStep, OfflineStep, ReadStep, WriteStep;
      Perform(Rescore(r, now, Applied()));
    }

    /** retryOnePending */
    method RetryOnePending(id: string, now: int, writes: bool) returns (outcome: Outcome)
      requires Valid() && RetrierOf(s, r) == Chosen(id)
      modifies this
      ensures Valid() && RetrierOf(s, r) == Idle
      ensures outcome == Unanswered <==> faults(old(tick)) != Fine
      ensures outcome == WriteError ==> !writes
      ensures outcome == RetrySuccess ==> writes
      ensures old(Alone()) ==> s.keys == RetryAlone(old(s.keys), maxRetries, id, now, writes)
      ensures old(Alone()) ==>
                outcome == if Count(old(s.keys.retries), id) >= maxRetries then RetryExhausted
                           else if id !in old(s.keys.index) then NoPayload
                           else if writes then RetrySuccess else WriteError
    {
      hide Run, RetrierOf, Valid, Alone;
      var answered, exhausted := IncrementRetries(id);
      if !answered {
        return Unanswered;
      }
      if exhausted {
        SaveOffline(id, now);
        ScoreAgain(id, EXHAUSTED_DELAY, now);
        return RetryExhausted;
      }
      var found := GetPayload(id);
      if !found {
        return NoPayload;
      }
      Push(id, writes);
      if !writes {
        SaveOffline(id, now);
        return WriteError;
      }
      ScoreAgain(id, 0, now);
      return RetrySuccess;
    }

    // ---------- the commands of an ACK ----------

    method LookUpFrame(id: string) returns (frame: Option<Payload>)
      requires Valid() && AckerOf(s, a) == Resting && id != ""
      modifies this
      ensures Valid() && AckerOf(s, a) == Looked(id, frame)
      ensures old(Alone()) ==>
                && Alone() && s.keys == old(s.keys) && s.stored == old(s.stored)
                && frame == FrameFrom(s.keys, id)
    {
      hide Run, RetryStep, RaiseTo, FrameFrom, AckScript;
      Perform(AskAck(a, id));
      Perform(LookUp(a, Answered()));
      frame := AckerOf(s, a).frame;
    }

    /** MarkConversationAcked */
    method MarkConversationAcked(id: string, frame: Option<Payload>)
      requires Valid() && AckerOf(s, a) == Looked(id, frame)
      modifies this
      ensures Valid() && AckerOf(s, a) == Raised(id, frame)
      ensures old(Alone()) ==>
                Alone() && s.keys == old(s.keys).(acked := Raise(old(s.keys.acked), frame)) && s.stored == old(s.stored)
    {
      hide Run, RetryStep, RaiseTo, FrameFrom, AckScript;
      Perform(RaiseCursor(a, Applied()));
    }

    method RunAckScript(id: string, frame: Option<Payload>) returns (removed: bool)
      requires Valid() && AckerOf(s, a) == Raised(id, frame)
      modifies this
      ensures Valid() && AckerOf(s, a) == if removed then Removed(frame) else Resting
      ensures old(Alone()) ==>
                && Alone() && s.keys == AckScript(old(s.keys), id) && s.stored == old(s.stored)
                && (removed <==> id in old(s.keys.index))
    {
      hide Run, RetryStep, RaiseTo, FrameFrom, AckScript;
      Perform(RunAck(a, Applied(), Answered()));
      removed := AckerOf(s, a).Removed?;
    }

    method PersistCursor(frame: Option<Payload>, hasDatabase: bool)
      requires Valid() && AckerOf(s, a) == Removed(frame)
      modifies this
      ensures Valid() && AckerOf(s, a) == Resting
      ensures old(Alone()) ==>
                s.keys == old(s.keys) && s.stored == if hasDatabase then Raise(old(s.stored), frame) else old(s.stored)
    {
      hide Run, RetryStep, RaiseTo, FrameFrom, AckScript;
      Perform(RaiseStored(a, hasDatabase && Applied()));
    }

    /** AckMessageWithDB */
    method AckMessage(id: string, hasDatabase: bool)
      requires Valid() && AckerOf(s, a) == Resting
      modifies this
      ensures Valid() && AckerOf(s, a) == Resting
      ensures id == "" ==> s == old(s)
      ensures old(Alone()) && id != "" ==> s.keys == AckAlone(old(s.keys), id)
      ensures old(Alone()) && id != "" ==>
                s.stored == if hasDatabase then Raise(old(s.stored), FrameFrom(old(s.keys), id)) else old(s.stored)
    {
      hide Run, RaiseTo, AckScript, AckerOf, Valid, Alone;
      if id == "" {
        return;
      }
      var frame := LookUpFrame(id);
      MarkConversationAcked(id, frame);
      var removed := RunAckScript(id, frame);
      if !removed {
        return;
      }
      PersistCursor(frame, hasDatabase);
    }

    /**
     A reconnecting client reads the pending list once and then every payload by a command of its own, while other
     processes go on. Each message indexed at the start whose own ACK has not run by then is written with its payload.
     */
    method ReplayPending(ids: seq<string>, during: nat -> seq<Step>, conn: Replay.Connection) returns (ok: bool)
      requires Valid() && Replay.Unique(ids) && forall id :: id in ids <==> id in s.keys.pending
      modifies this, conn
      ensures Valid() && s == Run(old(s), maxRetries, StepsBefore(during, |ids|))
      ensures forall id | id in old(s).keys.index :: id in ids
      ensures ok ==>
                forall id | id in old(s).keys.index
                  && NeverAcknowledged(old(s), maxRetries, StepsBefore(during, Position(ids, id)), id) ::
                  Replay.Frame(id, old(s).keys.index[id].body) in conn.sent
    {
      hide Run, NeverAcknowledged, StepsBefore, PendingAck.Inv;
      var start := s;
      Reachable(maxRetries, trace);
      IndexHolds(s, maxRetries);
      var answers := id => AnswerTo(start, maxRetries, ids, during, id);
      var written;
      ghost var frames;
      ok, written, frames := Replay.SyncPendingMessages(Some(ids), answers, conn);
      if ok {
        forall id | id in start.keys.index
          && NeverAcknowledged(start, maxRetries, StepsBefore(during, Position(ids, id)), id)
          ensures Replay.Frame(id, start.keys.index[id].body) in conn.sent
        {
          StillReadable(start, maxRetries, StepsBefore(during, Position(ids, id)), id);
          assert id in ids && answers(id) == Some(start.keys.index[id].body);
        }
      }
      RunConcat(START, maxRetries, trace, StepsBefore(during, |ids|));
      trace := trace + StepsBefore(during, |ids|);
      s := Run(s, maxRetries, StepsBefore(during, |ids|));
    }
  }
}
