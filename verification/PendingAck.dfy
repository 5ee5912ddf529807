/**
 One user's unacknowledged messages in Redis: the tracking and ACK scripts are atomic, everything the retry loops and
 the ACK handler do besides is a series of single commands that interleave with them, may be lost, and may stop
 halfway.
 */
module PendingAck {
  import opened Wrappers

  datatype Payload = Payload(session: string, seqNo: int, body: string)

  /** The user's Redis keys. */
  datatype Keys = Keys(
    pending: map<string, int>,       // sorted set: message id to retry time
    index: map<string, Payload>,
    retries: map<string, nat>,
    offline: map<string, int>,
    acked: map<string, int>)         // acknowledged number per conversation

  datatype Retrier =
    | Idle
    | Chosen(id: string)
    | Counted(id: string)
    | Exhausted(id: string)
    | Holding(id: string, payload: Payload)
    | WriteFailed(id: string)
    | Due(id: string, delay: int)    // about to score the id again

  datatype Acker =
    | Resting
    | Asked(id: string)
    | Looked(id: string, frame: Option<Payload>)
    | Raised(id: string, frame: Option<Payload>)
    | Removed(frame: Option<Payload>)

  /** `stored` is the cursor in MySQL; `tracked`, `granted` and `pushed` record what has happened. */
  datatype State = State(
    keys: Keys, retriers: map<nat, Retrier>, ackers: map<nat, Acker>, stored: map<string, int>,
    tracked: set<(string, Payload)>, granted: map<string, nat>, pushed: seq<(string, Payload)>)

  const NO_KEYS := Keys(map[], map[], map[], map[], map[])
  const START := State(NO_KEYS, map[], map[], map[], {}, map[], [])
  const EXHAUSTED_DELAY := 60000

  datatype Step =
    | Track(id: string, payload: Payload, now: int)
    | SaveOffline(id: string, now: int)
    // retry loops
    | Choose(r: nat, id: string, deadline: int)
    | Increment(r: nat, applied: bool, ok: bool)
    | MarkOffline(r: nat, now: int, applied: bool)
    | ReadPayload(r: nat, ok: bool)
    | WriteFrame(r: nat, ok: bool)
    | Rescore(r: nat, now: int, applied: bool)
    | Stop(r: nat)
    // ACK handlers
    | AskAck(a: nat, id: string)
    | LookUp(a: nat, ok: bool)
    | RaiseCursor(a: nat, applied: bool)
    | RunAck(a: nat, applied: bool, ok: bool)
    | RaiseStored(a: nat, applied: bool)

  function RetrierOf(s: State, r: nat): Retrier
  {
    if r in s.retriers then s.retriers[r] else Idle
  }

  function AckerOf(s: State, a: nat): Acker
  {
    if a in s.ackers then s.ackers[a] else Resting
  }

  function Count(m: map<string, nat>, id: string): nat
  {
    if id in m then m[id] else 0
  }

  // ---------- the scripts and commands ----------

  /** trackPendingScript: what is already there stays. */
  function TrackScript(k: Keys, id: string, payload: Payload, now: int): Keys
  {
    k.(pending := if id in k.pending then k.pending else k.pending[id := now],
       index := if id in k.index then k.index else k.index[id := payload],
       retries := if id in k.retries then k.retries else k.retries[id := 0])
  }

  /** acknowledgeMessageScript: nothing happens to an id that is not in the index. */
  function AckScript(k: Keys, id: string): Keys
  {
    if id !in k.index then k
    else k.(pending := k.pending - {id}, offline := k.offline - {id}, index := k.index - {id},
            retries := k.retries - {id})
  }

  /** markConversationReadScript on the ACK cursor. */
  function RaiseTo(cursors: map<string, int>, conversation: string, seqNo: int): map<string, int>
  {
    if conversation == "" || seqNo <= 0 then cursors
    else if conversation in cursors && cursors[conversation] >= seqNo then cursors
    else cursors[conversation := seqNo]
  }

  /** A frame moves the cursors only if it names a session and a number. */
  function FrameFrom(k: Keys, id: string): Option<Payload>
  {
    if id in k.index && k.index[id].session != "" && k.index[id].seqNo > 0 then Some(k.index[id]) else None
  }

  // ---------- steps ----------

  function SetRetrier(s: State, r: nat, retrier: Retrier): State
  {
    s.(retriers := s.retriers[r := retrier])
  }

  function SetAcker(s: State, a: nat, acker: Acker): State
  {
    s.(ackers := s.ackers[a := acker])
  }

  function IncrementStep(s: State, maxRetries: nat, r: nat, id: string, applied: bool, ok: bool): State
  {
    var attempts := Count(s.keys.retries, id) + 1;
    var t := if applied || ok then s.(keys := s.keys.(retries := s.keys.retries[id := attempts])) else s;
    if !ok then SetRetrier(t, r, Idle)
    else if attempts > maxRetries then SetRetrier(t, r, Exhausted(id))
    else SetRetrier(t.(granted := s.granted[id := Count(s.granted, id) + 1]), r, Counted(id))
  }

  function ReadStep(s: State, r: nat, id: string, ok: bool): State
  {
    SetRetrier(s, r, if ok && id in s.keys.index then Holding(id, s.keys.index[id]) else Idle)
  }

  function WriteStep(s: State, r: nat, id: string, payload: Payload, ok: bool): State
  {
    if ok then SetRetrier(s.(pushed := s.pushed + [(id, payload)]), r, Due(id, 0))
      else SetRetrier(s, r, WriteFailed(id))
  }

  function RescoreStep(s: State, r: nat, id: string, score: int, applied: bool): State
  {
    SetRetrier(if applied then s.(keys := s.keys.(pending := s.keys.pending[id := score])) else s, r, Idle)
  }

  function RetryStep(s: State, maxRetries: nat, step: Step): State
  {
    match step
    case Choose(r, id, deadline) =>
      if RetrierOf(s, r).Idle? && id in s.keys.pending && s.keys.pending[id] <= deadline
        then SetRetrier(s, r, Chosen(id)) else s
    case Increment(r, applied, ok) =>
      (match RetrierOf(s, r)
       case Chosen(id) => IncrementStep(s, maxRetries, r, id, applied, ok)
       case _ => s)
    case MarkOffline(r, now, applied) =>
      (match RetrierOf(s, r)
       case Exhausted(id) => SetRetrier(OfflineStep(s, id, now, applied), r, Due(id, EXHAUSTED_DELAY))
       case WriteFailed(id) => SetRetrier(OfflineStep(s, id, now, applied), r, Idle)
       case _ => s)
    case ReadPayload(r, ok) => (match RetrierOf(s, r) case Counted(id) => ReadStep(s, r, id, ok) case _ => s)
    case WriteFrame(r, ok) =>
      (match RetrierOf(s, r) case Holding(id, payload) => WriteStep(s, r, id, payload, ok) case _ => s)
    case Rescore(r, now, applied) =>
      (match RetrierOf(s, r) case Due(id, delay) => RescoreStep(s, r, id, now + delay, applied) case _ => s)
    case Stop(r) => SetRetrier(s, r, Idle)
    case _ => s
  }

  function OfflineStep(s: State, id: string, now: int, applied: bool): State
  {
    if applied then s.(keys := s.keys.(offline := s.keys.offline[id := now])) else s
  }

  function AckStep(s: State, step: Step): State
  {
    match step
    case AskAck(a, id) => if id == "" then s else SetAcker(s, a, Asked(id))
    case LookUp(a, ok) =>
      (match AckerOf(s, a)
       case Asked(id) => SetAcker(s, a, Looked(id, if ok then FrameFrom(s.keys, id) else None))
       case _ => s)
    case RaiseCursor(a, applied) =>
      (match AckerOf(s, a)
       case Looked(id, frame) =>
         SetAcker(if applied && frame.Some?
                  then s.(keys := s.keys.(acked := RaiseTo(s.keys.acked, frame.value.session, frame.value.seqNo)))
                    else s,
                  a, Raised(id, frame))
       case _ => s)
    case RunAck(a, applied, ok) =>
      (match AckerOf(s, a)
       case Raised(id, frame) =>
         var removed := id in s.keys.index;
         SetAcker(if applied || ok
           then s.(keys := AckScript(s.keys, id), granted := if removed then s.granted - {id} else s.granted) else s,
                  a, if ok && removed then Removed(frame) else Resting)
       case _ => s)
    case RaiseStored(a, applied) =>
      (match AckerOf(s, a)
       case Removed(frame) =>
         SetAcker(if applied && frame.Some?
                  then s.(stored := RaiseTo(s.stored, frame.value.session, frame.value.seqNo)) else s, a, Resting)
       case _ => s)
    case _ => s
  }

  function Apply(s: State, maxRetries: nat, step: Step): State
  {
    match step
    case Track(id, payload, now) =>
      s.(keys := TrackScript(s.keys, id, payload, now), tracked := s.tracked + {(id, payload)})
    case SaveOffline(id, now) => OfflineStep(s, id, now, true)
    case AskAck(_, _) => AckStep(s, step)
    case LookUp(_, _) => AckStep(s, step)
    case RaiseCursor(_, _) => AckStep(s, step)
    case RunAck(_, _, _) => AckStep(s, step)
    case RaiseStored(_, _) => AckStep(s, step)
    case _ => RetryStep(s, maxRetries, step)
  }

  function Run(s: State, maxRetries: nat, steps: seq<Step>): State
    decreases steps
  {
    if |steps| == 0 then s else Run(Apply(s, maxRetries, steps[0]), maxRetries, steps[1..])
  }

  lemma {:induction false} RunConcat(s: State, maxRetries: nat, a: seq<Step>, b: seq<Step>)
    ensures Run(s, maxRetries, a + b) == Run(Run(s, maxRetries, a), maxRetries, b)
    decreases a
  {
    hide Apply;
    if |a| == 0 {
      assert a + b == b;
    } else {
      assert (a + b)[1..] == a[1..] + b;
      RunConcat(Apply(s, maxRetries, a[0]), maxRetries, a[1..], b);
    }
  }

  lemma Unroll(s: State, maxRetries: nat, step: Step, rest: seq<Step>)
    ensures Run(s, maxRetries, [step] + rest) == Run(Apply(s, maxRetries, step), maxRetries, rest)
  {
    assert ([step] + rest)[1..] == rest;
  }

  lemma FourSteps(s: State, maxRetries: nat, a: Step, b: Step, c: Step, d: Step, rest: seq<Step>)
    ensures Run(s, maxRetries, [a, b, c, d] + rest) ==
            Run(Apply(Apply(Apply(Apply(s, maxRetries, a), maxRetries, b), maxRetries, c), maxRetries, d), maxRetries,
              rest)
  {
    hide Run, Apply;
    Unroll(s, maxRetries, a, [b, c, d] + rest);
    Unroll(Apply(s, maxRetries, a), maxRetries, b, [c, d] + rest);
    Unroll(Apply(Apply(s, maxRetries, a), maxRetries, b), maxRetries, c, [d] + rest);
    Unroll(Apply(Apply(Apply(s, maxRetries, a), maxRetries, b), maxRetries, c), maxRetries, d, rest);
    assert [a] + ([b, c, d] + rest) == [a, b, c, d] + rest;
    assert [b] + ([c, d] + rest) == [b, c, d] + rest;
    assert [c] + ([d] + rest) == [c, d] + rest;
  }

  // ---------- the invariant ----------

  /** Whatever the index names is pending, and its payload is one that was tracked under that id. */
  ghost predicate IndexOk(s: State)
  {
    && (forall id | id in s.keys.index :: id in s.keys.pending)
    && (forall id | id in s.keys.index :: (id, s.keys.index[id]) in s.tracked)
  }

  /** Frames in hand were tracked. */
  ghost predicate InHandOk(s: State)
  {
    && RetriersOk(s)
    && (forall a | a in s.ackers :: FrameOk(s, s.ackers[a]))
  }

  ghost predicate FrameOk(s: State, acker: Acker)
  {
    && (acker.Looked? && acker.frame.Some? ==> (acker.id, acker.frame.value) in s.tracked)
    && (acker.Raised? && acker.frame.Some? ==> (acker.id, acker.frame.value) in s.tracked)
    && (acker.Removed? && acker.frame.Some? ==> exists id :: (id, acker.frame.value) in s.tracked)
  }

  /** A cursor stands at the number of a message tracked in that conversation. */
  ghost predicate At(s: State, conversation: string, seqNo: int)
  {
    exists pair :: pair in s.tracked && pair.1.session == conversation && pair.1.seqNo == seqNo
  }

  ghost predicate CursorsOk(s: State)
  {
    && (forall c | c in s.keys.acked :: At(s, c, s.keys.acked[c]))
    && (forall c | c in s.stored :: At(s, c, s.stored[c]))
  }

  /** Across all retry loops no message gets more than `maxRetries` pushes granted between two acknowledgements. */
  ghost predicate GrantsOk(s: State, maxRetries: nat)
  {
    forall id :: GrantOk(s, maxRetries, id)
  }

  ghost predicate GrantOk(s: State, maxRetries: nat, id: string)
  {
    Count(s.granted, id) <= Count(s.keys.retries, id) && Count(s.granted, id) <= maxRetries
  }

  ghost predicate Inv(s: State, maxRetries: nat)
  {
    IndexOk(s) && InHandOk(s) && CursorsOk(s) && GrantsOk(s, maxRetries)
  }

  /** What a retry loop's command leaves alone; `id` is the one it may score again. */
  ghost predicate RetryFrame(s: State, t: State)
  {
    && t.keys.index == s.keys.index && t.keys.acked == s.keys.acked
    && t.stored == s.stored && t.tracked == s.tracked && t.ackers == s.ackers
    && s.keys.pending.Keys <= t.keys.pending.Keys
  }

  ghost predicate RetriersOk(s: State)
  {
    && (forall r | r in s.retriers && s.retriers[r].Holding? :: (s.retriers[r].id, s.retriers[r].payload) in s.tracked)
    && (forall i | 0 <= i < |s.pushed| :: s.pushed[i] in s.tracked)
  }

  lemma IncrementFramed(s: State, maxRetries: nat, r: nat, id: string, applied: bool, ok: bool)
    requires RetriersOk(s)
    ensures var t := IncrementStep(s, maxRetries, r, id, applied, ok);
            RetryFrame(s, t) && RetriersOk(t) && t.keys.pending == s.keys.pending
  {
  }

  lemma ReadFramed(s: State, r: nat, id: string, ok: bool)
    requires RetriersOk(s) && IndexOk(s)
    ensures var t := ReadStep(s, r, id, ok);
            RetryFrame(s, t) && RetriersOk(t) && t.keys == s.keys && t.granted == s.granted
  {
  }

  lemma WriteFramed(s: State, r: nat, id: string, payload: Payload, ok: bool)
    requires RetriersOk(s) && (id, payload) in s.tracked
    ensures var t := WriteStep(s, r, id, payload, ok);
            RetryFrame(s, t) && RetriersOk(t) && t.keys == s.keys && t.granted == s.granted
  {
  }

  lemma RescoreFramed(s: State, r: nat, id: string, score: int, applied: bool)
    requires RetriersOk(s)
    ensures var t := RescoreStep(s, r, id, score, applied);
            && RetryFrame(s, t) && RetriersOk(t) && t.granted == s.granted && t.keys.retries == s.keys.retries
            && t.keys.pending == if applied then s.keys.pending[id := score] else s.keys.pending
  {
  }

  lemma OfflineFramed(s: State, id: string, now: int, applied: bool)
    requires RetriersOk(s)
    ensures var t := OfflineStep(s, id, now, applied);
            && RetryFrame(s, t) && RetriersOk(t) && t.granted == s.granted && t.keys.retries == s.keys.retries
            && t.keys.pending == s.keys.pending
  {
  }

  lemma RestFramed(s: State, r: nat, retrier: Retrier)
    requires RetriersOk(s) && !retrier.Holding?
    ensures var t := SetRetrier(s, r, retrier);
            RetryFrame(s, t) && RetriersOk(t) && t.keys == s.keys && t.granted == s.granted
  {
  }

  lemma RetryFramed(s: State, maxRetries: nat, step: Step)
    requires RetriersOk(s) && IndexOk(s)
    ensures var t := RetryStep(s, maxRetries, step);
            && RetryFrame(s, t) && RetriersOk(t)
            && (!step.Increment? ==> t.granted == s.granted && t.keys.retries == s.keys.retries)
            && (t.keys.pending == s.keys.pending
                || (step.Rescore? && step.applied && RetrierOf(s, step.r).Due?
                    && t.keys.pending ==
                       s.keys.pending[RetrierOf(s, step.r).id := step.now + RetrierOf(s, step.r).delay]))
  {
    hide IncrementStep, ReadStep, WriteStep, RescoreStep, OfflineStep, SetRetrier, IndexOk;
    var t := RetryStep(s, maxRetries, step);
    match step
    case Increment(r, applied, ok) =>
      if RetrierOf(s, r).Chosen? { IncrementFramed(s, maxRetries, r, RetrierOf(s, r).id, applied, ok); }
    case ReadPayload(r, ok) => if RetrierOf(s, r).Counted? { ReadFramed(s, r, RetrierOf(s, r).id, ok); }
    case WriteFrame(r, ok) =>
      if RetrierOf(s, r).Holding? { WriteFramed(s, r, RetrierOf(s, r).id, RetrierOf(s, r).payload, ok); }
    case Rescore(r, now, applied) =>
      if RetrierOf(s, r).Due? { RescoreFramed(s, r, RetrierOf(s, r).id, now + RetrierOf(s, r).delay, applied); }
    case MarkOffline(r, now, applied) =>
      if RetrierOf(s, r).Exhausted? || RetrierOf(s, r).WriteFailed? {
        var u := OfflineStep(s, RetrierOf(s, r).id, now, applied);
        OfflineFramed(s, RetrierOf(s, r).id, now, applied);
        RestFramed(u, r, if RetrierOf(s, r).Exhausted? then Due(RetrierOf(s, r).id, EXHAUSTED_DELAY) else Idle);
      }
    case Choose(r, id, _) => RestFramed(s, r, Chosen(id));
    case Stop(r) => RestFramed(s, r, Idle);
    case _ =>
  }

  lemma FrameKeepsIndex(s: State, t: State)
    requires IndexOk(s) && RetryFrame(s, t)
    ensures IndexOk(t)
  {
    assert forall id | id in s.keys.index :: id in s.keys.pending.Keys;
  }

  lemma AckIndex(s: State, step: Step)
    requires IndexOk(s)
    ensures IndexOk(AckStep(s, step))
  {
    hide RaiseTo, FrameFrom;
  }

  lemma StepIndex(s: State, maxRetries: nat, step: Step)
    requires IndexOk(s) && RetriersOk(s)
    ensures IndexOk(Apply(s, maxRetries, step))
  {
    hide RetryStep, AckStep, RetryFrame;
    RetryFramed(s, maxRetries, step);
    FrameKeepsIndex(s, RetryStep(s, maxRetries, step));
    AckIndex(s, step);
  }

  lemma FrameKeepsInHand(s: State, t: State)
    requires InHandOk(s) && RetryFrame(s, t) && RetriersOk(t)
    ensures InHandOk(t)
  {
    forall a | a in t.ackers ensures FrameOk(t, t.ackers[a]) { assert FrameOk(s, s.ackers[a]); }
  }

  lemma AckInHand(s: State, step: Step)
    requires IndexOk(s) && InHandOk(s)
    ensures InHandOk(AckStep(s, step))
  {
    hide RaiseTo, AckScript;
    var t := AckStep(s, step);
    forall a | a in t.ackers ensures FrameOk(t, t.ackers[a]) {
      if a in s.ackers { assert FrameOk(s, s.ackers[a]); }
    }
  }

  lemma StepInHand(s: State, maxRetries: nat, step: Step)
    requires IndexOk(s) && InHandOk(s)
    ensures InHandOk(Apply(s, maxRetries, step))
  {
    hide RetryStep, AckStep, TrackScript, IndexOk, RetryFrame;
    RetryFramed(s, maxRetries, step);
    FrameKeepsInHand(s, RetryStep(s, maxRetries, step));
    AckInHand(s, step);
    var t := Apply(s, maxRetries, step);
    if step.Track? || step.SaveOffline? {
      forall a | a in t.ackers ensures FrameOk(t, t.ackers[a]) { assert FrameOk(s, s.ackers[a]); }
    }
  }

  lemma RaisedAt(s: State, cursors: map<string, int>, id: string, frame: Payload)
    requires (id, frame) in s.tracked && forall c | c in cursors :: At(s, c, cursors[c])
    ensures forall c | c in RaiseTo(cursors, frame.session, frame.seqNo) ::
              At(s, c, RaiseTo(cursors, frame.session, frame.seqNo)[c])
  {
    assert At(s, frame.session, frame.seqNo) by {
      assert (id, frame).1.session == frame.session;
    }
  }

  lemma MoreTracked(s: State, t: State, conversation: string, seqNo: int)
    requires s.tracked <= t.tracked && At(s, conversation, seqNo)
    ensures At(t, conversation, seqNo)
  {
    var pair :| pair in s.tracked && pair.1.session == conversation && pair.1.seqNo == seqNo;
    assert pair in t.tracked;
  }

  lemma StepCursors(s: State, maxRetries: nat, step: Step)
    requires IndexOk(s) && InHandOk(s) && CursorsOk(s)
    ensures CursorsOk(Apply(s, maxRetries, step))
  {
    hide RaiseTo, At, Apply;
    var t := Apply(s, maxRetries, step);
    TouchesCursors(s, maxRetries, step);
    if step.RaiseCursor? && AckerOf(s, step.a).Looked? && AckerOf(s, step.a).frame.Some? {
      assert FrameOk(s, s.ackers[step.a]);
      RaisedAt(s, s.keys.acked, AckerOf(s, step.a).id, AckerOf(s, step.a).frame.value);
    }
    if step.RaiseStored? && AckerOf(s, step.a).Removed? && AckerOf(s, step.a).frame.Some? {
      assert FrameOk(s, s.ackers[step.a]);
      var id :| (id, AckerOf(s, step.a).frame.value) in s.tracked;
      RaisedAt(s, s.stored, id, AckerOf(s, step.a).frame.value);
    }
    forall c | c in t.keys.acked ensures At(t, c, t.keys.acked[c]) { MoreTracked(s, t, c, t.keys.acked[c]); }
    forall c | c in t.stored ensures At(t, c, t.stored[c]) { MoreTracked(s, t, c, t.stored[c]); }
  }

  /** What the two cursor commands do to the cursors. */
  function Raise(cursors: map<string, int>, frame: Option<Payload>): map<string, int>
  {
    if frame.None? then cursors else RaiseTo(cursors, frame.value.session, frame.value.seqNo)
  }

  lemma AckTouches(s: State, step: Step)
    ensures var t := AckStep(s, step);
            && t.tracked == s.tracked
            && t.keys.acked == (if step.RaiseCursor? && step.applied && AckerOf(s, step.a).Looked?
                                then Raise(s.keys.acked, AckerOf(s, step.a).frame) else s.keys.acked)
            && t.stored == (if step.RaiseStored? && step.applied && AckerOf(s, step.a).Removed?
                            then Raise(s.stored, AckerOf(s, step.a).frame) else s.stored)
  {
    hide RaiseTo, FrameFrom;
  }

  /** Only the two cursor commands move the cursors. */
  lemma TouchesCursors(s: State, maxRetries: nat, step: Step)
    requires IndexOk(s) && InHandOk(s)
    ensures var t := Apply(s, maxRetries, step);
            && s.tracked <= t.tracked
            && t.keys.acked == (if step.RaiseCursor? && step.applied && AckerOf(s, step.a).Looked?
                                then Raise(s.keys.acked, AckerOf(s, step.a).frame) else s.keys.acked)
            && t.stored == (if step.RaiseStored? && step.applied && AckerOf(s, step.a).Removed?
                            then Raise(s.stored, AckerOf(s, step.a).frame) else s.stored)
  {
    hide RetryStep, AckStep, Raise, IndexOk, RetriersOk;
    RetryFramed(s, maxRetries, step);
    AckTouches(s, step);
  }

  lemma IncrementGrants(s: State, maxRetries: nat, r: nat, id: string, applied: bool, ok: bool)
    requires GrantsOk(s, maxRetries)
    ensures GrantsOk(IncrementStep(s, maxRetries, r, id, applied, ok), maxRetries)
  {
    var t := IncrementStep(s, maxRetries, r, id, applied, ok);
    forall other ensures GrantOk(t, maxRetries, other) { assert GrantOk(s, maxRetries, other); }
  }

  lemma SameGrants(s: State, t: State, maxRetries: nat)
    requires GrantsOk(s, maxRetries) && t.granted == s.granted
    requires forall id :: Count(t.keys.retries, id) == Count(s.keys.retries, id)
    ensures GrantsOk(t, maxRetries)
  {
    forall id ensures GrantOk(t, maxRetries, id) { assert GrantOk(s, maxRetries, id); }
  }

  lemma AckGrants(s: State, maxRetries: nat, step: Step)
    requires GrantsOk(s, maxRetries)
    ensures GrantsOk(AckStep(s, step), maxRetries)
  {
    hide RaiseTo, FrameFrom;
    var t := AckStep(s, step);
    forall id ensures GrantOk(t, maxRetries, id) { assert GrantOk(s, maxRetries, id); }
  }

  lemma StepGrants(s: State, maxRetries: nat, step: Step)
    requires IndexOk(s) && RetriersOk(s) && GrantsOk(s, maxRetries)
    ensures GrantsOk(Apply(s, maxRetries, step), maxRetries)
  {
    hide AckStep, GrantsOk, IndexOk, RetriersOk, IncrementStep;
    RetryFramed(s, maxRetries, step);
    AckGrants(s, maxRetries, step);
    var t := Apply(s, maxRetries, step);
    if step.Increment? {
      if RetrierOf(s, step.r).Chosen? {
        IncrementGrants(s, maxRetries, step.r, RetrierOf(s, step.r).id, step.applied, step.ok);
      }
    } else if t != AckStep(s, step) {
      SameGrants(s, t, maxRetries);
    }
  }

  lemma StepKeeps(s: State, maxRetries: nat, step: Step)
    requires Inv(s, maxRetries)
    ensures Inv(Apply(s, maxRetries, step), maxRetries)
  {
    hide IndexOk, RetriersOk, CursorsOk, GrantsOk, Apply;
    StepIndex(s, maxRetries, step);
    StepInHand(s, maxRetries, step);
    StepCursors(s, maxRetries, step);
    StepGrants(s, maxRetries, step);
  }

  lemma {:induction false} RunKeeps(s: State, maxRetries: nat, steps: seq<Step>)
    requires Inv(s, maxRetries)
    ensures Inv(Run(s, maxRetries, steps), maxRetries)
    decreases steps
  {
    hide Inv, Apply;
    if |steps| > 0 {
      StepKeeps(s, maxRetries, steps[0]);
      RunKeeps(Apply(s, maxRetries, steps[0]), maxRetries, steps[1..]);
    }
  }

  lemma Reachable(maxRetries: nat, steps: seq<Step>)
    ensures Inv(Run(START, maxRetries, steps), maxRetries)
  {
    StartIsOk(maxRetries);
    RunKeeps(START, maxRetries, steps);
  }

  lemma StartIsOk(maxRetries: nat)
    ensures Inv(START, maxRetries)
  {
    forall id ensures GrantOk(START, maxRetries, id) { }
  }

  // ---------- tracked messages stay replayable ----------

  /** The step runs the ACK script for this id. */
  predicate Acknowledges(s: State, step: Step, id: string)
  {
    step.RunAck? && (step.applied || step.ok) && AckerOf(s, step.a).Raised? && AckerOf(s, step.a).id == id
  }

  predicate NeverAcknowledged(s: State, maxRetries: nat, steps: seq<Step>, id: string)
    decreases steps
  {
    |steps| == 0
    || (!Acknowledges(s, steps[0], id) && NeverAcknowledged(Apply(s, maxRetries, steps[0]), maxRetries, steps[1..], id))
  }

  lemma AckChangesIndex(s: State, step: Step, id: string)
    requires id in s.keys.index
    ensures var t := AckStep(s, step);
            if Acknowledges(s, step, id)
              then id !in t.keys.index && id !in t.keys.pending && id !in t.keys.offline && id !in t.keys.retries
            else id in t.keys.index && t.keys.index[id] == s.keys.index[id]
  {
    hide RaiseTo, FrameFrom;
  }

  /** Only its own ACK script takes an id out of the index or changes what the index holds for it. */
  lemma IndexChanges(s: State, maxRetries: nat, step: Step, id: string)
    requires IndexOk(s) && RetriersOk(s) && id in s.keys.index
    ensures var t := Apply(s, maxRetries, step);
            if Acknowledges(s, step, id)
              then id !in t.keys.index && id !in t.keys.pending && id !in t.keys.offline && id !in t.keys.retries
            else id in t.keys.index && t.keys.index[id] == s.keys.index[id]
  {
    hide RetryStep, AckStep;
    RetryFramed(s, maxRetries, step);
    AckChangesIndex(s, step, id);
  }

  lemma {:induction false} PayloadStays(s: State, maxRetries: nat, steps: seq<Step>, id: string)
    requires Inv(s, maxRetries) && id in s.keys.index && NeverAcknowledged(s, maxRetries, steps, id)
    ensures var t := Run(s, maxRetries, steps);
            id in t.keys.index && t.keys.index[id] == s.keys.index[id]
    decreases steps
  {
    hide Apply, Acknowledges, IndexOk, RetriersOk, CursorsOk, GrantsOk;
    if |steps| > 0 {
      IndexChanges(s, maxRetries, steps[0], id);
      StepKeeps(s, maxRetries, steps[0]);
      PayloadStays(Apply(s, maxRetries, steps[0]), maxRetries, steps[1..], id);
    }
  }

  lemma IndexHolds(s: State, maxRetries: nat)
    requires Inv(s, maxRetries)
    ensures IndexOk(s)
  {
  }

  /**
   After its tracking script a message is pending under the payload it was first tracked with, through every
   interleaving of deliveries, retries and other acknowledgements, until its own ACK script runs.
   */
  lemma TrackedStaysReplayable(maxRetries: nat, before: seq<Step>, id: string, payload: Payload, now: int,
      after: seq<Step>)
    requires var s := Run(START, maxRetries, before);
             NeverAcknowledged(Apply(s, maxRetries, Track(id, payload, now)), maxRetries, after, id)
    ensures var s := Run(START, maxRetries, before);
            var t := Run(Apply(s, maxRetries, Track(id, payload, now)), maxRetries, after);
            && id in t.keys.pending && id in t.keys.index
            && t.keys.index[id] == if id in s.keys.index then s.keys.index[id] else payload
  {
    hide Inv, NeverAcknowledged;
    Reachable(maxRetries, before);
    var s := Run(START, maxRetries, before);
    var u := Apply(s, maxRetries, Track(id, payload, now));
    RunKeeps(s, maxRetries, [Track(id, payload, now)]);
    assert [Track(id, payload, now)][1..] == [];
    assert Run(s, maxRetries, [Track(id, payload, now)]) == u;
    RunKeeps(u, maxRetries, after);
    PayloadStays(u, maxRetries, after, id);
    IndexHolds(Run(u, maxRetries, after), maxRetries);
  }

  /** HGET on the index. */
  function ReadIndex(k: Keys, id: string): Option<string>
  {
    if id in k.index then Some(k.index[id].body) else None
  }

  /**
   A message indexed when the pending list is read is on the list, and reading its payload any steps later still gives
   the same one, unless its own ACK script ran in between.
   */
  lemma StillReadable(s: State, maxRetries: nat, between: seq<Step>, id: string)
    requires Inv(s, maxRetries) && id in s.keys.index && NeverAcknowledged(s, maxRetries, between, id)
    ensures id in s.keys.pending && ReadIndex(Run(s, maxRetries, between).keys, id) == Some(s.keys.index[id].body)
  {
    hide NeverAcknowledged, Run;
    PayloadStays(s, maxRetries, between, id);
    IndexHolds(s, maxRetries);
  }

  // ---------- pending ids without a payload ----------

  predicate Orphan(k: Keys, id: string)
  {
    id in k.pending && id !in k.index
  }

  lemma RetryOrphans(s: State, maxRetries: nat, step: Step, id: string)
    requires IndexOk(s) && RetriersOk(s)
    ensures !Orphan(s.keys, id) && Orphan(RetryStep(s, maxRetries, step).keys, id) <==>
              && step.Rescore? && step.applied && RetrierOf(s, step.r).Due? && RetrierOf(s, step.r).id == id
              && id !in s.keys.pending && id !in s.keys.index
  {
    RetryFramed(s, maxRetries, step);
    if step.Rescore? && RetrierOf(s, step.r).Due? {
      RescoreFramed(s, step.r, RetrierOf(s, step.r).id, step.now + RetrierOf(s, step.r).delay, step.applied);
    } else {
      hide RetryStep;
    }
  }

  lemma AckOrphans(s: State, step: Step, id: string)
    ensures !Orphan(s.keys, id) ==> !Orphan(AckStep(s, step).keys, id)
  {
    hide RaiseTo, FrameFrom;
  }

  /** An id becomes an orphan exactly when a retry loop scores it again once it is gone; tracking it again heals it. */
  lemma OrphansComeFromRescoring(s: State, maxRetries: nat, step: Step, id: string)
    requires Inv(s, maxRetries)
    ensures !Orphan(s.keys, id) && Orphan(Apply(s, maxRetries, step).keys, id) <==>
              && step.Rescore? && step.applied && RetrierOf(s, step.r).Due? && RetrierOf(s, step.r).id == id
              && id !in s.keys.pending && id !in s.keys.index
    ensures step.Track? && step.id == id ==> !Orphan(Apply(s, maxRetries, step).keys, id)
  {
    hide RetryStep, AckStep;
    RetryOrphans(s, maxRetries, step, id);
    AckOrphans(s, step, id);
  }

  /**
   In every reachable state a message that is neither acknowledged nor worked through its attempts can be retried as
   soon as its score is reached: an idle loop finds it, counts one attempt, pushes the tracked payload and scores it for
   now. With its attempts used up it is marked offline instead and scored for a minute later.
   */
  lemma DueIsRetried(maxRetries: nat, before: seq<Step>, r: nat, id: string, deadline: int, now: int)
    requires var s := Run(START, maxRetries, before);
             RetrierOf(s, r) == Idle && id in s.keys.index && id in s.keys.pending && s.keys.pending[id] <= deadline
    ensures var s := Run(START, maxRetries, before);
            var tried := Count(s.keys.retries, id);
            var counted := s.keys.(retries := s.keys.retries[id := tried + 1]);
            if tried < maxRetries then
              var t := Run(s, maxRetries,
                           [Choose(r, id, deadline), Increment(r, true, true), ReadPayload(r, true),
                            WriteFrame(r, true), Rescore(r, now, true)]);
              && t.pushed == s.pushed + [(id, s.keys.index[id])] && (id, s.keys.index[id]) in s.tracked
              && t.keys == counted.(pending := s.keys.pending[id := now])
            else
              var t := Run(s, maxRetries,
                           [Choose(r, id, deadline), Increment(r, true, true), MarkOffline(r, now, true),
                            Rescore(r, now, true)]);
              && t.pushed == s.pushed
              && t.keys == counted.(offline := s.keys.offline[id := now], pending := s.keys.pending[id := now + 60_000])
  {
    hide Apply, Run, Inv;
    Reachable(maxRetries, before);
    var s := Run(START, maxRetries, before);
    Retries(s, maxRetries, r, id, deadline);
    var s1 := Apply(s, maxRetries, Choose(r, id, deadline));
    Retries(s1, maxRetries, r, id, deadline);
    var s2 := Apply(s1, maxRetries, Increment(r, true, true));
    Retries(s2, maxRetries, r, id, now);
    if Count(s.keys.retries, id) < maxRetries {
      IndexWasTracked(s, maxRetries, id);
      var s3 := Apply(s2, maxRetries, ReadPayload(r, true));
      Retries(s3, maxRetries, r, id, now);
      Retries(Apply(s3, maxRetries, WriteFrame(r, true)), maxRetries, r, id, now);
      FiveSteps(s, maxRetries, Choose(r, id, deadline), Increment(r, true, true), ReadPayload(r, true),
        WriteFrame(r, true), Rescore(r, now, true));
    } else {
      var s3 := Apply(s2, maxRetries, MarkOffline(r, now, true));
      Retries(s3, maxRetries, r, id, now);
      FourSteps(s, maxRetries, Choose(r, id, deadline), Increment(r, true, true), MarkOffline(r, now, true),
        Rescore(r, now, true), []);
      var steps := [Choose(r, id, deadline), Increment(r, true, true), MarkOffline(r, now, true),
        Rescore(r, now, true)];
      assert steps + [] == steps;
      RunNothing(Apply(s3, maxRetries, Rescore(r, now, true)), maxRetries);
    }
  }

  lemma IndexWasTracked(s: State, maxRetries: nat, id: string)
    requires Inv(s, maxRetries) && id in s.keys.index
    ensures (id, s.keys.index[id]) in s.tracked
  {
  }

  /** What the next command of a retry loop does, by where the loop stands. */
  lemma Retries(s: State, maxRetries: nat, r: nat, id: string, time: int)
    ensures var at := RetrierOf(s, r);
            && (at == Idle && id in s.keys.pending && s.keys.pending[id] <= time ==>
                  Apply(s, maxRetries, Choose(r, id, time)) == SetRetrier(s, r, Chosen(id)))
            && (at == Chosen(id) ==>
                  Apply(s, maxRetries, Increment(r, true, true)) == IncrementStep(s, maxRetries, r, id, true, true))
            && (at == Counted(id) ==> Apply(s, maxRetries, ReadPayload(r, true)) == ReadStep(s, r, id, true))
            && (at.Holding? && at.id == id ==>
                  Apply(s, maxRetries, WriteFrame(r, true)) == WriteStep(s, r, id, at.payload, true))
            && (at == Exhausted(id) ==>
                  Apply(s, maxRetries, MarkOffline(r, time, true))
                    == SetRetrier(OfflineStep(s, id, time, true), r, Due(id, EXHAUSTED_DELAY)))
            && (at.Due? && at.id == id ==>
                  Apply(s, maxRetries, Rescore(r, time, true)) == RescoreStep(s, r, id, time + at.delay, true))
  {
    hide IncrementStep, ReadStep, WriteStep, RescoreStep, OfflineStep;
  }

  lemma RunNothing(s: State, maxRetries: nat)
    ensures Run(s, maxRetries, []) == s
  {
  }

  lemma FiveSteps(s: State, maxRetries: nat, a: Step, b: Step, c: Step, d: Step, e: Step)
    ensures Run(s, maxRetries, [a, b, c, d, e]) ==
            Apply(Apply(Apply(Apply(Apply(s, maxRetries, a), maxRetries, b), maxRetries, c), maxRetries, d), maxRetries,
              e)
  {
    hide Run, Apply;
    var t := Apply(Apply(Apply(Apply(s, maxRetries, a), maxRetries, b), maxRetries, c), maxRetries, d);
    FourSteps(s, maxRetries, a, b, c, d, [e]);
    assert [a, b, c, d] + [e] == [a, b, c, d, e];
    Unroll(t, maxRetries, e, []);
    assert [e] + [] == [e];
    RunNothing(Apply(t, maxRetries, e), maxRetries);
  }

  /** No retry loop is busy with the id, and it is not pending, unless the index has its payload. */
  ghost predicate Clean(s: State, id: string)
  {
    id !in s.keys.index ==>
      id !in s.keys.pending && forall r | r in s.retriers :: s.retriers[r] == Idle || s.retriers[r].id != id
  }

  lemma IdsOfRetriers(s: State, maxRetries: nat, step: Step, r: nat)
    ensures var was, now := RetrierOf(s, r), RetrierOf(RetryStep(s, maxRetries, step), r);
            now == Idle || (was != Idle && now.id == was.id)
            || (step.Choose? && step.id in s.keys.pending && now == Chosen(step.id))
  {
    hide OfflineStep;
    OfflineLeavesRetriers(s);
  }

  lemma OfflineLeavesRetriers(s: State)
    ensures forall id, now, applied :: OfflineStep(s, id, now, applied).retriers == s.retriers
  {
  }

  lemma CleanRetry(s: State, maxRetries: nat, step: Step, id: string)
    requires IndexOk(s) && RetriersOk(s) && Clean(s, id) && id !in s.keys.index
    ensures Clean(RetryStep(s, maxRetries, step), id)
  {
    hide RetryStep, IndexOk, RetriersOk;
    RetryFramed(s, maxRetries, step);
    var t := RetryStep(s, maxRetries, step);
    if step.Rescore? && RetrierOf(s, step.r).Due? {
      assert RetrierOf(s, step.r).id != id;
    }
    forall r | r in t.retriers ensures t.retriers[r] == Idle || t.retriers[r].id != id {
      IdsOfRetriers(s, maxRetries, step, r);
    }
  }

  lemma CleanAck(s: State, step: Step, id: string)
    requires Clean(s, id) && id !in s.keys.index
    ensures Clean(AckStep(s, step), id)
  {
    hide RaiseTo, FrameFrom;
  }

  lemma CleanStep(s: State, maxRetries: nat, step: Step, id: string)
    requires Inv(s, maxRetries) && Clean(s, id) && !Acknowledges(s, step, id)
    ensures Clean(Apply(s, maxRetries, step), id)
  {
    hide RetryStep, AckStep, CursorsOk, GrantsOk, Acknowledges, RetriersOk;
    if id in s.keys.index {
      IndexChanges(s, maxRetries, step, id);
    } else {
      CleanRetry(s, maxRetries, step, id);
      CleanAck(s, step, id);
    }
  }

  lemma {:induction false} CleanRun(s: State, maxRetries: nat, steps: seq<Step>, id: string)
    requires Inv(s, maxRetries) && Clean(s, id) && NeverAcknowledged(s, maxRetries, steps, id)
    ensures Clean(Run(s, maxRetries, steps), id)
    decreases steps
  {
    hide Inv, Clean, Apply, Acknowledges;
    if |steps| > 0 {
      CleanStep(s, maxRetries, steps[0], id);
      StepKeeps(s, maxRetries, steps[0]);
      CleanRun(Apply(s, maxRetries, steps[0]), maxRetries, steps[1..], id);
    }
  }

  /** Only an id whose ACK script has run can be pending without a payload. */
  lemma OrphanWasAcknowledged(maxRetries: nat, steps: seq<Step>, id: string)
    ensures Orphan(Run(START, maxRetries, steps).keys, id) ==> !NeverAcknowledged(START, maxRetries, steps, id)
  {
    hide Inv, NeverAcknowledged, Run;
    StartIsOk(maxRetries);
    if NeverAcknowledged(START, maxRetries, steps, id) {
      CleanRun(START, maxRetries, steps, id);
    }
  }

  const PUSHING := [Choose(1, "m", 0), Increment(1, true, true), ReadPayload(1, true), WriteFrame(1, true)]
  const ACKNOWLEDGING := [AskAck(2, "m"), LookUp(2, false), RaiseCursor(2, false), RunAck(2, true, false)]

  function Tracked(payload: Payload): State
  {
    State(Keys(map["m" := 0], map["m" := payload], map["m" := 0], map[], map[]), map[], map[], map[], {("m", payload)},
      map[], [])
  }

  function Pushed(payload: Payload): State
  {
    State(Keys(map["m" := 0], map["m" := payload], map["m" := 1], map[], map[]), map[1 := Due("m", 0)], map[], map[],
          {("m", payload)}, map["m" := 1], [("m", payload)])
  }

  lemma Pushes(payload: Payload)
    ensures Run(Tracked(payload), 3, PUSHING) == Pushed(payload)
  {
    var s0 := Tracked(payload);
    var s1 := s0.(retriers := map[1 := Chosen("m")]);
    var s2 := s1.(retriers := map[1 := Counted("m")], keys := s0.keys.(retries := map["m" := 1]),
                  granted := map["m" := 1]);
    var s3 := s2.(retriers := map[1 := Holding("m", payload)]);
    assert Apply(s0, 3, PUSHING[0]) == s1;
    assert Apply(s1, 3, PUSHING[1]) == s2;
    assert Apply(s2, 3, PUSHING[2]) == s3;
    assert Apply(s3, 3, PUSHING[3]) == Pushed(payload);
    FourSteps(s0, 3, PUSHING[0], PUSHING[1], PUSHING[2], PUSHING[3], []);
    assert PUSHING + [] == PUSHING;
    hide Apply, Tracked, Pushed;
  }

  function Cleared(payload: Payload): State
  {
    State(NO_KEYS, map[1 := Due("m", 0)], map[2 := Resting], map[], {("m", payload)}, map[], [("m", payload)])
  }

  lemma Acknowledged(payload: Payload)
    ensures Run(Pushed(payload), 3, ACKNOWLEDGING) == Cleared(payload)
  {
    var s0 := Pushed(payload);
    var s1 := s0.(ackers := map[2 := Asked("m")]);
    var s2 := s0.(ackers := map[2 := Looked("m", None)]);
    var s3 := s0.(ackers := map[2 := Raised("m", None)]);
    assert Apply(s0, 3, ACKNOWLEDGING[0]) == s1;
    assert Apply(s1, 3, ACKNOWLEDGING[1]) == s2;
    assert Apply(s2, 3, ACKNOWLEDGING[2]) == s3;
    assert Apply(s3, 3, ACKNOWLEDGING[3]).keys == NO_KEYS;
    FourSteps(s0, 3, ACKNOWLEDGING[0], ACKNOWLEDGING[1], ACKNOWLEDGING[2], ACKNOWLEDGING[3], []);
    assert ACKNOWLEDGING + [] == ACKNOWLEDGING;
  }

  lemma TracksFirst(payload: Payload)
    ensures Apply(START, 3, Track("m", payload, 0)) == Tracked(payload)
  {
  }

  lemma RescoresLate(payload: Payload)
    ensures !Orphan(Cleared(payload).keys, "m")
    ensures Orphan(Apply(Cleared(payload), 3, Rescore(1, 5, true)).keys, "m")
  {
  }

  /** The ACK comes between the push and the new score: the pending set is not always covered by the index. */
  lemma OrphanExample(payload: Payload)
    ensures Apply(START, 3, Track("m", payload, 0)) == Tracked(payload)
    ensures var s := Run(Run(Tracked(payload), 3, PUSHING), 3, ACKNOWLEDGING);
            !Orphan(s.keys, "m") && Orphan(Apply(s, 3, Rescore(1, 5, true)).keys, "m")
  {
    hide Run, Apply, Tracked, Pushed, Cleared, Orphan;
    TracksFirst(payload);
    Pushes(payload);
    Acknowledged(payload);
    RescoresLate(payload);
  }

  // ---------- cursors and retries ----------

  /** No later run lowers a cursor. */
  lemma {:induction false} CursorsOnlyRise(s: State, maxRetries: nat, steps: seq<Step>, c: string)
    requires Inv(s, maxRetries)
    ensures var t := Run(s, maxRetries, steps);
            && (c in s.keys.acked ==> c in t.keys.acked && t.keys.acked[c] >= s.keys.acked[c])
            && (c in s.stored ==> c in t.stored && t.stored[c] >= s.stored[c])
    decreases steps
  {
    hide Apply, IndexOk, CursorsOk, GrantsOk, RetriersOk;
    if |steps| > 0 {
      TouchesCursors(s, maxRetries, steps[0]);
      StepKeeps(s, maxRetries, steps[0]);
      CursorsOnlyRise(Apply(s, maxRetries, steps[0]), maxRetries, steps[1..], c);
    }
  }

  /**
   In every reachable state: cursors stand at tracked messages, pushes carry tracked payloads, and grants are bounded.
   */
  lemma RetriesAreBounded(maxRetries: nat, steps: seq<Step>, id: string, c: string, i: nat)
    ensures var s := Run(START, maxRetries, steps);
            && Count(s.granted, id) <= maxRetries
            && (i < |s.pushed| ==> s.pushed[i] in s.tracked)
            && (c in s.keys.acked ==> At(s, c, s.keys.acked[c]))
            && (c in s.stored ==> At(s, c, s.stored[c]))
  {
    hide At;
    Reachable(maxRetries, steps);
    assert GrantOk(Run(START, maxRetries, steps), maxRetries, id);
  }
}
