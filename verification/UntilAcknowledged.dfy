/**
 Acceptance, delivery and acknowledgement together: each run of the tracking script in the delivery pipeline is one in
 the recipient's Redis keys, where retry loops and ACK handlers of the gateways work at the same time.
 */
module UntilAcknowledged {
  import opened Wrappers
  import Acceptance
  import EndToEnd
  import Runs = NoLostDeliveryRuns
  import Outbox = DeliveryOutbox
  import Pipeline = DeliveryPipeline
  import PendingAck

  /** What has happened to each user's keys, beside the two models of module EndToEnd. */
  datatype World = World(system: EndToEnd.World, users: map<string, seq<PendingAck.Step>>)

  /** A move of the system, at a time, or one of a gateway in one user's keys. */
  datatype Move = Whole(move: EndToEnd.Move, now: int) | Gateway(user: string, step: PendingAck.Step)

  function Start(fold: string -> string): World
  {
    World(EndToEnd.Start(fold), map[])
  }

  function Trace(users: map<string, seq<PendingAck.Step>>, user: string): seq<PendingAck.Step>
  {
    if user in users then users[user] else []
  }

  /** The pair whose tracking script the step runs, if it runs one. */
  function TrackedBy(d: Pipeline.State, step: Pipeline.Step): Option<Pipeline.Pair>
  {
    match step
    case TrackNext(w, written, ok) => if written || ok then NextOf(d, w) else None
    case Deliver(c, written, ok) => if written || ok then HeldBy(d, c) else None
    case _ => None
  }

  function NextOf(d: Pipeline.State, w: nat): Option<Pipeline.Pair>
  {
    match Outbox.WorkerOf(d.outbox, w)
    case Claimed(event, _, _) =>
      var index := Pipeline.ProgressOf(d, w).index;
      if index < |event.recipients| then Some(Pipeline.Pair(event.messageId, event.recipients[index])) else None
    case _ => None
  }

  function HeldBy(d: Pipeline.State, c: nat): Option<Pipeline.Pair>
  {
    var me := Pipeline.ConsumerOf(d, c);
    if Pipeline.Current(d, me).Some? && me.at.Owner? then Pipeline.Current(d, me) else None
  }

  /** `payload` is what each message looks like on the wire. */
  function Apply(w: World, maxAttempts: nat, payload: string -> PendingAck.Payload, move: Move): World
  {
    match move
    case Gateway(user, step) =>
      if step.Track? then w else w.(users := w.users[user := Trace(w.users, user) + [step]])
    case Whole(moved, now) =>
      var next := EndToEnd.Apply(w.system, maxAttempts, moved);
      match if moved.Delivery? then TrackedBy(w.system.delivery, moved.sent) else None
      case None => w.(system := next)
      case Some(pair) =>
        var script := PendingAck.Track(pair.messageId, payload(pair.messageId), now);
        World(next, w.users[pair.recipient := Trace(w.users, pair.recipient) + [script]])
  }

  function Run(w: World, maxAttempts: nat, payload: string -> PendingAck.Payload, moves: seq<Move>): World
    decreases moves
  {
    if |moves| == 0 then w else Run(Apply(w, maxAttempts, payload, moves[0]), maxAttempts, payload, moves[1..])
  }

  // ---------- tracking in the pipeline ----------

  function Tracks(pair: Option<Pipeline.Pair>): set<Pipeline.Pair>
  {
    if pair.Some? then {pair.value} else {}
  }

  lemma WorkerTracks(d: Pipeline.State, w: nat, written: bool, ok: bool)
    ensures Pipeline.TrackStep(d, w, written, ok).tracked
              == d.tracked + Tracks(TrackedBy(d, Pipeline.TrackNext(w, written, ok)))
  {
  }

  lemma ConsumerTracks(d: Pipeline.State, c: nat, written: bool, ok: bool)
    ensures Pipeline.DeliverStep(d, c, written, ok).tracked
              == d.tracked + Tracks(TrackedBy(d, Pipeline.Deliver(c, written, ok)))
  {
  }

  lemma OutboxTracksNothing(d: Pipeline.State, step: Outbox.Step)
    ensures Pipeline.WorkerStep(d, step).tracked == d.tracked
  {
    hide Outbox.Apply, Pipeline.HandedOver;
  }

  lemma LeasesTrackNothing(d: Pipeline.State, c: nat, owner: nat, written: bool, ok: bool)
    ensures Pipeline.ClaimStep(d, c, owner, written, ok).tracked == d.tracked
    ensures Pipeline.ReleaseStep(d, c, written).tracked == d.tracked
    ensures Pipeline.CompleteStep(d, c, written, ok).tracked == d.tracked
  {
  }

  lemma RecordsTrackNothing(d: Pipeline.State, maxAttempts: nat, k: nat, index: nat, written: bool, ok: bool)
    ensures Pipeline.PublishStep(d, k, index, written, ok).tracked == d.tracked
    ensures Pipeline.FailureStep(d, maxAttempts, k, index, written, ok).tracked == d.tracked
    ensures Pipeline.CommitStep(d, k, written, ok).tracked == d.tracked
  {
  }

  lemma StepTracks(d: Pipeline.State, maxAttempts: nat, step: Pipeline.Step)
    ensures Pipeline.Apply(d, maxAttempts, step).tracked == d.tracked + Tracks(TrackedBy(d, step))
  {
    hide Pipeline.Current, Pipeline.TrackStep, Pipeline.DeliverStep, Pipeline.WorkerStep, Pipeline.ClaimStep,
      Pipeline.ReleaseStep, Pipeline.CompleteStep, Pipeline.PublishStep, Pipeline.FailureStep, Pipeline.CommitStep,
      NextOf, HeldBy;
    match step
    case TrackNext(w, written, ok) => WorkerTracks(d, w, written, ok);
    case Deliver(c, written, ok) => ConsumerTracks(d, c, written, ok);
    case OutboxStep(outboxStep) => OutboxTracksNothing(d, outboxStep);
    case ClaimRecipient(c, owner, written, ok) => LeasesTrackNothing(d, c, owner, written, ok);
    case Release(c, written) => LeasesTrackNothing(d, c, 0, written, true);
    case Complete(c, written, ok) => LeasesTrackNothing(d, c, 0, written, ok);
    case Publish(w, index, written, ok) => RecordsTrackNothing(d, maxAttempts, w, index, written, ok);
    case WriteFailure(c, index, written, ok) => RecordsTrackNothing(d, maxAttempts, c, index, written, ok);
    case Commit(c, written, ok) => RecordsTrackNothing(d, maxAttempts, c, 0, written, ok);
    case _ =>
  }

  // ---------- one user's keys ----------

  /** Tracking scripts carry the messages' own payloads. */
  ghost predicate Faithful(payload: string -> PendingAck.Payload, trace: seq<PendingAck.Step>)
  {
    forall i | 0 <= i < |trace| && trace[i].Track? :: trace[i].payload == payload(trace[i].id)
  }

  ghost predicate TrackedAt(trace: seq<PendingAck.Step>, i: nat, id: string)
  {
    i < |trace| && trace[i].Track? && trace[i].id == id
  }

  ghost predicate OnlyPayloads(s: PendingAck.State, payload: string -> PendingAck.Payload)
  {
    forall pair | pair in s.tracked :: pair.1 == payload(pair.0)
  }

  lemma GatewaysTrackNothing(s: PendingAck.State, maxRetries: nat, step: PendingAck.Step)
    ensures PendingAck.Apply(s, maxRetries, step).tracked
              == s.tracked + if step.Track? then {(step.id, step.payload)} else {}
  {
    hide PendingAck.RaiseTo, PendingAck.FrameFrom, PendingAck.AckScript, PendingAck.TrackScript;
  }

  lemma {:induction false} PayloadsOnly(s: PendingAck.State, maxRetries: nat, payload: string -> PendingAck.Payload,
      trace: seq<PendingAck.Step>)
    requires Faithful(payload, trace) && OnlyPayloads(s, payload)
    ensures OnlyPayloads(PendingAck.Run(s, maxRetries, trace), payload)
    decreases trace
  {
    hide PendingAck.Apply;
    if |trace| > 0 {
      GatewaysTrackNothing(s, maxRetries, trace[0]);
      PayloadsOnly(PendingAck.Apply(s, maxRetries, trace[0]), maxRetries, payload, trace[1..]);
    }
  }

  /** The message is pending and its payload can be read: the next replay sends it. */
  predicate Replayable(maxRetries: nat, trace: seq<PendingAck.Step>, id: string, payload: PendingAck.Payload)
  {
    var keys := PendingAck.Run(PendingAck.START, maxRetries, trace).keys;
    id in keys.pending && id in keys.index && keys.index[id] == payload
  }

  /** The ACK script of the message has run after its i-th entry of the trace, a tracking script. */
  ghost predicate AckedAfter(maxRetries: nat, trace: seq<PendingAck.Step>, i: nat, id: string)
    requires i < |trace|
  {
    var s := PendingAck.Run(PendingAck.START, maxRetries, trace[..i + 1]);
    !PendingAck.NeverAcknowledged(s, maxRetries, trace[i + 1..], id)
  }

  ghost predicate Acked(maxRetries: nat, trace: seq<PendingAck.Step>, id: string)
  {
    exists i: nat :: TrackedAt(trace, i, id) && AckedAfter(maxRetries, trace, i, id)
  }

  lemma KeptOrAcked(maxRetries: nat, payload: string -> PendingAck.Payload, trace: seq<PendingAck.Step>, i: nat,
      id: string)
    requires Faithful(payload, trace) && TrackedAt(trace, i, id)
    ensures Replayable(maxRetries, trace, id, payload(id)) || Acked(maxRetries, trace, id)
  {
    hide PendingAck.Apply, PendingAck.Run, PendingAck.Inv, PendingAck.NeverAcknowledged;
    if !AckedAfter(maxRetries, trace, i, id) {
      var before, script, after := trace[..i], trace[i], trace[i + 1..];
      var s := PendingAck.Run(PendingAck.START, maxRetries, before);
      assert trace[..i + 1] == before + [script] && trace == trace[..i + 1] + after;
      PendingAck.RunConcat(PendingAck.START, maxRetries, before, [script]);
      RunOne(s, maxRetries, script);
      PendingAck.RunConcat(PendingAck.START, maxRetries, trace[..i + 1], after);
      PendingAck.TrackedStaysReplayable(maxRetries, before, id, payload(id), script.now, after);
      IndexedPayload(maxRetries, payload, before, id);
    }
  }

  lemma RunOne(s: PendingAck.State, maxRetries: nat, step: PendingAck.Step)
    ensures PendingAck.Run(s, maxRetries, [step]) == PendingAck.Apply(s, maxRetries, step)
  {
    hide PendingAck.Apply;
    assert [step][1..] == [];
    assert PendingAck.Run(PendingAck.Apply(s, maxRetries, step), maxRetries, []) ==
           PendingAck.Apply(s, maxRetries, step);
  }

  lemma IndexedPayload(maxRetries: nat, payload: string -> PendingAck.Payload, trace: seq<PendingAck.Step>, id: string)
    requires Faithful(payload, trace)
    ensures var s := PendingAck.Run(PendingAck.START, maxRetries, trace);
            id in s.keys.index ==> s.keys.index[id] == payload(id)
  {
    hide PendingAck.Run, PendingAck.InHandOk, PendingAck.CursorsOk, PendingAck.GrantsOk;
    PayloadsOnly(PendingAck.START, maxRetries, payload, trace);
    PendingAck.Reachable(maxRetries, trace);
    var s := PendingAck.Run(PendingAck.START, maxRetries, trace);
    if id in s.keys.index { assert (id, s.keys.index[id]) in s.tracked; }
  }

  // ---------- the invariant of the whole ----------

  ghost predicate Recorded(users: map<string, seq<PendingAck.Step>>, pair: Pipeline.Pair)
  {
    exists i: nat :: TrackedAt(Trace(users, pair.recipient), i, pair.messageId)
  }

  ghost predicate UsersOk(w: World, payload: string -> PendingAck.Payload)
  {
    && (forall user | user in w.users :: Faithful(payload, w.users[user]))
    && (forall pair | pair in w.system.delivery.tracked :: Recorded(w.users, pair))
  }

  lemma SystemTracks(w: EndToEnd.World, maxAttempts: nat, move: EndToEnd.Move)
    ensures EndToEnd.Apply(w, maxAttempts, move).delivery.tracked
              == w.delivery.tracked + Tracks(if move.Delivery? then TrackedBy(w.delivery, move.sent) else None)
  {
    hide Acceptance.Apply, Pipeline.Apply, Acceptance.StoredBy, NextOf, HeldBy;
    match move
    case Delivery(sent) => StepTracks(w.delivery, maxAttempts, sent);
    case Logic(step, _, _, _, _) =>
      var stored := Acceptance.StoredBy(w.logic, step);
      if stored.Some? { StepTracks(w.delivery, maxAttempts, EndToEnd.Enqueued(move, stored.value.messageId)); }
  }

  lemma Appends(users: map<string, seq<PendingAck.Step>>, payload: string -> PendingAck.Payload, user: string,
      step: PendingAck.Step)
    requires forall u | u in users :: Faithful(payload, users[u])
    requires step.Track? ==> step.payload == payload(step.id)
    ensures var more := users[user := Trace(users, user) + [step]];
            && (forall u | u in more :: Faithful(payload, more[u]))
            && (forall pair | Recorded(users, pair) :: Recorded(more, pair))
            && (step.Track? ==> Recorded(more, Pipeline.Pair(step.id, user)))
  {
    var more := users[user := Trace(users, user) + [step]];
    forall pair | Recorded(users, pair) ensures Recorded(more, pair) {
      var i: nat :| TrackedAt(Trace(users, pair.recipient), i, pair.messageId);
      assert TrackedAt(Trace(more, pair.recipient), i, pair.messageId);
    }
    if step.Track? { assert TrackedAt(Trace(more, user), |Trace(users, user)|, step.id); }
  }

  ghost predicate Inv(w: World, maxAttempts: nat, payload: string -> PendingAck.Payload)
  {
    EndToEnd.Inv(w.system, maxAttempts) && UsersOk(w, payload)
  }

  lemma MoveKeeps(w: World, maxAttempts: nat, payload: string -> PendingAck.Payload, move: Move)
    requires Inv(w, maxAttempts, payload)
    ensures Inv(Apply(w, maxAttempts, payload, move), maxAttempts, payload)
  {
    hide EndToEnd.Inv, EndToEnd.Apply, TrackedBy, Recorded, Faithful;
    match move
    case Gateway(user, step) => if !step.Track? { Appends(w.users, payload, user, step); }
    case Whole(moved, now) =>
      EndToEnd.MoveKeeps(w.system, maxAttempts, moved);
      SystemTracks(w.system, maxAttempts, moved);
      if moved.Delivery? && TrackedBy(w.system.delivery, moved.sent).Some? {
        var pair := TrackedBy(w.system.delivery, moved.sent).value;
        Appends(w.users, payload, pair.recipient, PendingAck.Track(pair.messageId, payload(pair.messageId), now));
      }
  }

  lemma {:induction false} RunKeeps(w: World, maxAttempts: nat, payload: string -> PendingAck.Payload, moves: seq<Move>)
    requires Inv(w, maxAttempts, payload)
    ensures Inv(Run(w, maxAttempts, payload, moves), maxAttempts, payload)
    decreases moves
  {
    hide Inv, Apply;
    if |moves| > 0 {
      MoveKeeps(w, maxAttempts, payload, moves[0]);
      RunKeeps(Apply(w, maxAttempts, payload, moves[0]), maxAttempts, payload, moves[1..]);
    }
  }

  // ---------- what a success reply promises ----------

  /** The recipient is accounted for and, once tracked, still gets the message on a replay or has acknowledged it. */
  ghost predicate Reached(w: World, maxRetries: nat, payload: PendingAck.Payload, id: nat, recipient: string)
    requires id in w.system.delivery.outbox.rows
  {
    var d, trace := w.system.delivery, Trace(w.users, recipient);
    var messageId := d.outbox.rows[id].messageId;
    && Runs.Accounted(d, id, recipient)
    && (Pipeline.Pair(messageId, recipient) in d.tracked ==>
          Replayable(maxRetries, trace, messageId, payload) || Acked(maxRetries, trace, messageId))
  }

  ghost predicate Promised(w: World, maxRetries: nat, payload: string -> PendingAck.Payload, messageId: string)
  {
    var rows := w.system.delivery.outbox.rows;
    exists id :: id in rows && rows[id].messageId == messageId
                 && forall recipient | recipient in rows[id].recipients ::
                      Reached(w, maxRetries, payload(messageId), id, recipient)
  }

  /**
   A success reply promises the message itself: in every reachable state it is stored, has its outbox row, and each
   recipient of the row's snapshot is still owed the message by a row, a record or a dead letter, or can be replayed it
   with its payload, or has acknowledged it after it was tracked.
   */
  lemma AcceptedUntilAcknowledged(fold: string -> string, maxAttempts: nat, maxRetries: nat,
      payload: string -> PendingAck.Payload, moves: seq<Move>, key: Acceptance.Key)
    ensures var w := Run(Start(fold), maxAttempts, payload, moves); var k := Acceptance.Folded(w.system.logic, key);
            key in w.system.logic.accepted ==>
              k in w.system.logic.rows && Promised(w, maxRetries, payload, w.system.logic.rows[k].messageId)
  {
    hide Run, EndToEnd.Inv, Acceptance.Folded, Runs.Accounted, Replayable, Acked;
    EndToEnd.StartOk(fold, maxAttempts);
    RunKeeps(Start(fold), maxAttempts, payload, moves);
    var w := Run(Start(fold), maxAttempts, payload, moves);
    if key in w.system.logic.accepted {
      EndToEnd.AcceptedIsOwed(w.system, maxAttempts, key);
      var d := w.system.delivery;
      var messageId := w.system.logic.rows[Acceptance.Folded(w.system.logic, key)].messageId;
      var id :| id in d.outbox.rows && d.outbox.rows[id].messageId == messageId
                && forall recipient | recipient in d.outbox.rows[id].recipients :: Runs.Accounted(d, id, recipient);
      forall recipient | recipient in d.outbox.rows[id].recipients
        ensures Reached(w, maxRetries, payload(messageId), id, recipient)
      {
        if Pipeline.Pair(messageId, recipient) in d.tracked {
          var i: nat :| TrackedAt(Trace(w.users, recipient), i, messageId);
          KeptOrAcked(maxRetries, payload, Trace(w.users, recipient), i, messageId);
        }
      }
    }
  }
}
