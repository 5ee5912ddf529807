/**
 Acceptance and delivery together: storing a message and enqueuing its delivery event are one transaction, everything
 else interleaves freely.
 */
module EndToEnd {
  import opened Wrappers
  import Acceptance
  import Outbox = DeliveryOutbox
  import Pipeline = DeliveryPipeline
  import NoLost = NoLostDelivery
  import Runs = NoLostDeliveryRuns
  import LogicWorker
  import RecipientNames

  datatype World = World(logic: Acceptance.State, delivery: Pipeline.State)

  /** A logic step comes with the outbox row it would insert; the row's id is the next free number of its table. */
  datatype Move =
    | Logic(step: Acceptance.Step, row: nat, recipients: seq<string>, group: bool, now: int)
    | Delivery(sent: Pipeline.Step)

  function Start(fold: string -> string): World
  {
    World(Acceptance.Init(fold), Pipeline.Init)
  }

  function Enqueued(move: Move, messageId: string): Pipeline.Step
    requires move.Logic?
  {
    Pipeline.OutboxStep(Outbox.Enqueue(move.row, messageId, move.recipients, move.group, move.now))
  }

  function Apply(w: World, maxAttempts: nat, move: Move): World
  {
    match move
    case Logic(step, row, recipients, _, _) =>
      (match Acceptance.StoredBy(w.logic, step)
       case None => w.(logic := Acceptance.Apply(w.logic, step))
       case Some(f) =>
         if row in w.delivery.outbox.rows || !RecipientNames.Named(recipients) then w
         else World(Acceptance.Apply(w.logic, step),
           Pipeline.Apply(w.delivery, maxAttempts, Enqueued(move, f.messageId))))
    case Delivery(step) =>
      if step.OutboxStep? && step.step.Enqueue? then w
      else w.(delivery := Pipeline.Apply(w.delivery, maxAttempts, step))
  }

  function Run(w: World, maxAttempts: nat, moves: seq<Move>): World
    decreases moves
  {
    if |moves| == 0 then w else Run(Apply(w, maxAttempts, moves[0]), maxAttempts, moves[1..])
  }

  // ---------- the link between the two ----------

  ghost predicate HasRow(d: Pipeline.State, messageId: string)
  {
    exists id :: id in d.outbox.rows && d.outbox.rows[id].messageId == messageId
  }

  ghost predicate Linked(w: World)
  {
    forall messageId | messageId in w.logic.events :: HasRow(w.delivery, messageId)
  }

  ghost predicate Inv(w: World, maxAttempts: nat)
  {
    Acceptance.Inv(w.logic) && NoLost.Inv(w.delivery, maxAttempts) && Linked(w)
  }

  lemma EventsOf(s: Acceptance.State, step: Acceptance.Step)
    ensures Acceptance.Apply(s, step).events ==
            match Acceptance.StoredBy(s, step) { case None => s.events case Some(f) => s.events + {f.messageId} }
  {
    hide Acceptance.GetStep, Acceptance.Clashes, Acceptance.Pending;
    if step.Get? && step.r in s.requests && s.requests[step.r].Reserving? {
      GetStores(s, step.r, s.requests[step.r].f);
    }
  }

  lemma GetStores(s: Acceptance.State, r: nat, f: Acceptance.Frame)
    ensures Acceptance.GetStep(s, r, f).events == s.events
  {
  }

  /** Outbox rows are never deleted and keep their message. */
  ghost predicate RowsStay(s: Pipeline.State, t: Pipeline.State)
  {
    forall id | id in s.outbox.rows :: id in t.outbox.rows && t.outbox.rows[id].messageId == s.outbox.rows[id].messageId
  }

  lemma OutboxRowsStay(s: Outbox.State, step: Outbox.Step)
    ensures forall id | id in s.rows ::
              id in Outbox.Apply(s, step).rows && Outbox.Apply(s, step).rows[id].messageId == s.rows[id].messageId
  {
  }

  lemma WorkerRowsStay(s: Pipeline.State, step: Outbox.Step)
    ensures RowsStay(s, Pipeline.WorkerStep(s, step))
  {
    hide Outbox.Apply, Pipeline.HandedOver;
    OutboxRowsStay(s.outbox, step);
  }

  lemma StepRowsStay(s: Pipeline.State, maxAttempts: nat, step: Pipeline.Step)
    ensures RowsStay(s, Pipeline.Apply(s, maxAttempts, step))
  {
    if step.OutboxStep? {
      hide Pipeline.WorkerStep;
      WorkerRowsStay(s, step.step);
    } else {
      OthersKeepOutbox(s, maxAttempts, step);
    }
  }

  lemma OthersKeepOutbox(s: Pipeline.State, maxAttempts: nat, step: Pipeline.Step)
    requires !step.OutboxStep?
    ensures Pipeline.Apply(s, maxAttempts, step).outbox == s.outbox
  {
    hide Pipeline.Apply;
    if LogicWorker.ConsumerStep(step) {
      LogicWorker.ConsumersLeave(s, maxAttempts, step);
    } else {
      LogicWorker.HandOverLeaves(s, 0, step);
    }
  }

  lemma EnqueuedHasRow(d: Pipeline.State, maxAttempts: nat, move: Move, messageId: string)
    requires move.Logic? && move.row !in d.outbox.rows && RecipientNames.Named(move.recipients)
    ensures HasRow(Pipeline.Apply(d, maxAttempts, Enqueued(move, messageId)), messageId)
  {
    var t := Pipeline.Apply(d, maxAttempts, Enqueued(move, messageId));
    assert move.row in t.outbox.rows && t.outbox.rows[move.row].messageId == messageId;
  }

  lemma StillHasRow(s: Pipeline.State, t: Pipeline.State, messageId: string)
    requires RowsStay(s, t) && HasRow(s, messageId)
    ensures HasRow(t, messageId)
  {
    var id :| id in s.outbox.rows && s.outbox.rows[id].messageId == messageId;
    assert id in t.outbox.rows;
  }

  lemma MoveKeeps(w: World, maxAttempts: nat, move: Move)
    requires Inv(w, maxAttempts)
    ensures Inv(Apply(w, maxAttempts, move), maxAttempts)
  {
    hide Acceptance.Inv, NoLost.Inv, Acceptance.Apply, Acceptance.StoredBy, Pipeline.Apply, HasRow, RowsStay,
      RecipientNames.Named, Enqueued;
    var t := Apply(w, maxAttempts, move);
    match move
    case Logic(step, row, recipients, _, _) =>
      Acceptance.StepKeeps(w.logic, step);
      EventsOf(w.logic, step);
      var stored := Acceptance.StoredBy(w.logic, step);
      if stored.Some? && t != w {
        var messageId := stored.value.messageId;
        var enqueued := Enqueued(move, messageId);
        Runs.StepKeeps(w.delivery, maxAttempts, enqueued);
        StepRowsStay(w.delivery, maxAttempts, enqueued);
        EnqueuedHasRow(w.delivery, maxAttempts, move, messageId);
        forall other | other in t.logic.events ensures HasRow(t.delivery, other) {
          if other in w.logic.events { StillHasRow(w.delivery, t.delivery, other); }
        }
      }
    case Delivery(step) =>
      if t != w {
        Runs.StepKeeps(w.delivery, maxAttempts, step);
        StepRowsStay(w.delivery, maxAttempts, step);
        forall messageId | messageId in t.logic.events ensures HasRow(t.delivery, messageId) {
          StillHasRow(w.delivery, t.delivery, messageId);
        }
      }
  }

  lemma {:induction false} RunKeeps(w: World, maxAttempts: nat, moves: seq<Move>)
    requires Inv(w, maxAttempts)
    ensures Inv(Run(w, maxAttempts, moves), maxAttempts)
    decreases moves
  {
    hide Inv, Apply;
    if |moves| > 0 {
      MoveKeeps(w, maxAttempts, moves[0]);
      RunKeeps(Apply(w, maxAttempts, moves[0]), maxAttempts, moves[1..]);
    }
  }

  lemma StartOk(fold: string -> string, maxAttempts: nat)
    ensures Inv(Start(fold), maxAttempts)
  {
  }

  /** The message has an outbox row, and none of the row's recipients is forgotten. */
  ghost predicate Owed(d: Pipeline.State, messageId: string)
  {
    exists id :: id in d.outbox.rows && d.outbox.rows[id].messageId == messageId
                 && forall recipient | recipient in d.outbox.rows[id].recipients :: Runs.Accounted(d, id, recipient)
  }

  lemma AcceptedIsOwed(w: World, maxAttempts: nat, key: Acceptance.Key)
    requires Inv(w, maxAttempts) && key in w.logic.accepted
    ensures var k := Acceptance.Folded(w.logic, key);
            k in w.logic.rows && Owed(w.delivery, w.logic.rows[k].messageId)
  {
    hide NoLost.Inv, Runs.Accounted, Acceptance.Folded;
    var messageId := w.logic.rows[Acceptance.Folded(w.logic, key)].messageId;
    assert HasRow(w.delivery, messageId);
    var id :| id in w.delivery.outbox.rows && w.delivery.outbox.rows[id].messageId == messageId;
    forall recipient | recipient in w.delivery.outbox.rows[id].recipients
      ensures Runs.Accounted(w.delivery, id, recipient)
    {
      Runs.InvAccounts(w.delivery, maxAttempts, id, recipient);
    }
  }

  /**
   A success reply promises delivery: in every reachable state the replied key's message is stored, has its outbox row,
   and for each recipient of the row's snapshot the row is not done, or the recipient has been tracked, is
   dead-lettered, or is carried by a record no consumer group has committed.
   */
  lemma AcceptedIsDelivered(fold: string -> string, maxAttempts: nat, moves: seq<Move>, key: Acceptance.Key)
    ensures var w := Run(Start(fold), maxAttempts, moves); var k := Acceptance.Folded(w.logic, key);
            key in w.logic.accepted ==> k in w.logic.rows && Owed(w.delivery, w.logic.rows[k].messageId)
  {
    hide NoLost.Inv, Runs.Accounted, Run, Acceptance.Folded;
    StartOk(fold, maxAttempts);
    RunKeeps(Start(fold), maxAttempts, moves);
    var w := Run(Start(fold), maxAttempts, moves);
    if key in w.logic.accepted { AcceptedIsOwed(w, maxAttempts, key); }
  }
}
