/**
 Accepting a message: reserve the client id in Redis, allocate, record the reservation, store the message with its
 delivery event, commit the Redis record, reply. Requests, including retries of the same message, interleave at every
 command; commands fail with or without effect; keys expire at any time and a request may stop anywhere. Redis compares
 keys exactly, MySQL under the collation of its columns, so spellings that differ in Redis may be equal in MySQL.
 */
module Acceptance {
  import opened Wrappers

  /** The idempotency key: sender and client message id. */
  datatype Key = Key(sender: string, clientId: string)

  /**
   `target` is the conversation computed from sender and recipient; `session` may be empty or supplied by the client.
   */
  datatype Frame = Frame(key: Key, target: string, session: string, number: int, messageId: string)

  /** A row of messages, with its (from_uid, client_msg_id) as inserted. */
  datatype Row = Row(key: Key, messageId: string, session: string, number: int)

  datatype Value = Marker | Record(committed: bool, messageId: string, session: string, number: int)

  datatype Request =
    | Reserving(f: Frame)      // before GET
    | Taking(f: Frame)         // GET found nothing, before SET NX
    | Looking(f: Frame)        // before the look-up by client id
    | Existing(asked: Key, f: Frame)   // f is the stored row; permission check next
    | Allocating(f: Frame)
    | Recording(f: Frame)      // before SET XX of the reservation
    | Saving(f: Frame)
    | Committing(asked: Key, f: Frame) // before SET of the committed record
    | Releasing(asked: Key, f: Frame)  // an error: before the GET of the release
    | Deleting(asked: Key, f: Frame)   // the release saw a pending value, before DEL
    | Replied(key: Key, accepted: bool)

  /** MySQL takes two strings for equal exactly when `fold` maps them alike; `rows` goes by folded keys. */
  datatype State = State(
    fold: string -> string,
    rows: map<Key, Row>,
    events: set<string>,               // message ids with a delivery event
    redis: map<Key, Value>,
    requests: map<nat, Request>,
    accepted: set<Key>)                // keys for which a success reply has been sent

  function Init(fold: string -> string): State
  {
    State(fold, map[], {}, map[], map[], {})
  }

  function Folded(s: State, key: Key): Key
  {
    Key(s.fold(key.sender), s.fold(key.clientId))
  }

  predicate Alike(s: State, a: string, b: string)
  {
    s.fold(a) == s.fold(b)
  }

  datatype SaveOutcome = Fails | Stores | StoresUnanswered

  datatype Step =
    | Start(r: nat, f: Frame)
    | Get(r: nat, ok: bool)
    | SetNX(r: nat, written: bool, ok: bool)
    | LookUp(r: nat, ok: bool)
    | Permit(r: nat, ok: bool)
    | Allocate(r: nat, ok: bool, number: int, messageId: string)
    | Reserve(r: nat, written: bool)
    | Save(r: nat, outcome: SaveOutcome)
    | Commit(r: nat, written: bool)
    | ReleaseGet(r: nat, ok: bool)
    | ReleaseDel(r: nat, written: bool)
    | Crash(r: nat)
    | Expire(key: Key)

  function FrameOf(row: Row): Frame
  {
    Frame(row.key, row.session, row.session, row.number, row.messageId)
  }

  function Put(s: State, r: nat, request: Request): State
  {
    s.(requests := s.requests[r := request])
  }

  function Reply(s: State, r: nat, key: Key, ok: bool): State
  {
    Put(if ok then s.(accepted := s.accepted + {key}) else s, r, Replied(key, ok))
  }

  function GetStep(s: State, r: nat, f: Frame): State
  {
    if f.key !in s.redis then Put(s, r, Taking(f))
    else
      match s.redis[f.key]
      case Marker => Reply(s, r, f.key, false)
      case Record(committed, messageId, session, number) =>
        if !committed && number > 0 then
          if session != "" && session != f.target then Reply(s, r, f.key, false)
          else Put(s, r, Looking(f.(session := session, number := number, messageId := messageId)))
        else Reply(s, r, f.key, true)
  }

  predicate Clashes(s: State, f: Frame)
  {
    exists k | k in s.rows ::
      || Alike(s, s.rows[k].messageId, f.messageId)
      || (Alike(s, s.rows[k].session, f.session) && s.rows[k].number == f.number)
  }

  /** The transaction that inserts the message and its delivery event. */
  function Inserted(s: State, f: Frame): State
  {
    s.(rows := s.rows[Folded(s, f.key) := Row(f.key, f.messageId, f.session, f.number)],
       events := s.events + {f.messageId})
  }

  function SaveStep(s: State, r: nat, f: Frame, outcome: SaveOutcome): State
  {
    if outcome == Fails then Put(s, r, Releasing(f.key, f))
    else if Folded(s, f.key) in s.rows then Put(s, r, Existing(f.key, FrameOf(s.rows[Folded(s, f.key)])))
    else if Clashes(s, f) then Put(s, r, Releasing(f.key, f))
    else Put(Inserted(s, f), r, if outcome == Stores then Committing(f.key, f) else Releasing(f.key, f))
  }

  /** The frame the step stores, if it stores one. */
  function StoredBy(s: State, step: Step): Option<Frame>
  {
    if step.Save? && step.r in s.requests && s.requests[step.r].Saving? then
      var f := s.requests[step.r].f;
      if step.outcome != Fails && Folded(s, f.key) !in s.rows && !Clashes(s, f) then Some(f) else None
    else None
  }

  predicate Pending(value: Value)
  {
    value == Marker || !value.committed
  }

  function Apply(s: State, step: Step): State
  {
    match step
    case Start(r, f) => if r in s.requests then s else Put(s, r, Reserving(f))
    case Crash(r) => s.(requests := s.requests - {r})
    case Expire(key) => s.(redis := s.redis - {key})
    case _ => if step.r in s.requests then Advance(s, s.requests[step.r], step) else s
  }

  /** One command of a request; a command that does not fit where the request is does nothing. */
  function Advance(s: State, request: Request, step: Step): State
    requires !step.Start? && !step.Crash? && !step.Expire?
  {
    match (request, step)
    case (Reserving(f), Get(r, ok)) => if ok then GetStep(s, r, f) else Reply(s, r, f.key, false)
    case (Taking(f), SetNX(r, written, ok)) =>
      var free := f.key !in s.redis;
      var next := if free && (written || ok) then s.(redis := s.redis[f.key := Marker]) else s;
      if ok && free then Put(next, r, Looking(f)) else Reply(next, r, f.key, false)
    case (Looking(f), LookUp(r, ok)) =>
      Put(s, r, if !ok then Releasing(f.key, f)
                else if Folded(s, f.key) in s.rows then Existing(f.key, FrameOf(s.rows[Folded(s, f.key)]))
                else Allocating(f))
    case (Existing(asked, f), Permit(r, ok)) => Put(s, r, if ok then Committing(asked, f) else Releasing(asked, f))
    case (Allocating(f), Allocate(r, ok, number, messageId)) =>
      var placed := if f.session == "" then f.(session := f.target) else f;
      var numbered := if f.number <= 0 then placed.(number := number) else placed;
      var named := if numbered.messageId == "" then numbered.(messageId := messageId) else numbered;
      if !ok || named.number <= 0 then Put(s, r, Releasing(f.key, f)) else Put(s, r, Recording(named))
    case (Recording(f), Reserve(r, written)) =>
      Put(if written && f.key in s.redis
        then s.(redis := s.redis[f.key := Record(false, f.messageId, f.session, f.number)]) else s, r, Saving(f))
    case (Saving(f), Save(r, outcome)) => SaveStep(s, r, f, outcome)
    case (Committing(asked, f), Commit(r, written)) =>
      Reply(if written then s.(redis := s.redis[f.key := Record(true, f.messageId, f.session, f.number)])
        else s, r, asked, true)
    case (Releasing(asked, f), ReleaseGet(r, ok)) =>
      if ok && f.key in s.redis && Pending(s.redis[f.key]) then Put(s, r, Deleting(asked, f))
      else Reply(s, r, asked, false)
    case (Deleting(asked, f), ReleaseDel(r, written)) =>
      Reply(if written then s.(redis := s.redis - {f.key}) else s, r, asked, false)
    case _ => s
  }

  function Run(s: State, steps: seq<Step>): State
    decreases steps
  {
    if |steps| == 0 then s else Run(Apply(s, steps[0]), steps[1..])
  }

  // ---------- the invariant ----------

  /** The frame names exactly the row stored under its key, and that row has its delivery event. */
  predicate Stored(s: State, f: Frame)
  {
    && Folded(s, f.key) in s.rows && s.rows[Folded(s, f.key)] == Row(f.key, f.messageId, f.session, f.number)
    && f.messageId in s.events
  }

  ghost predicate RequestOk(s: State, request: Request)
  {
    match request
    case Existing(asked, f) => Stored(s, f) && Folded(s, asked) == Folded(s, f.key)
    case Committing(asked, f) => Stored(s, f) && Folded(s, asked) == Folded(s, f.key)
    case Recording(f) => f.number > 0
    case Saving(f) => f.number > 0
    case Replied(key, ok) => ok ==> key in s.accepted
    case _ => true
  }

  /** A committed record is the stored row's; a reservation always carries a number. */
  ghost predicate ValueOk(s: State, key: Key, value: Value)
  {
    match value
    case Marker => true
    case Record(committed, messageId, session, number) =>
      if committed then Stored(s, Frame(key, session, session, number, messageId)) else number > 0
  }

  ghost predicate RowsOk(s: State)
  {
    && (forall k | k in s.rows :: s.rows[k].messageId in s.events && Folded(s, s.rows[k].key) == k)
    && (forall j, k | j in s.rows && k in s.rows && j != k ::
          && !Alike(s, s.rows[j].messageId, s.rows[k].messageId)
          && (!Alike(s, s.rows[j].session, s.rows[k].session) || s.rows[j].number != s.rows[k].number))
  }

  ghost predicate AcceptedOk(s: State)
  {
    forall key | key in s.accepted :: Folded(s, key) in s.rows
  }

  ghost predicate Inv(s: State)
  {
    && RowsOk(s)
    && AcceptedOk(s)
    && (forall k | k in s.redis :: ValueOk(s, k, s.redis[k]))
    && (forall r | r in s.requests :: RequestOk(s, s.requests[r]))
  }

  /** Messages and events are only added. */
  ghost predicate Extends(s: State, t: State)
  {
    && t.fold == s.fold
    && (forall k | k in s.rows :: k in t.rows && t.rows[k] == s.rows[k])
    && s.events <= t.events && s.accepted <= t.accepted
  }

  lemma OkExtends(s: State, t: State)
    requires Extends(s, t)
    ensures forall request | RequestOk(s, request) :: RequestOk(t, request)
    ensures forall key, value | ValueOk(s, key, value) :: ValueOk(t, key, value)
  {
  }

  /** Extending the tables and changing one Redis value and one request keeps the invariant if both fit. */
  lemma Fits(s: State, t: State, key: Key, r: nat)
    requires Inv(s) && Extends(s, t) && RowsOk(t) && AcceptedOk(t)
    requires forall k | k in t.redis && k != key :: k in s.redis && t.redis[k] == s.redis[k]
    requires key in t.redis ==> ValueOk(t, key, t.redis[key])
    requires forall q | q in t.requests && q != r :: q in s.requests && t.requests[q] == s.requests[q]
    requires r in t.requests ==> RequestOk(t, t.requests[r])
    ensures Inv(t)
  {
    hide RequestOk, ValueOk, RowsOk;
    OkExtends(s, t);
  }

  lemma RowsSame(s: State, t: State)
    requires RowsOk(s) && t.fold == s.fold && t.rows == s.rows && t.events == s.events
    ensures RowsOk(t)
  {
  }

  lemma InsertKeeps(s: State, f: Frame)
    requires RowsOk(s) && Folded(s, f.key) !in s.rows && !Clashes(s, f)
    ensures RowsOk(Inserted(s, f)) && Extends(s, Inserted(s, f)) && Stored(Inserted(s, f), f)
  {
    var t, k := Inserted(s, f), Folded(s, f.key);
    forall j | j in t.rows
      ensures t.rows[j].messageId in t.events && Folded(t, t.rows[j].key) == j
    {
      if j in s.rows { assert Folded(t, s.rows[j].key) == Folded(s, s.rows[j].key); }
    }
    forall i, j | i in t.rows && j in t.rows && i != j
      ensures !Alike(t, t.rows[i].messageId, t.rows[j].messageId)
      ensures !Alike(t, t.rows[i].session, t.rows[j].session) || t.rows[i].number != t.rows[j].number
    {
      if i != k && j != k {
        assert !Alike(s, s.rows[i].messageId, s.rows[j].messageId);
      } else {
        NoClash(s, f, if i == k then j else i);
      }
    }
  }

  lemma NoClash(s: State, f: Frame, k: Key)
    requires k in s.rows && !Clashes(s, f)
    ensures !Alike(s, s.rows[k].messageId, f.messageId)
    ensures !Alike(s, s.rows[k].session, f.session) || s.rows[k].number != f.number
  {
  }

  lemma SaveKeeps(s: State, r: nat, f: Frame, outcome: SaveOutcome)
    requires Inv(s) && f.number > 0
    ensures Inv(SaveStep(s, r, f, outcome))
  {
    hide RowsOk, Clashes, Inserted;
    var t, k := SaveStep(s, r, f, outcome), Folded(s, f.key);
    if outcome != Fails && k !in s.rows && !Clashes(s, f) {
      InsertKeeps(s, f);
      InsertSaves(s, r, f, if outcome == Stores then Committing(f.key, f) else Releasing(f.key, f));
    } else {
      RowsSame(s, t);
      if k in s.rows { RowIsStored(s, k); }
      Fits(s, t, f.key, r);
    }
  }

  lemma RowIsStored(s: State, k: Key)
    requires RowsOk(s) && k in s.rows
    ensures Stored(s, FrameOf(s.rows[k])) && Folded(s, s.rows[k].key) == k
  {
  }

  lemma InsertSaves(s: State, r: nat, f: Frame, next: Request)
    requires Inv(s) && RowsOk(Inserted(s, f)) && Extends(s, Inserted(s, f)) && Stored(Inserted(s, f), f)
    requires next == Committing(f.key, f) || next == Releasing(f.key, f)
    ensures Inv(Put(Inserted(s, f), r, next))
  {
    hide RowsOk, Folded;
    var t := Put(Inserted(s, f), r, next);
    RowsSame(Inserted(s, f), t);
    AcceptedStays(s, t);
    Fits(s, t, f.key, r);
  }

  lemma AcceptedStays(s: State, t: State)
    requires AcceptedOk(s) && Extends(s, t) && t.accepted == s.accepted
    ensures AcceptedOk(t)
  {
    forall key | key in t.accepted ensures Folded(t, key) in t.rows {
      assert Folded(t, key) == Folded(s, key);
    }
  }

  lemma GetKeeps(s: State, r: nat, f: Frame)
    requires Inv(s)
    ensures Inv(GetStep(s, r, f))
  {
    hide RowsOk;
    RowsSame(s, GetStep(s, r, f));
    Fits(s, GetStep(s, r, f), f.key, r);
  }

  lemma AdvanceKeeps(s: State, request: Request, step: Step)
    requires Inv(s) && !step.Start? && !step.Crash? && !step.Expire? && RequestOk(s, request)
    ensures Inv(Advance(s, request, step))
  {
    hide Inv, RequestOk;
    match request
    case Reserving(f) => if step.Get? { ReservingKeeps(s, f, step); }
    case Taking(f) => if step.SetNX? { TakingKeeps(s, f, step); }
    case Looking(f) => if step.LookUp? { LookUpKeeps(s, step.r, f, step); }
    case Existing(_, _) => if step.Permit? { DecidingKeeps(s, request, step); }
    case Allocating(_) => if step.Allocate? { DecidingKeeps(s, request, step); }
    case Recording(f) => if step.Reserve? { RecordingKeeps(s, f, step); }
    case Saving(f) => if step.Save? { SavingKeeps(s, f, step); }
    case Committing(asked, f) => if step.Commit? { CommittingKeeps(s, asked, f, step); }
    case Releasing(_, _) => if step.ReleaseGet? { ReleasingKeeps(s, request, step); }
    case Deleting(_, _) => if step.ReleaseDel? { ReleasingKeeps(s, request, step); }
    case Replied(_, _) =>
  }

  lemma ReservingKeeps(s: State, f: Frame, step: Step)
    requires Inv(s) && step.Get?
    ensures Inv(Advance(s, Reserving(f), step))
  {
    hide GetStep, RowsOk;
    GetKeeps(s, step.r, f);
    var refused := Reply(s, step.r, f.key, false);
    RowsSame(s, refused);
    Fits(s, refused, f.key, step.r);
  }

  lemma SavingKeeps(s: State, f: Frame, step: Step)
    requires Inv(s) && step.Save? && RequestOk(s, Saving(f))
    ensures Inv(Advance(s, Saving(f), step))
  {
    hide SaveStep, Inv;
    SaveKeeps(s, step.r, f, step.outcome);
  }

  lemma TakingKeeps(s: State, f: Frame, step: Step)
    requires Inv(s) && step.SetNX?
    ensures Inv(Advance(s, Taking(f), step))
  {
    hide RowsOk, AcceptedOk;
    var t := Advance(s, Taking(f), step);
    RowsSame(s, t);
    AcceptedStays(s, t);
    Fits(s, t, f.key, step.r);
  }

  lemma RecordingKeeps(s: State, f: Frame, step: Step)
    requires Inv(s) && step.Reserve? && RequestOk(s, Recording(f))
    ensures Inv(Advance(s, Recording(f), step))
  {
    hide RowsOk, AcceptedOk;
    var t := Advance(s, Recording(f), step);
    RowsSame(s, t);
    AcceptedStays(s, t);
    Fits(s, t, f.key, step.r);
  }

  lemma CommittingKeeps(s: State, asked: Key, f: Frame, step: Step)
    requires Inv(s) && step.Commit? && RequestOk(s, Committing(asked, f))
    ensures Inv(Advance(s, Committing(asked, f), step))
  {
    hide RowsOk;
    var t := Advance(s, Committing(asked, f), step);
    RowsSame(s, t);
    Fits(s, t, f.key, step.r);
  }

  /** Commands that only decide. */
  lemma DecidingKeeps(s: State, request: Request, step: Step)
    requires Inv(s) && RequestOk(s, request)
    requires (request.Existing? && step.Permit?) || (request.Allocating? && step.Allocate?)
    ensures Inv(Advance(s, request, step))
  {
    hide RowsOk, AcceptedOk;
    var t := Advance(s, request, step);
    RowsSame(s, t);
    AcceptedStays(s, t);
    Fits(s, t, request.f.key, step.r);
  }

  /** The two commands of a release. */
  lemma ReleasingKeeps(s: State, request: Request, step: Step)
    requires Inv(s) && RequestOk(s, request)
    requires (request.Releasing? && step.ReleaseGet?) || (request.Deleting? && step.ReleaseDel?)
    ensures Inv(Advance(s, request, step))
  {
    hide RowsOk, AcceptedOk, Pending;
    var t := Advance(s, request, step);
    RowsSame(s, t);
    AcceptedStays(s, t);
    Fits(s, t, request.f.key, step.r);
  }

  lemma LookUpKeeps(s: State, r: nat, f: Frame, step: Step)
    requires Inv(s) && step.LookUp? && step.r == r
    ensures Inv(Advance(s, Looking(f), step))
  {
    Fits(s, Advance(s, Looking(f), step), f.key, r);
  }

  lemma StepKeeps(s: State, step: Step)
    requires Inv(s)
    ensures Inv(Apply(s, step))
  {
    hide RequestOk, ValueOk, RowsOk, Advance;
    match step
    case Start(r, f) => if r !in s.requests { StartKeeps(s, r, f); }
    case Crash(r) => OkExtends(s, Apply(s, step)); RowsSame(s, Apply(s, step));
    case Expire(key) => OkExtends(s, Apply(s, step)); RowsSame(s, Apply(s, step));
    case _ => if step.r in s.requests { AdvanceKeeps(s, s.requests[step.r], step); }
  }

  lemma StartKeeps(s: State, r: nat, f: Frame)
    requires Inv(s)
    ensures Inv(Put(s, r, Reserving(f)))
  {
    Fits(s, Put(s, r, Reserving(f)), f.key, r);
  }

  lemma {:induction false} RunKeeps(s: State, steps: seq<Step>)
    requires Inv(s)
    ensures Inv(Run(s, steps))
    decreases steps
  {
    hide Inv, Apply;
    if |steps| > 0 {
      StepKeeps(s, steps[0]);
      RunKeeps(Apply(s, steps[0]), steps[1..]);
    }
  }

  lemma StepExtends(s: State, step: Step)
    ensures Extends(s, Apply(s, step))
  {
  }

  lemma {:induction false} RunExtends(s: State, steps: seq<Step>)
    ensures Extends(s, Run(s, steps))
    decreases steps
  {
    hide Apply;
    if |steps| > 0 {
      StepExtends(s, steps[0]);
      RunExtends(Apply(s, steps[0]), steps[1..]);
    }
  }

  // ---------- what a reply means ----------

  /**
   A success reply is truthful, and stays so: under the key's folded form a message is stored with its delivery event
   and never replaced.
   */
  lemma AcceptedIsStored(fold: string -> string, steps: seq<Step>, more: seq<Step>, key: Key)
    ensures var s := Run(Init(fold), steps); var t := Run(s, more); var k := Folded(s, key);
            key in s.accepted ==>
              && k in s.rows && s.rows[k].messageId in s.events
              && k in t.rows && t.rows[k] == s.rows[k] && t.rows[k].messageId in t.events
  {
    hide Folded;
    RunKeeps(Init(fold), steps);
    RunExtends(Run(Init(fold), steps), more);
  }

  /** A committed Redis record names exactly the stored row, which was inserted under this very spelling of the key. */
  lemma CommittedRecordIsTheRow(fold: string -> string, steps: seq<Step>, key: Key)
    ensures var s := Run(Init(fold), steps); var k := Folded(s, key);
            key in s.redis && s.redis[key].Record? && s.redis[key].committed ==>
              && k in s.rows && s.rows[k].key == key
              && s.redis[key] == Record(true, s.rows[k].messageId, s.rows[k].session, s.rows[k].number)
  {
    RunKeeps(Init(fold), steps);
    var s := Run(Init(fold), steps);
    if key in s.redis { assert ValueOk(s, key, s.redis[key]); }
  }

  /** Sends and retries of one client id share one row; no two rows have a message id or a session number in common. */
  lemma RowsAreDistinct(fold: string -> string, steps: seq<Step>, j: Key, k: Key)
    ensures var s := Run(Init(fold), steps);
            j in s.rows && k in s.rows && j != k ==>
              && !Alike(s, s.rows[j].messageId, s.rows[k].messageId)
              && (!Alike(s, s.rows[j].session, s.rows[k].session) || s.rows[j].number != s.rows[k].number)
  {
    RunKeeps(Init(fold), steps);
  }

  // ---------- attempts at one message ----------

  /** Of two requests that find the client id free only the first to write the marker goes on. */
  lemma OneAttemptGoesOn(s: State, a: nat, b: nat, f: Frame, g: Frame, written: bool, late: Step)
    requires a != b && a in s.requests && b in s.requests && late.SetNX? && late.r == b
    requires s.requests[a] == Taking(f) && s.requests[b] == Taking(g) && f.key == g.key && f.key !in s.redis
    ensures var t := Run(s, [SetNX(a, written, true), late]);
            && t.redis == s.redis[f.key := Marker]
            && t.requests == s.requests[a := Looking(f)][b := Replied(g.key, false)]
  {
    hide GetStep, SaveStep, Pending;
    var first := SetNX(a, written, true);
    var t := Apply(s, first);
    assert t.requests == s.requests[a := Looking(f)] && t.redis == s.redis[f.key := Marker];
    assert Run(s, [first, late]) == Run(t, [late]) == Run(Apply(t, late), []) by {
      assert [first, late][1..] == [late];
    }
  }

  /** An attempt that stops after writing its reservation leaves number, id and conversation to the next attempt. */
  lemma ReservationIsTakenUp(s: State, a: nat, b: nat, f: Frame, g: Frame)
    requires a in s.requests && b !in s.requests && s.requests[a] == Recording(f) && f.number > 0
    requires f.key in s.redis && g.key == f.key && f.session in {"", g.target}
    ensures var t := Run(s, [Reserve(a, true), Crash(a), Start(b, g), Get(b, true)]);
            && b in t.requests
            && t.requests[b] == Looking(g.(session := f.session, number := f.number, messageId := f.messageId))
  {
    hide SaveStep, Pending;
    var rest1 := [Crash(a), Start(b, g), Get(b, true)];
    assert ([Reserve(a, true)] + rest1)[1..] == rest1;
    assert rest1[1..] == [Start(b, g), Get(b, true)];
    assert rest1[1..][1..] == [Get(b, true)];
    var s1 := Apply(s, Reserve(a, true));
    assert s1.redis[f.key] == Record(false, f.messageId, f.session, f.number);
    var s2 := Apply(s1, Crash(a));
    var s3 := Apply(s2, Start(b, g));
    assert b in s3.requests && s3.requests[b] == Reserving(g);
    var s4 := Apply(s3, Get(b, true));
    assert Run(s, [Reserve(a, true)] + rest1) == Run(s1, rest1) == Run(s2, rest1[1..]) == Run(s3, rest1[1..][1..])
        == Run(s4, []);
    assert [Reserve(a, true)] + rest1 == [Reserve(a, true), Crash(a), Start(b, g), Get(b, true)];
  }
}
