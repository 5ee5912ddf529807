/**
 Acceptance and the session counters together: a request takes its number from the counter of its conversation, from its
 own client or from an earlier attempt, and the counters are initialised from the stored messages.
 */
module SessionNumbers {
  import opened Wrappers
  import opened Acceptance
  import Sequence
  import PushMessage
  import ClientIds

  /** A number in a conversation. */
  datatype Place = Place(session: string, number: int)

  /** The places that clients supplied, and the client id each number from a counter was given to. */
  datatype Books = Books(supplied: set<Place>, owner: map<Place, Key>)

  datatype World = World(logic: State, counters: map<string, Sequence.State>, books: Books)

  /** A counter's replica is the request of the same number. */
  datatype Move = Logic(step: Step) | Counter(session: string, command: Sequence.Step)

  function Begin(fold: string -> string): World
  {
    World(Init(fold), map[], Books({}, map[]))
  }

  function SessionOf(f: Frame): string
  {
    if f.session == "" then f.target else f.session
  }

  function PlaceOf(f: Frame): Place
  {
    Place(SessionOf(f), f.number)
  }

  function CounterOf(w: World, session: string): Sequence.State
  {
    if session in w.counters then w.counters[session] else Sequence.Start([])
  }

  /** A stored number counts for the next SELECT MAX, whoever supplied it. */
  function Counted(c: Sequence.State, number: int): Sequence.State
  {
    if number <= 0 then c else Sequence.Apply(c, Sequence.ClientNumber(number))
  }

  function Announced(b: Books, f: Frame): Books
  {
    if f.number > 0 then b.(supplied := b.supplied + {PlaceOf(f)}) else b
  }

  /** A request without a number gets the one its replica holds. */
  function Allocates(w: World, step: Step, f: Frame): World
    requires step.Allocate? && step.number > 0
  {
    var session := SessionOf(f);
    if Sequence.ReplicaOf(CounterOf(w, session), step.r) != Sequence.Holding(step.number) then w
    else World(Acceptance.Apply(w.logic, step),
               w.counters[session := Sequence.Apply(CounterOf(w, session), Sequence.Abandon(step.r))],
               w.books.(owner := w.books.owner[Place(session, step.number) := f.key]))
  }

  function LogicMove(w: World, step: Step): World
  {
    var moved := w.(logic := Acceptance.Apply(w.logic, step));
    match step
    case Start(r, f) =>
      if f.target == "" then w
      else if r in w.logic.requests then moved else moved.(books := Announced(w.books, f))
    case Allocate(r, ok, number, _) =>
      if ok && number > 0 && r in w.logic.requests && w.logic.requests[r].Allocating?
         && w.logic.requests[r].f.number <= 0
      then Allocates(w, step, w.logic.requests[r].f) else moved
    case Save(_, _) =>
      (match StoredBy(w.logic, step)
       case None => moved
       case Some(f) => moved.(counters := w.counters[f.session := Counted(CounterOf(w, f.session), f.number)]))
    case _ => moved
  }

  function Apply(w: World, move: Move): World
  {
    match move
    case Logic(step) => LogicMove(w, step)
    case Counter(session, command) =>
      if command.Commit? || command.ClientNumber? then w
      else w.(counters := w.counters[session := Sequence.Apply(CounterOf(w, session), command)])
  }

  function Run(w: World, moves: seq<Move>): World
    decreases moves
  {
    if |moves| == 0 then w else Run(Apply(w, moves[0]), moves[1..])
  }

  /** Counters are lost, and numbers from clients stored, only where that is harmless for the counter. */
  ghost predicate Tolerable(w: World, move: Move)
  {
    match move
    case Counter(session, command) => command.LoseKey? ==> Sequence.LossTolerable(CounterOf(w, session))
    case Logic(step) =>
      (match StoredBy(w.logic, step)
       case None => true
       case Some(f) =>
         f.number > 0 && PlaceOf(f) in w.books.supplied ==>
           Sequence.ClientTolerable(CounterOf(w, f.session), f.number))
  }

  ghost predicate TolerableRun(w: World, moves: seq<Move>)
    decreases moves
  {
    |moves| == 0 || (Tolerable(w, moves[0]) && TolerableRun(Apply(w, moves[0]), moves[1..]))
  }

  // ---------- who has which number ----------

  /** The number comes from a client, or was given to this key. */
  ghost predicate Belongs(b: Books, key: Key, place: Place)
  {
    place in b.supplied || (place in b.owner && b.owner[place] == key)
  }

  ghost predicate FrameFits(b: Books, f: Frame)
  {
    f.target != "" && (f.number > 0 ==> Belongs(b, f.key, PlaceOf(f)))
  }

  ghost predicate RequestFits(b: Books, request: Request)
  {
    match request
    case Reserving(f) => FrameFits(b, f)
    case Taking(f) => FrameFits(b, f)
    case Looking(f) => FrameFits(b, f)
    case Allocating(f) => FrameFits(b, f)
    case Recording(f) => FrameFits(b, f) && f.session != "" && f.number > 0
    case Saving(f) => FrameFits(b, f) && f.session != "" && f.number > 0
    case _ => true
  }

  ghost predicate ValueFits(b: Books, key: Key, value: Value)
  {
    value.Record? && !value.committed && value.number > 0 ==>
      value.session != "" && Belongs(b, key, Place(value.session, value.number))
  }

  ghost predicate RowFits(b: Books, row: Row)
  {
    row.number > 0 && Belongs(b, row.key, Place(row.session, row.number))
  }

  ghost predicate Placed(s: State, b: Books)
  {
    && (forall k | k in s.rows :: RowFits(b, s.rows[k]))
    && (forall key | key in s.redis :: ValueFits(b, key, s.redis[key]))
    && (forall r | r in s.requests :: RequestFits(b, s.requests[r]))
  }

  lemma PutPlaced(s: State, b: Books, r: nat, request: Request)
    requires Placed(s, b) && RequestFits(b, request)
    ensures Placed(Put(s, r, request), b)
  {
  }

  lemma GetPlaced(s: State, b: Books, r: nat, f: Frame)
    requires Placed(s, b) && FrameFits(b, f)
    ensures Placed(GetStep(s, r, f), b)
  {
    hide Belongs;
    if f.key in s.redis { assert ValueFits(b, f.key, s.redis[f.key]); }
  }

  lemma SavePlaced(s: State, b: Books, r: nat, f: Frame, outcome: SaveOutcome)
    requires Placed(s, b) && FrameFits(b, f) && f.session != "" && f.number > 0
    ensures Placed(SaveStep(s, r, f, outcome), b)
  {
    hide Belongs, Clashes, Folded;
  }

  /** The number the step brings, if it brings one, belongs to the request's key. */
  ghost predicate NumberFits(b: Books, request: Request, step: Step)
  {
    step.Allocate? && step.ok && step.number > 0 && request.Allocating? && request.f.number <= 0 ==>
      Belongs(b, request.f.key, Place(SessionOf(request.f), step.number))
  }

  lemma AllocatePlaced(s: State, b: Books, f: Frame, step: Step)
    requires Placed(s, b) && FrameFits(b, f) && NumberFits(b, Allocating(f), step) && step.Allocate?
    ensures Placed(Advance(s, Allocating(f), step), b)
  {
    hide Belongs, Placed;
    PutPlaced(s, b, step.r, Advance(s, Allocating(f), step).requests[step.r]);
  }

  /** Only the reservation writes a pending number, the frame's own. */
  lemma RecordPlaced(s: State, b: Books, request: Request, step: Step)
    requires Placed(s, b) && RequestFits(b, request)
    requires (request.Recording? && step.Reserve?) || (request.Committing? && step.Commit?)
    ensures Placed(Advance(s, request, step), b)
  {
    hide Belongs;
  }

  lemma MarkPlaced(s: State, b: Books, request: Request, step: Step)
    requires Placed(s, b) && RequestFits(b, request)
    requires (request.Taking? && step.SetNX?) || (request.Deleting? && step.ReleaseDel?)
    ensures Placed(Advance(s, request, step), b)
  {
    hide Belongs;
  }

  lemma DecidePlaced(s: State, b: Books, request: Request, step: Step)
    requires Placed(s, b) && RequestFits(b, request)
    requires (request.Looking? && step.LookUp?) || (request.Existing? && step.Permit?)
               || (request.Releasing? && step.ReleaseGet?)
    ensures Placed(Advance(s, request, step), b)
  {
    hide Belongs, Folded, Pending;
  }

  lemma AdvancePlaced(s: State, b: Books, request: Request, step: Step)
    requires Placed(s, b) && RequestFits(b, request) && NumberFits(b, request, step)
    requires !step.Start? && !step.Crash? && !step.Expire?
    ensures Placed(Advance(s, request, step), b)
  {
    hide Placed, FrameFits, NumberFits;
    match request
    case Reserving(f) => if step.Get? { ReservePlaced(s, b, f, step); }
    case Allocating(f) => if step.Allocate? { AllocatePlaced(s, b, f, step); }
    case Saving(f) => if step.Save? { hide SaveStep; SavePlaced(s, b, step.r, f, step.outcome); }
    case Looking(_) => if step.LookUp? { DecidePlaced(s, b, request, step); }
    case Existing(_, _) => if step.Permit? { DecidePlaced(s, b, request, step); }
    case Releasing(_, _) => if step.ReleaseGet? { DecidePlaced(s, b, request, step); }
    case Taking(_) => if step.SetNX? { MarkPlaced(s, b, request, step); }
    case Recording(_) => if step.Reserve? { RecordPlaced(s, b, request, step); }
    case Committing(_, _) => if step.Commit? { RecordPlaced(s, b, request, step); }
    case Deleting(_, _) => if step.ReleaseDel? { MarkPlaced(s, b, request, step); }
    case Replied(_, _) =>
  }

  lemma ReservePlaced(s: State, b: Books, f: Frame, step: Step)
    requires Placed(s, b) && FrameFits(b, f) && step.Get?
    ensures Placed(Advance(s, Reserving(f), step), b)
  {
    hide Placed, FrameFits, GetStep;
    GetPlaced(s, b, step.r, f);
    RefusedPlaced(s, b, step.r, f.key);
  }

  lemma RefusedPlaced(s: State, b: Books, r: nat, key: Key)
    requires Placed(s, b)
    ensures Placed(Reply(s, r, key, false), b)
  {
  }

  lemma StepPlaced(s: State, b: Books, step: Step)
    requires Placed(s, b)
    requires step.Start? && step.r !in s.requests ==> FrameFits(b, step.f)
    requires step.Allocate? && step.r in s.requests ==> NumberFits(b, s.requests[step.r], step)
    ensures Placed(Acceptance.Apply(s, step), b)
  {
    hide Advance, FrameFits, ValueFits, RowFits;
    if !step.Start? && !step.Crash? && !step.Expire? && step.r in s.requests {
      AdvancePlaced(s, b, s.requests[step.r], step);
    }
  }

  ghost predicate BooksGrow(b: Books, d: Books)
  {
    b.supplied <= d.supplied && forall place | place in b.owner :: place in d.owner && d.owner[place] == b.owner[place]
  }

  lemma PlacedGrows(s: State, b: Books, d: Books)
    requires Placed(s, b) && BooksGrow(b, d)
    ensures Placed(s, d)
  {
    BelongsGrows(b, d);
    hide Belongs;
  }

  lemma BelongsGrows(b: Books, d: Books)
    requires BooksGrow(b, d)
    ensures forall key, place | Belongs(b, key, place) :: Belongs(d, key, place)
  {
  }

  // ---------- the counters ----------

  /** No two replicas hold the same number. */
  ghost predicate HeldOnce(c: Sequence.State)
  {
    forall q, r | q in c.replicas && r in c.replicas && q != r && c.replicas[q].Holding? ::
      c.replicas[r] != c.replicas[q]
  }

  /** A number given to a client id was handed out, and no replica holds it any more. */
  ghost predicate GivenOnce(c: Sequence.State, b: Books, session: string)
  {
    forall n: nat | Place(session, n) in b.owner ::
      n in c.handed && forall r | r in c.replicas :: c.replicas[r] != Sequence.Holding(n)
  }

  ghost predicate CounterOk(c: Sequence.State, b: Books, session: string)
  {
    Sequence.Inv(c) && HeldOnce(c) && GivenOnce(c, b, session)
  }

  lemma FreshNumber(c: Sequence.State, r: nat)
    requires Sequence.Inv(c) && Sequence.ReplicaOf(c, r) == Sequence.Ready
    ensures Sequence.NextIsFresh(c) && Sequence.NextNumber(c) !in c.handed
    ensures forall q | q in c.replicas :: c.replicas[q] != Sequence.Holding(Sequence.NextNumber(c))
  {
    Sequence.InvIsSafe(c);
    forall q | q in c.replicas ensures c.replicas[q] != Sequence.Holding(Sequence.NextNumber(c)) {
      assert Sequence.ReplicaOk(c, c.replicas[q]);
    }
  }

  lemma CommandKeeps(c: Sequence.State, b: Books, session: string, command: Sequence.Step)
    requires CounterOk(c, b, session) && !command.Commit? && !command.ClientNumber?
    requires command.LoseKey? ==> Sequence.LossTolerable(c)
    ensures CounterOk(Sequence.Apply(c, command), b, session)
  {
    if command.LoseKey? { Sequence.LossKeeps(c); } else { Sequence.StepKeeps(c, command); }
    if command.Incr? && Sequence.ReplicaOf(c, command.r) == Sequence.Ready { FreshNumber(c, command.r); }
    hide Sequence.Inv;
  }

  lemma GivingKeeps(c: Sequence.State, b: Books, session: string, r: nat, key: Key)
    requires CounterOk(c, b, session) && Sequence.ReplicaOf(c, r).Holding?
    ensures var place := Place(session, Sequence.ReplicaOf(c, r).n);
            && place !in b.owner
            && CounterOk(Sequence.Apply(c, Sequence.Abandon(r)), b.(owner := b.owner[place := key]), session)
  {
    Sequence.StepKeeps(c, Sequence.Abandon(r));
    assert Sequence.ReplicaOk(c, c.replicas[r]);
    hide Sequence.Inv;
  }

  lemma StoringKeeps(c: Sequence.State, b: Books, session: string, n: nat)
    requires CounterOk(c, b, session) && (Sequence.ClientTolerable(c, n) || n in c.handed)
    ensures CounterOk(Sequence.Apply(c, Sequence.ClientNumber(n)), b, session)
  {
    if n in c.handed { Sequence.HandedIsTolerable(c, n); }
    Sequence.ClientNumberKeeps(c, n);
    hide Sequence.Inv;
  }

  // ---------- the invariant ----------

  /** The counter of the row's conversation has seen its number. */
  ghost predicate RowCounted(w: World, row: Row)
  {
    row.number > 0 && row.number in CounterOf(w, row.session).committed
  }

  ghost predicate RowsCounted(w: World)
  {
    forall k | k in w.logic.rows :: RowCounted(w, w.logic.rows[k])
  }

  ghost predicate CountersOk(w: World)
  {
    forall session :: CounterOk(CounterOf(w, session), w.books, session)
  }

  ghost predicate Inv(w: World)
  {
    Acceptance.Inv(w.logic) && Placed(w.logic, w.books) && RowsCounted(w) && CountersOk(w)
  }

  lemma BeginOk(fold: string -> string)
    ensures Inv(Begin(fold))
  {
    Sequence.StartOk([]);
  }

  lemma BooksKeepCounter(c: Sequence.State, b: Books, d: Books, session: string)
    requires CounterOk(c, b, session) && forall place | place in d.owner && place.session == session :: place in b.owner
    ensures CounterOk(c, d, session)
  {
    hide Sequence.Inv, HeldOnce;
  }

  /** At most one counter changes; what it has seen it has still seen, and only there are numbers given or stored. */
  lemma OneCounterMoves(w: World, t: World, session: string)
    requires CountersOk(w) && RowsCounted(w)
    requires forall other | other != session :: CounterOf(t, other) == CounterOf(w, other)
    requires CounterOf(w, session).committed <= CounterOf(t, session).committed
    requires CounterOk(CounterOf(t, session), t.books, session)
    requires forall place | place in t.books.owner && place.session != session :: place in w.books.owner
    requires forall k | k in t.logic.rows ::
               || (k in w.logic.rows && t.logic.rows[k] == w.logic.rows[k])
               || (t.logic.rows[k].session == session && RowCounted(t, t.logic.rows[k]))
    ensures CountersOk(t) && RowsCounted(t)
  {
    hide CounterOk, CounterOf;
    forall other ensures CounterOk(CounterOf(t, other), t.books, other) {
      if other != session { BooksKeepCounter(CounterOf(w, other), w.books, t.books, other); }
    }
    forall k | k in t.logic.rows ensures RowCounted(t, t.logic.rows[k]) {
      if k in w.logic.rows && t.logic.rows[k] == w.logic.rows[k] {
        var row := w.logic.rows[k];
        assert RowCounted(w, row);
        Seen(CounterOf(w, row.session).committed, CounterOf(t, row.session).committed, row.number);
      }
    }
  }

  lemma Seen(before: seq<nat>, after: seq<nat>, n: nat)
    requires before <= after && n in before
    ensures n in after
  {
    var i :| 0 <= i < |before| && before[i] == n;
    assert after[i] == n;
  }

  lemma CounterMoveKeeps(w: World, session: string, command: Sequence.Step)
    requires Inv(w) && Tolerable(w, Counter(session, command))
    ensures Inv(Apply(w, Counter(session, command)))
  {
    hide Acceptance.Inv, CounterOk, Placed, RowsCounted, Sequence.LossTolerable;
    if !command.Commit? && !command.ClientNumber? {
      CommandKeeps(CounterOf(w, session), w.books, session, command);
      OneCounterMoves(w, Apply(w, Counter(session, command)), session);
    }
  }

  lemma StartKeeps(w: World, step: Step)
    requires Inv(w) && step.Start?
    ensures Inv(LogicMove(w, step))
  {
    hide Acceptance.Inv, CounterOk, Placed, RowsCounted;
    var b := Announced(w.books, step.f);
    if step.f.target != "" {
      PlacedGrows(w.logic, w.books, b);
      Acceptance.StepKeeps(w.logic, step);
      SameRows(w.logic, step);
      StepPlaced(w.logic, if step.r in w.logic.requests then w.books else b, step);
      BooksKeepCounter(CounterOf(w, ""), w.books, LogicMove(w, step).books, "");
      OneCounterMoves(w, LogicMove(w, step), "");
    }
  }

  lemma AllocateKeeps(w: World, step: Step, f: Frame)
    requires Inv(w) && step.Allocate? && step.ok && step.number > 0 && f.number <= 0
    requires step.r in w.logic.requests && w.logic.requests[step.r] == Allocating(f)
    ensures Inv(Allocates(w, step, f))
  {
    hide Acceptance.Inv, CounterOk, Placed, Belongs, RowsCounted;
    var session := SessionOf(f);
    var c, place := CounterOf(w, session), Place(session, step.number);
    if Sequence.ReplicaOf(c, step.r) == Sequence.Holding(step.number) {
      var b := w.books.(owner := w.books.owner[place := f.key]);
      GivingKeeps(c, w.books, session, step.r, f.key);
      GivenBelongs(w.books, place, f.key);
      PlacedGrows(w.logic, w.books, b);
      Acceptance.StepKeeps(w.logic, step);
      StepPlaced(w.logic, b, step);
      SameRows(w.logic, step);
      OneCounterMoves(w, Allocates(w, step, f), session);
    }
  }

  lemma GivenBelongs(b: Books, place: Place, key: Key)
    requires place !in b.owner
    ensures var d := b.(owner := b.owner[place := key]); BooksGrow(b, d) && Belongs(d, key, place)
  {
  }

  lemma SameRows(s: State, step: Step)
    ensures Acceptance.Apply(s, step).rows ==
            match StoredBy(s, step)
            case None => s.rows
            case Some(f) => s.rows[Folded(s, f.key) := Row(f.key, f.messageId, f.session, f.number)]
  {
    hide GetStep, Pending, Clashes, Folded;
    if step.Get? && step.r in s.requests && s.requests[step.r].Reserving? {
      GetKeepsRows(s, step.r, s.requests[step.r].f);
    }
  }

  lemma GetKeepsRows(s: State, r: nat, f: Frame)
    ensures GetStep(s, r, f).rows == s.rows
  {
  }

  lemma SaveKeeps(w: World, step: Step, f: Frame)
    requires Inv(w) && StoredBy(w.logic, step) == Some(f) && Tolerable(w, Logic(step))
    ensures Inv(LogicMove(w, step))
  {
    hide Acceptance.Inv, CounterOk, RowsCounted, Sequence.ClientTolerable, RowFits, ValueFits, Folded, Clashes;
    assert RequestFits(w.books, w.logic.requests[step.r]);
    var c, t := CounterOf(w, f.session), LogicMove(w, step);
    Acceptance.StepKeeps(w.logic, step);
    StepPlaced(w.logic, w.books, step);
    SameRows(w.logic, step);
    if PlaceOf(f) !in w.books.supplied { GivenWasHanded(c, w.books, f.session, f.number); }
    StoringKeeps(c, w.books, f.session, f.number);
    assert f.number == CounterOf(t, f.session).committed[|c.committed|];
    OneCounterMoves(w, t, f.session);
  }

  lemma GivenWasHanded(c: Sequence.State, b: Books, session: string, n: nat)
    requires CounterOk(c, b, session) && Place(session, n) in b.owner
    ensures n in c.handed
  {
  }

  lemma OtherKeeps(w: World, step: Step)
    requires Inv(w) && !step.Start? && StoredBy(w.logic, step) == None
    requires step.Allocate? && step.r in w.logic.requests ==> NumberFits(w.books, w.logic.requests[step.r], step)
    ensures Inv(w.(logic := Acceptance.Apply(w.logic, step)))
  {
    hide Acceptance.Inv, CounterOk, Placed, NumberFits, StoredBy;
    Acceptance.StepKeeps(w.logic, step);
    StepPlaced(w.logic, w.books, step);
    SameRows(w.logic, step);
    OneCounterMoves(w, w.(logic := Acceptance.Apply(w.logic, step)), "");
  }

  lemma MoveKeeps(w: World, move: Move)
    requires Inv(w) && Tolerable(w, move)
    ensures Inv(Apply(w, move))
  {
    hide Inv, StoredBy, Allocates, Acceptance.Apply;
    match move
    case Counter(session, command) => CounterMoveKeeps(w, session, command);
    case Logic(step) =>
      if step.Start? {
        StartKeeps(w, step);
      } else if step.Allocate? && step.ok && step.number > 0 && step.r in w.logic.requests
          && w.logic.requests[step.r].Allocating? && w.logic.requests[step.r].f.number <= 0 {
        AllocateKeeps(w, step, w.logic.requests[step.r].f);
      } else if StoredBy(w.logic, step).Some? {
        OnlySavesStore(w.logic, step);
        SaveKeeps(w, step, StoredBy(w.logic, step).value);
      } else {
        OtherKeeps(w, step);
      }
  }

  lemma OnlySavesStore(s: State, step: Step)
    ensures StoredBy(s, step).Some? ==> step.Save?
  {
  }

  lemma {:induction false} RunKeeps(w: World, moves: seq<Move>)
    requires Inv(w) && TolerableRun(w, moves)
    ensures Inv(Run(w, moves))
    decreases moves
  {
    hide Inv, Apply, Tolerable;
    if |moves| > 0 {
      MoveKeeps(w, moves[0]);
      RunKeeps(Apply(w, moves[0]), moves[1..]);
    }
  }

  // ---------- what the numbers are worth ----------

  /** The request is about to save, nothing is stored under its key, and the k-th row has its number already. */
  predicate NumberTaken(s: State, r: nat, k: Key)
  {
    && r in s.requests && s.requests[r].Saving? && Folded(s, s.requests[r].f.key) !in s.rows
    && k in s.rows && s.rows[k].number == s.requests[r].f.number
    && Alike(s, s.rows[k].session, s.requests[r].f.session)
  }

  /**
   As long as counters are lost and client numbers stored only harmlessly, no save is refused for its number, unless a
   client supplied that number in that conversation or the row's conversation id is the same to MySQL only.
   */
  lemma OnlySuppliedNumbersClash(fold: string -> string, moves: seq<Move>, r: nat, k: Key)
    requires TolerableRun(Begin(fold), moves)
    ensures var w := Run(Begin(fold), moves);
            NumberTaken(w.logic, r, k) ==>
              || PlaceOf(w.logic.requests[r].f) in w.books.supplied
              || w.logic.rows[k].session != w.logic.requests[r].f.session
  {
    hide Run, Folded, CountersOk, RowsCounted;
    BeginOk(fold);
    RunKeeps(Begin(fold), moves);
    var w := Run(Begin(fold), moves);
    if NumberTaken(w.logic, r, k) {
      var f, row := w.logic.requests[r].f, w.logic.rows[k];
      assert RequestFits(w.books, w.logic.requests[r]) && RowFits(w.books, row);
      assert Folded(w.logic, row.key) == k;
    }
  }

  /** And a number from the counter is higher than every number stored in its conversation, whoever supplied that. */
  lemma NewNumbersAreHighest(fold: string -> string, moves: seq<Move>, session: string, r: nat, k: Key)
    requires TolerableRun(Begin(fold), moves)
    ensures var w := Run(Begin(fold), moves); var c := CounterOf(w, session);
            Sequence.ReplicaOf(c, r) == Sequence.Ready && k in w.logic.rows && w.logic.rows[k].session == session ==>
              w.logic.rows[k].number < Sequence.NextNumber(c)
  {
    hide Run, Placed, Acceptance.Inv;
    BeginOk(fold);
    RunKeeps(Begin(fold), moves);
    var w := Run(Begin(fold), moves);
    var c := CounterOf(w, session);
    if Sequence.ReplicaOf(c, r) == Sequence.Ready && k in w.logic.rows && w.logic.rows[k].session == session {
      assert CounterOk(c, w.books, session) && RowCounted(w, w.logic.rows[k]);
      FreshNumber(c, r);
      Sequence.MaxBounds(c.committed);
    }
  }

  // ---------- supplied numbers do clash ----------

  /** Steps that use no counter: requests that bring their own number. */
  predicate NoCounter(steps: seq<Step>)
  {
    forall i | 0 <= i < |steps| ::
      (steps[i].Start? ==> steps[i].f.target != "") && (steps[i].Allocate? ==> steps[i].number <= 0)
  }

  function Moves(steps: seq<Step>): seq<Move>
  {
    seq(|steps|, i requires 0 <= i < |steps| => Logic(steps[i]))
  }

  /** No counter has been started. */
  ghost predicate Untouched(w: World)
  {
    forall session :: CounterOf(w, session).key.None? && CounterOf(w, session).replicas == map[]
  }

  lemma UntouchedMove(w: World, step: Step)
    requires Untouched(w) && (step.Start? ==> step.f.target != "") && (step.Allocate? ==> step.number <= 0)
    ensures Tolerable(w, Logic(step))
    ensures Untouched(LogicMove(w, step)) && LogicMove(w, step).logic == Acceptance.Apply(w.logic, step)
  {
    hide StoredBy, Advance;
    forall session ensures CounterOf(LogicMove(w, step), session).key.None?
      && CounterOf(LogicMove(w, step), session).replicas == map[]
    {
      assert CounterOf(w, session).key.None? && CounterOf(w, session).replicas == map[];
    }
  }

  lemma {:induction false} UntouchedRun(w: World, steps: seq<Step>)
    requires Untouched(w) && NoCounter(steps)
    ensures TolerableRun(w, Moves(steps)) && Run(w, Moves(steps)).logic == Acceptance.Run(w.logic, steps)
    decreases steps
  {
    hide Untouched, Tolerable, LogicMove, Acceptance.Apply;
    if |steps| > 0 {
      UntouchedMove(w, steps[0]);
      UntouchedRun(LogicMove(w, steps[0]), steps[1..]);
      assert Moves(steps)[1..] == Moves(steps[1..]);
    }
  }

  /** A message for a conversation with the number its client wants. */
  function Claiming(key: Key, place: Place, messageId: string): Frame
  {
    Frame(key, place.session, place.session, place.number, messageId)
  }

  function Asking(r: nat, f: Frame): seq<Step>
  {
    [Start(r, f), Get(r, true), SetNX(r, true, true)]
  }

  function Numbering(r: nat): seq<Step>
  {
    [LookUp(r, true), Allocate(r, true, 0, ""), Reserve(r, true)]
  }

  function Clashing(place: Place, j: Key, k: Key): seq<Step>
  {
    Asking(1, Claiming(j, place, "m")) + (Numbering(1) + [Save(1, Stores)])
    + (Asking(2, Claiming(k, place, "n")) + (Numbering(2) + []))
  }

  /** Two clients that claim the same number for their messages: every step is harmless, the second save is refused. */
  lemma SuppliedNumbersClash(fold: string -> string, place: Place, j: Key, k: Key)
    requires Folded(Init(fold), j) != Folded(Init(fold), k) && place.number > 0 && place.session != ""
    ensures var moves := Moves(Clashing(place, j, k)); var s := Run(Begin(fold), moves).logic;
            && TolerableRun(Begin(fold), moves)
            && NumberTaken(s, 2, Folded(s, j)) && s.rows[Folded(s, j)].session == s.requests[2].f.session
  {
    hide Acceptance.Run, Run;
    var first := Asking(1, Claiming(j, place, "m")) + (Numbering(1) + [Save(1, Stores)]);
    var second := Asking(2, Claiming(k, place, "n")) + (Numbering(2) + []);
    FirstSaves(fold, place, j);
    var s := Acceptance.Run(Init(fold), first);
    SecondTaken(s, place, j, k);
    ClientIds.RunConcat(Init(fold), first, second);
    UntouchedRun(Begin(fold), first + second);
  }

  lemma FirstSaves(fold: string -> string, place: Place, key: Key)
    requires place.number > 0 && place.session != ""
    ensures var steps := Asking(1, Claiming(key, place, "m")) + (Numbering(1) + [Save(1, Stores)]);
            var s := Init(fold); var t := Acceptance.Run(s, steps);
            && t.rows == map[Folded(s, key) := Row(key, "m", place.session, place.number)] && t.fold == fold
            && 2 !in t.requests && forall other | other in t.redis :: other == key
  {
    hide Acceptance.Apply, PushMessage.Requested, Acceptance.Run;
    var s, f := Init(fold), Claiming(key, place, "m");
    var a := ClientIds.LooksUp(s, 1, f);
    var d := ClientIds.GetsNumber(a, 1, f, 0, "");
    ClientIds.Moves(d, Save(1, Stores));
    PushMessage.Saved(d, PushMessage.Named(f, 0, ""), 1, Stores);
    ClientIds.One(d, Save(1, Stores));
    PushMessage.OthersLeave(s, 2, Asking(1, f) + (Numbering(1) + [Save(1, Stores)]));
    ClientIds.OnlyChanges(a.redis, Acceptance.Apply(d, Save(1, Stores)).redis, key);
  }

  lemma SecondTaken(s: State, place: Place, j: Key, k: Key)
    requires place.number > 0 && place.session != ""
    requires s.rows == map[Folded(s, j) := Row(j, "m", place.session, place.number)] && 2 !in s.requests
    requires Folded(s, k) != Folded(s, j) && k !in s.redis
    ensures var t := Acceptance.Run(s, Asking(2, Claiming(k, place, "n")) + (Numbering(2) + []));
            && NumberTaken(t, 2, Folded(s, j)) && t.fold == s.fold
            && t.rows[Folded(s, j)].session == t.requests[2].f.session
  {
    hide Acceptance.Apply, PushMessage.Requested, Acceptance.Run;
    var g := Claiming(k, place, "n");
    var a := ClientIds.LooksUp(s, 2, g);
    assert Folded(a, k) == Folded(s, k);
    var d := ClientIds.GetsNumber(a, 2, g, 0, "");
    EmptyRun(d);
  }

  lemma EmptyRun(s: State)
    ensures Acceptance.Run(s, []) == s
  {
  }

  /** Clients supply no numbers but these. */
  ghost predicate SuppliesOnly(places: iset<Place>, moves: seq<Move>)
  {
    forall i | 0 <= i < |moves| && moves[i].Logic? && moves[i].step.Start? && moves[i].step.f.number > 0 ::
      PlaceOf(moves[i].step.f) in places
  }

  ghost predicate NeverTaken(w: World)
  {
    forall r, k | NumberTaken(w.logic, r, k) :: w.logic.rows[k].session != w.logic.requests[r].f.session
  }

  ghost predicate SuppliedFrom(b: Books, places: iset<Place>)
  {
    forall place | place in b.supplied :: place in places && place.number > 0 && place.session != ""
  }

  lemma MoveSupplies(w: World, move: Move, places: iset<Place>)
    requires SuppliedFrom(w.books, places) && SuppliesOnly(places, [move])
    ensures SuppliedFrom(Apply(w, move).books, places)
  {
    hide StoredBy, Acceptance.Apply;
    if move.Logic? && move.step.Start? {
      assert [move][0] == move;
    }
  }

  lemma {:induction false} RunSupplies(w: World, moves: seq<Move>, places: iset<Place>)
    requires SuppliedFrom(w.books, places) && SuppliesOnly(places, moves)
    ensures SuppliedFrom(Run(w, moves).books, places)
    decreases moves
  {
    hide Apply, SuppliedFrom;
    if |moves| > 0 {
      MoveSupplies(w, moves[0], places);
      RunSupplies(Apply(w, moves[0]), moves[1..], places);
    }
  }

  lemma UnsuppliedNeverTaken(fold: string -> string, places: iset<Place>, moves: seq<Move>)
    requires TolerableRun(Begin(fold), moves) && SuppliesOnly(places, moves)
    requires forall place | place in places :: place.number <= 0 || place.session == ""
    ensures NeverTaken(Run(Begin(fold), moves))
  {
    hide Run, TolerableRun, SuppliesOnly, Folded;
    var w := Run(Begin(fold), moves);
    RunSupplies(Begin(fold), moves, places);
    forall r, key | NumberTaken(w.logic, r, key)
      ensures w.logic.rows[key].session != w.logic.requests[r].f.session
    {
      OnlySuppliedNumbersClash(fold, moves, r, key);
    }
  }

  /**
   In harmless runs in which clients supply these numbers only, no save is ever refused for its number if and only if
   none of them is a number of a message, so that clients supply none. `j` and `k` are any two client ids.
   */
  lemma NumbersClashIff(fold: string -> string, places: iset<Place>, j: Key, k: Key)
    requires Folded(Init(fold), j) != Folded(Init(fold), k)
    ensures (forall moves | TolerableRun(Begin(fold), moves) && SuppliesOnly(places, moves) ::
               NeverTaken(Run(Begin(fold), moves)))
            <==> (forall place | place in places :: place.number <= 0 || place.session == "")
  {
    hide Run, TolerableRun, Folded, Init;
    if forall place | place in places :: place.number <= 0 || place.session == "" {
      forall moves | TolerableRun(Begin(fold), moves) && SuppliesOnly(places, moves)
        ensures NeverTaken(Run(Begin(fold), moves))
      {
        UnsuppliedNeverTaken(fold, places, moves);
      }
    } else {
      var place :| place in places && place.number > 0 && place.session != "";
      SuppliedNumbersClash(fold, place, j, k);
      ClashingSupplies(place, j, k, places);
      assert !NeverTaken(Run(Begin(fold), Moves(Clashing(place, j, k))));
    }
  }

  lemma ClashingSupplies(place: Place, j: Key, k: Key, places: iset<Place>)
    requires place in places && place.session != ""
    ensures SuppliesOnly(places, Moves(Clashing(place, j, k)))
  {
  }
}
