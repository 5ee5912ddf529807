/** PushMessage for a normal message, command by command, with other requests running in between. */
module PushMessage {
  import opened Faults
  import opened Acceptance

  /** A message as the client sends it. */
  datatype Draft = Draft(from: string, to: string, toType: string, body: string, clientId: string, messageId: string,
                         session: string, number: int)

  datatype Normal = Rejected | Accepted(draft: Draft)

  function Upper(c: char): char
  {
    if 'a' <= c <= 'z' then c - ' ' else c
  }

  /** Group targets start with G or g, with "group:" or with "c-". */
  function TargetType(target: string): string
  {
    if (|target| > 0 && Upper(target[0]) == 'G') || "group:" <= target || "c-" <= target then "group" else "user"
  }

  /** Fill in what the client left out; refuse another sender, an empty target or body, or an unknown target type. */
  method NormalizeFrame(sender: string, draft: Draft) returns (r: Normal)
    ensures r.Accepted? <==>
              && (draft.from == "" || draft.from == sender) && draft.to != "" && draft.body != ""
              && draft.toType in {"", "user", "group"} && (draft.clientId != "" || draft.messageId != "")
    ensures r.Accepted? ==>
              && r.draft.from == sender
              && r.draft.toType == (if draft.toType != "" then draft.toType
                                    else if draft.to[0] == 'G' || draft.to[0] == 'g' || "c-" <= draft.to then "group"
                                    else "user")
              && r.draft.clientId == (if draft.clientId == "" then draft.messageId else draft.clientId) != ""
              && r.draft == draft.(from := r.draft.from, toType := r.draft.toType, clientId := r.draft.clientId)
  {
    var frame := draft;
    if frame.from == "" {
      frame := frame.(from := sender);
    }
    if frame.from != sender {
      return Rejected;
    }
    if frame.to == "" || frame.body == "" {
      return Rejected;
    }
    if frame.toType == "" {
      frame := frame.(toType := TargetType(frame.to));
    }
    if frame.toType != "user" && frame.toType != "group" {
      return Rejected;
    }
    if frame.clientId == "" {
      frame := frame.(clientId := frame.messageId);
    }
    if frame.clientId == "" {
      return Rejected;
    }
    return Accepted(frame);
  }

  function StepRequest(step: Step): int
  {
    if step.Expire? then -1 else step.r
  }

  predicate OthersOnly(r: nat, steps: seq<Step>)
  {
    forall i | 0 <= i < |steps| :: StepRequest(steps[i]) != r
  }

  predicate Same(s: State, t: State, r: nat)
  {
    (r in t.requests <==> r in s.requests) && (r in s.requests ==> t.requests[r] == s.requests[r])
  }

  lemma StepLeaves(s: State, r: nat, step: Step)
    requires StepRequest(step) != r
    ensures Same(s, Apply(s, step), r)
  {
    hide GetStep, SaveStep, Pending, Clashes;
    if step.Get? { GetLeaves(s, r, step); }
    if step.Save? { SaveLeaves(s, r, step); }
  }

  lemma GetLeaves(s: State, r: nat, step: Step)
    requires step.Get? && step.r != r
    ensures forall f :: Same(s, GetStep(s, step.r, f), r)
  {
  }

  lemma SaveLeaves(s: State, r: nat, step: Step)
    requires step.Save? && step.r != r
    ensures forall f :: Same(s, SaveStep(s, step.r, f, step.outcome), r)
  {
    hide Clashes;
  }

  lemma {:induction false} OthersLeave(s: State, r: nat, steps: seq<Step>)
    requires OthersOnly(r, steps)
    ensures r in Run(s, steps).requests <==> r in s.requests
    ensures r in s.requests ==> Run(s, steps).requests[r] == s.requests[r]
    decreases steps
  {
    hide Apply;
    if |steps| > 0 {
      StepLeaves(s, r, steps[0]);
      OthersLeave(Apply(s, steps[0]), r, steps[1..]);
    }
  }

  class LogicHandler {
    const id: nat
    const faults: nat -> Fault
    const others: nat -> seq<Step>
    var world: State
    var tick: nat

    ghost predicate Valid()
      reads this
    {
      Inv(world) && forall k :: OthersOnly(id, others(k))
    }

    constructor (id: nat, faults: nat -> Fault, others: nat -> seq<Step>, world: State)
      requires Inv(world) && forall k :: OthersOnly(id, others(k))
      ensures Valid() && this.world == world && this.id == id && this.faults == faults && this.others == others
    {
      this.id, this.faults, this.others, this.world, tick := id, faults, others, world, 0;
    }

    /** No other request runs and every command from here on succeeds and is answered. */
    ghost predicate Alone()
      reads this
    {
      forall k | k >= tick :: others(k) == [] && faults(k) == Fine
    }

    predicate At(request: Request)
      reads this
    {
      id in world.requests && world.requests[id] == request
    }

    /** One command of this request, then whatever other requests do. */
    method Perform(step: Step)
      requires Valid() && StepRequest(step) == id && !step.Crash? && (step.Start? <==> id !in world.requests)
      modifies this`world, this`tick
      ensures Valid() && id in world.requests
      ensures world.requests[id]
                == (if step.Start? then Reserving(step.f) else Requested(old(world), old(world).requests[id], step))
      ensures Extends(old(world), world) && world == Run(Apply(old(world), step), others(old(tick)))
      ensures old(Alone()) ==> Alone() && faults(old(tick)) == Fine && world == Apply(old(world), step)
    {
      hide Inv, Advance;
      var next := Apply(world, step);
      StepKeeps(world, step);
      RunKeeps(next, others(tick));
      StepExtends(world, step);
      RunExtends(next, others(tick));
      if !step.Start? { AdvanceKeepsRequest(world, world.requests[id], step); }
      OthersLeave(next, id, others(tick));
      world := Run(next, others(tick));
      tick := tick + 1;
    }

    predicate Written()
      reads this
    {
      faults(tick) != Lost
    }

    predicate Answered()
      reads this
    {
      faults(tick) == Fine
    }

    /** Give the reservation back after an error, if it is still pending. */
    method ReleaseClientMessage(asked: Key, f: Frame)
      requires Valid() && At(Releasing(asked, f))
      modifies this`world, this`tick
      ensures Valid() && Extends(old(world), world) && At(Replied(asked, false))
      ensures old(Alone()) ==> SameTables(old(world), world) && world.redis == GivenBack(old(world).redis, f.key)
    {
      hide Inv, Apply, Run, Extends, Requested, Valid, Alone;
      Released(world, asked, f, id, Answered());
      Perform(ReleaseGet(id, Answered()));
      if At(Deleting(asked, f)) {
        label pending:
        Deleted(world, asked, f, id, Written());
        Perform(ReleaseDel(id, Written()));
        ExtendsTrans(old(world), old@pending(world), world);
      }
    }

    /**
     Reserve the client id. Without `go` the request has been answered: a duplicate of a committed message, a conflict
     or an error. Otherwise the frame comes back with the number and id of an earlier reservation, if there was one.
     */
    method ReserveClientMessage(f: Frame) returns (go: bool, reserved: Frame)
      requires Valid() && At(Reserving(f))
      modifies this`world, this`tick
      ensures Valid() && Extends(old(world), world) && reserved.key == f.key && (old(Alone()) ==> Alone())
      ensures if go then At(Looking(reserved)) else At(Replied(f.key, true)) || At(Replied(f.key, false))
      ensures old(Alone()) ==>
                && SameTables(old(world), world)
                && go == Continues(old(world).redis, f)
                && (if go then reserved == Resumed(old(world).redis, f)
                       && world.redis == Marked(old(world).redis, f.key)
                    else At(Replied(f.key, old(world).redis[f.key] != Marker && !Reserved(old(world).redis[f.key])))
                         && world.redis == old(world).redis)
    {
      hide Inv, Apply, Run, Extends, Requested, Valid, Alone;
      reserved := f;
      Got(world, f, id, Answered());
      Perform(Get(id, Answered()));
      if At(Taking(f)) {
        label free:
        Taken(world, f, id, Written(), Answered());
        Perform(SetNX(id, Written(), Answered()));
        ExtendsTrans(old(world), old@free(world), world);
      }
      go := world.requests[id].Looking?;
      if go {
        reserved := world.requests[id].f;
      }
    }

    /**
     Find the message or store it: the request is then ready to commit the stored row's record, or to release. The frame
     becomes the stored one, whose client id may be spelled differently.
     */
    method FindOrStore(g: Frame, permitted: bool, canonical: bool, number: int, messageId: string, stored: SaveOutcome)
      returns (h: Frame)
      requires Valid() && At(Looking(g))
      modifies this`world, this`tick
      ensures Valid() && Extends(old(world), world) && (old(Alone()) ==> Alone())
      ensures Folded(world, h.key) == Folded(world, g.key)
      ensures At(Releasing(g.key, h)) || (At(Committing(g.key, h)) && Stored(world, h))
      ensures old(Alone()) && g.key in old(world).redis && Pending(old(world).redis[g.key]) ==>
                && h.key == StoredKey(old(world), g)
                && Tables(world) == TablesAfter(old(world), g, permitted && canonical, number, messageId, stored)
                && (if Folded(old(world), g.key) in old(world).rows then world.redis == old(world).redis
                    else StillPending(old(world).redis, world.redis, g.key))
                && (At(Committing(g.key, h)) <==>
                      Commits(old(world), g, permitted, canonical, number, messageId, stored))
    {
      hide Inv, Apply, Run, Extends, Requested, Valid, Alone, Creates, Folded, Stored;
      ghost var calm := Alone() && g.key in world.redis && Pending(world.redis[g.key]);
      NothingCreated(world, g, permitted && canonical, number, messageId, stored);
      LookedUp(world, g, id, Answered());
      Perform(LookUp(id, Answered()));
      FoldStays(old(world), world);
      if At(Allocating(g)) {
        label missing:
        if calm {
          SameTablesAfter(old(world), world, g, permitted && canonical, number, messageId, stored);
        }
        StoreNew(g, permitted && canonical, number, messageId, stored);
        ExtendsTrans(old(world), old@missing(world), world);
        FoldStays(old@missing(world), world);
      }
      h := world.requests[id].f;
      FramesFit();
      if world.requests[id].Existing? {
        label found:
        Permitted(world, g.key, h, id, permitted);
        Perform(Permit(id, permitted));
        ExtendsTrans(old(world), old@found(world), world);
        FoldStays(old@found(world), world);
        FramesFit();
      }
    }

    /** Where a request holds a stored frame, it is the one stored under the key asked for. */
    lemma FramesFit()
      requires Valid() && id in world.requests
      ensures var q := world.requests[id];
              q.Existing? || q.Committing? ==> Stored(world, q.f) && Folded(world, q.asked) == Folded(world, q.f.key)
    {
      assert RequestOk(world, world.requests[id]);
    }

    method StoreNew(g: Frame, allowed: bool, number: int, messageId: string, stored: SaveOutcome)
      requires Valid() && At(Allocating(g))
      modifies this`world, this`tick
      ensures Valid() && Extends(old(world), world) && id in world.requests && (old(Alone()) ==> Alone())
      ensures var q := world.requests[id];
              (q.Existing? || q.Committing? || q.Releasing?) && q.asked == g.key && (!q.Existing? ==> q.f.key == g.key)
      ensures old(Alone()) && Folded(old(world), g.key) !in old(world).rows && g.key in old(world).redis
                && Pending(old(world).redis[g.key]) ==>
                && StillPending(old(world).redis, world.redis, g.key)
                && Tables(world) == TablesAfter(old(world), g, allowed, number, messageId, stored)
                && !world.requests[id].Existing?
                && (world.requests[id].Committing? <==>
                      Creates(old(world), g, allowed, number, messageId, stored) && stored == Stores)
    {
      hide Inv, Apply, Run, Extends, Requested, Valid, Alone, Clashes, Folded;
      ghost var calm := Alone() && Folded(world, g.key) !in world.rows && g.key in world.redis
                        && Pending(world.redis[g.key]);
      Allocated(world, g, id, allowed && Answered(), number, messageId);
      Perform(Allocate(id, allowed && Answered(), number, messageId));
      if world.requests[id].Recording? {
        label numbered:
        ghost var named := world.requests[id].f;
        Recorded(world, named, id, Written());
        Perform(Reserve(id, Written()));
        ExtendsTrans(old(world), old@numbered(world), world);
        label reserved:
        if calm {
          SameTablesAfter(old(world), world, g, allowed, number, messageId, stored);
        }
        Saved(world, named, id, stored);
        Perform(Save(id, stored));
        ExtendsTrans(old(world), old@reserved(world), world);
      }
    }

    /** Everything after the reservation: find or store, then commit the record or give the reservation back. */
    method Complete(g: Frame, permitted: bool, canonical: bool, number: int, messageId: string, stored: SaveOutcome)
      returns (accepted: bool)
      requires Valid() && At(Looking(g))
      modifies this`world, this`tick
      ensures Valid() && Extends(old(world), world) && At(Replied(g.key, accepted))
      ensures old(Alone()) && g.key in old(world).redis && Pending(old(world).redis[g.key]) ==>
                (Tables(world), world.redis, accepted)
                  == CompleteAlone(old(world), g, permitted, canonical, number, messageId, stored)
    {
      hide Inv, Apply, Run, Extends, Requested, Valid, Alone, Commits, TablesAfter;
      ghost var calm := Alone() && g.key in world.redis && Pending(world.redis[g.key]);
      var h := FindOrStore(g, permitted, canonical, number, messageId, stored);
      label decided:
      accepted := At(Committing(g.key, h));
      FoldStays(old(world), world);
      if calm && Folded(world, g.key) !in old(world).rows {
        SameElsewhere(old(world).redis, world.redis, g.key, Record(true, h.messageId, h.session, h.number));
      }
      if accepted {
        CommitsRecord(world, g.key, h, id, Written());
        Perform(Commit(id, Written()));
      } else {
        ReleaseClientMessage(g.key, h);
      }
      ExtendsTrans(old(world), old@decided(world), world);
    }

    /**
     A success reply means a message is stored, with its delivery event, under what MySQL takes for its sender and
     client id; without faults and other requests, exactly which reply is given and what is stored.
     */
    method Push(f: Frame, permitted: bool, canonical: bool, number: int, messageId: string, stored: SaveOutcome)
      returns (accepted: bool)
      requires Valid() && id !in world.requests
      modifies this`world, this`tick
      ensures Valid() && Extends(old(world), world)
      ensures At(Replied(f.key, accepted))
      ensures accepted ==>
                Folded(world, f.key) in world.rows && world.rows[Folded(world, f.key)].messageId in world.events
      ensures old(Alone()) ==>
                (Tables(world), world.redis, accepted)
                  == PushAlone(old(world), f, permitted, canonical, number, messageId, stored)
    {
      hide Inv, Apply, Run, Extends, Requested, Valid, Alone, Continues, Resumed, Marked, CompleteAlone;
      ghost var calm := Alone();
      Started(world, f, id);
      Perform(Start(id, f));
      label started:
      var go, g := ReserveClientMessage(f);
      ExtendsTrans(old(world), old@started(world), world);
      if go {
        label reserved:
        if calm {
          MarkedIsPending(old(world), world, f);
          CompleteSame(old(world).(redis := Marked(old(world).redis, f.key)), world, g, permitted, canonical, number,
            messageId, stored);
        }
        accepted := Complete(g, permitted, canonical, number, messageId, stored);
        ExtendsTrans(old(world), old@reserved(world), world);
      } else {
        accepted := At(Replied(f.key, true));
      }
      if accepted {
        Truthful(f.key);
      }
    }

    lemma Truthful(key: Key)
      requires Valid() && At(Replied(key, true))
      ensures Folded(world, key) in world.rows && world.rows[Folded(world, key)].messageId in world.events
    {
      TruthfulReply(world, id, key);
    }
  }

  // ---------- one request when nobody interferes ----------

  function Tables(s: State): (map<Key, Row>, set<string>)
  {
    (s.rows, s.events)
  }

  ghost predicate SameTables(s: State, t: State)
  {
    s.fold == t.fold && s.rows == t.rows && s.events == t.events
  }

  /** A reservation that names a number. */
  predicate Reserved(v: Value)
  {
    v.Record? && !v.committed && v.number > 0
  }

  /** The client id is free, or reserved by an earlier attempt in the same conversation. */
  predicate Continues(redis: map<Key, Value>, f: Frame)
  {
    f.key in redis ==> Reserved(redis[f.key]) && (redis[f.key].session == "" || redis[f.key].session == f.target)
  }

  function Resumed(redis: map<Key, Value>, f: Frame): Frame
  {
    if f.key in redis && Reserved(redis[f.key])
    then f.(session := redis[f.key].session, number := redis[f.key].number, messageId := redis[f.key].messageId) else f
  }

  function Marked(redis: map<Key, Value>, key: Key): map<Key, Value>
  {
    if key in redis then redis else redis[key := Marker]
  }

  /** What an earlier attempt or the client left open is filled in. */
  function Named(g: Frame, number: int, messageId: string): Frame
  {
    Frame(g.key, g.target, if g.session == "" then g.target else g.session, if g.number <= 0 then number else g.number,
          if g.messageId == "" then messageId else g.messageId)
  }

  predicate Creates(s: State, g: Frame, allowed: bool, number: int, messageId: string, stored: SaveOutcome)
  {
    Folded(s, g.key) !in s.rows && allowed && Named(g, number, messageId).number > 0 && stored != Fails
      && !Clashes(s, Named(g, number, messageId))
  }

  function TablesAfter(s: State, g: Frame, allowed: bool, number: int, messageId: string,
      stored: SaveOutcome): (map<Key, Row>, set<string>)
  {
    var n := Named(g, number, messageId);
    if Creates(s, g, allowed, number, messageId, stored)
    then (s.rows[Folded(s, g.key) := Row(g.key, n.messageId, n.session, n.number)], s.events + {n.messageId})
    else (s.rows, s.events)
  }

  /** A stored message needs only the permission; a new one must be stored and its storing answered. */
  predicate Commits(s: State, g: Frame, permitted: bool, canonical: bool, number: int, messageId: string,
      stored: SaveOutcome)
  {
    if Folded(s, g.key) in s.rows then permitted
    else Creates(s, g, permitted && canonical, number, messageId, stored) && stored == Stores
  }

  predicate StillPending(before: map<Key, Value>, after: map<Key, Value>, key: Key)
  {
    after - {key} == before - {key} && key in after && Pending(after[key])
  }

  /** A pending value is deleted. */
  function GivenBack(redis: map<Key, Value>, key: Key): map<Key, Value>
  {
    if key in redis && Pending(redis[key]) then redis - {key} else redis
  }

  /** The spelling under which the message is stored, or will be. */
  function StoredKey(s: State, g: Frame): Key
  {
    if Folded(s, g.key) in s.rows then s.rows[Folded(s, g.key)].key else g.key
  }

  function CompleteAlone(s: State, g: Frame, permitted: bool, canonical: bool, number: int, messageId: string,
      stored: SaveOutcome)
    : ((map<Key, Row>, set<string>), map<Key, Value>, bool)
  {
    var after := TablesAfter(s, g, permitted && canonical, number, messageId, stored);
    if Commits(s, g, permitted, canonical, number, messageId, stored) then
      var row := after.0[Folded(s, g.key)];
      (after, s.redis[row.key := Record(true, row.messageId, row.session, row.number)], true)
    else (after, GivenBack(s.redis, StoredKey(s, g)), false)
  }

  /** The reply, the tables and the keys after an undisturbed request. */
  function PushAlone(s: State, f: Frame, permitted: bool, canonical: bool, number: int, messageId: string,
      stored: SaveOutcome)
    : ((map<Key, Row>, set<string>), map<Key, Value>, bool)
  {
    if !Continues(s.redis, f) then (Tables(s), s.redis, s.redis[f.key] != Marker && !Reserved(s.redis[f.key]))
    else
      var marked := s.(redis := Marked(s.redis, f.key));
      CompleteAlone(marked, Resumed(s.redis, f), permitted, canonical, number, messageId, stored)
  }

  /** Answered from Redis: in flight, committed, or reserved for another conversation. */
  predicate Settled(s: State, f: Frame)
  {
    f.key in s.redis &&
    match s.redis[f.key]
    case Marker => true
    case Record(committed, _, session, number) => committed || number <= 0 || (session != "" && session != f.target)
  }

  /** The frame an unsettled request goes on with: the client's, or what an earlier attempt reserved for this id. */
  predicate GoesOn(s: State, f: Frame, g: Frame)
  {
    if f.key !in s.redis then g == f
    else
      match s.redis[f.key]
      case Marker => false
      case Record(_, messageId, session, number) =>
        g == f.(messageId := messageId, session := session, number := number)
  }

  /** The frame with its conversation, number and id filled in where they are open. */
  predicate Filled(g: Frame, n: Frame, number: int, messageId: string)
  {
    && n.key == g.key && n.target == g.target
    && n.session == (if g.session != "" then g.session else g.target)
    && n.number == (if g.number > 0 then g.number else number)
    && n.messageId == (if g.messageId != "" then g.messageId else messageId)
  }

  /** A client id that Redis has an answer for: accepted if its message is committed, refused otherwise. */
  lemma SettledOutcome(s: State, f: Frame, permitted: bool, canonical: bool, number: int, messageId: string,
      stored: SaveOutcome)
    requires Settled(s, f)
    ensures PushAlone(s, f, permitted, canonical, number, messageId, stored)
              == ((s.rows, s.events), s.redis,
                  s.redis[f.key].Record? && (s.redis[f.key].committed || s.redis[f.key].number <= 0))
  {
  }

  /**
   A fresh client id, or one that an earlier attempt reserved in this conversation, goes on. A stored message is
   answered, and its record committed, if the sender may send; a new one is stored with its event, under the number and
   id that were reserved for it, if it may be sent and clashes with nothing.
   */
  lemma FreshOutcome(s: State, f: Frame, g: Frame, n: Frame, permitted: bool, canonical: bool, number: int,
      messageId: string, stored: SaveOutcome)
    requires !Settled(s, f) && GoesOn(s, f, g) && Filled(g, n, number, messageId)
    ensures var ((rows, events), redis, accepted) := PushAlone(s, f, permitted, canonical, number, messageId, stored);
            var k := Folded(s, f.key);
            if k in s.rows then
              var row := s.rows[k];
              var marked := if f.key in s.redis then s.redis else s.redis[f.key := Marker];
              && rows == s.rows && events == s.events && accepted == permitted
              && (if permitted then redis == marked[row.key := Record(true, row.messageId, row.session, row.number)]
                  else if row.key in marked && (marked[row.key] == Marker || !marked[row.key].committed)
                  then redis == marked - {row.key} else redis == marked)
            else
              var fits :=
                && permitted && canonical && n.number > 0 && stored != Fails
                && forall j | j in s.rows ::
                     && !Alike(s, s.rows[j].messageId, n.messageId)
                     && (!Alike(s, s.rows[j].session, n.session) || s.rows[j].number != n.number);
              && rows == (if fits then s.rows[k := Row(f.key, n.messageId, n.session, n.number)] else s.rows)
              && events == (if fits then s.events + {n.messageId} else s.events)
              && accepted == (fits && stored == Stores)
              && (if accepted then redis == s.redis[f.key := Record(true, n.messageId, n.session, n.number)]
                  else redis == s.redis - {f.key})
  {
    ClashesIs(s, n);
    hide Clashes, Alike;
    var marked := s.(redis := Marked(s.redis, f.key));
    Goes(s, f, g);
    NamedIs(g, n, number, messageId);
    SameTablesAfter(s, marked, g, permitted && canonical, number, messageId, stored);
    GivenBackIs(s.redis, f.key, Record(true, n.messageId, n.session, n.number));
    hide Resumed, Continues, Named;
  }

  lemma ClashesIs(s: State, n: Frame)
    ensures !Clashes(s, n) <==>
              forall j | j in s.rows ::
                && !Alike(s, s.rows[j].messageId, n.messageId)
                && (!Alike(s, s.rows[j].session, n.session) || s.rows[j].number != n.number)
  {
  }

  lemma NamedIs(g: Frame, n: Frame, number: int, messageId: string)
    requires Filled(g, n, number, messageId)
    ensures Named(g, number, messageId) == n
  {
  }

  lemma Goes(s: State, f: Frame, g: Frame)
    requires !Settled(s, f) && GoesOn(s, f, g)
    ensures Continues(s.redis, f) && Resumed(s.redis, f) == g && g.key == f.key
    ensures f.key in s.redis ==> Pending(s.redis[f.key])
  {
  }

  lemma GivenBackIs(redis: map<Key, Value>, key: Key, v: Value)
    requires key in redis ==> Pending(redis[key])
    ensures GivenBack(Marked(redis, key), key) == redis - {key}
    ensures Marked(redis, key)[key := v] == redis[key := v]
  {
  }

  lemma Started(s: State, f: Frame, r: nat)
    requires r !in s.requests
    ensures SameTables(s, Apply(s, Start(r, f))) && Apply(s, Start(r, f)).redis == s.redis
  {
  }

  lemma MarkedIsPending(s: State, t: State, f: Frame)
    requires Continues(s.redis, f) && t.redis == Marked(s.redis, f.key)
    ensures f.key in t.redis && Pending(t.redis[f.key])
  {
  }

  lemma CompleteSame(s: State, t: State, g: Frame, permitted: bool, canonical: bool, number: int, messageId: string,
      stored: SaveOutcome)
    requires SameTables(s, t) && t.redis == s.redis
    ensures CompleteAlone(t, g, permitted, canonical, number, messageId, stored) ==
            CompleteAlone(s, g, permitted, canonical, number, messageId, stored)
  {
    SameTablesAfter(s, t, g, permitted && canonical, number, messageId, stored);
    hide TablesAfter, Creates;
  }

  lemma SameElsewhere(before: map<Key, Value>, after: map<Key, Value>, key: Key, v: Value)
    requires after - {key} == before - {key}
    ensures after[key := v] == before[key := v]
  {
    var a, b := after[key := v], before[key := v];
    forall k | k in a ensures k in b && a[k] == b[k] {
      if k != key { assert k in after - {key} && (after - {key})[k] == (before - {key})[k]; }
    }
    forall k | k in b ensures k in a {
      if k != key { assert k in before - {key}; }
    }
    assert a == b;
  }

  lemma NothingCreated(s: State, g: Frame, allowed: bool, number: int, messageId: string, stored: SaveOutcome)
    ensures Folded(s, g.key) in s.rows ==> TablesAfter(s, g, allowed, number, messageId, stored) == Tables(s)
  {
  }

  lemma SameTablesAfter(s: State, t: State, g: Frame, allowed: bool, number: int, messageId: string,
      stored: SaveOutcome)
    requires SameTables(s, t)
    ensures TablesAfter(s, g, allowed, number, messageId, stored)
              == TablesAfter(t, g, allowed, number, messageId, stored)
    ensures Creates(s, g, allowed, number, messageId, stored) == Creates(t, g, allowed, number, messageId, stored)
    ensures Folded(t, g.key) == Folded(s, g.key) && t.rows == s.rows
  {
  }

  lemma Released(s: State, asked: Key, f: Frame, r: nat, ok: bool)
    requires r in s.requests && s.requests[r] == Releasing(asked, f)
    ensures var t := Apply(s, ReleaseGet(r, ok));
            && SameTables(s, t) && t.redis == s.redis
            && Requested(s, Releasing(asked, f), ReleaseGet(r, ok)) ==
                 if ok && f.key in s.redis && Pending(s.redis[f.key]) then Deleting(asked, f) else Replied(asked, false)
  {
    hide Clashes;
  }

  lemma Deleted(s: State, asked: Key, f: Frame, r: nat, written: bool)
    requires r in s.requests && s.requests[r] == Deleting(asked, f)
    ensures var t := Apply(s, ReleaseDel(r, written));
            && SameTables(s, t) && t.redis == (if written then s.redis - {f.key} else s.redis)
            && Requested(s, Deleting(asked, f), ReleaseDel(r, written)) == Replied(asked, false)
  {
    hide Clashes;
  }

  lemma Got(s: State, f: Frame, r: nat, ok: bool)
    requires r in s.requests && s.requests[r] == Reserving(f)
    ensures var t := Apply(s, Get(r, ok));
            && SameTables(s, t) && t.redis == s.redis
            && Requested(s, Reserving(f), Get(r, ok)) ==
                 if !ok then Replied(f.key, false)
                 else if f.key !in s.redis then Taking(f)
                 else if Continues(s.redis, f) then Looking(Resumed(s.redis, f))
                 else Replied(f.key, s.redis[f.key] != Marker && !Reserved(s.redis[f.key]))
  {
    hide Clashes;
  }

  lemma Taken(s: State, f: Frame, r: nat, written: bool, ok: bool)
    requires r in s.requests && s.requests[r] == Taking(f)
    ensures var t := Apply(s, SetNX(r, written, ok));
            && SameTables(s, t)
            && t.redis == (if f.key !in s.redis && (written || ok) then s.redis[f.key := Marker] else s.redis)
            && Requested(s, Taking(f), SetNX(r, written, ok))
                 == (if ok && f.key !in s.redis then Looking(f) else Replied(f.key, false))
  {
    hide Clashes;
  }

  lemma CommitsRecord(s: State, asked: Key, f: Frame, r: nat, written: bool)
    requires r in s.requests && s.requests[r] == Committing(asked, f)
    ensures var t := Apply(s, Commit(r, written));
            && SameTables(s, t)
            && t.redis
                 == (if written then s.redis[f.key := Record(true, f.messageId, f.session, f.number)] else s.redis)
            && Requested(s, Committing(asked, f), Commit(r, written)) == Replied(asked, true)
  {
    hide Clashes;
  }

  lemma FoldStays(s: State, t: State)
    requires Extends(s, t)
    ensures t.fold == s.fold && forall key :: Folded(t, key) == Folded(s, key)
  {
  }

  lemma ExtendsTrans(s: State, t: State, u: State)
    requires Extends(s, t) && Extends(t, u)
    ensures Extends(s, u)
  {
  }

  /** Where the command leaves its own request. */
  function Requested(s: State, request: Request, step: Step): Request
    requires !step.Start? && !step.Crash? && !step.Expire?
  {
    if step.r in Advance(s, request, step).requests then Advance(s, request, step).requests[step.r] else request
  }

  lemma LookedUp(s: State, f: Frame, r: nat, ok: bool)
    requires r in s.requests && s.requests[r] == Looking(f)
    ensures SameTables(s, Apply(s, LookUp(r, ok))) && Apply(s, LookUp(r, ok)).redis == s.redis
    ensures Requested(s, Looking(f), LookUp(r, ok)) ==
            if !ok then Releasing(f.key, f)
            else if Folded(s, f.key) in s.rows then Existing(f.key, FrameOf(s.rows[Folded(s, f.key)]))
            else Allocating(f)
  {
    hide Clashes;
  }

  lemma Permitted(s: State, asked: Key, f: Frame, r: nat, ok: bool)
    requires r in s.requests && s.requests[r] == Existing(asked, f)
    ensures SameTables(s, Apply(s, Permit(r, ok))) && Apply(s, Permit(r, ok)).redis == s.redis
    ensures Requested(s, Existing(asked, f), Permit(r, ok)) == if ok then Committing(asked, f) else Releasing(asked, f)
  {
  }

  lemma Allocated(s: State, f: Frame, r: nat, ok: bool, number: int, messageId: string)
    requires r in s.requests && s.requests[r] == Allocating(f)
    ensures var t := Apply(s, Allocate(r, ok, number, messageId)); SameTables(s, t) && t.redis == s.redis
    ensures Requested(s, Allocating(f), Allocate(r, ok, number, messageId)) ==
            if ok && Named(f, number, messageId).number > 0 then Recording(Named(f, number, messageId))
            else Releasing(f.key, f)
  {
    hide Clashes;
  }

  lemma Recorded(s: State, f: Frame, r: nat, written: bool)
    requires r in s.requests && s.requests[r] == Recording(f)
    ensures var t := Apply(s, Reserve(r, written));
            SameTables(s, t) && (f.key in s.redis && Pending(s.redis[f.key]) ==> StillPending(s.redis, t.redis, f.key))
    ensures Requested(s, Recording(f), Reserve(r, written)) == Saving(f)
  {
  }

  lemma Saved(s: State, f: Frame, r: nat, outcome: SaveOutcome)
    requires r in s.requests && s.requests[r] == Saving(f)
    ensures Apply(s, Save(r, outcome)).redis == s.redis
    ensures var t, q := Apply(s, Save(r, outcome)), Requested(s, Saving(f), Save(r, outcome));
            && (q.Existing? || q.Committing? || q.Releasing?) && q.asked == f.key && (!q.Existing? ==> q.f.key == f.key)
            && if Folded(s, f.key) !in s.rows && outcome != Fails && !Clashes(s, f)
               then Tables(t) == Tables(Inserted(s, f)) && t.fold == s.fold
                    && q == if outcome == Stores then Committing(f.key, f) else Releasing(f.key, f)
               else SameTables(s, t) && (Folded(s, f.key) !in s.rows ==> q == Releasing(f.key, f))
  {
    hide Clashes;
  }

  lemma AdvanceKeepsRequest(s: State, request: Request, step: Step)
    requires !step.Start? && !step.Crash? && !step.Expire? && step.r in s.requests
    ensures step.r in Advance(s, request, step).requests
  {
  }

  lemma TruthfulReply(s: State, r: nat, key: Key)
    requires Inv(s) && r in s.requests
    ensures s.requests[r] == Replied(key, true) ==>
              Folded(s, key) in s.rows && s.rows[Folded(s, key)].messageId in s.events
  {
    assert RequestOk(s, s.requests[r]);
  }
}
