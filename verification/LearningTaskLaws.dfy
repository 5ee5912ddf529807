/**
 What every run of learning-task requests keeps: the event log tells the tables, and review rounds only move forward.
 */
module LearningTaskLaws {
  import opened Wrappers
  import opened LearningTask

  // ---------- rows and their events ----------

  datatype Key = TaskKey(id: string) | SubmissionKey(id: string)

  function KeyOf(row: Snapshot): Key
  {
    match row
    case TaskRow(t) => TaskKey(t.id)
    case SubmissionRow(sub) => SubmissionKey(sub.id)
  }

  function VersionOf(row: Snapshot): nat
  {
    match row
    case TaskRow(t) => t.version
    case SubmissionRow(sub) => sub.version
  }

  function Row(s: State, k: Key): Option<Snapshot>
  {
    match k
    case TaskKey(id) => if id in s.tasks then Some(TaskRow(s.tasks[id])) else None
    case SubmissionKey(id) => if id in s.submissions then Some(SubmissionRow(s.submissions[id])) else None
  }

  /** The row an event is filed under by its task and submission columns. */
  function Subject(e: Event): Key
  {
    if e.submissionID.None? then TaskKey(e.taskID) else SubmissionKey(e.submissionID.value)
  }

  function Latest(events: seq<Event>, k: Key): Option<Snapshot>
  {
    if |events| == 0 then None
    else if Subject(events[|events| - 1]) == k then Some(events[|events| - 1].result)
    else Latest(events[..|events| - 1], k)
  }

  function Count(events: seq<Event>, k: Key): nat
  {
    if |events| == 0 then 0
    else Count(events[..|events| - 1], k) + if Subject(events[|events| - 1]) == k then 1 else 0
  }

  // ---------- the invariant ----------

  /** The newest event of every row carries exactly the row, and the row's version counts its events. */
  ghost predicate LogAgrees(s: State)
  {
    forall k :: RowAgrees(s, k)
  }

  ghost predicate RowAgrees(s: State, k: Key)
  {
    Latest(s.events, k) == Row(s, k) && Count(s.events, k) == if Row(s, k).Some? then VersionOf(Row(s, k).value) else 0
  }

  ghost predicate OneEventPerRequest(events: seq<Event>)
  {
    forall i, j | 0 <= i < j < |events| ::
      events[i].actor != events[j].actor || events[i].requestID != events[j].requestID
  }

  predicate Round(sub: Submission)
  {
    sub.attemptNo >= 1 && sub.version == if sub.status == Submitted then 2 * sub.attemptNo - 1 else 2 * sub.attemptNo
  }

  ghost predicate SubmissionOk(s: State, id: string)
    requires id in s.submissions
  {
    var sub := s.submissions[id];
    && sub.id == id && Round(sub)
    && sub.taskID in s.tasks && s.tasks[sub.taskID].status != Draft
    && (s.tasks[sub.taskID].status == Closed ==> sub.status != Submitted)
    && (sub.taskID, sub.userID) in s.attempts && s.attempts[(sub.taskID, sub.userID)] == id
  }

  ghost predicate TablesOk(s: State)
  {
    && (forall id | id in s.tasks :: s.tasks[id].id == id)
    && (forall id | id in s.submissions :: SubmissionOk(s, id))
    && (forall key | key in s.attempts :: s.attempts[key] in s.submissions
          && (s.submissions[s.attempts[key]].taskID, s.submissions[s.attempts[key]].userID) == key)
  }

  ghost predicate Inv(s: State)
  {
    TablesOk(s) && LogAgrees(s) && OneEventPerRequest(s.events)
  }

  // ---------- what an accepted request may write ----------

  /** A draft is created, edited or published; a published task closes once nothing waits for review. */
  predicate NextTask(s: State, t: Task)
  {
    if t.id in s.tasks then
      var was := s.tasks[t.id];
      t.version == was.version + 1 &&
      ((was.status == Draft && t.status != Closed)
        || (was.status == Published && t.status == Closed && !HasPending(s, t.id)))
    else t.version == 1 && t.status == Draft
  }

  /** Only in a published task: a first attempt, a new attempt after a return, or a verdict on a waiting one. */
  predicate NextSubmission(s: State, sub: Submission)
  {
    && sub.taskID in s.tasks && s.tasks[sub.taskID].status == Published
    && (if sub.id in s.submissions then
          var was := s.submissions[sub.id];
          && sub.version == was.version + 1 && sub.taskID == was.taskID && sub.userID == was.userID
          && ((was.status == Returned && sub.status == Submitted && sub.attemptNo == was.attemptNo + 1)
              || (was.status == Submitted && sub.status != Submitted && sub.attemptNo == was.attemptNo))
        else
          && sub.version == 1 && sub.attemptNo == 1 && sub.status == Submitted
          && (sub.taskID, sub.userID) !in s.attempts)
  }

  predicate NextRow(s: State, row: Snapshot)
  {
    match row
    case TaskRow(t) => NextTask(s, t)
    case SubmissionRow(sub) => NextSubmission(s, sub)
  }

  lemma DecideMoves(s: State, call: Call, req: Request)
    requires TablesOk(s) && Refusal(s, call, req) == None && Decide(s, call, req).Success?
    ensures NextRow(s, Decide(s, call, req).value.row)
  {
    hide ValidTaskFields, ValidSubmission, ValidRequestID, ValidDecision, AttachmentsReady, Users, HasPending;
  }

  // ---------- writing one row ----------

  lemma PutRow(s: State, row: Snapshot, k: Key)
    ensures Row(Put(s, row), k) == if KeyOf(row) == k then Some(row) else Row(s, k)
  {
  }

  lemma LogOneMore(events: seq<Event>, e: Event, k: Key)
    ensures Latest(events + [e], k) == if Subject(e) == k then Some(e.result) else Latest(events, k)
    ensures Count(events + [e], k) == Count(events, k) + if Subject(e) == k then 1 else 0
  {
    assert (events + [e])[..|events|] == events;
  }

  lemma CommitLog(s: State, call: Call, req: Request, c: Change)
    requires LogAgrees(s) && NextRow(s, c.row)
    ensures LogAgrees(Commit(s, call, req, c))
  {
    hide Put, Latest, Count;
    var t, e := Commit(s, call, req, c), EventOf(call, req, c);
    forall k ensures RowAgrees(t, k) {
      assert RowAgrees(s, k);
      PutRow(s, c.row, k);
      LogOneMore(s.events, e, k);
      assert Row(t, k) == Row(Put(s, c.row), k);
      NewVersion(s, c.row);
    }
  }

  lemma NewVersion(s: State, row: Snapshot)
    requires NextRow(s, row)
    ensures VersionOf(row) == 1 + if Row(s, KeyOf(row)).Some? then VersionOf(Row(s, KeyOf(row)).value) else 0
  {
    hide HasPending;
  }

  lemma PutTask(s: State, t: Task)
    requires TablesOk(s) && NextTask(s, t)
    ensures TablesOk(Put(s, TaskRow(t)))
  {
    var u := Put(s, TaskRow(t));
    forall id | id in u.submissions ensures SubmissionOk(u, id) {
      assert SubmissionOk(s, id);
    }
  }

  lemma PutSubmission(s: State, sub: Submission)
    requires TablesOk(s) && NextSubmission(s, sub)
    ensures TablesOk(Put(s, SubmissionRow(sub)))
  {
    var u := Put(s, SubmissionRow(sub));
    if sub.id in s.submissions { assert SubmissionOk(s, sub.id); }
    forall id | id in u.submissions ensures SubmissionOk(u, id) {
      if id != sub.id {
        assert SubmissionOk(s, id);
      }
    }
  }

  lemma PutKeeps(s: State, row: Snapshot)
    requires TablesOk(s) && NextRow(s, row)
    ensures TablesOk(Put(s, row))
  {
    hide TablesOk, NextTask, NextSubmission, Put;
    match row
    case TaskRow(t) => PutTask(s, t);
    case SubmissionRow(sub) => PutSubmission(s, sub);
  }

  lemma TransactKeeps(s: State, call: Call, req: Request)
    requires Inv(s)
    ensures Inv(Transact(s, call, req).0)
  {
    hide Refusal, Decide, Put, TablesOk, LogAgrees, NextRow, NextTask, NextSubmission;
    var t := Transact(s, call, req).0;
    if t != s {
      DecideMoves(s, call, req);
      var c := Decide(s, call, req).value;
      CommitLog(s, call, req, c);
      PutKeeps(s, c.row);
      SameTables(Put(s, c.row), t);
      assert OneEventPerRequest(t.events);
    }
  }

  lemma SameTables(s: State, t: State)
    requires TablesOk(s) && s.tasks == t.tasks && s.submissions == t.submissions && s.attempts == t.attempts
    ensures TablesOk(t)
  {
    forall id | id in t.submissions ensures SubmissionOk(t, id) { assert SubmissionOk(s, id); }
  }

  lemma {:induction false} RunKeeps(s: State, steps: seq<Step>)
    requires Inv(s)
    ensures Inv(Run(s, steps))
    decreases steps
  {
    hide Inv, Transact;
    if |steps| > 0 {
      TransactKeeps(s, steps[0].call, Normalized(steps[0].request));
      RunKeeps(Perform(s, steps[0].call, steps[0].request).0, steps[1..]);
    }
  }

  lemma EmptyOk()
    ensures Inv(EMPTY)
  {
    forall k ensures RowAgrees(EMPTY, k) { }
  }

  /** In every reachable state the newest event of each row is the row, and no actor's request id has two events. */
  lemma LogTellsTables(steps: seq<Step>, k: Key, i: nat, j: nat)
    ensures var s := Run(EMPTY, steps);
            && Latest(s.events, k) == Row(s, k)
            && Count(s.events, k) == (if Row(s, k).Some? then VersionOf(Row(s, k).value) else 0)
            && (i < j < |s.events| ==>
                  || s.events[i].actor != s.events[j].actor
                  || s.events[i].requestID != s.events[j].requestID)
  {
    EmptyOk();
    RunKeeps(EMPTY, steps);
    assert RowAgrees(Run(EMPTY, steps), k);
  }

  /** Review rounds in every reachable state, and a closed task has nothing waiting. */
  lemma RoundsAddUp(steps: seq<Step>, id: string)
    ensures var s := Run(EMPTY, steps);
            id in s.submissions ==>
              var sub := s.submissions[id];
              && sub.attemptNo >= 1
              && (sub.status == Submitted ==> sub.version == 2 * sub.attemptNo - 1)
              && (sub.status != Submitted ==> sub.version == 2 * sub.attemptNo)
              && sub.taskID in s.tasks && (s.tasks[sub.taskID].status == Closed ==> sub.status != Submitted)
  {
    EmptyOk();
    RunKeeps(EMPTY, steps);
    var s := Run(EMPTY, steps);
    if id in s.submissions { assert SubmissionOk(s, id); }
  }

  // ---------- what never changes again ----------

  /** Approved submissions, closed tasks and every submission of a closed task. */
  predicate Final(s: State, k: Key)
  {
    match k
    case TaskKey(id) => id in s.tasks && s.tasks[id].status == Closed
    case SubmissionKey(id) =>
      id in s.submissions &&
      (s.submissions[id].status == Approved
       || (s.submissions[id].taskID in s.tasks && s.tasks[s.submissions[id].taskID].status == Closed))
  }

  lemma PutFinal(s: State, row: Snapshot, k: Key)
    requires TablesOk(s) && NextRow(s, row) && Final(s, k)
    ensures Final(Put(s, row), k) && Row(Put(s, row), k) == Row(s, k)
  {
    hide HasPending;
    if k.SubmissionKey? { assert SubmissionOk(s, k.id); }
  }

  lemma TransactFinal(s: State, call: Call, req: Request, k: Key)
    requires Inv(s) && Final(s, k)
    ensures Final(Transact(s, call, req).0, k) && Row(Transact(s, call, req).0, k) == Row(s, k)
  {
    hide Refusal, Decide, Put, TablesOk, LogAgrees, NextRow;
    var t := Transact(s, call, req).0;
    if t != s {
      DecideMoves(s, call, req);
      PutFinal(s, Decide(s, call, req).value.row, k);
    }
  }

  /** What is final stays as it is through any further requests. */
  lemma {:induction false} FinalStays(s: State, steps: seq<Step>, k: Key)
    requires Inv(s) && Final(s, k)
    ensures Final(Run(s, steps), k) && Row(Run(s, steps), k) == Row(s, k)
    decreases steps
  {
    hide Inv, Transact, Final, Row;
    if |steps| > 0 {
      var call, req := steps[0].call, Normalized(steps[0].request);
      TransactKeeps(s, call, req);
      TransactFinal(s, call, req, k);
      FinalStays(Transact(s, call, req).0, steps[1..], k);
    }
  }

  // ---------- repeated requests ----------

  lemma {:induction false} EventsGrow(s: State, steps: seq<Step>)
    ensures s.events <= Run(s, steps).events
    decreases steps
  {
    hide Refusal, Decide, Put;
    if |steps| > 0 {
      EventsGrow(Perform(s, steps[0].call, steps[0].request).0, steps[1..]);
    }
  }

  lemma {:induction false} StoredIs(events: seq<Event>, e: Event)
    requires OneEventPerRequest(events) && e in events
    ensures Stored(events, e.actor, e.requestID) == Some(e)
  {
    var last := |events| - 1;
    var i :| 0 <= i < |events| && events[i] == e;
    if i < last {
      assert events[i].actor != events[last].actor || events[i].requestID != events[last].requestID;
      assert events[..last][i] == e;
      StoredIs(events[..last], e);
    }
  }

  /** Submissions and tasks never disappear, and a submission stays with its task. */
  lemma {:induction false} TaskOfStays(s: State, steps: seq<Step>, req: Request)
    requires Inv(s) && !req.Create? && TaskOf(s, req).Some? && TaskOf(s, req).value in s.tasks
    ensures var t := Run(s, steps);
            && TaskOf(t, req) == TaskOf(s, req) && TaskOf(t, req).value in t.tasks
            && t.tasks[TaskOf(t, req).value].groupID == s.tasks[TaskOf(s, req).value].groupID
    decreases steps
  {
    hide Inv, Transact;
    if |steps| > 0 {
      var call, next := steps[0].call, Normalized(steps[0].request);
      TransactKeeps(s, call, next);
      TransactTaskOf(s, call, next, req);
      TaskOfStays(Transact(s, call, next).0, steps[1..], req);
    }
  }

  lemma TransactTaskOf(s: State, call: Call, next: Request, req: Request)
    requires Inv(s) && !req.Create? && TaskOf(s, req).Some? && TaskOf(s, req).value in s.tasks
    ensures var t := Transact(s, call, next).0;
            && TaskOf(t, req) == TaskOf(s, req) && TaskOf(t, req).value in t.tasks
            && t.tasks[TaskOf(t, req).value].groupID == s.tasks[TaskOf(s, req).value].groupID
  {
    hide Refusal, Decide, TablesOk, LogAgrees, NextTask, HasPending;
    var t := Transact(s, call, next).0;
    if t != s {
      DecideMoves(s, call, next);
      DecideKeepsGroup(s, call, next);
    }
  }

  lemma DecideKeepsGroup(s: State, call: Call, req: Request)
    requires TablesOk(s) && Refusal(s, call, req) == None && Decide(s, call, req).Success?
    ensures var row := Decide(s, call, req).value.row;
            row.TaskRow? && row.task.id in s.tasks ==> row.task.groupID == s.tasks[row.task.id].groupID
  {
    hide ValidTaskFields, ValidSubmission, ValidRequestID, ValidDecision, AttachmentsReady, Users, HasPending;
  }

  /** What the caller must still be for the stored answer: an active member, and a manager to repeat a creation. */
  predicate StillAllowed(call: Call, req: Request)
  {
    call.role.Some? && (req.Create? ==> IsManager(call.role.value))
  }

  /** An accepted request, sent again at any later time, changes nothing and is answered with the stored result. */
  lemma RepeatChangesNothing(s: State, call: Call, req: Request, between: seq<Step>, again: Call)
    requires Inv(s) && Perform(s, call, req).1.Success?
    requires again.actor == call.actor && again.requestID == call.requestID && again.linkOk == call.linkOk
    ensures var later := Run(Perform(s, call, req).0, between);
            && Perform(later, again, req).0 == later
            && Perform(later, again, req).1 ==
                 if StillAllowed(again, req) then Perform(s, call, req).1 else Failure(Missing)
  {
    hide Decide, Put, TablesOk, LogAgrees, ValidSubmission, ValidRequestID, ValidDecision, Trim, Row;
    var n := Normalized(req);
    assert n.Create? <==> req.Create?;
    var t := Transact(s, call, n).0;
    var later := Run(t, between);
    AcceptedIsStored(s, call, n);
    TransactKeeps(s, call, n);
    RunKeeps(t, between);
    EventsGrow(t, between);
    var e := Stored(t.events, call.actor, call.requestID).value;
    assert e in later.events;
    StoredIs(later.events, e);
    if !n.Create? {
      TransactTaskOf(s, call, n, n);
      TaskOfStays(t, between, n);
    }
  }

  lemma AcceptedIsStored(s: State, call: Call, req: Request)
    requires Transact(s, call, req).1.Success?
    ensures Refusal(s, call, req).None?
    ensures var e := Stored(Transact(s, call, req).0.events, call.actor, call.requestID);
            e.Some? && e.value.request == req && Transact(s, call, req).1 == Success(e.value.result)
  {
    hide Refusal, Decide, Put;
  }

  /** Reusing the id for another request changes nothing and never succeeds. */
  lemma OtherRequestConflicts(s: State, call: Call, req: Request, between: seq<Step>, again: Call, other: Request)
    requires Inv(s) && Perform(s, call, req).1.Success?
    requires again.actor == call.actor && again.requestID == call.requestID && Normalized(other) != Normalized(req)
    ensures var later := Run(Perform(s, call, req).0, between);
            && Perform(later, again, other).0 == later
            && Perform(later, again, other).1.Failure?
  {
    hide Refusal, Decide, Put, TablesOk, LogAgrees, Trim, Normalized;
    var n := Normalized(req);
    var t := Transact(s, call, n).0;
    var later := Run(t, between);
    AcceptedIsStored(s, call, n);
    TransactKeeps(s, call, n);
    RunKeeps(t, between);
    EventsGrow(t, between);
    var e := Stored(t.events, call.actor, call.requestID).value;
    assert e in later.events;
    StoredIs(later.events, e);
  }

  // ---------- one event, one change ----------

  /**
   A request either leaves everything as it is, or adds one event of its own and rewrites exactly the row it names.
   */
  lemma OneEventOneChange(s: State, call: Call, req: Request, k: Key)
    requires Inv(s)
    ensures var (t, r) := Perform(s, call, req);
            || t == s
            || (&& r.Success? && |t.events| == |s.events| + 1 && t.events[..|s.events|] == s.events
                && t.events[|s.events|].actor == call.actor && t.events[|s.events|].requestID == call.requestID
                && t.events[|s.events|].result == r.value
                && (k == KeyOf(r.value) ==> Row(t, k) == Some(r.value))
                && (k == KeyOf(r.value) ==>
                      VersionOf(r.value) == 1 + if Row(s, k).Some? then VersionOf(Row(s, k).value) else 0)
                && (k != KeyOf(r.value) ==> Row(t, k) == Row(s, k)))
  {
    hide Refusal, Decide, TablesOk, LogAgrees, NextRow;
    var n := Normalized(req);
    var t := Transact(s, call, n).0;
    if t != s {
      DecideMoves(s, call, n);
      var c := Decide(s, call, n).value;
      PutRow(s, c.row, k);
      NewVersion(s, c.row);
      assert Row(t, k) == Row(Put(s, c.row), k);
    }
  }

  // ---------- lost updates ----------

  function Expected(req: Request): int
  {
    match req
    case Create(_, _, _, _) => 0
    case Edit(_, expected, _, _, _) => expected
    case Publish(_, expected) => expected
    case Close(_, expected) => expected
    case Submit(_, _, _, expected, _) => expected
    case Review(_, _, _, expected) => expected
  }

  /** A new request is accepted only on the version it expects. */
  lemma AcceptsExpected(s: State, call: Call, req: Request)
    requires TablesOk(s) && Refusal(s, call, req) == None && Decide(s, call, req).Success?
    ensures var row := Decide(s, call, req).value.row;
            Expected(req) == if Row(s, KeyOf(row)).Some? then VersionOf(Row(s, KeyOf(row)).value) else 0
  {
    hide ValidTaskFields, ValidSubmission, ValidRequestID, ValidDecision, AttachmentsReady, Users, HasPending;
  }

  lemma {:induction false} VersionsGrow(s: State, steps: seq<Step>, k: Key)
    requires Inv(s) && Row(s, k).Some?
    ensures Row(Run(s, steps), k).Some? && VersionOf(Row(Run(s, steps), k).value) >= VersionOf(Row(s, k).value)
    decreases steps
  {
    hide Inv, Transact, Row, VersionOf, KeyOf, Normalized;
    if |steps| > 0 {
      var t := Perform(s, steps[0].call, steps[0].request).0;
      OneEventOneChange(s, steps[0].call, steps[0].request, k);
      TransactKeeps(s, steps[0].call, Normalized(steps[0].request));
      VersionsGrow(t, steps[1..], k);
    }
  }

  /** No lost update: of two different requests that expect the same version of a row, only one is ever accepted. */
  lemma NoLostUpdate(s: State, call: Call, req: Request, between: seq<Step>, call': Call, req': Request)
    requires Inv(s)
    requires var (t, r) := Perform(s, call, req); t != s && r.Success?
    requires var later := Run(Perform(s, call, req).0, between);
             && Perform(later, call', req').0 != later
             && Perform(later, call', req').1.Success?
             && KeyOf(Perform(later, call', req').1.value) == KeyOf(Perform(s, call, req).1.value)
    ensures Expected(req') != Expected(req)
  {
    hide Refusal, Decide, Put, TablesOk, LogAgrees, OneEventPerRequest, Row, VersionOf, KeyOf, Trim;
    var (t, r) := Perform(s, call, req);
    var later := Run(t, between);
    var k := KeyOf(r.value);
    OneEventOneChange(s, call, req, k);
    AcceptsExpected(s, call, Normalized(req));
    TransactKeeps(s, call, Normalized(req));
    RunKeeps(t, between);
    VersionsGrow(t, between, k);
    AcceptsExpected(later, call', Normalized(req'));
  }

  /** The row a waiting attempt points to is always there. */
  lemma AttemptIsThere(steps: seq<Step>, key: (string, string))
    ensures var s := Run(EMPTY, steps);
            key in s.attempts ==>
              && s.attempts[key] in s.submissions
              && s.submissions[s.attempts[key]].taskID == key.0
              && s.submissions[s.attempts[key]].userID == key.1
  {
    EmptyOk();
    RunKeeps(EMPTY, steps);
  }
}
