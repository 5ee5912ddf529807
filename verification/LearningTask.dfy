/**
 Learning tasks: every request is one transaction that checks its caller, answers a repeated request from the event log,
 or changes one task or submission and appends an event that carries the new row.
 */
module LearningTask {
  import opened Wrappers

  datatype TaskStatus = Draft | Published | Closed

  datatype Task = Task(
    id: string, groupID: string, title: string, description: string, dueAt: int, status: TaskStatus, version: nat,
    createdBy: string, publishedAt: int, closedAt: int, createdAt: int, updatedAt: int)

  datatype SubmissionStatus = Submitted | Returned | Approved

  datatype Submission = Submission(
    id: string, taskID: string, userID: string, text: string, link: string, attachments: seq<string>,
    status: SubmissionStatus, attemptNo: nat, version: nat, reviewerID: string, reviewNote: string,
    submittedAt: int, reviewedAt: int)

  datatype Snapshot = TaskRow(task: Task) | SubmissionRow(submission: Submission)

  datatype Target = Group(id: string) | User(id: string)

  /** Action, target and payload; the digest stored with an event tells any two of them apart. */
  datatype Request =
    | Create(groupID: string, title: string, description: string, dueAt: int)
    | Edit(taskID: string, expected: int, title: string, description: string, dueAt: int)
    | Publish(taskID: string, expected: int)
    | Close(taskID: string, expected: int)
    | Submit(taskID: string, text: string, link: string, expected: int, attachments: seq<string>)
    | Review(submissionID: string, decision: string, reason: string, expected: int)

  datatype Role = Owner | Admin | Member

  /**
   What a transaction reads beside the task tables: the caller's active role, members, attachments, clock and a new id.
   */
  datatype Call = Call(
    actor: string, requestID: string, role: Option<Role>, now: int, newID: string,
    managers: seq<string>, readyIn: string -> Option<string>, linkOk: string -> bool)

  datatype Error = Bad | Missing | Conflict | VersionConflict(current: int) | Unavailable

  datatype Event = Event(
    taskID: string, submissionID: Option<string>, actor: string, requestID: string, request: Request,
    result: Snapshot, targets: seq<Target>, createdAt: int)

  /** `attempts` is the unique key on (task, user) of the submissions table. */
  datatype State = State(
    tasks: map<string, Task>, submissions: map<string, Submission>, attempts: map<(string, string), string>,
    events: seq<Event>)

  const EMPTY := State(map[], map[], map[], [])

  // ---------- validation ----------

  predicate IsSpace(c: char)
  {
    || c == ' ' || '\t' <= c <= '\r' || c == '\U{0085}' || c == '\U{00A0}' || c == '\U{1680}'
    || '\U{2000}' <= c <= '\U{200A}'
    || c == '\U{2028}' || c == '\U{2029}' || c == '\U{202F}' || c == '\U{205F}' || c == '\U{3000}'
  }

  function Trim(s: string): string
  {
    if |s| > 0 && IsSpace(s[0]) then Trim(s[1..])
    else if |s| > 0 && IsSpace(s[|s| - 1]) then Trim(s[..|s| - 1])
    else s
  }

  /** What the service makes of the texts before it hashes the request; an approval has no reason. */
  function Normalized(req: Request): Request
  {
    match req
    case Create(groupID, title, description, dueAt) => Create(groupID, Trim(title), description, dueAt)
    case Edit(taskID, expected, title, description, dueAt) => Edit(taskID, expected, Trim(title), description, dueAt)
    case Submit(taskID, text, link, expected, attachments) =>
      Submit(taskID, Trim(text), Trim(link), expected, attachments)
    case Review(id, decision, reason, expected) =>
      Review(id, Trim(decision), if Trim(decision) == "approve" then "" else Trim(reason), expected)
    case _ => req
  }

  predicate ValidRequestID(v: string)
  {
    8 <= |v| <= 128 && !IsSpace(v[0]) && !IsSpace(v[|v| - 1])
  }

  predicate ValidTaskFields(title: string, description: string, dueAt: int, now: int)
  {
    1 <= |title| <= 120 && |description| <= 5000 && (dueAt == 0 || dueAt > now)
  }

  predicate IsHex(c: char)
  {
    '0' <= c <= '9' || 'a' <= c <= 'f' || 'A' <= c <= 'F'
  }

  predicate IsAttachmentID(id: string)
  {
    |id| == 32 && forall j | 0 <= j < |id| :: IsHex(id[j])
  }

  predicate ValidSubmission(text: string, link: string, attachments: seq<string>, linkOk: string -> bool)
  {
    && (|text| > 0 || |link| > 0 || |attachments| > 0)
    && |attachments| <= 10
    && (forall i | 0 <= i < |attachments| :: IsAttachmentID(attachments[i]))
    && (forall i, j | 0 <= i < j < |attachments| :: attachments[i] != attachments[j])
    && |text| <= 5000 && |link| <= 2048
    && (|link| > 0 ==> linkOk(link))
  }

  predicate ValidDecision(decision: string, reason: string)
  {
    decision == "approve" || (decision == "return" && 1 <= |reason| <= 1000)
  }

  predicate IsManager(role: Role)
  {
    role == Owner || role == Admin
  }

  // ---------- what each action decides ----------

  /** The one row an accepted request writes, and whom to notify. */
  datatype Change = Change(row: Snapshot, targets: seq<Target>)

  function DecideCreate(s: State, call: Call, req: Request): Result<Change, Error>
    requires req.Create?
  {
    if !ValidTaskFields(req.title, req.description, req.dueAt, call.now) then Failure(Bad)
    else if call.newID in s.tasks then Failure(Unavailable)
    else Success(Change(TaskRow(Task(call.newID, req.groupID, req.title, req.description, req.dueAt, Draft, 1,
                                     call.actor, 0, 0, call.now, call.now)), []))
  }

  function DecideEdit(t: Task, role: Role, call: Call, req: Request): Result<Change, Error>
    requires req.Edit?
  {
    if !IsManager(role) then Failure(Missing)
    else if !ValidTaskFields(req.title, req.description, req.dueAt, call.now) then Failure(Bad)
    else if t.status != Draft then Failure(Conflict)
    else if t.version != req.expected then Failure(VersionConflict(t.version))
    else Success(Change(TaskRow(t.(title := req.title, description := req.description, dueAt := req.dueAt,
                                   version := t.version + 1, updatedAt := call.now)), []))
  }

  function DecidePublish(t: Task, role: Role, call: Call, expected: int): Result<Change, Error>
  {
    if !IsManager(role) then Failure(Missing)
    else if t.status != Draft then Failure(Conflict)
    else if t.version != expected then Failure(VersionConflict(t.version))
    else if t.dueAt > 0 && call.now >= t.dueAt then Failure(Conflict)
    else Success(Change(TaskRow(t.(status := Published, version := t.version + 1, publishedAt := call.now,
                                   updatedAt := call.now)), [Group(t.groupID)]))
  }

  predicate HasPending(s: State, taskID: string)
  {
    exists id | id in s.submissions :: s.submissions[id].taskID == taskID && s.submissions[id].status == Submitted
  }

  function DecideClose(s: State, t: Task, role: Role, call: Call, expected: int): Result<Change, Error>
  {
    if !IsManager(role) then Failure(Missing)
    else if t.status != Published then Failure(Conflict)
    else if t.version != expected then Failure(VersionConflict(t.version))
    else if HasPending(s, t.id) then Failure(Conflict)
    else Success(Change(TaskRow(t.(status := Closed, version := t.version + 1, closedAt := call.now,
                                   updatedAt := call.now)), [Group(t.groupID)]))
  }

  predicate AttachmentsReady(call: Call, groupID: string, attachments: seq<string>)
  {
    forall i | 0 <= i < |attachments| :: call.readyIn(attachments[i]) == Some(groupID)
  }

  function Users(ids: seq<string>): seq<Target>
  {
    seq(|ids|, i requires 0 <= i < |ids| => User(ids[i]))
  }

  function DecideSubmit(s: State, t: Task, role: Role, call: Call, req: Request): Result<Change, Error>
    requires req.Submit?
  {
    if role != Member then Failure(Missing)
    else if t.status != Published then Failure(Conflict)
    else if t.dueAt > 0 && call.now >= t.dueAt then Failure(Conflict)
    else if !AttachmentsReady(call, t.groupID, req.attachments) then Failure(Bad)
    else
      var key := (t.id, call.actor);
      if key !in s.attempts then
        if req.expected != 0 then Failure(VersionConflict(0))
        else if call.newID in s.submissions then Failure(Unavailable)
        else Success(Change(SubmissionRow(Submission(call.newID, t.id, call.actor, req.text, req.link, req.attachments,
                                                     Submitted, 1, 1, "", "", call.now, 0)), Users(call.managers)))
      else if s.attempts[key] !in s.submissions then Failure(Unavailable)
      else
        var sub := s.submissions[s.attempts[key]];
        if sub.version != req.expected then Failure(VersionConflict(sub.version))
        else if sub.status != Returned then Failure(Conflict)
        else Success(Change(SubmissionRow(sub.(text := req.text, link := req.link, attachments := req.attachments,
                                               status := Submitted, attemptNo := sub.attemptNo + 1,
                                               version := sub.version + 1, reviewerID := "", reviewNote := "",
                                               reviewedAt := 0, submittedAt := call.now)),
                            Users(call.managers)))
  }

  function DecideReview(s: State, t: Task, role: Role, call: Call, req: Request): Result<Change, Error>
    requires req.Review?
  {
    if !IsManager(role) then Failure(Missing)
    else if t.status != Published then Failure(Conflict)
    else if req.submissionID !in s.submissions || s.submissions[req.submissionID].taskID != t.id then Failure(Missing)
    else
      var sub := s.submissions[req.submissionID];
      if sub.version != req.expected then Failure(VersionConflict(sub.version))
      else if sub.status != Submitted then Failure(Conflict)
      else Success(Change(SubmissionRow(sub.(status := if req.decision == "return" then Returned else Approved,
                                             version := sub.version + 1, reviewerID := call.actor,
                                             reviewNote := req.reason, reviewedAt := call.now)),
                          [User(sub.userID)]))
  }

  // ---------- one request ----------

  /** The task a request works on; a review finds it through its submission. */
  function TaskOf(s: State, req: Request): Option<string>
  {
    match req
    case Create(_, _, _, _) => None
    case Review(id, _, _, _) => if id in s.submissions then Some(s.submissions[id].taskID) else None
    case _ => Some(req.taskID)
  }

  /** The checks that come before the event log is asked; None lets the request through. */
  function Refusal(s: State, call: Call, req: Request): Option<Error>
  {
    if req.Submit? && !ValidSubmission(req.text, req.link, req.attachments, call.linkOk) then Some(Bad)
    else if req.Review? && !ValidDecision(req.decision, req.reason) then Some(Bad)
    else if req.Review? && TaskOf(s, req).None? then Some(Missing)
    else if !ValidRequestID(call.requestID) then Some(Bad)
    else if !req.Create? && TaskOf(s, req).value !in s.tasks then Some(Missing)
    else if call.actor == "" || call.role.None? then Some(Missing)
    else if req.Create? && (req.groupID == "" || !IsManager(call.role.value)) then Some(Missing)
    else if !req.Create? && s.tasks[TaskOf(s, req).value].groupID == "" then Some(Missing)
    else None
  }

  function Decide(s: State, call: Call, req: Request): Result<Change, Error>
    requires Refusal(s, call, req) == None
  {
    var role := call.role.value;
    match req
    case Create(_, _, _, _) => DecideCreate(s, call, req)
    case Edit(id, _, _, _, _) => DecideEdit(s.tasks[id], role, call, req)
    case Publish(id, expected) => DecidePublish(s.tasks[id], role, call, expected)
    case Close(id, expected) => DecideClose(s, s.tasks[id], role, call, expected)
    case Submit(id, _, _, _, _) => DecideSubmit(s, s.tasks[id], role, call, req)
    case Review(_, _, _, _) => DecideReview(s, s.tasks[TaskOf(s, req).value], role, call, req)
  }

  /** The event an actor's request id already belongs to. */
  function Stored(events: seq<Event>, actor: string, requestID: string): (e: Option<Event>)
    ensures e.Some? ==> e.value in events && e.value.actor == actor && e.value.requestID == requestID
    ensures e.None? ==> forall i | 0 <= i < |events| :: events[i].actor != actor || events[i].requestID != requestID
  {
    if |events| == 0 then None
    else if events[|events| - 1].actor == actor && events[|events| - 1].requestID == requestID
      then Some(events[|events| - 1])
    else Stored(events[..|events| - 1], actor, requestID)
  }

  function EventOf(call: Call, req: Request, c: Change): Event
  {
    match c.row
    case TaskRow(t) => Event(t.id, None, call.actor, call.requestID, req, c.row, c.targets, call.now)
    case SubmissionRow(sub) =>
      Event(sub.taskID, Some(sub.id), call.actor, call.requestID, req, c.row, c.targets, call.now)
  }

  function Put(s: State, row: Snapshot): State
  {
    match row
    case TaskRow(t) => s.(tasks := s.tasks[t.id := t])
    case SubmissionRow(sub) =>
      s.(submissions := s.submissions[sub.id := sub], attempts := s.attempts[(sub.taskID, sub.userID) := sub.id])
  }

  function Commit(s: State, call: Call, req: Request, c: Change): State
  {
    Put(s, c.row).(events := s.events + [EventOf(call, req, c)])
  }

  function Perform(s: State, call: Call, req: Request): (State, Result<Snapshot, Error>)
  {
    Transact(s, call, Normalized(req))
  }

  function Transact(s: State, call: Call, req: Request): (State, Result<Snapshot, Error>)
  {
    if Refusal(s, call, req).Some? then (s, Failure(Refusal(s, call, req).value))
    else
      match Stored(s.events, call.actor, call.requestID)
      case Some(e) => (s, if e.request == req then Success(e.result) else Failure(Conflict))
      case None =>
        match Decide(s, call, req)
        case Failure(e) => (s, Failure(e))
        case Success(c) => (Commit(s, call, req, c), Success(c.row))
  }

  datatype Step = Step(call: Call, request: Request)

  function Run(s: State, steps: seq<Step>): State
    decreases steps
  {
    if |steps| == 0 then s else Run(Perform(s, steps[0].call, steps[0].request).0, steps[1..])
  }
}
