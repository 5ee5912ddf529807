/** The service over its tables. Each method is one transaction; nothing is written when it fails. */
module LearningTaskStore {
  import opened Wrappers
  import opened LearningTask
  import Laws = LearningTaskLaws

  class Service {
    var tasks: map<string, Task>
    var submissions: map<string, Submission>
    var attempts: map<(string, string), string>
    var events: seq<Event>

    function Tables(): State
      reads this
    {
      State(tasks, submissions, attempts, events)
    }

    ghost predicate Valid()
      reads this
    {
      Laws.Inv(Tables())
    }

    constructor ()
      ensures Valid() && Tables() == EMPTY
    {
      tasks, submissions, attempts, events := map[], map[], map[], [];
      Laws.EmptyOk();
    }

    /** checkIdempotent: the answer to give without running the action, if the request id was used before. */
    method CheckIdempotent(actor: string, requestID: string, req: Request)
      returns (answer: Option<Result<Snapshot, Error>>)
      ensures match Stored(events, actor, requestID)
              case None => answer == None
              case Some(e) => answer == Some(if e.request == req then Success(e.result) else Failure(Conflict))
    {
      var i := |events|;
      assert events[..i] == events;
      while i > 0
        invariant 0 <= i <= |events|
        invariant Stored(events, actor, requestID) == Stored(events[..i], actor, requestID)
      {
        i := i - 1;
        assert events[..i + 1][..i] == events[..i];
        if events[i].actor == actor && events[i].requestID == requestID {
          if events[i].request != req {
            return Some(Failure(Conflict));
          }
          return Some(Success(events[i].result));
        }
      }
      return None;
    }

    method SaveEvent(taskID: string, submissionID: Option<string>, call: Call, req: Request, result: Snapshot,
        targets: seq<Target>)
      modifies `events
      ensures events == old(events)
                + [Event(taskID, submissionID, call.actor, call.requestID, req, result, targets, call.now)]
    {
      events := events + [Event(taskID, submissionID, call.actor, call.requestID, req, result, targets, call.now)];
    }

    /** validateSubmission, one attachment after the other. */
    method ValidateSubmission(text: string, link: string, attachments: seq<string>, linkOk: string -> bool)
      returns (ok: bool)
      ensures ok == ValidSubmission(text, link, attachments, linkOk)
    {
      if text == "" && link == "" && attachments == [] {
        return false;
      }
      if |attachments| > 10 {
        return false;
      }
      var seen: set<string> := {};
      for i := 0 to |attachments|
        invariant forall id :: id in seen <==> id in attachments[..i]
        invariant forall j | 0 <= j < i :: IsAttachmentID(attachments[j])
        invariant forall j, k | 0 <= j < k < i :: attachments[j] != attachments[k]
      {
        var id := attachments[i];
        if |id| != 32 || exists j | 0 <= j < |id| :: !IsHex(id[j]) {
          return false;
        }
        if id in seen {
          return false;
        }
        seen := seen + {id};
      }
      if |text| > 5000 || |link| > 2048 {
        return false;
      }
      return link == "" || linkOk(link);
    }

    /** The decision is one of the two, and a return needs a reason. */
    method ValidateReview(decision: string, reason: string) returns (ok: bool)
      ensures ok == ValidDecision(decision, reason)
    {
      if decision != "approve" && decision != "return" {
        return false;
      }
      if decision == "return" && (|reason| < 1 || |reason| > 1000) {
        return false;
      }
      return true;
    }

    method RequireRole(call: Call, groupID: string) returns (role: Option<Role>)
      ensures role == if call.actor == "" || groupID == "" then None else call.role
    {
      if call.actor == "" || groupID == "" {
        return None;
      }
      return call.role;
    }

    /** Everything up to the action: the request's own checks, the task, the caller's role and the stored answer. */
    method Admit(call: Call, req: Request) returns (answer: Option<Result<Snapshot, Error>>)
      ensures match Refusal(Tables(), call, req)
              case Some(e) => answer == Some(Failure(e))
              case None =>
                match Stored(events, call.actor, call.requestID)
                case None => answer == None
                case Some(e) => answer == Some(if e.request == req then Success(e.result) else Failure(Conflict))
    {
      hide ValidSubmission, ValidDecision;
      var groupID := "";
      if req.Submit? {
        var ok := ValidateSubmission(req.text, req.link, req.attachments, call.linkOk);
        if !ok {
          return Some(Failure(Bad));
        }
      }
      if req.Review? {
        var ok := ValidateReview(req.decision, req.reason);
        if !ok {
          return Some(Failure(Bad));
        }
        if req.submissionID !in submissions {
          return Some(Failure(Missing));
        }
      }
      var id := call.requestID;
      if |id| < 8 || |id| > 128 || IsSpace(id[0]) || IsSpace(id[|id| - 1]) {
        return Some(Failure(Bad));
      }
      if req.Create? {
        groupID := req.groupID;
      } else {
        var taskID := if req.Review? then submissions[req.submissionID].taskID else req.taskID;
        if taskID !in tasks {
          return Some(Failure(Missing));
        }
        groupID := tasks[taskID].groupID;
      }
      var role := RequireRole(call, groupID);
      if role.None? || (req.Create? && !IsManager(role.value)) {
        return Some(Failure(Missing));
      }
      answer := CheckIdempotent(call.actor, call.requestID, req);
    }

    /** SELECT COUNT(*) of the task's submissions that wait for review. */
    method CountPending(taskID: string) returns (pending: nat)
      ensures pending == |set id | id in submissions && IsPending(submissions[id], taskID)|
    {
      pending := 0;
      var left := submissions.Keys;
      ghost var counted: set<string> := {};
      assert counted == set id | id in submissions && id !in left && IsPending(submissions[id], taskID);
      while left != {}
        invariant left <= submissions.Keys && pending == |counted|
        invariant counted == set id | id in submissions && id !in left && IsPending(submissions[id], taskID)
        decreases |left|
      {
        var id :| id in left;
        left := left - {id};
        if IsPending(submissions[id], taskID) {
          counted, pending := counted + {id}, pending + 1;
        }
      }
      assert counted == set id | id in submissions && IsPending(submissions[id], taskID);
    }

    method Create(call: Call, groupID: string, title: string, description: string, dueAt: int)
      returns (r: Result<Snapshot, Error>)
      requires Valid()
      modifies this
      ensures Valid() && (Tables(), r)
                == Perform(old(Tables()), call, Request.Create(groupID, title, description, dueAt))
    {
      hide Refusal, ValidTaskFields, Laws.Inv, Trim;
      var req := Request.Create(groupID, Trim(title), description, dueAt);
      Laws.TransactKeeps(Tables(), call, req);
      var answer := Admit(call, req);
      if answer.Some? {
        return answer.value;
      }
      if !ValidTaskFields(req.title, description, dueAt, call.now) {
        return Failure(Bad);
      }
      if call.newID in tasks {
        return Failure(Unavailable);
      }
      var t := Task(call.newID, groupID, req.title, description, dueAt, Draft, 1, call.actor, 0, 0, call.now, call.now);
      tasks := tasks[call.newID := t];
      SaveEvent(t.id, None, call, req, TaskRow(t), []);
      return Success(TaskRow(t));
    }

    method UpdateDraft(call: Call, taskID: string, expected: int, title: string, description: string, dueAt: int)
      returns (r: Result<Snapshot, Error>)
      requires Valid()
      modifies this
      ensures Valid() && (Tables(), r)
                == Perform(old(Tables()), call, Edit(taskID, expected, title, description, dueAt))
    {
      hide Refusal, ValidTaskFields, Laws.Inv, Trim;
      var req := Edit(taskID, expected, Trim(title), description, dueAt);
      Laws.TransactKeeps(Tables(), call, req);
      var answer := Admit(call, req);
      if answer.Some? {
        return answer.value;
      }
      TaskIsThere(Tables(), call, req);
      var t := tasks[taskID];
      if !IsManager(call.role.value) {
        return Failure(Missing);
      }
      if !ValidTaskFields(req.title, description, dueAt, call.now) {
        return Failure(Bad);
      }
      if t.status != Draft {
        return Failure(Conflict);
      }
      if t.version != expected {
        return Failure(VersionConflict(t.version));
      }
      t := t.(title := req.title, description := description, dueAt := dueAt, version := t.version + 1,
              updatedAt := call.now);
      WriteTask(taskID, t);
      SaveEvent(taskID, None, call, req, TaskRow(t), []);
      return Success(TaskRow(t));
    }

    method Publish(call: Call, taskID: string, expected: int) returns (r: Result<Snapshot, Error>)
      requires Valid()
      modifies this
      ensures Valid() && (Tables(), r) == Perform(old(Tables()), call, Request.Publish(taskID, expected))
    {
      hide Refusal, Laws.Inv;
      var req := Request.Publish(taskID, expected);
      Laws.TransactKeeps(Tables(), call, req);
      var answer := Admit(call, req);
      if answer.Some? {
        return answer.value;
      }
      TaskIsThere(Tables(), call, req);
      var t := tasks[taskID];
      if !IsManager(call.role.value) {
        return Failure(Missing);
      }
      if t.status != Draft {
        return Failure(Conflict);
      }
      if t.version != expected {
        return Failure(VersionConflict(t.version));
      }
      if t.dueAt > 0 && call.now >= t.dueAt {
        return Failure(Conflict);
      }
      t := t.(status := Published, version := t.version + 1, publishedAt := call.now, updatedAt := call.now);
      WriteTask(taskID, t);
      SaveEvent(taskID, None, call, req, TaskRow(t), [Group(t.groupID)]);
      return Success(TaskRow(t));
    }

    method Close(call: Call, taskID: string, expected: int) returns (r: Result<Snapshot, Error>)
      requires Valid()
      modifies this
      ensures Valid() && (Tables(), r) == Perform(old(Tables()), call, Request.Close(taskID, expected))
    {
      hide Refusal, Laws.Inv, HasPending;
      var req := Request.Close(taskID, expected);
      Laws.TransactKeeps(Tables(), call, req);
      var answer := Admit(call, req);
      if answer.Some? {
        return answer.value;
      }
      TaskIsThere(Tables(), call, req);
      var t := tasks[taskID];
      if !IsManager(call.role.value) {
        return Failure(Missing);
      }
      if t.status != Published {
        return Failure(Conflict);
      }
      if t.version != expected {
        return Failure(VersionConflict(t.version));
      }
      var pending := CountPending(taskID);
      NonePending(Tables(), taskID);
      if pending > 0 {
        return Failure(Conflict);
      }
      t := t.(status := Closed, version := t.version + 1, closedAt := call.now, updatedAt := call.now);
      WriteTask(taskID, t);
      SaveEvent(taskID, None, call, req, TaskRow(t), [Group(t.groupID)]);
      return Success(TaskRow(t));
    }

    method Submit(call: Call, taskID: string, text: string, link: string, expected: int, attachments: seq<string>)
      returns (r: Result<Snapshot, Error>)
      requires Valid()
      modifies this
      ensures Valid() && (Tables(), r)
                == Perform(old(Tables()), call, Request.Submit(taskID, text, link, expected, attachments))
    {
      hide Refusal, Laws.Inv, AttachmentsReady, Trim, Users;
      var req := Request.Submit(taskID, Trim(text), Trim(link), expected, attachments);
      Laws.TransactKeeps(Tables(), call, req);
      var answer := Admit(call, req);
      if answer.Some? {
        return answer.value;
      }
      TaskIsThere(Tables(), call, req);
      var t := tasks[taskID];
      if call.role.value != Member {
        return Failure(Missing);
      }
      if t.status != Published {
        return Failure(Conflict);
      }
      if t.dueAt > 0 && call.now >= t.dueAt {
        return Failure(Conflict);
      }
      var ready := ValidateTaskAttachments(call, t.groupID, attachments);
      if !ready {
        return Failure(Bad);
      }
      var saved := SaveAttempt(t, call, req);
      if saved.Failure? {
        return Failure(saved.error);
      }
      var targets := Recipients(call.managers);
      SaveEvent(taskID, Some(saved.value.id), call, req, SubmissionRow(saved.value), targets);
      return Success(SubmissionRow(saved.value));
    }

    method ValidateTaskAttachments(call: Call, groupID: string, attachments: seq<string>) returns (ready: bool)
      ensures ready == AttachmentsReady(call, groupID, attachments)
    {
      for i := 0 to |attachments|
        invariant AttachmentsReady(call, groupID, attachments[..i])
      {
        if call.readyIn(attachments[i]) != Some(groupID) {
          return false;
        }
      }
      assert attachments[..|attachments|] == attachments;
      return true;
    }

    method Recipients(managers: seq<string>) returns (targets: seq<Target>)
      ensures targets == Users(managers)
    {
      targets := [];
      for i := 0 to |managers|
        invariant targets == Users(managers[..i])
      {
        targets := targets + [User(managers[i])];
      }
      assert managers[..|managers|] == managers;
    }

    /** The member's first attempt is inserted; a returned one is replaced by the next. */
    method SaveAttempt(t: Task, call: Call, req: Request) returns (r: Result<Submission, Error>)
      requires Valid() && req.Submit? && call.role == Some(Member) && t.status == Published
      requires !(t.dueAt > 0 && call.now >= t.dueAt) && AttachmentsReady(call, t.groupID, req.attachments)
      modifies `submissions, `attempts
      ensures match DecideSubmit(old(Tables()), t, Member, call, req)
              case Failure(e) => r == Failure(e) && Tables() == old(Tables())
              case Success(c) =>
                && c == Change(c.row, Users(call.managers)) && r.Success?
                && c.row == SubmissionRow(r.value) && Tables() == Put(old(Tables()), c.row)
      ensures r.Success? ==> r.value.taskID == t.id
    {
      hide AttachmentsReady, Users, Laws.Inv;
      var key := (t.id, call.actor);
      if key !in attempts {
        if req.expected != 0 {
          return Failure(VersionConflict(0));
        }
        if call.newID in submissions {
          return Failure(Unavailable);
        }
        var first := Submission(call.newID, t.id, call.actor, req.text, req.link, req.attachments, Submitted, 1, 1, "",
          "", call.now, 0);
        WriteSubmission(first);
        return Success(first);
      }
      if attempts[key] !in submissions {
        return Failure(Unavailable);
      }
      AttemptMatches(Tables(), key);
      var sub := submissions[attempts[key]];
      if sub.version != req.expected {
        return Failure(VersionConflict(sub.version));
      }
      if sub.status != Returned {
        return Failure(Conflict);
      }
      sub := sub.(text := req.text, link := req.link, attachments := req.attachments, status := Submitted,
                  attemptNo := sub.attemptNo + 1, version := sub.version + 1,
                  reviewerID := "", reviewNote := "", reviewedAt := 0, submittedAt := call.now);
      WriteSubmission(sub);
      return Success(sub);
    }

    method Review(call: Call, submissionID: string, decision: string, reason: string, expected: int)
      returns (r: Result<Snapshot, Error>)
      requires Valid()
      modifies this
      ensures Valid() && (Tables(), r)
                == Perform(old(Tables()), call, Request.Review(submissionID, decision, reason, expected))
    {
      hide Refusal, Laws.Inv, Trim;
      var note := Trim(reason);
      if Trim(decision) == "approve" {
        note := "";
      }
      var req := Request.Review(submissionID, Trim(decision), note, expected);
      Laws.TransactKeeps(Tables(), call, req);
      var answer := Admit(call, req);
      if answer.Some? {
        return answer.value;
      }
      TaskIsThere(Tables(), call, req);
      var sub := submissions[submissionID];
      var t := tasks[sub.taskID];
      if !IsManager(call.role.value) {
        return Failure(Missing);
      }
      if t.status != Published {
        return Failure(Conflict);
      }
      if sub.taskID != t.id {
        return Failure(Missing);
      }
      if sub.version != expected {
        return Failure(VersionConflict(sub.version));
      }
      if sub.status != Submitted {
        return Failure(Conflict);
      }
      var status := Approved;
      if req.decision == "return" {
        status := Returned;
      }
      sub := sub.(status := status, version := sub.version + 1, reviewerID := call.actor,
                  reviewNote := req.reason, reviewedAt := call.now);
      WriteSubmission(sub);
      SaveEvent(t.id, Some(sub.id), call, req, SubmissionRow(sub), [User(sub.userID)]);
      return Success(SubmissionRow(sub));
    }

    method WriteTask(id: string, t: Task)
      modifies `tasks
      ensures tasks == old(tasks)[id := t]
    {
      tasks := tasks[id := t];
    }

    method WriteSubmission(sub: Submission)
      modifies `submissions, `attempts
      ensures Tables() == Put(old(Tables()), SubmissionRow(sub))
    {
      submissions := submissions[sub.id := sub];
      attempts := attempts[(sub.taskID, sub.userID) := sub.id];
    }
  }

  predicate IsPending(sub: Submission, taskID: string)
  {
    sub.taskID == taskID && sub.status == Submitted
  }

  lemma NonePending(s: State, taskID: string)
    ensures |set id | id in s.submissions && IsPending(s.submissions[id], taskID)| > 0 <==> HasPending(s, taskID)
  {
    var waiting := set id | id in s.submissions && IsPending(s.submissions[id], taskID);
    if |waiting| > 0 {
      var id :| id in waiting;
    }
    if HasPending(s, taskID) {
      var id :| id in s.submissions && s.submissions[id].taskID == taskID && s.submissions[id].status == Submitted;
      assert id in waiting;
    }
  }

  lemma AttemptMatches(s: State, key: (string, string))
    requires Laws.Inv(s) && key in s.attempts && s.attempts[key] in s.submissions
    ensures s.submissions[s.attempts[key]].taskID == key.0
  {
  }

  lemma TaskIsThere(s: State, call: Call, req: Request)
    requires Laws.Inv(s) && Refusal(s, call, req) == None
    ensures call.role.Some?
    ensures !req.Create? ==>
              && TaskOf(s, req).Some? && TaskOf(s, req).value in s.tasks
              && s.tasks[TaskOf(s, req).value].id == TaskOf(s, req).value
  {
    hide ValidSubmission, ValidRequestID, ValidDecision;
  }
}
