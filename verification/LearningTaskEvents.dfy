/**
 What each event of the log says: which request changed which row, from what and into what. So the rows can be read off
 the requests alone: who published, submitted, approved or returned, and with which texts.
 */
module LearningTaskEvents {
  import opened Wrappers
  import opened LearningTask
  import opened LearningTaskLaws

  /** The task as it was, with what every change of it writes. */
  function NextVersion(was: Task, at: int): Task
  {
    was.(version := was.version + 1, updatedAt := at)
  }

  predicate TaskTold(prior: Option<Snapshot>, e: Event)
    requires !e.request.Submit? && !e.request.Review?
  {
    && e.result.TaskRow? && e.result.task.id == e.taskID && e.submissionID == None
    && var t := e.result.task;
       match e.request
       case Create(groupID, title, description, dueAt) =>
         && prior == None && e.targets == []
         && t == Task(e.taskID, groupID, title, description, dueAt, Draft, 1, e.actor, 0, 0, e.createdAt, e.createdAt)
       case _ =>
         && prior.Some? && prior.value.TaskRow?
         && var was := prior.value.task;
            match e.request
            case Edit(id, expected, title, description, dueAt) =>
              && id == e.taskID && was.status == Draft && was.version == expected && e.targets == []
              && t == NextVersion(was, e.createdAt).(title := title, description := description, dueAt := dueAt)
            case Publish(id, expected) =>
              && id == e.taskID && was.status == Draft && was.version == expected && e.targets == [Group(was.groupID)]
              && (was.dueAt > 0 ==> e.createdAt < was.dueAt)
              && t == NextVersion(was, e.createdAt).(status := Published, publishedAt := e.createdAt)
            case Close(id, expected) =>
              && id == e.taskID && was.status == Published && was.version == expected
              && e.targets == [Group(was.groupID)]
              && t == NextVersion(was, e.createdAt).(status := Closed, closedAt := e.createdAt)
            case _ => false
  }

  predicate SubmissionTold(prior: Option<Snapshot>, e: Event)
    requires e.request.Submit? || e.request.Review?
  {
    && e.result.SubmissionRow? && e.submissionID == Some(e.result.submission.id)
    && e.result.submission.taskID == e.taskID
    && var sub := e.result.submission;
       match e.request
       case Submit(taskID, text, link, expected, attachments) =>
         && taskID == e.taskID && sub.userID == e.actor
         && (match prior
             case None =>
               expected == 0 && sub == Submission(sub.id, taskID, e.actor, text, link, attachments, Submitted, 1, 1, "",
                                                  "", e.createdAt, 0)
             case Some(row) =>
               && row.SubmissionRow? && row.submission.status == Returned && row.submission.version == expected
               && sub == row.submission.(text := text, link := link, attachments := attachments, status := Submitted,
                                         attemptNo := row.submission.attemptNo + 1,
                                         version := row.submission.version + 1, reviewerID := "", reviewNote := "",
                                         reviewedAt := 0, submittedAt := e.createdAt))
       case Review(id, decision, reason, expected) =>
         && id == sub.id && prior.Some? && prior.value.SubmissionRow? && e.targets == [User(sub.userID)]
         && var was := prior.value.submission;
            && was.status == Submitted && was.version == expected
            && (decision == "approve" || decision == "return")
            && (decision == "return" ==> 1 <= |reason| <= 1000) && (decision == "approve" ==> reason == "")
            && sub == was.(status := if decision == "approve" then Approved else Returned, version := was.version + 1,
                           reviewerID := e.actor, reviewNote := reason, reviewedAt := e.createdAt)
       case _ => false
  }

  predicate Told(prior: Option<Snapshot>, e: Event)
  {
    if e.request.Submit? || e.request.Review? then SubmissionTold(prior, e) else TaskTold(prior, e)
  }

  /** Every event tells how its row came out of the row's event before. */
  ghost predicate AllTold(events: seq<Event>)
  {
    forall i | 0 <= i < |events| :: Told(Latest(events[..i], Subject(events[i])), events[i])
  }

  /** A normalised request's approval has no reason. */
  predicate Plain(req: Request)
  {
    req.Review? && req.decision == "approve" ==> req.reason == ""
  }

  lemma NormalizedIsPlain(req: Request)
    ensures Plain(Normalized(req))
  {
    hide Trim;
  }

  lemma DecideTells(s: State, call: Call, req: Request)
    requires TablesOk(s) && Refusal(s, call, req) == None && Decide(s, call, req).Success? && Plain(req)
    ensures var c := Decide(s, call, req).value; Told(Row(s, KeyOf(c.row)), EventOf(call, req, c))
  {
    hide ValidTaskFields, ValidSubmission, ValidRequestID, AttachmentsReady, HasPending;
    match req
    case Submit(_, _, _, _, _) => SubmitTells(s, call, req);
    case Review(_, _, _, _) => ReviewTells(s, call, req);
    case _ => TaskTells(s, call, req);
  }

  lemma TaskTells(s: State, call: Call, req: Request)
    requires TablesOk(s) && Refusal(s, call, req) == None && Decide(s, call, req).Success?
    requires !req.Submit? && !req.Review?
    ensures var c := Decide(s, call, req).value; TaskTold(Row(s, KeyOf(c.row)), EventOf(call, req, c))
  {
    hide ValidTaskFields, ValidRequestID, HasPending, DecideSubmit, DecideReview;
  }

  lemma SubmitTells(s: State, call: Call, req: Request)
    requires TablesOk(s) && Refusal(s, call, req) == None && Decide(s, call, req).Success? && req.Submit?
    ensures var c := Decide(s, call, req).value; SubmissionTold(Row(s, KeyOf(c.row)), EventOf(call, req, c))
  {
    hide ValidSubmission, ValidRequestID, AttachmentsReady, Users, DecideReview;
  }

  lemma ReviewTells(s: State, call: Call, req: Request)
    requires TablesOk(s) && Refusal(s, call, req) == None && Decide(s, call, req).Success? && req.Review? && Plain(req)
    ensures var c := Decide(s, call, req).value; SubmissionTold(Row(s, KeyOf(c.row)), EventOf(call, req, c))
  {
    hide ValidSubmission, ValidRequestID, AttachmentsReady, Users, DecideSubmit;
  }

  lemma TransactTells(s: State, call: Call, req: Request)
    requires Inv(s) && AllTold(s.events) && Plain(req)
    ensures AllTold(Transact(s, call, req).0.events)
  {
    hide Refusal, Decide, Put, TablesOk, Told, Latest;
    var t := Transact(s, call, req).0;
    if t != s {
      var c := Decide(s, call, req).value;
      var e := EventOf(call, req, c);
      DecideTells(s, call, req);
      SubjectIsKey(call, req, c);
      assert RowAgrees(s, KeyOf(c.row));
      forall i | 0 <= i < |t.events| ensures Told(Latest(t.events[..i], Subject(t.events[i])), t.events[i]) {
        if i < |s.events| { assert t.events[..i] == s.events[..i]; } else { assert t.events[..i] == s.events; }
      }
    }
  }

  lemma SubjectIsKey(call: Call, req: Request, c: Change)
    ensures Subject(EventOf(call, req, c)) == KeyOf(c.row)
  {
  }

  lemma {:induction false} RunTells(s: State, steps: seq<Step>)
    requires Inv(s) && AllTold(s.events)
    ensures AllTold(Run(s, steps).events)
    decreases steps
  {
    hide Inv, Transact, AllTold, Normalized;
    if |steps| > 0 {
      var req := Normalized(steps[0].request);
      NormalizedIsPlain(steps[0].request);
      TransactTells(s, steps[0].call, req);
      TransactKeeps(s, steps[0].call, req);
      RunTells(Perform(s, steps[0].call, steps[0].request).0, steps[1..]);
    }
  }

  // ---------- reading the rows off the log ----------

  function Newest(events: seq<Event>, k: Key): (e: Option<Event>)
    ensures e.Some? ==> Subject(e.value) == k
  {
    if |events| == 0 then None
    else if Subject(events[|events| - 1]) == k then Some(events[|events| - 1])
    else Newest(events[..|events| - 1], k)
  }

  lemma {:induction false} NewestIsLatest(events: seq<Event>, k: Key)
    requires AllTold(events)
    ensures match Newest(events, k)
            case None => Latest(events, k) == None
            case Some(e) => Latest(events, k) == Some(e.result) && exists prior :: Told(prior, e)
  {
    hide Told;
    if |events| > 0 {
      var last := |events| - 1;
      if Subject(events[last]) == k {
        assert Told(Latest(events[..last], k), events[last]);
      } else {
        forall i | 0 <= i < last
          ensures Told(Latest(events[..last][..i], Subject(events[..last][i])), events[..last][i])
        {
          assert events[..last][..i] == events[..i];
        }
        NewestIsLatest(events[..last], k);
      }
    }
  }

  lemma RowIsTold(steps: seq<Step>, k: Key)
    ensures var s := Run(EMPTY, steps); var e := Newest(s.events, k);
            Row(s, k).Some? ==>
              e.Some? && Row(s, k).value == e.value.result && exists prior :: Told(prior, e.value)
  {
    hide Told;
    EmptyOk();
    RunTells(EMPTY, steps);
    RunKeeps(EMPTY, steps);
    var s := Run(EMPTY, steps);
    assert RowAgrees(s, k);
    NewestIsLatest(s.events, k);
  }

  /**
   In every reachable state a submission waits, is approved or is returned because its newest event is an attempt, an
   approval or a return, and carries that request's texts, its caller and its time.
   */
  lemma SubmissionIsAsRequested(steps: seq<Step>, id: string)
    ensures var s := Run(EMPTY, steps);
            id in s.submissions ==>
              var sub, newest := s.submissions[id], Newest(s.events, SubmissionKey(id));
              && newest.Some?
              && var e := newest.value;
                 && (sub.status == Submitted <==> e.request.Submit?)
                 && (sub.status == Approved <==>
                       e.request.Review? && e.request.submissionID == id && e.request.decision == "approve")
                 && (sub.status == Returned <==>
                       e.request.Review? && e.request.submissionID == id && e.request.decision == "return")
                 && (sub.status == Submitted ==>
                       && sub.userID == e.actor && sub.taskID == e.request.taskID && sub.submittedAt == e.createdAt
                       && (sub.text, sub.link, sub.attachments) ==
                            (e.request.text, e.request.link, e.request.attachments)
                       && sub.reviewerID == "" && sub.reviewNote == "" && sub.reviewedAt == 0)
                 && (sub.status != Submitted ==> sub.reviewerID == e.actor && sub.reviewedAt == e.createdAt)
                 && (sub.status == Approved ==> sub.reviewNote == "")
                 && (sub.status == Returned ==> sub.reviewNote == e.request.reason && |sub.reviewNote| >= 1)
  {
    hide Run, Newest;
    RowIsTold(steps, SubmissionKey(id));
  }

  /**
   In every reachable state a task is a draft, published or closed because its newest event created or edited it,
   published it or closed it; a draft carries that request's texts.
   */
  lemma TaskIsAsRequested(steps: seq<Step>, id: string)
    ensures var s := Run(EMPTY, steps);
            id in s.tasks ==>
              var t, newest := s.tasks[id], Newest(s.events, TaskKey(id));
              && newest.Some?
              && var e := newest.value;
                 && (t.status == Draft <==> e.request.Create? || e.request.Edit?)
                 && (t.status == Published <==> e.request.Publish?) && (t.status == Closed <==> e.request.Close?)
                 && (t.status == Draft ==>
                       (t.title, t.description, t.dueAt) == (e.request.title, e.request.description, e.request.dueAt))
                 && (t.status == Published ==> t.publishedAt == e.createdAt)
                 && (t.status == Closed ==> t.closedAt == e.createdAt)
                 && t.updatedAt == e.createdAt
  {
    hide Run, Newest;
    RowIsTold(steps, TaskKey(id));
  }

  /** Every event of every run tells how its row changed. */
  lemma EveryEventIsTold(steps: seq<Step>, i: nat)
    ensures var events := Run(EMPTY, steps).events;
            i < |events| ==> Told(Latest(events[..i], Subject(events[i])), events[i])
  {
    EmptyOk();
    RunTells(EMPTY, steps);
  }

  // ---------- which requests are accepted ----------

  predicate Manages(call: Call)
  {
    call.role == Some(Owner) || call.role == Some(Admin)
  }

  predicate FieldsFit(title: string, description: string, dueAt: int, now: int)
  {
    1 <= |title| <= 120 && |description| <= 5000 && (dueAt == 0 || dueAt > now)
  }

  predicate ContentFits(call: Call, groupID: string, text: string, link: string, attachments: seq<string>)
  {
    && (text != "" || link != "" || attachments != []) && |text| <= 5000 && |link| <= 2048 && |attachments| <= 10
    && (link != "" ==> call.linkOk(link))
    && (forall a | a in attachments ::
          && |a| == 32 && (forall c | c in a :: c in "0123456789abcdefABCDEF") && call.readyIn(a) == Some(groupID))
    && (forall i, j | 0 <= i < j < |attachments| :: attachments[i] != attachments[j])
  }

  /** What a request with a fresh id needs: a well-formed id, a role, and the right row in the right state. */
  predicate Welcome(s: State, call: Call, req: Request)
  {
    && 8 <= |call.requestID| <= 128 && call.requestID == Trim(call.requestID) && call.actor != "" && call.role.Some?
    && match req
       case Create(groupID, title, description, dueAt) =>
         groupID != "" && Manages(call) && FieldsFit(title, description, dueAt, call.now) && call.newID !in s.tasks
       case Edit(id, expected, title, description, dueAt) =>
         && id in s.tasks && s.tasks[id].groupID != "" && Manages(call)
         && FieldsFit(title, description, dueAt, call.now)
         && s.tasks[id].status == Draft && s.tasks[id].version == expected
       case Publish(id, expected) =>
         && id in s.tasks && s.tasks[id].groupID != "" && Manages(call)
         && s.tasks[id].status == Draft && s.tasks[id].version == expected
         && (s.tasks[id].dueAt > 0 ==> call.now < s.tasks[id].dueAt)
       case Close(id, expected) =>
         && id in s.tasks && s.tasks[id].groupID != "" && Manages(call)
         && s.tasks[id].status == Published && s.tasks[id].version == expected
         && forall sub | sub in s.submissions && s.submissions[sub].taskID == id ::
              s.submissions[sub].status != Submitted
       case Submit(id, text, link, expected, attachments) =>
         && id in s.tasks && s.tasks[id].groupID != "" && call.role == Some(Member)
         && s.tasks[id].status == Published && (s.tasks[id].dueAt > 0 ==> call.now < s.tasks[id].dueAt)
         && ContentFits(call, s.tasks[id].groupID, text, link, attachments)
         && (if (id, call.actor) in s.attempts then
               var sub := s.attempts[(id, call.actor)];
               && sub in s.submissions
               && s.submissions[sub].status == Returned && s.submissions[sub].version == expected
             else expected == 0 && call.newID !in s.submissions)
       case Review(id, decision, reason, expected) =>
         && (decision == "approve" || (decision == "return" && 1 <= |reason| <= 1000))
         && id in s.submissions && Manages(call)
         && s.submissions[id].status == Submitted && s.submissions[id].version == expected
         && var task := s.submissions[id].taskID;
            task in s.tasks && s.tasks[task].groupID != "" && s.tasks[task].status == Published
  }

  /** Trimming takes the white space off both ends and nothing else. */
  lemma {:induction false} TrimIs(v: string) returns (i: nat, j: nat)
    ensures i <= j <= |v| && Trim(v) == v[i..j]
    ensures forall k | 0 <= k < i || j <= k < |v| :: IsSpace(v[k])
    ensures Trim(v) != "" ==> !IsSpace(Trim(v)[0]) && !IsSpace(Trim(v)[|Trim(v)| - 1])
    decreases |v|
  {
    if |v| > 0 && IsSpace(v[0]) {
      i, j := TrimIs(v[1..]);
      assert v[1..][i..j] == v[i + 1..j + 1];
      assert forall k | 1 <= k < |v| :: v[k] == v[1..][k - 1];
      i, j := i + 1, j + 1;
    } else if |v| > 0 && IsSpace(v[|v| - 1]) {
      i, j := TrimIs(v[..|v| - 1]);
      assert v[..|v| - 1][i..j] == v[i..j];
    } else {
      i, j := 0, |v|;
      assert v[0..|v|] == v;
    }
  }

  lemma RequestIDFits(v: string)
    ensures ValidRequestID(v) <==> 8 <= |v| <= 128 && v == Trim(v)
  {
    var i, j := TrimIs(v);
  }

  lemma HexDigits(a: string)
    ensures IsAttachmentID(a) <==> |a| == 32 && forall c | c in a :: c in "0123456789abcdefABCDEF"
  {
    assert forall c: char :: IsHex(c) <==> c in "0123456789abcdefABCDEF";
  }

  lemma ContentIs(call: Call, groupID: string, text: string, link: string, attachments: seq<string>)
    ensures ContentFits(call, groupID, text, link, attachments) <==>
              ValidSubmission(text, link, attachments, call.linkOk) && AttachmentsReady(call, groupID, attachments)
  {
    forall a | a in attachments
      ensures IsAttachmentID(a) <==> |a| == 32 && forall c | c in a :: c in "0123456789abcdefABCDEF"
    {
      HexDigits(a);
    }
    hide IsAttachmentID;
  }

  lemma WelcomeTask(s: State, call: Call, req: Request)
    requires TablesOk(s) && !req.Submit? && !req.Review?
    ensures Welcome(s, call, req) <==> Refusal(s, call, req) == None && Decide(s, call, req).Success?
  {
    hide ValidRequestID, Trim, DecideSubmit, DecideReview, ContentFits;
    RequestIDFits(call.requestID);
  }

  lemma WelcomeSubmit(s: State, call: Call, req: Request)
    requires TablesOk(s) && req.Submit?
    ensures Welcome(s, call, req) <==> Refusal(s, call, req) == None && Decide(s, call, req).Success?
  {
    hide ValidRequestID, Trim, ValidSubmission, AttachmentsReady, ContentFits;
    RequestIDFits(call.requestID);
    if req.taskID in s.tasks {
      ContentIs(call, s.tasks[req.taskID].groupID, req.text, req.link, req.attachments);
    }
  }

  lemma WelcomeReview(s: State, call: Call, req: Request)
    requires TablesOk(s) && req.Review?
    ensures Welcome(s, call, req) <==> Refusal(s, call, req) == None && Decide(s, call, req).Success?
  {
    hide ValidRequestID, Trim;
    RequestIDFits(call.requestID);
    if req.submissionID in s.submissions { assert SubmissionOk(s, req.submissionID); }
  }

  /** A request whose id is fresh is accepted if and only if it is welcome, and then it adds its event. */
  lemma AcceptedIff(s: State, call: Call, req: Request)
    requires Inv(s) && Stored(s.events, call.actor, call.requestID) == None
    ensures var (t, r) := Perform(s, call, req);
            && (r.Success? <==> Welcome(s, call, Normalized(req)))
            && (r.Failure? ==> t == s)
            && (r.Success? ==> |t.events| == |s.events| + 1 && t.events[|s.events|].request == Normalized(req))
  {
    hide Refusal, Decide, Put, Welcome, Normalized, LogAgrees;
    var n := Normalized(req);
    match n
    case Submit(_, _, _, _, _) => WelcomeSubmit(s, call, n);
    case Review(_, _, _, _) => WelcomeReview(s, call, n);
    case _ => WelcomeTask(s, call, n);
  }
}
