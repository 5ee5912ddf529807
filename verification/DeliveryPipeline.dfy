/**
 From the outbox to the recipients: logic workers deliver or publish, group consumers deliver under recipient leases,
 retry or dead-letter. Every external call may fail with or without having taken effect, every process may stop at any
 step, leases and lease keys may vanish at any time, and consumers may re-read from any committed offset.
 */
module DeliveryPipeline {
  import opened Wrappers
  import Outbox = DeliveryOutbox
  import RecipientLease

  datatype Job = Job(messageId: string, recipients: seq<string>, attempt: nat)

  datatype Partition = Main(index: nat) | Retry(index: nat)

  /** A message owed to one recipient. */
  datatype Pair = Pair(messageId: string, recipient: string)

  /** How far a logic worker is with the event it has claimed. */
  datatype Progress = Progress(index: nat, published: bool)

  /**
   Where the work on the current recipient stands; `Unsent` is a failed delivery whose lease is not given back yet.
   */
  datatype Recipient = Unclaimed | Owner(owner: nat) | Sent(owner: nat) | Unsent(owner: nat)

  datatype Consumer =
    | Stopped
    | Ready(p: Partition, pos: nat)
    | Working(p: Partition, pos: nat, index: nat, at: Recipient)
    | Failed(p: Partition, pos: nat)
    | Processed(p: Partition, pos: nat)

  datatype State = State(
    outbox: Outbox.State,
    progress: map<nat, Progress>,            // by logic worker
    logs: map<Partition, seq<Job>>,
    committed: map<Partition, nat>,
    deadLetters: seq<Job>,
    leases: map<Pair, RecipientLease.Key>,
    consumers: map<nat, Consumer>,
    tracked: set<Pair>)                      // pairs whose tracking script has ever run

  const Init := State(Outbox.Init, map[], map[], map[], [], map[], map[], {})

  function Log(s: State, p: Partition): seq<Job>
  {
    if p in s.logs then s.logs[p] else []
  }

  function Committed(s: State, p: Partition): nat
  {
    if p in s.committed then s.committed[p] else 0
  }

  function ProgressOf(s: State, w: nat): Progress
  {
    if w in s.progress then s.progress[w] else Progress(0, false)
  }

  function ConsumerOf(s: State, c: nat): Consumer
  {
    if c in s.consumers then s.consumers[c] else Stopped
  }

  function KeyOf(s: State, pair: Pair): Option<RecipientLease.Key>
  {
    if pair in s.leases then Some(s.leases[pair]) else None
  }

  function SetKey(s: State, pair: Pair, key: Option<RecipientLease.Key>): State
  {
    match key
    case None => s.(leases := s.leases - {pair})
    case Some(k) => s.(leases := s.leases[pair := k])
  }

  function Append(s: State, p: Partition, job: Job): State
  {
    s.(logs := s.logs[p := Log(s, p) + [job]])
  }

  function Track(s: State, pair: Pair): State
  {
    s.(tracked := s.tracked + {pair})
  }

  function SetConsumer(s: State, c: nat, consumer: Consumer): State
  {
    s.(consumers := s.consumers[c := consumer])
  }

  /** Everything the event promises has been handed over, so the worker goes on to the finishing update. */
  predicate HandedOver(event: Outbox.Event, progress: Progress)
  {
    progress.published || progress.index >= |event.recipients|
  }

  // ---------- logic workers ----------

  datatype Step =
    // an outbox step; finishing is only reached once everything was handed over
    | OutboxStep(step: Outbox.Step)
    // publish the group job; `written` may hold although the call reported an error
    | Publish(w: nat, index: nat, written: bool, ok: bool)
    // run the tracking script for the next recipient
    | TrackNext(w: nat, written: bool, ok: bool)
    // group consumers
    | Join(c: nat, p: Partition)
    | Fetch(c: nat)
    | ClaimRecipient(c: nat, owner: nat, written: bool, ok: bool)
    | Deliver(c: nat, written: bool, ok: bool)
    | Release(c: nat, written: bool)
    | Complete(c: nat, written: bool, ok: bool)
    | Finished(c: nat)
    | Reprocess(c: nat)
    | WriteFailure(c: nat, index: nat, written: bool, ok: bool)
    | Commit(c: nat, written: bool, ok: bool)
    | Crash(c: nat)
    // a lease, or any lease key, disappears
    | KeyLost(pair: Pair)

  function WorkerStep(s: State, step: Outbox.Step): State
  {
    var next := Outbox.Apply(s.outbox, step);
    match step
    case Finish(w) =>
      (match Outbox.WorkerOf(s.outbox, w)
       case Claimed(event, _, _) => if HandedOver(event, ProgressOf(s, w)) then s.(outbox := next) else s
       case _ => s)
    case Claim(w, _) => s.(outbox := next, progress := s.progress[w := Progress(0, false)])
    case _ => s.(outbox := next)
  }

  function PublishStep(s: State, w: nat, index: nat, written: bool, ok: bool): State
  {
    match Outbox.WorkerOf(s.outbox, w)
    case Claimed(event, _, _) =>
      if !event.group then s
      else
        var sent := if written || ok then Append(s, Main(index), Job(event.messageId, event.recipients, 0)) else s;
        if ok then sent.(progress := s.progress[w := ProgressOf(s, w).(published := true)]) else sent
    case _ => s
  }

  function TrackStep(s: State, w: nat, written: bool, ok: bool): State
  {
    match Outbox.WorkerOf(s.outbox, w)
    case Claimed(event, _, _) =>
      var progress := ProgressOf(s, w);
      if progress.index >= |event.recipients| then s
      else
        var sent := if written || ok then Track(s, Pair(event.messageId, event.recipients[progress.index])) else s;
        if ok then sent.(progress := s.progress[w := progress.(index := progress.index + 1)]) else sent
    case _ => s
  }

  // ---------- group consumers ----------

  predicate HasRecord(s: State, p: Partition, pos: nat)
  {
    pos < |Log(s, p)|
  }

  /** The pair a consumer is working on, if any is left. */
  function Current(s: State, consumer: Consumer): Option<Pair>
  {
    if consumer.Working? && HasRecord(s, consumer.p, consumer.pos) then
      var job := Log(s, consumer.p)[consumer.pos];
      if consumer.index < |job.recipients| then Some(Pair(job.messageId, job.recipients[consumer.index])) else None
    else None
  }

  function ClaimStep(s: State, c: nat, owner: nat, written: bool, ok: bool): State
  {
    var me := ConsumerOf(s, c);
    match Current(s, me)
    case None => s
    case Some(pair) =>
      if me.at != Unclaimed then s
      else
        var (key, result) := RecipientLease.ClaimScript(KeyOf(s, pair), owner);
        if !ok then SetConsumer(if written then SetKey(s, pair, key) else s, c, Failed(me.p, me.pos))
        else match result
        case Claimed => SetConsumer(SetKey(s, pair, key), c, me.(at := Owner(owner)))
        case AlreadyDone => SetConsumer(s, c, me.(index := me.index + 1))
        case Busy => SetConsumer(s, c, me.(index := 0))
  }

  function DeliverStep(s: State, c: nat, written: bool, ok: bool): State
  {
    var me := ConsumerOf(s, c);
    match Current(s, me)
    case None => s
    case Some(pair) =>
      if !me.at.Owner? then s
      else
        var sent := if written || ok then Track(s, pair) else s;
        SetConsumer(sent, c, me.(at := if ok then Sent(me.at.owner) else Unsent(me.at.owner)))
  }

  /** The answer of the release is ignored. */
  function ReleaseStep(s: State, c: nat, written: bool): State
  {
    var me := ConsumerOf(s, c);
    match Current(s, me)
    case None => s
    case Some(pair) =>
      if !me.at.Unsent? then s
      else
        var freed := if written then SetKey(s, pair, RecipientLease.ReleaseScript(KeyOf(s, pair), me.at.owner)) else s;
        SetConsumer(freed, c, Failed(me.p, me.pos))
  }

  function CompleteStep(s: State, c: nat, written: bool, ok: bool): State
  {
    var me := ConsumerOf(s, c);
    match Current(s, me)
    case None => s
    case Some(pair) =>
      if !me.at.Sent? then s
      else
        var (key, completed) := RecipientLease.CompleteScript(KeyOf(s, pair), me.at.owner);
        if !ok then SetConsumer(if written then SetKey(s, pair, key) else s, c, Failed(me.p, me.pos))
        else if completed then SetConsumer(SetKey(s, pair, key), c, me.(index := me.index + 1, at := Unclaimed))
        else SetConsumer(s, c, me.(index := 0, at := Unclaimed))
  }

  /** After a failed delivery: one more attempt goes to the retry topic, the last one to the dead-letter topic. */
  function FailureStep(s: State, maxAttempts: nat, c: nat, index: nat, written: bool, ok: bool): State
  {
    var me := ConsumerOf(s, c);
    if !me.Failed? || !HasRecord(s, me.p, me.pos) then s
    else
      var job := Log(s, me.p)[me.pos];
      var again := job.(attempt := job.attempt + 1);
      var sent :=
        if !written && !ok then s
        else if again.attempt <= maxAttempts then Append(s, Retry(index), again)
        else s.(deadLetters := s.deadLetters + [again]);
      SetConsumer(sent, c, if ok then Processed(me.p, me.pos) else Working(me.p, me.pos, 0, Unclaimed))
  }

  function CommitStep(s: State, c: nat, written: bool, ok: bool): State
  {
    var me := ConsumerOf(s, c);
    if !me.Processed? then s
    else
      var stored := if written || ok then s.(committed := s.committed[me.p := me.pos + 1]) else s;
      if ok then SetConsumer(stored, c, Ready(me.p, me.pos + 1)) else stored
  }

  function Apply(s: State, maxAttempts: nat, step: Step): State
  {
    match step
    case OutboxStep(outboxStep) => WorkerStep(s, outboxStep)
    case Publish(w, index, written, ok) => PublishStep(s, w, index, written, ok)
    case TrackNext(w, written, ok) => TrackStep(s, w, written, ok)
    case Join(c, p) => SetConsumer(s, c, Ready(p, Committed(s, p)))
    case Fetch(c) =>
      var me := ConsumerOf(s, c);
      if me.Ready? && HasRecord(s, me.p, me.pos) then SetConsumer(s, c, Working(me.p, me.pos, 0, Unclaimed)) else s
    case ClaimRecipient(c, owner, written, ok) => ClaimStep(s, c, owner, written, ok)
    case Deliver(c, written, ok) => DeliverStep(s, c, written, ok)
    case Release(c, written) => ReleaseStep(s, c, written)
    case Complete(c, written, ok) => CompleteStep(s, c, written, ok)
    case Finished(c) =>
      var me := ConsumerOf(s, c);
      if me.Working? && HasRecord(s, me.p, me.pos) && Current(s, me).None?
        then SetConsumer(s, c, Processed(me.p, me.pos)) else s
    case Reprocess(c) =>
      var me := ConsumerOf(s, c);
      if me.Working? then SetConsumer(s, c, Working(me.p, me.pos, 0, Unclaimed)) else s
    case WriteFailure(c, index, written, ok) => FailureStep(s, maxAttempts, c, index, written, ok)
    case Commit(c, written, ok) => CommitStep(s, c, written, ok)
    case Crash(c) => SetConsumer(s, c, Stopped)
    case KeyLost(pair) => SetKey(s, pair, None)
  }

  function Run(s: State, maxAttempts: nat, steps: seq<Step>): State
    decreases steps
  {
    if |steps| == 0 then s else Run(Apply(s, maxAttempts, steps[0]), maxAttempts, steps[1..])
  }

  lemma {:induction false} RunConcat(s: State, maxAttempts: nat, a: seq<Step>, b: seq<Step>)
    ensures Run(s, maxAttempts, a + b) == Run(Run(s, maxAttempts, a), maxAttempts, b)
    decreases a
  {
    hide Apply;
    if |a| == 0 {
      assert a + b == b;
    } else {
      assert (a + b)[1..] == a[1..] + b;
      RunConcat(Apply(s, maxAttempts, a[0]), maxAttempts, a[1..], b);
    }
  }
}
