/** At most one consumer works under a recipient's lease, over every run in which claims use fresh owner tokens. */
module LeaseExclusion {
  import opened Wrappers
  import Outbox = DeliveryOutbox
  import RecipientLease
  import opened DeliveryPipeline

  /** Every claim draws a token that no earlier claim used. */
  predicate FreshOwners(used: set<nat>, steps: seq<Step>)
    decreases steps
  {
    |steps| == 0
    || ((steps[0].ClaimRecipient? ==> steps[0].owner !in used) && FreshOwners(used + Drawn(steps[0]), steps[1..]))
  }

  function Drawn(step: Step): set<nat>
  {
    if step.ClaimRecipient? then {step.owner} else {}
  }

  function OwnerOf(consumer: Consumer): Option<nat>
  {
    if consumer.Working? && consumer.at != Unclaimed then Some(consumer.at.owner) else None
  }

  /** The consumer is working on the pair and the pair's key carries its token. */
  predicate Holds(s: State, c: nat, pair: Pair)
  {
    var me := ConsumerOf(s, c);
    OwnerOf(me).Some? && Current(s, me) == Some(pair) && KeyOf(s, pair) == Some(RecipientLease.Held(OwnerOf(me).value))
  }

  /** Tokens are used ones, and no two consumers have the same. */
  ghost predicate TokensOk(s: State, used: set<nat>)
  {
    && (forall c | c in s.consumers && OwnerOf(s.consumers[c]).Some? :: OwnerOf(s.consumers[c]).value in used)
    && (forall c, d | c in s.consumers && d in s.consumers && c != d && OwnerOf(s.consumers[c]).Some? ::
          OwnerOf(s.consumers[d]) != OwnerOf(s.consumers[c]))
    && (forall pair | pair in s.leases && s.leases[pair].Held? :: s.leases[pair].owner in used)
  }

  /**
   One consumer moves, keeping its token, dropping it or taking a new one; keys change to tokens that are then used.
   */
  lemma MoveKeeps(s: State, t: State, used: set<nat>, more: set<nat>, c: nat, consumer: Consumer)
    requires TokensOk(s, used) && used <= more && t.consumers == s.consumers[c := consumer]
    requires OwnerOf(consumer).Some? && OwnerOf(consumer) != OwnerOf(ConsumerOf(s, c)) ==>
               OwnerOf(consumer).value in more && OwnerOf(consumer).value !in used
    requires forall pair | pair in t.leases && t.leases[pair].Held? ::
               t.leases[pair].owner in more || (pair in s.leases && s.leases[pair] == t.leases[pair])
    ensures TokensOk(t, more)
  {
  }

  lemma SameConsumers(s: State, t: State, used: set<nat>)
    requires TokensOk(s, used) && t.consumers == s.consumers
    requires forall pair | pair in t.leases :: pair in s.leases && s.leases[pair] == t.leases[pair]
    ensures TokensOk(t, used)
  {
  }

  lemma ClaimKeeps(s: State, used: set<nat>, c: nat, owner: nat, written: bool, ok: bool)
    requires TokensOk(s, used) && owner !in used
    ensures TokensOk(ClaimStep(s, c, owner, written, ok), used + {owner})
  {
    hide TokensOk;
    var me := ConsumerOf(s, c);
    var t := ClaimStep(s, c, owner, written, ok);
    MoreUsed(s, used, used + {owner});
    if Current(s, me).Some? && me.at == Unclaimed {
      MoveKeeps(s, t, used, used + {owner}, c, t.consumers[c]);
    }
  }

  lemma MoreUsed(s: State, used: set<nat>, more: set<nat>)
    requires TokensOk(s, used) && used <= more
    ensures TokensOk(s, more)
  {
  }

  lemma DeliverKeeps(s: State, used: set<nat>, c: nat, written: bool, ok: bool)
    requires TokensOk(s, used)
    ensures TokensOk(DeliverStep(s, c, written, ok), used)
  {
    hide TokensOk;
    var me := ConsumerOf(s, c);
    var t := DeliverStep(s, c, written, ok);
    if Current(s, me).Some? && me.at.Owner? { MoveKeeps(s, t, used, used, c, t.consumers[c]); }
  }

  lemma ReleaseKeeps(s: State, used: set<nat>, c: nat, written: bool)
    requires TokensOk(s, used)
    ensures TokensOk(ReleaseStep(s, c, written), used)
  {
    hide TokensOk;
    var me := ConsumerOf(s, c);
    var t := ReleaseStep(s, c, written);
    if Current(s, me).Some? && me.at.Unsent? { MoveKeeps(s, t, used, used, c, t.consumers[c]); }
  }

  lemma CompleteKeeps(s: State, used: set<nat>, c: nat, written: bool, ok: bool)
    requires TokensOk(s, used)
    ensures TokensOk(CompleteStep(s, c, written, ok), used)
  {
    hide TokensOk;
    var me := ConsumerOf(s, c);
    var t := CompleteStep(s, c, written, ok);
    if Current(s, me).Some? && me.at.Sent? { MoveKeeps(s, t, used, used, c, t.consumers[c]); }
  }

  /** The consumer's remaining steps leave the keys alone and hold no token afterwards. */
  predicate Plain(step: Step)
  {
    step.Join? || step.Fetch? || step.Finished? || step.Reprocess? || step.WriteFailure? || step.Commit? || step.Crash?
  }

  lemma PlainMoves(s: State, maxAttempts: nat, step: Step)
    requires Plain(step)
    ensures Drops(s, Apply(s, maxAttempts, step), step.c)
  {
    hide Current, FailureStep, CommitStep, WorkerStep, PublishStep, TrackStep, ClaimStep, DeliverStep, ReleaseStep,
      CompleteStep;
    match step
    case WriteFailure(c, index, written, ok) => FailureMoves(s, maxAttempts, c, index, written, ok);
    case Commit(c, written, ok) => CommitMoves(s, c, written, ok);
    case _ =>
  }

  predicate Drops(s: State, t: State, c: nat)
  {
    && t.leases == s.leases
    && (t.consumers == s.consumers
           || (t.consumers == s.consumers[c := ConsumerOf(t, c)] && OwnerOf(ConsumerOf(t, c)) == None))
  }

  lemma FailureMoves(s: State, maxAttempts: nat, c: nat, index: nat, written: bool, ok: bool)
    ensures Drops(s, FailureStep(s, maxAttempts, c, index, written, ok), c)
  {
  }

  lemma CommitMoves(s: State, c: nat, written: bool, ok: bool)
    ensures Drops(s, CommitStep(s, c, written, ok), c)
  {
  }

  lemma PlainKeeps(s: State, maxAttempts: nat, used: set<nat>, step: Step)
    requires TokensOk(s, used) && Plain(step)
    ensures TokensOk(Apply(s, maxAttempts, step), used)
  {
    hide TokensOk, Apply, OwnerOf;
    var t := Apply(s, maxAttempts, step);
    PlainMoves(s, maxAttempts, step);
    if t.consumers == s.consumers {
      SameConsumers(s, t, used);
    } else {
      MoveKeeps(s, t, used, used, step.c, ConsumerOf(t, step.c));
    }
  }

  /** Every step but a claim: no token is drawn. */
  lemma OtherKeeps(s: State, maxAttempts: nat, used: set<nat>, step: Step)
    requires TokensOk(s, used) && !step.ClaimRecipient?
    ensures TokensOk(Apply(s, maxAttempts, step), used)
  {
    hide TokensOk, ClaimStep, DeliverStep, ReleaseStep, CompleteStep, WorkerStep, PublishStep, TrackStep, FailureStep,
      CommitStep;
    if Plain(step) {
      PlainKeeps(s, maxAttempts, used, step);
    } else if step.OutboxStep? || step.Publish? || step.TrackNext? {
      WorkersLeave(s, maxAttempts, step);
      SameConsumers(s, Apply(s, maxAttempts, step), used);
    } else {
      match step
      case Deliver(c, written, ok) => DeliverKeeps(s, used, c, written, ok);
      case Release(c, written) => ReleaseKeeps(s, used, c, written);
      case Complete(c, written, ok) => CompleteKeeps(s, used, c, written, ok);
      case KeyLost(pair) => SameConsumers(s, SetKey(s, pair, None), used);
    }
  }

  lemma WorkersLeave(s: State, maxAttempts: nat, step: Step)
    requires step.OutboxStep? || step.Publish? || step.TrackNext?
    ensures var t := Apply(s, maxAttempts, step); t.consumers == s.consumers && t.leases == s.leases
  {
    hide WorkerStep, PublishStep, TrackStep, ClaimStep, DeliverStep, ReleaseStep, CompleteStep, FailureStep, CommitStep;
    match step
    case OutboxStep(outboxStep) => OutboxLeaves(s, outboxStep);
    case Publish(w, index, written, ok) => PublishLeaves(s, w, index, written, ok);
    case TrackNext(w, written, ok) => TrackLeaves(s, w, written, ok);
  }

  lemma PublishLeaves(s: State, w: nat, index: nat, written: bool, ok: bool)
    ensures var t := PublishStep(s, w, index, written, ok); t.consumers == s.consumers && t.leases == s.leases
  {
  }

  lemma TrackLeaves(s: State, w: nat, written: bool, ok: bool)
    ensures var t := TrackStep(s, w, written, ok); t.consumers == s.consumers && t.leases == s.leases
  {
  }

  lemma OutboxLeaves(s: State, step: Outbox.Step)
    ensures var t := WorkerStep(s, step); t.consumers == s.consumers && t.leases == s.leases
  {
    hide Outbox.Apply, HandedOver;
  }

  lemma {:induction false} RunKeeps(s: State, maxAttempts: nat, used: set<nat>, steps: seq<Step>)
    returns (more: set<nat>)
    requires TokensOk(s, used) && FreshOwners(used, steps)
    ensures TokensOk(Run(s, maxAttempts, steps), more) && used <= more
    ensures forall extra :: FreshOwners(used, steps + extra) ==> FreshOwners(more, extra)
    decreases steps
  {
    hide TokensOk, Apply;
    more := used;
    if |steps| == 0 {
      assert forall extra :: steps + extra == extra;
    } else {
      if steps[0].ClaimRecipient? {
        ClaimStepKeeps(s, maxAttempts, used, steps[0]);
      } else {
        OtherKeeps(s, maxAttempts, used, steps[0]);
        assert used + {} == used;
      }
      more := RunKeeps(Apply(s, maxAttempts, steps[0]), maxAttempts, used + Drawn(steps[0]), steps[1..]);
      assert forall extra :: (steps + extra)[1..] == steps[1..] + extra;
    }
  }

  lemma ClaimStepKeeps(s: State, maxAttempts: nat, used: set<nat>, step: Step)
    requires TokensOk(s, used) && step.ClaimRecipient? && step.owner !in used
    ensures TokensOk(Apply(s, maxAttempts, step), used + Drawn(step))
  {
    hide TokensOk, ClaimStep;
    ClaimKeeps(s, used, step.c, step.owner, step.written, step.ok);
  }

  lemma StartOk()
    ensures TokensOk(Init, {})
  {
  }

  /** At most one consumer working on a pair holds the pair's key. */
  lemma OneHolder(maxAttempts: nat, steps: seq<Step>, pair: Pair, c: nat, d: nat)
    requires FreshOwners({}, steps)
    ensures var s := Run(Init, maxAttempts, steps);
            Holds(s, c, pair) && Holds(s, d, pair) ==> c == d
  {
    StartOk();
    var used := RunKeeps(Init, maxAttempts, {}, steps);
  }

  /** The step takes the lease, or is the holder's own completion or release, or the key's loss. */
  predicate MayChange(s: State, step: Step, pair: Pair)
  {
    match step
    case ClaimRecipient(_, _, _, _) => KeyOf(s, pair) == None
    case Complete(c, _, _) => Holds(s, c, pair)
    case Release(c, _) => Holds(s, c, pair)
    case KeyLost(lost) => lost == pair
    case _ => false
  }

  /**
   A held key changes only when it is lost or when the one consumer that holds it completes or releases it; a consumer
   whose lease was lost can do neither, and a claim succeeds only on a free key.
   */
  lemma OnlyTheHolder(maxAttempts: nat, steps: seq<Step>, step: Step, pair: Pair)
    requires FreshOwners({}, steps + [step])
    ensures var s := Run(Init, maxAttempts, steps);
            KeyOf(Apply(s, maxAttempts, step), pair) != KeyOf(s, pair) ==> MayChange(s, step, pair)
  {
    StartOk();
    Prefix({}, steps, [step]);
    var used := RunKeeps(Init, maxAttempts, {}, steps);
    KeyChanges(Run(Init, maxAttempts, steps), maxAttempts, used, step, pair);
  }

  lemma {:induction false} Prefix(used: set<nat>, steps: seq<Step>, extra: seq<Step>)
    requires FreshOwners(used, steps + extra)
    ensures FreshOwners(used, steps)
    decreases steps
  {
    if |steps| > 0 {
      assert (steps + extra)[1..] == steps[1..] + extra;
      Prefix(used + Drawn(steps[0]), steps[1..], extra);
    }
  }

  lemma KeyChanges(s: State, maxAttempts: nat, used: set<nat>, step: Step, pair: Pair)
    requires TokensOk(s, used) && (step.ClaimRecipient? ==> step.owner !in used)
    ensures KeyOf(Apply(s, maxAttempts, step), pair) != KeyOf(s, pair) ==> MayChange(s, step, pair)
  {
    hide WorkerStep, PublishStep, TrackStep, ClaimStep, ReleaseStep, CompleteStep, FailureStep, CommitStep;
    if Plain(step) {
      PlainMoves(s, maxAttempts, step);
    } else if step.OutboxStep? || step.Publish? || step.TrackNext? {
      WorkersLeave(s, maxAttempts, step);
    } else {
      match step
      case ClaimRecipient(c, owner, written, ok) => ClaimChanges(s, used, c, owner, written, ok, pair);
      case Deliver(_, _, _) =>
      case Release(c, written) => ReleaseChanges(s, c, written, pair);
      case Complete(c, written, ok) => CompleteChanges(s, c, written, ok, pair);
      case KeyLost(_) =>
    }
  }

  lemma ClaimChanges(s: State, used: set<nat>, c: nat, owner: nat, written: bool, ok: bool, pair: Pair)
    requires TokensOk(s, used) && owner !in used
    ensures KeyOf(ClaimStep(s, c, owner, written, ok), pair) != KeyOf(s, pair) ==> KeyOf(s, pair) == None
  {
  }

  lemma ReleaseChanges(s: State, c: nat, written: bool, pair: Pair)
    ensures KeyOf(ReleaseStep(s, c, written), pair) != KeyOf(s, pair) ==> Holds(s, c, pair)
  {
  }

  lemma CompleteChanges(s: State, c: nat, written: bool, ok: bool, pair: Pair)
    ensures KeyOf(CompleteStep(s, c, written, ok), pair) != KeyOf(s, pair) ==> Holds(s, c, pair)
  {
  }
}
