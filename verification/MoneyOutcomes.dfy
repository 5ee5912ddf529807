/**
 What each transaction does to the tables, row by row and for every valid state: who is paid or charged how much, which
 rows appear, and exactly when it is refused. Over every run, claims are paid before the expiry and refunds after it.
 */
module MoneyOutcomes {
  import opened Wrappers
  import opened MapSums
  import opened Money
  import opened Shares
  import opened MoneyInvariant

  /** The user's balance moves by the row's signed amount, and the ledger gains just this row. */
  predicate Posted(t: Tables, u: Tables, user: string, direction: Direction, amount: int, business: Business,
      id: string, now: int)
  {
    var balance := GetOr(t.balances, user, 0) + if direction == Credit then amount else -amount;
    && u.balances == t.balances[user := balance]
    && u.ledger == t.ledger + [Entry(user, direction, amount, business, id, balance, now)]
  }

  predicate SamePackets(t: Tables, u: Tables)
  {
    u.packets == t.packets && u.claims == t.claims
  }

  lemma MovePosts(t: Tables, user: string, direction: Direction, amount: int, business: Business, id: string, now: int)
    requires Move(t, user, direction, amount, business, id, now).Success?
    ensures var u := Move(t, user, direction, amount, business, id, now).value;
            && Posted(t, u, user, direction, amount, business, id, now)
            && u == t.(balances := u.balances, ledger := u.ledger)
  {
    hide Booked;
  }

  /** A new request id pays; a used one changes nothing. */
  lemma RechargeOutcome(t: Tables, user: string, request: string, order: Order, now: int)
    requires Valid(t) && order.amount > 0
    ensures var (u, r) := RechargeTx(t, user, request, order, now);
            if (user, request) in t.orders then u == t && r == Failure(DuplicateOrder)
            else
              && r == Success(order) && SamePackets(t, u) && u.orders == t.orders[(user, request) := order]
              && Posted(t, u, user, Credit, order.amount, MockRecharge, request, now)
  {
    hide Move, Valid, Posted;
    RechargeKeeps(t, user, request, order, now);
    var placed := t.(orders := t.orders[(user, request) := order]);
    if (user, request) !in t.orders {
      MovePosts(placed, user, Credit, order.amount, MockRecharge, request, now);
      SamePosted(placed, t, RechargeTx(t, user, request, order, now).0, user, Credit, order.amount, MockRecharge,
        request, now);
    }
  }

  lemma SamePosted(s: Tables, t: Tables, u: Tables, user: string, direction: Direction, amount: int,
      business: Business, id: string, now: int)
    requires Posted(s, u, user, direction, amount, business, id, now)
    requires s.balances == t.balances && s.ledger == t.ledger
    ensures Posted(t, u, user, direction, amount, business, id, now)
  {
  }

  /** A recharge is accepted for named users and requests, two channels, and amounts of up to a million. */
  lemma RechargesAccepted(user: string, request: string, channel: string, amount: int)
    ensures ValidRecharge(user, request, NormalChannel(channel), amount) <==>
              && user != "" && 1 <= |request| <= 128 && 1 <= amount <= 1_000_000
              && channel in {"wechat", "alipay", "mock_wechat", "mock_alipay"}
  {
  }

  /** Packets are accepted with 1 to 1000 shares of at least one each and an expiry to come, a day ahead by default. */
  lemma CreationsAccepted(sender: string, conversation: string, toType: string, total: int, count: int, expiresAt: int,
      now: int)
    requires now >= 0
    ensures ValidCreate(sender, conversation, toType, total, count, expiresAt, now) <==>
              && sender != "" && conversation != "" && toType in {"user", "group"}
              && 1 <= count <= 1000 && count <= total && (expiresAt <= 0 || now < expiresAt)
    ensures ExpiryOf(expiresAt, now) == if expiresAt > 0 then expiresAt else now + 24 * 60 * 60 * 1000
  {
  }

  /** The sender pays the whole amount, or lacks it, or the id is taken. */
  lemma CreateOutcome(t: Tables, id: string, sender: string, total: int, count: int, expiresAt: int, now: int)
    requires Valid(t) && 1 <= count <= total && expiresAt > 0
    ensures var (u, r) := CreateTx(t, id, sender, total, count, expiresAt, now);
            if GetOr(t.balances, sender, 0) < total then u == t && r == Failure(InsufficientBalance)
            else if id in t.packets then u == t && r.Failure?
            else
              var packet := Packet(sender, total, count, total, count, Active, expiresAt);
              && r == Success(packet) && u.packets == t.packets[id := packet] && u.claims == t.claims
              && u.orders == t.orders && Posted(t, u, sender, Debit, total, RedPacketSend, id, now)
  {
    hide Move, Valid, Posted, LockWallet;
    CreateKeeps(t, id, sender, total, count, expiresAt, now);
    Locked(t, sender);
    var paid := Move(t, sender, Debit, total, RedPacketSend, id, now);
    if paid.Success? {
      MovePosts(t, sender, Debit, total, RedPacketSend, id, now);
      if id !in t.packets && GetOr(t.balances, sender, 0) >= total {
        PostedAlike(t, paid.value, CreateTx(t, id, sender, total, count, expiresAt, now).0, sender, Debit, total,
          RedPacketSend, id, now);
      }
    }
  }

  lemma Locked(t: Tables, user: string)
    ensures user in LockWallet(t, user).balances && LockWallet(t, user).balances[user] == GetOr(t.balances, user, 0)
  {
  }

  lemma PostedAlike(t: Tables, u: Tables, v: Tables, user: string, direction: Direction, amount: int,
      business: Business, id: string, now: int)
    requires Posted(t, u, user, direction, amount, business, id, now)
    requires u.balances == v.balances && u.ledger == v.ledger
    ensures Posted(t, v, user, direction, amount, business, id, now)
  {
  }

  /** The packet is closed and what is left of it goes back to its sender. */
  predicate Refunded(t: Tables, u: Tables, id: string, now: int)
    requires id in t.packets
  {
    var p := t.packets[id];
    && u.packets == t.packets[id := p.(status := Expired)] && u.claims == t.claims && u.orders == t.orders
    && Posted(t, u, p.sender, Credit, p.remainingAmount, RedPacketRefund, id, now)
  }

  lemma RefundOutcome(t: Tables, id: string, now: int)
    requires Valid(t) && id in t.packets && t.packets[id].status == Active
    ensures RefundRemainder(t, id, now).Success?
    ensures var (u, refund) := RefundRemainder(t, id, now).value; var p := t.packets[id];
            Refunded(t, u, id, now)
            && refund == Refund(p.remainingAmount, GetOr(t.balances, p.sender, 0) + p.remainingAmount, now, false)
  {
    hide Move, Valid;
    var p := t.packets[id];
    RefundKeeps(t, id, now);
    MovePosts(t, p.sender, Credit, p.remainingAmount, RedPacketRefund, id, now);
  }

  /** The user gets the share: one more claim, one share less in the packet, which the last share finishes. */
  predicate SharePaid(t: Tables, u: Tables, id: string, user: string, amount: int, now: int)
    requires id in t.packets
  {
    var p := t.packets[id];
    && u.claims == t.claims[id := ClaimsOf(t, id)[user := amount]] && u.orders == t.orders
    && u.packets == t.packets[id := p.(remainingAmount := p.remainingAmount - amount,
                                       remainingCount := p.remainingCount - 1,
                                       status := if p.remainingCount == 1 then Finished else Active)]
    && Posted(t, u, user, Credit, amount, RedPacketClaim, id, now)
  }

  lemma ShareOutcome(t: Tables, id: string, user: string, now: int)
    requires Valid(t) && id in t.packets && t.packets[id].status == Active && user !in ClaimsOf(t, id)
    ensures var p := t.packets[id]; var amount := NextEqualClaimAmount(p);
            var (u, r) := TakeShare(t, id, user, amount, now);
            && r == Success(amount) && SharePaid(t, u, id, user, amount, now)
            && amount == p.totalAmount / p.totalCount
                 + if |ClaimsOf(t, id)| < p.totalAmount % p.totalCount then 1 else 0
  {
    hide Move, Posted, BooksOk, LedgerMatches, Conserved, TakeShare, NextEqualClaimAmount, WithoutShare, NewRow;
    var amount := NextEqualClaimAmount(t.packets[id]);
    ShareSize(t, id);
    ShareMoves(t, id, user, amount, now);
    SharePosts(t, id, user, amount, now);
    SharePosted(t, TakeShare(t, id, user, amount, now).0, id, user, amount, now);
  }

  lemma ShareSize(t: Tables, id: string)
    requires PacketsMatch(t) && id in t.packets && t.packets[id].status == Active
    ensures var p := t.packets[id]; var amount := NextEqualClaimAmount(p);
            && amount == p.totalAmount / p.totalCount
                 + (if |ClaimsOf(t, id)| < p.totalAmount % p.totalCount then 1 else 0)
            && 1 <= amount <= p.remainingAmount && (p.remainingAmount == amount <==> p.remainingCount == 1)
  {
    NextShare(t.packets[id]);
  }

  lemma SharePosts(t: Tables, id: string, user: string, amount: int, now: int)
    requires id in t.packets && TakeShare(t, id, user, amount, now).1.Success?
    ensures Posted(t, TakeShare(t, id, user, amount, now).0, user, Credit, amount, RedPacketClaim, id, now)
  {
    hide Move, Posted, WithoutShare;
    MovePosts(Taken(t, id, user, amount), user, Credit, amount, RedPacketClaim, id, now);
    SamePosted(Taken(t, id, user, amount), t, TakeShare(t, id, user, amount, now).0, user, Credit, amount,
      RedPacketClaim, id, now);
  }

  lemma SharePosted(t: Tables, u: Tables, id: string, user: string, amount: int, now: int)
    requires id in t.packets
    requires u == Taken(t, id, user, amount).(balances := u.balances, ledger := u.ledger)
    requires t.packets[id].remainingAmount == amount <==> t.packets[id].remainingCount == 1
    requires Posted(t, u, user, Credit, amount, RedPacketClaim, id, now)
    ensures SharePaid(t, u, id, user, amount, now)
  {
    hide Posted;
  }

  /** A claim pays the next share to a user without one, of an active packet, before its expiry, and only then. */
  lemma ClaimOutcome(t: Tables, id: string, user: string, now: int)
    requires Valid(t)
    ensures var (u, r) := ClaimTx(t, id, user, now);
            if id !in t.packets then u == t && r == Failure(NotFound)
            else
              var p := t.packets[id];
              if p.status == Expired then u == t && r == Failure(PacketExpired)
              else if p.status == Finished then u == t && r == Failure(PacketFinished)
              else if now >= p.expiresAt then Refunded(t, u, id, now) && r == Failure(PacketExpired)
              else if user in ClaimsOf(t, id) then u == t && r == Failure(AlreadyClaimed(ClaimsOf(t, id)[user]))
              else
                && r.Success? && SharePaid(t, u, id, user, r.value, now)
                && r.value == p.totalAmount / p.totalCount
                     + if |ClaimsOf(t, id)| < p.totalAmount % p.totalCount then 1 else 0
  {
    hide Valid, TakeShare, RefundRemainder, Refunded, SharePaid, NextEqualClaimAmount;
    if id in t.packets && t.packets[id].status == Active {
      Wellformed(t, id);
      if now >= t.packets[id].expiresAt {
        RefundOutcome(t, id, now);
      } else if user in ClaimsOf(t, id) {
        ShareKeeps(t, id, user, now);
        Refuses(t, id, user, now);
      } else {
        ShareOutcome(t, id, user, now);
      }
    }
  }

  lemma Wellformed(t: Tables, id: string)
    requires Valid(t) && id in t.packets
    ensures var p := t.packets[id];
            p.expiresAt > 0 && (p.status == Active ==> p.remainingCount >= 1 && p.remainingAmount >= 1)
  {
    var p := t.packets[id];
    RemainingByShares(p.totalAmount, p.totalCount, p.remainingCount);
  }

  lemma Refuses(t: Tables, id: string, user: string, now: int)
    requires Valid(t) && id in t.packets && t.packets[id].status == Active && user in ClaimsOf(t, id)
    ensures TakeShare(t, id, user, NextEqualClaimAmount(t.packets[id]), now)
              == (t, Failure(AlreadyClaimed(ClaimsOf(t, id)[user])))
  {
    hide BooksOk, LedgerMatches, Conserved;
    NextShare(t.packets[id]);
  }

  /** A refund pays the sender once the packet has expired, finds the earlier one, and is refused otherwise. */
  lemma RefundExpiredOutcome(t: Tables, id: string, sender: string, now: int)
    requires Valid(t)
    ensures var (u, r) := RefundExpiredTx(t, id, sender, now);
            if id !in t.packets then u == t && r == Failure(NotFound)
            else
              var p := t.packets[id];
              if p.sender != sender then u == t && r == Failure(NotSender)
              else if p.status == Finished then u == t && r == Failure(PacketFinished)
              else if p.status == Expired then
                && u == t && r.Success? && r.value.alreadyDone && r.value.amount == p.remainingAmount
                && exists e | e in t.ledger ::
                     && SameKey(e, sender, RedPacketRefund, id)
                     && r.value == Refund(e.amount, e.balanceAfter, e.createdAt, true)
              else if now < p.expiresAt then u == t && r == Failure(NotExpired)
              else
                && Refunded(t, u, id, now)
                && r == Success(Refund(p.remainingAmount, GetOr(t.balances, sender, 0) + p.remainingAmount, now, false))
  {
    hide Valid, RefundRemainder, Refunded, LoadRefund;
    if id in t.packets && t.packets[id].sender == sender {
      Wellformed(t, id);
      if t.packets[id].status == Expired {
        FindsRefund(t, id);
      } else if t.packets[id].status == Active {
        RefundOutcome(t, id, now);
      }
    }
  }

  lemma FindsRefund(t: Tables, id: string)
    requires Valid(t) && id in t.packets && t.packets[id].status == Expired
    ensures var p := t.packets[id]; var r := LoadRefund(t.ledger, p.sender, id);
            && r.Success? && r.value.alreadyDone && r.value.amount == p.remainingAmount
            && exists e | e in t.ledger ::
                 && SameKey(e, p.sender, RedPacketRefund, id)
                 && r.value == Refund(e.amount, e.balanceAfter, e.createdAt, true)
  {
    hide BooksOk, PacketsMatch, Conserved;
    var sender := t.packets[id].sender;
    StoredRefund(t, id);
    assert Booked(t, sender, RedPacketRefund, id);
    LoadRefundFinds(t.ledger, sender, id);
  }

  // ---------- over every run ----------

  /** Sent and claimed before the packet's expiry, refunded from then on. */
  predicate InTime(packets: map<string, Packet>, e: Entry)
  {
    match e.business
    case MockRecharge => true
    case RedPacketSend => e.businessId in packets && e.createdAt < packets[e.businessId].expiresAt
    case RedPacketClaim => e.businessId in packets && e.createdAt < packets[e.businessId].expiresAt
    case RedPacketRefund => e.businessId in packets && e.createdAt >= packets[e.businessId].expiresAt
  }

  ghost predicate AllInTime(t: Tables)
  {
    forall e | e in t.ledger :: InTime(t.packets, e)
  }

  /** Packets stay, with their expiry. */
  predicate ExpiriesStay(t: Tables, u: Tables)
  {
    forall id | id in t.packets :: id in u.packets && u.packets[id].expiresAt == t.packets[id].expiresAt
  }

  lemma OneMoreInTime(t: Tables, u: Tables, e: Entry)
    requires AllInTime(t) && ExpiriesStay(t, u) && u.ledger == t.ledger + [e] && InTime(u.packets, e)
    ensures AllInTime(u)
  {
    forall other | other in u.ledger ensures InTime(u.packets, other) {
      if other in t.ledger { assert InTime(t.packets, other); }
    }
  }

  lemma ClaimInTime(t: Tables, id: string, user: string, now: int)
    requires Valid(t) && AllInTime(t)
    ensures AllInTime(ClaimTx(t, id, user, now).0)
  {
    hide Valid, AllInTime, ClaimTx;
    ClaimOutcome(t, id, user, now);
    var u := ClaimTx(t, id, user, now).0;
    if u.ledger != t.ledger { OneMoreInTime(t, u, u.ledger[|t.ledger|]); }
  }

  lemma RefundInTime(t: Tables, id: string, sender: string, now: int)
    requires Valid(t) && AllInTime(t)
    ensures AllInTime(RefundExpiredTx(t, id, sender, now).0)
  {
    hide Valid, AllInTime, RefundExpiredTx;
    RefundExpiredOutcome(t, id, sender, now);
    var u := RefundExpiredTx(t, id, sender, now).0;
    if u.ledger != t.ledger { OneMoreInTime(t, u, u.ledger[|t.ledger|]); }
  }

  lemma CreateInTime(t: Tables, id: string, sender: string, total: int, count: int, expiresAt: int, now: int)
    requires Valid(t) && AllInTime(t) && 1 <= count <= total && expiresAt > 0 && now < expiresAt
    ensures AllInTime(CreateTx(t, id, sender, total, count, expiresAt, now).0)
  {
    hide Valid, AllInTime, CreateTx;
    CreateOutcome(t, id, sender, total, count, expiresAt, now);
    var u := CreateTx(t, id, sender, total, count, expiresAt, now).0;
    if u.ledger != t.ledger { OneMoreInTime(t, u, u.ledger[|t.ledger|]); }
  }

  lemma RechargeInTime(t: Tables, user: string, request: string, order: Order, now: int)
    requires Valid(t) && AllInTime(t) && order.amount > 0
    ensures AllInTime(RechargeTx(t, user, request, order, now).0)
  {
    hide Valid, AllInTime, RechargeTx;
    RechargeOutcome(t, user, request, order, now);
    var u := RechargeTx(t, user, request, order, now).0;
    if u.ledger != t.ledger { OneMoreInTime(t, u, u.ledger[|t.ledger|]); }
  }

  lemma StepInTime(t: Tables, s: Step)
    requires Valid(t) && AllInTime(t)
    ensures AllInTime(Apply(t, s))
  {
    hide Valid, AllInTime, RechargeTx, CreateTx, ClaimTx, RefundExpiredTx;
    match s
    case Recharge(user, request, order, now) =>
      if ValidRecharge(user, request, order.channel, order.amount) { RechargeInTime(t, user, request, order, now); }
    case Create(id, sender, conversation, toType, total, count, expiresAt, now) =>
      if ValidCreate(sender, conversation, toType, total, count, expiresAt, now) {
        CreateInTime(t, id, sender, total, count, ExpiryOf(expiresAt, now), now);
      }
    case Claim(id, user, now) => ClaimInTime(t, id, user, now);
    case RefundExpired(id, sender, now) => RefundInTime(t, id, sender, now);
  }

  lemma {:induction false} RunInTime(t: Tables, steps: seq<Step>)
    requires Valid(t) && AllInTime(t)
    ensures AllInTime(Run(t, steps))
    decreases steps
  {
    hide Valid, AllInTime, Apply;
    if |steps| > 0 {
      StepInTime(t, steps[0]);
      StepKeeps(t, steps[0]);
      RunInTime(Apply(t, steps[0]), steps[1..]);
    }
  }

  /** In every run a packet's money is sent and claimed only before its expiry, and refunded only from then on. */
  lemma PaidInTime(steps: seq<Step>, e: Entry)
    ensures var t := Run(EmptyTables, steps);
            e in t.ledger && e.business != MockRecharge ==>
              && e.businessId in t.packets
              && (e.business == RedPacketRefund <==> e.createdAt >= t.packets[e.businessId].expiresAt)
  {
    EmptyIsValid();
    RunInTime(EmptyTables, steps);
    var t := Run(EmptyTables, steps);
    if e in t.ledger { assert InTime(t.packets, e); }
  }
}
