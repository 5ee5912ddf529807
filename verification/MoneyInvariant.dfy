/** What every reachable state of the money tables satisfies, and why each transaction keeps it. */
module MoneyInvariant {
  import opened Wrappers
  import opened MapSums
  import opened Money
  import opened Shares

  // ---------- the ledger against the balances ----------

  function Signed(e: Entry): int
  {
    if e.direction == Credit then e.amount else -e.amount
  }

  /** Credits minus debits of one user. */
  function Net(ledger: seq<Entry>, user: string): int
  {
    if |ledger| == 0 then 0
    else
      Net(ledger[..|ledger| - 1], user)
      + (if ledger[|ledger| - 1].user == user then Signed(ledger[|ledger| - 1]) else 0)
  }

  lemma NetAppend(ledger: seq<Entry>, e: Entry, user: string)
    ensures Net(ledger + [e], user) == Net(ledger, user) + (if e.user == user then Signed(e) else 0)
  {
    assert (ledger + [e])[..|ledger|] == ledger;
  }

  ghost predicate BalancesMatch(balances: map<string, int>, ledger: seq<Entry>)
  {
    && (forall u :: Net(ledger, u) == GetOr(balances, u, 0))
    && (forall u | u in balances :: balances[u] >= 0)
  }

  /** Every row stores the running balance of its user at that point. */
  ghost predicate RunningBalances(ledger: seq<Entry>)
  {
    forall i | 0 <= i < |ledger| ::
      && ledger[i].amount > 0
      && 0 <= ledger[i].balanceAfter == Net(ledger[..i + 1], ledger[i].user)
  }

  ghost predicate UniqueKeys(ledger: seq<Entry>)
  {
    forall i, j | 0 <= i < j < |ledger| ::
      !SameKey(ledger[j], ledger[i].user, ledger[i].business, ledger[i].businessId)
  }

  ghost predicate BooksOk(t: Tables)
  {
    BalancesMatch(t.balances, t.ledger) && RunningBalances(t.ledger) && UniqueKeys(t.ledger)
  }

  // ---------- packets, claims and orders ----------

  ghost predicate PacketsMatch(t: Tables)
  {
    && (forall id | id in t.packets :: WellFormed(t.packets[id]) && ClaimsMatch(t.packets[id], ClaimsOf(t, id)))
    && t.claims.Keys <= t.packets.Keys
  }

  /** There is one claim per share handed out, each of a share's size, and no money is lost between them. */
  ghost predicate ClaimsMatch(p: Packet, claims: map<string, int>)
    requires p.totalCount > 0
  {
    && |claims| == p.totalCount - p.remainingCount
    && Sum(claims) + p.remainingAmount == p.totalAmount
    && forall u | u in claims :: IsShare(p, claims[u])
  }

  /** A claimed amount is the base share or the base share plus one. */
  predicate IsShare(p: Packet, amount: int)
    requires p.totalCount > 0
  {
    amount == p.totalAmount / p.totalCount || amount == p.totalAmount / p.totalCount + 1
  }

  function Held(p: Packet): int
  {
    if p.status == Active then p.remainingAmount else 0
  }

  ghost function HeldBy(packets: map<string, Packet>): map<string, int>
  {
    map id | id in packets :: Held(packets[id])
  }

  ghost function Paid(orders: map<(string, string), Order>): map<(string, string), int>
  {
    map k | k in orders :: orders[k].amount
  }

  /** Money in wallets plus money in active packets is the money that was paid in. */
  ghost predicate Conserved(t: Tables)
  {
    Sum(t.balances) + Sum(HeldBy(t.packets)) == Sum(Paid(t.orders))
  }

  // ---------- the ledger against the business rows ----------

  /** The business row a ledger row speaks about. */
  predicate Backed(t: Tables, e: Entry)
  {
    match e.business
    case MockRecharge =>
      e.direction == Credit && (e.user, e.businessId) in t.orders && t.orders[(e.user, e.businessId)].amount == e.amount
    case RedPacketSend =>
      && e.direction == Debit && e.businessId in t.packets
      && t.packets[e.businessId].sender == e.user && t.packets[e.businessId].totalAmount == e.amount
    case RedPacketClaim =>
      e.direction == Credit && e.user in ClaimsOf(t, e.businessId) && ClaimsOf(t, e.businessId)[e.user] == e.amount
    case RedPacketRefund =>
      && e.direction == Credit && e.businessId in t.packets && t.packets[e.businessId].status == Expired
      && t.packets[e.businessId].sender == e.user && t.packets[e.businessId].remainingAmount == e.amount
  }

  ghost predicate LedgerMatches(t: Tables)
  {
    && (forall e | e in t.ledger :: Backed(t, e))
    && (forall k | k in t.orders :: Booked(t, k.0, MockRecharge, k.1))
    && (forall id | id in t.packets :: Booked(t, t.packets[id].sender, RedPacketSend, id))
    && (forall id | id in t.packets && t.packets[id].status == Expired ::
           Booked(t, t.packets[id].sender, RedPacketRefund, id))
    && (forall id, u | u in ClaimsOf(t, id) :: Booked(t, u, RedPacketClaim, id))
  }

  ghost predicate Valid(t: Tables)
  {
    BooksOk(t) && PacketsMatch(t) && LedgerMatches(t) && Conserved(t)
  }

  // ---------- one ledger movement ----------

  lemma LockKeeps(t: Tables, user: string)
    requires BalancesMatch(t.balances, t.ledger)
    ensures var l := LockWallet(t, user);
            && BalancesMatch(l.balances, t.ledger)
            && Sum(l.balances) == Sum(t.balances)
            && l.balances[user] == GetOr(t.balances, user, 0) >= 0
  {
    SumUpdate(t.balances, user, 0);
  }

  lemma PostBalances(balances: map<string, int>, ledger: seq<Entry>, e: Entry)
    requires BalancesMatch(balances, ledger) && e.balanceAfter == GetOr(balances, e.user, 0) + Signed(e)
               && e.balanceAfter >= 0
    ensures BalancesMatch(balances[e.user := e.balanceAfter], ledger + [e])
    ensures Sum(balances[e.user := e.balanceAfter]) == Sum(balances) + Signed(e)
    ensures Net(ledger + [e], e.user) == e.balanceAfter
  {
    forall v ensures Net(ledger + [e], v) == GetOr(balances[e.user := e.balanceAfter], v, 0) {
      NetAppend(ledger, e, v);
    }
    SumUpdate(balances, e.user, e.balanceAfter);
  }

  lemma PostRunning(ledger: seq<Entry>, e: Entry)
    requires RunningBalances(ledger) && e.amount > 0 && 0 <= e.balanceAfter == Net(ledger + [e], e.user)
    ensures RunningBalances(ledger + [e])
  {
    var l := ledger + [e];
    forall i | 0 <= i < |l| ensures l[i].amount > 0 && 0 <= l[i].balanceAfter == Net(l[..i + 1], l[i].user) {
      if i < |ledger| {
        assert l[..i + 1] == ledger[..i + 1];
      } else {
        assert l[..i + 1] == l;
      }
    }
  }

  lemma PostUnique(t: Tables, e: Entry)
    requires UniqueKeys(t.ledger) && !Booked(t, e.user, e.business, e.businessId)
    ensures UniqueKeys(t.ledger + [e])
  {
    var l := t.ledger + [e];
    forall i, j | 0 <= i < j < |l| ensures !SameKey(l[j], l[i].user, l[i].business, l[i].businessId) {
      assert l[i] in t.ledger;
    }
  }

  lemma BookedSame(t: Tables, u: Tables, user: string, business: Business, id: string)
    requires t.ledger == u.ledger
    ensures Booked(t, user, business, id) == Booked(u, user, business, id)
  {
  }

  /** A movement that succeeds appends its row, keeps the books, and shifts the total by the signed amount. */
  lemma MoveKeeps(t: Tables, user: string, direction: Direction, amount: int, business: Business, id: string, now: int)
    requires BooksOk(t)
    ensures var r := Move(t, user, direction, amount, business, id, now);
            var e := NewRow(t, user, direction, amount, business, id, now);
            && (amount > 0 ==>
                  (r.Success? <==>
                    !Booked(t, user, business, id) && (direction == Credit || amount <= GetOr(t.balances, user, 0))))
            && (r.Success? ==>
                  && BooksOk(r.value)
                  && r.value == t.(balances := r.value.balances, ledger := t.ledger + [e])
                  && user in r.value.balances
                  && Sum(r.value.balances) == Sum(t.balances) + Signed(e))
            && (r.Failure? ==> r.error == InsufficientBalance || r.error == DuplicateLedger)
  {
    hide Net, BalancesMatch, RunningBalances, UniqueKeys, Booked;
    var locked := LockWallet(t, user);
    var e := NewRow(t, user, direction, amount, business, id, now);
    LockKeeps(t, user);
    BookedSame(locked, t, user, business, id);
    if Move(t, user, direction, amount, business, id, now).Success? {
      PostBalances(locked.balances, t.ledger, e);
      PostRunning(t.ledger, e);
      PostUnique(t, e);
    }
  }

  // ---------- the business rows around a movement ----------

  /** Business rows only grow; what a ledger row relies on does not change. */
  ghost predicate Extends(t: Tables, u: Tables)
  {
    && (forall k | k in t.orders :: k in u.orders && u.orders[k] == t.orders[k])
    && (forall id, v | v in ClaimsOf(t, id) :: v in ClaimsOf(u, id) && ClaimsOf(u, id)[v] == ClaimsOf(t, id)[v])
    && (forall id | id in t.packets ::
          && id in u.packets
          && u.packets[id].sender == t.packets[id].sender
          && u.packets[id].totalAmount == t.packets[id].totalAmount
          && (t.packets[id].status == Expired ==> u.packets[id] == t.packets[id]))
  }

  /** Every new business fact in u is the one the row e records. */
  ghost predicate Accounts(t: Tables, u: Tables, e: Entry)
  {
    && (forall k | k in u.orders && k !in t.orders :: SameKey(e, k.0, MockRecharge, k.1))
    && (forall id, v | v in ClaimsOf(u, id) && v !in ClaimsOf(t, id) :: SameKey(e, v, RedPacketClaim, id))
    && (forall id | id in u.packets && id !in t.packets :: SameKey(e, u.packets[id].sender, RedPacketSend, id))
    && (forall id | id in u.packets && u.packets[id].status == Expired
           && (id in t.packets ==> t.packets[id].status != Expired)
          :: SameKey(e, u.packets[id].sender, RedPacketRefund, id))
  }

  lemma BookedGrows(t: Tables, u: Tables, e: Entry, user: string, business: Business, id: string)
    requires u.ledger == t.ledger + [e]
    ensures Booked(t, user, business, id) || SameKey(e, user, business, id) ==> Booked(u, user, business, id)
  {
    if Booked(t, user, business, id) {
      var r :| r in t.ledger && SameKey(r, user, business, id);
      assert r in u.ledger;
    }
    assert e in u.ledger;
  }

  lemma LedgerKeeps(t: Tables, u: Tables, e: Entry)
    requires LedgerMatches(t) && Extends(t, u) && Accounts(t, u, e) && u.ledger == t.ledger + [e] && Backed(u, e)
    ensures LedgerMatches(u)
  {
    forall r | r in u.ledger ensures Backed(u, r) {
      assert r in t.ledger || r == e;
    }
    forall k | k in u.orders ensures Booked(u, k.0, MockRecharge, k.1) { BookedGrows(t, u, e, k.0, MockRecharge, k.1); }
    forall id, v | v in ClaimsOf(u, id) ensures Booked(u, v, RedPacketClaim, id) {
      BookedGrows(t, u, e, v, RedPacketClaim, id);
    }
    forall id | id in u.packets ensures Booked(u, u.packets[id].sender, RedPacketSend, id) {
      BookedGrows(t, u, e, u.packets[id].sender, RedPacketSend, id);
    }
    forall id | id in u.packets && u.packets[id].status == Expired
      ensures Booked(u, u.packets[id].sender, RedPacketRefund, id)
    {
      BookedGrows(t, u, e, u.packets[id].sender, RedPacketRefund, id);
    }
  }

  /** The row a business fact needs is not there before the fact is. */
  lemma NotYetBooked(t: Tables, user: string, business: Business, id: string)
    requires LedgerMatches(t)
    requires match business
             case MockRecharge => (user, id) !in t.orders
             case RedPacketSend => id !in t.packets
             case RedPacketClaim => user !in ClaimsOf(t, id)
             case RedPacketRefund => id in t.packets && t.packets[id].status != Expired
    ensures !Booked(t, user, business, id)
  {
  }

  lemma HeldUpdate(packets: map<string, Packet>, id: string, p: Packet)
    ensures Sum(HeldBy(packets[id := p]))
              == Sum(HeldBy(packets)) - (if id in packets then Held(packets[id]) else 0) + Held(p)
  {
    assert HeldBy(packets[id := p]) == HeldBy(packets)[id := Held(p)];
    SumUpdate(HeldBy(packets), id, Held(p));
  }

  // ---------- each transaction ----------

  lemma RechargeRows(t: Tables, u: Tables, key: (string, string), order: Order, e: Entry)
    requires LedgerMatches(t) && key !in t.orders
    requires SameKey(e, key.0, MockRecharge, key.1) && e.direction == Credit && e.amount == order.amount
    requires u == t.(orders := t.orders[key := order], balances := u.balances, ledger := t.ledger + [e])
    ensures LedgerMatches(u)
  {
    LedgerKeeps(t, u, e);
  }

  lemma PaidUpdate(t: Tables, u: Tables, key: (string, string), order: Order)
    requires key !in t.orders && u.orders == t.orders[key := order]
    ensures Sum(Paid(u.orders)) == Sum(Paid(t.orders)) + order.amount
  {
    assert Paid(u.orders) == Paid(t.orders)[key := order.amount];
    SumUpdate(Paid(t.orders), key, order.amount);
  }

  lemma RechargeKeeps(t: Tables, user: string, request: string, order: Order, now: int)
    requires Valid(t) && order.amount > 0
    ensures Valid(RechargeTx(t, user, request, order, now).0)
    ensures RechargeTx(t, user, request, order, now).1
         == if (user, request) in t.orders then Failure(DuplicateOrder) else Success(order)
  {
    hide RunningBalances, UniqueKeys, BalancesMatch, Backed, WellFormed, ClaimsMatch, Booked, HeldBy, Paid;
    var key := (user, request);
    if key !in t.orders {
      var placed := t.(orders := t.orders[key := order]);
      NotYetBooked(t, user, MockRecharge, request);
      BookedSame(t, placed, user, MockRecharge, request);
      MoveKeeps(placed, user, Credit, order.amount, MockRecharge, request, now);
      var u := RechargeTx(t, user, request, order, now).0;
      RechargeRows(t, u, key, order, NewRow(placed, user, Credit, order.amount, MockRecharge, request, now));
      PaidUpdate(t, u, key, order);
    }
  }

  lemma CreateRows(t: Tables, u: Tables, id: string, p: Packet, e: Entry)
    requires LedgerMatches(t) && id !in t.packets && p.status == Active
    requires SameKey(e, p.sender, RedPacketSend, id) && e.direction == Debit && e.amount == p.totalAmount
    requires u == t.(packets := t.packets[id := p], balances := u.balances, ledger := t.ledger + [e])
    ensures LedgerMatches(u)
  {
    LedgerKeeps(t, u, e);
  }

  lemma CreatePackets(t: Tables, u: Tables, id: string, p: Packet)
    requires PacketsMatch(t) && id !in t.packets
    requires 1 <= p.totalCount <= p.totalAmount && p.expiresAt > 0 && p.status == Active
    requires p.remainingAmount == p.totalAmount && p.remainingCount == p.totalCount
    requires u.packets == t.packets[id := p] && u.claims == t.claims
    ensures PacketsMatch(u)
  {
    assert ClaimsOf(t, id) == map[];
  }

  lemma CreateKeeps(t: Tables, id: string, sender: string, total: int, count: int, expiresAt: int, now: int)
    requires Valid(t) && 1 <= count <= total && expiresAt > 0
    ensures Valid(CreateTx(t, id, sender, total, count, expiresAt, now).0)
    ensures var r := CreateTx(t, id, sender, total, count, expiresAt, now).1;
            && (r.Failure? ==>
                  r.error == InsufficientBalance || r.error == DuplicatePacket || r.error == DuplicateLedger)
            && (id !in t.packets ==> (r.Success? <==> GetOr(t.balances, sender, 0) >= total))
  {
    LockKeeps(t, sender);
    MoveKeeps(t, sender, Debit, total, RedPacketSend, id, now);
    if GetOr(t.balances, sender, 0) >= total && id !in t.packets {
      NotYetBooked(t, sender, RedPacketSend, id);
      var u := CreateTx(t, id, sender, total, count, expiresAt, now).0;
      var p := Packet(sender, total, count, total, count, Active, expiresAt);
      CreateRows(t, u, id, p, NewRow(t, sender, Debit, total, RedPacketSend, id, now));
      CreatePackets(t, u, id, p);
      HeldUpdate(t.packets, id, p);
    }
  }

  lemma RefundRows(t: Tables, u: Tables, id: string, e: Entry)
    requires LedgerMatches(t) && id in t.packets && t.packets[id].status == Active
    requires SameKey(e, t.packets[id].sender, RedPacketRefund, id) && e.direction == Credit
               && e.amount == t.packets[id].remainingAmount
    requires u == t.(packets := t.packets[id := t.packets[id].(status := Expired)], balances := u.balances,
                     ledger := t.ledger + [e])
    ensures LedgerMatches(u)
  {
    hide Booked;
    LedgerKeeps(t, u, e);
  }

  lemma ExpirePackets(t: Tables, u: Tables, id: string)
    requires PacketsMatch(t) && id in t.packets && t.packets[id].status == Active
    requires u.packets == t.packets[id := t.packets[id].(status := Expired)] && u.claims == t.claims
    ensures PacketsMatch(u)
  {
    hide ClaimsMatch, RemainingAfter;
    ClaimsSame(t.packets[id], u.packets[id], ClaimsOf(t, id));
  }

  lemma ClaimsSame(p: Packet, q: Packet, claims: map<string, int>)
    requires p.totalCount > 0 && q == p.(status := q.status) && ClaimsMatch(p, claims)
    ensures ClaimsMatch(q, claims)
  {
    hide Sum;
  }

  lemma BooksSame(t: Tables, u: Tables)
    requires BooksOk(t) && t.balances == u.balances && t.ledger == u.ledger
    ensures BooksOk(u)
  {
  }

  lemma RefundRow(t: Tables, sender: string, amount: int, id: string, now: int)
    ensures var e := NewRow(t, sender, Credit, amount, RedPacketRefund, id, now);
            SameKey(e, sender, RedPacketRefund, id) && e.direction == Credit && e.amount == amount
  {
  }

  lemma RefundKeeps(t: Tables, id: string, now: int)
    requires Valid(t) && id in t.packets && t.packets[id].status == Active
    ensures RefundRemainder(t, id, now).Success?
    ensures var done := RefundRemainder(t, id, now).value;
            && Valid(done.0)
            && done.0.packets == t.packets[id := t.packets[id].(status := Expired)]
            && done.1.amount == t.packets[id].remainingAmount > 0
  {
    hide BooksOk, LedgerMatches, ClaimsMatch, RemainingAfter, Move, NewRow, HeldBy, Paid, Booked;
    var p := t.packets[id];
    RemainingByShares(p.totalAmount, p.totalCount, p.remainingCount);
    NotYetBooked(t, p.sender, RedPacketRefund, id);
    MoveKeeps(t, p.sender, Credit, p.remainingAmount, RedPacketRefund, id, now);
    var u := RefundRemainder(t, id, now).value.0;
    BooksSame(Move(t, p.sender, Credit, p.remainingAmount, RedPacketRefund, id, now).value, u);
    RefundRow(t, p.sender, p.remainingAmount, id, now);
    RefundRows(t, u, id, NewRow(t, p.sender, Credit, p.remainingAmount, RedPacketRefund, id, now));
    ExpirePackets(t, u, id);
    HeldUpdate(t.packets, id, p.(status := Expired));
  }

  lemma ShareRows(t: Tables, u: Tables, id: string, user: string, q: Packet, e: Entry)
    requires LedgerMatches(t) && id in t.packets && t.packets[id].status == Active && user !in ClaimsOf(t, id)
    requires q.status != Expired && q.sender == t.packets[id].sender && q.totalAmount == t.packets[id].totalAmount
    requires SameKey(e, user, RedPacketClaim, id) && e.direction == Credit
    requires u == t.(claims := t.claims[id := ClaimsOf(t, id)[user := e.amount]], packets := t.packets[id := q],
                     balances := u.balances, ledger := t.ledger + [e])
    ensures LedgerMatches(u)
  {
    hide Booked;
    LedgerKeeps(t, u, e);
  }

  lemma SharePackets(t: Tables, id: string, user: string, q: Packet, amount: int)
    requires PacketsMatch(t) && id in t.packets && user !in ClaimsOf(t, id)
    requires WellFormed(q) && IsShare(q, amount)
    requires q.totalCount == t.packets[id].totalCount && q.totalAmount == t.packets[id].totalAmount
    requires q.remainingCount == t.packets[id].remainingCount - 1
               && q.remainingAmount == t.packets[id].remainingAmount - amount
    ensures PacketsMatch(t.(claims := t.claims[id := ClaimsOf(t, id)[user := amount]], packets := t.packets[id := q]))
  {
    SumUpdate(ClaimsOf(t, id), user, amount);
    assert ClaimsMatch(q, ClaimsOf(t, id)[user := amount]);
  }

  lemma ShareShape(p: Packet)
    requires WellFormed(p) && p.status == Active
    ensures var a := NextEqualClaimAmount(p); var q := WithoutShare(p, a);
            && 1 <= a <= p.remainingAmount && IsShare(p, a) && IsShare(q, a) && WellFormed(q)
            && (q.status == Finished ==> q.remainingAmount == 0)
  {
    NextShare(p);
    AfterShare(p);
  }

  function Taken(t: Tables, id: string, user: string, amount: int): Tables
    requires id in t.packets
  {
    t.(claims := t.claims[id := ClaimsOf(t, id)[user := amount]],
       packets := t.packets[id := WithoutShare(t.packets[id], amount)])
  }

  lemma ShareMoves(t: Tables, id: string, user: string, amount: int, now: int)
    requires BooksOk(t) && LedgerMatches(t) && id in t.packets && user !in ClaimsOf(t, id)
    requires 1 <= amount <= t.packets[id].remainingAmount
    ensures var (u, r) := TakeShare(t, id, user, amount, now);
            var e := NewRow(Taken(t, id, user, amount), user, Credit, amount, RedPacketClaim, id, now);
            && r == Success(amount) && BooksOk(u) && Sum(u.balances) == Sum(t.balances) + amount
            && u == Taken(t, id, user, amount).(balances := u.balances, ledger := t.ledger + [e])
  {
    var taken := Taken(t, id, user, amount);
    NotYetBooked(t, user, RedPacketClaim, id);
    MoveKeeps(taken, user, Credit, amount, RedPacketClaim, id, now);
  }

  lemma ShareKeeps(t: Tables, id: string, user: string, now: int)
    requires Valid(t) && id in t.packets && t.packets[id].status == Active
    ensures var (u, r) := TakeShare(t, id, user, NextEqualClaimAmount(t.packets[id]), now);
            && Valid(u)
            && r == if user in ClaimsOf(t, id) then Failure(AlreadyClaimed(ClaimsOf(t, id)[user]))
                    else Success(NextEqualClaimAmount(t.packets[id]))
  {
    hide NextEqualClaimAmount, RemainingAfter, IsShare, TakeShare, BooksOk, LedgerMatches, Move, ClaimsMatch,
      WellFormed, HeldBy, Paid;
    var p := t.packets[id];
    var amount := NextEqualClaimAmount(p);
    var q := WithoutShare(p, amount);
    ShareShape(p);
    if user !in ClaimsOf(t, id) {
      var u := TakeShare(t, id, user, amount, now).0;
      ShareMoves(t, id, user, amount, now);
      ShareRows(t, u, id, user, q, NewRow(Taken(t, id, user, amount), user, Credit, amount, RedPacketClaim, id, now));
      SharePackets(t, id, user, q, amount);
      HeldUpdate(t.packets, id, q);
    } else {
      RefusedShare(t, id, user, amount, now);
    }
  }

  lemma RefusedShare(t: Tables, id: string, user: string, amount: int, now: int)
    requires id in t.packets && 1 <= amount <= t.packets[id].remainingAmount && user in ClaimsOf(t, id)
    ensures TakeShare(t, id, user, amount, now) == (t, Failure(AlreadyClaimed(ClaimsOf(t, id)[user])))
  {
  }

  lemma ClaimKeeps(t: Tables, id: string, user: string, now: int)
    requires Valid(t)
    ensures Valid(ClaimTx(t, id, user, now).0)
    ensures var r := ClaimTx(t, id, user, now).1;
            r.Failure? ==> r.error in {NotFound, PacketFinished, PacketExpired} || r.error.AlreadyClaimed?
  {
    hide BooksOk, LedgerMatches, Conserved, TakeShare, RefundRemainder, ClaimsMatch, NextEqualClaimAmount;
    if id in t.packets && t.packets[id].status == Active {
      var p := t.packets[id];
      RemainingByShares(p.totalAmount, p.totalCount, p.remainingCount);
      if p.expiresAt <= now {
        RefundKeeps(t, id, now);
      } else {
        ShareKeeps(t, id, user, now);
      }
    }
  }

  lemma {:induction false} LoadRefundFinds(ledger: seq<Entry>, sender: string, id: string)
    requires exists e | e in ledger :: IsRefundOf(e, sender, id)
    ensures var r := LoadRefund(ledger, sender, id);
            r.Success? && exists e | e in ledger ::
              IsRefundOf(e, sender, id) && r.value == Refund(e.amount, e.balanceAfter, e.createdAt, true)
  {
    if IsRefundOf(ledger[0], sender, id) {
      assert ledger[0] in ledger;
    } else {
      LoadRefundFinds(ledger[1..], sender, id);
    }
  }

  lemma StoredRefund(t: Tables, id: string)
    requires LedgerMatches(t) && id in t.packets && t.packets[id].status == Expired
    ensures var r := LoadRefund(t.ledger, t.packets[id].sender, id);
            r.Success? && r.value.amount == t.packets[id].remainingAmount
  {
    var sender := t.packets[id].sender;
    assert Booked(t, sender, RedPacketRefund, id);
    assert forall e | e in t.ledger :: Backed(t, e);
    LoadRefundFinds(t.ledger, sender, id);
  }

  /** A repeated refund finds the row the first one wrote; the "missing its refund ledger" error cannot happen. */
  lemma RefundExpiredKeeps(t: Tables, id: string, sender: string, now: int)
    requires Valid(t)
    ensures Valid(RefundExpiredTx(t, id, sender, now).0)
    ensures var r := RefundExpiredTx(t, id, sender, now).1;
            && (r.Failure? ==> r.error in {NotFound, NotSender, PacketFinished, NotExpired})
            && (r.Success? ==> r.value.amount == t.packets[id].remainingAmount > 0)
  {
    hide BooksOk, LedgerMatches, Conserved, ClaimsMatch, RemainingAfter, RefundRemainder, LoadRefund;
    if id in t.packets && t.packets[id].sender == sender {
      var p := t.packets[id];
      RemainingByShares(p.totalAmount, p.totalCount, p.remainingCount);
      if p.status == Expired {
        StoredRefund(t, id);
      } else if p.status == Active {
        RefundKeeps(t, id, now);
      }
    }
  }

  // ---------- whole runs ----------

  lemma EmptyIsValid()
    ensures Valid(EmptyTables)
  {
    assert HeldBy(EmptyTables.packets) == map[] && Paid(EmptyTables.orders) == map[];
  }

  lemma StepKeeps(t: Tables, s: Step)
    requires Valid(t)
    ensures Valid(Apply(t, s))
  {
    hide Valid, RechargeTx, CreateTx, ClaimTx, RefundExpiredTx;
    match s
    case Recharge(user, request, order, now) =>
      if ValidRecharge(user, request, order.channel, order.amount) { RechargeKeeps(t, user, request, order, now); }
    case Create(id, sender, conversation, toType, total, count, expiresAt, now) =>
      if ValidCreate(sender, conversation, toType, total, count, expiresAt, now) {
        CreateKeeps(t, id, sender, total, count, ExpiryOf(expiresAt, now), now);
      }
    case Claim(id, user, now) => ClaimKeeps(t, id, user, now);
    case RefundExpired(id, sender, now) => RefundExpiredKeeps(t, id, sender, now);
  }

  lemma {:induction false} RunKeeps(t: Tables, steps: seq<Step>)
    requires Valid(t)
    ensures Valid(Run(t, steps))
    decreases steps
  {
    hide Valid, Apply;
    if |steps| > 0 {
      StepKeeps(t, steps[0]);
      RunKeeps(Apply(t, steps[0]), steps[1..]);
    }
  }

  /** Every run of recharges, creations, claims and refunds, in any order, ends in a valid state. */
  lemma ReachableIsValid(steps: seq<Step>)
    ensures Valid(Run(EmptyTables, steps))
  {
    EmptyIsValid();
    RunKeeps(EmptyTables, steps);
  }

  /** No money appears or disappears in any run. */
  lemma MoneyIsConserved(steps: seq<Step>)
    ensures var t := Run(EmptyTables, steps);
            Sum(t.balances) + Sum(HeldBy(t.packets)) == Sum(Paid(t.orders))
  {
    ReachableIsValid(steps);
  }

  /** Each balance is the credits minus the debits of its ledger rows, and each row stores its running prefix. */
  lemma LedgerExplainsBalances(steps: seq<Step>, user: string)
    ensures var t := Run(EmptyTables, steps);
            && 0 <= GetOr(t.balances, user, 0) == Net(t.ledger, user)
            && forall i | 0 <= i < |t.ledger| && t.ledger[i].user == user ::
                 0 <= t.ledger[i].balanceAfter == Net(t.ledger[..i + 1], user)
  {
    ReachableIsValid(steps);
  }

  lemma SharesExactHere(t: Tables, id: string)
    requires PacketsMatch(t) && id in t.packets
    ensures var p := t.packets[id]; var k := |ClaimsOf(t, id)|;
            && p.totalCount > 0
            && p.remainingAmount == RemainingAfter(p.totalAmount, p.totalCount, k)
            && Sum(ClaimsOf(t, id)) + p.remainingAmount == p.totalAmount
            && (forall u | u in ClaimsOf(t, id) :: ClaimsOf(t, id)[u] >= 1 && IsShare(p, ClaimsOf(t, id)[u]))
            && (p.status == Finished <==> k == p.totalCount)
            && (p.status == Finished ==> p.remainingAmount == 0)
  {
    var p := t.packets[id];
    Quotient(p.totalAmount, p.totalCount);
    RemainingByShares(p.totalAmount, p.totalCount, p.remainingCount);
  }

  /** After k claims of n the remainder is the closed form, k shares account for the rest, and n claims finish it. */
  lemma SharesAreExact(steps: seq<Step>, id: string)
    ensures var t := Run(EmptyTables, steps);
            id in t.packets ==>
              var p := t.packets[id]; var k := |ClaimsOf(t, id)|;
              && p.totalCount > 0
              && p.remainingAmount == RemainingAfter(p.totalAmount, p.totalCount, k)
              && Sum(ClaimsOf(t, id)) + p.remainingAmount == p.totalAmount
              && (forall u | u in ClaimsOf(t, id) :: ClaimsOf(t, id)[u] >= 1 && IsShare(p, ClaimsOf(t, id)[u]))
              && (p.status == Finished <==> k == p.totalCount)
              && (p.status == Finished ==> p.remainingAmount == 0)
  {
    hide BooksOk, LedgerMatches, Conserved, PacketsMatch, RemainingAfter, IsShare, ClaimsOf;
    ReachableIsValid(steps);
    var t := Run(EmptyTables, steps);
    if id in t.packets {
      SharesExactHere(t, id);
    }
  }

  /** An expired packet has exactly one refund row, of exactly what was left; a packet that is not expired has none. */
  lemma OneRefundPerExpiredPacket(steps: seq<Step>, id: string)
    ensures var t := Run(EmptyTables, steps);
            id in t.packets ==>
              var p := t.packets[id];
              if p.status == Expired then
                exists i | 0 <= i < |t.ledger| ::
                  && IsRefundOf(t.ledger[i], p.sender, id) && t.ledger[i].amount == p.remainingAmount
                  && forall j | 0 <= j < |t.ledger| && j != i :: !IsRefundOf(t.ledger[j], p.sender, id)
              else !Booked(t, p.sender, RedPacketRefund, id)
  {
    hide BalancesMatch, RunningBalances, PacketsMatch, Conserved;
    ReachableIsValid(steps);
    var t := Run(EmptyTables, steps);
    if id in t.packets {
      var p := t.packets[id];
      if p.status == Expired {
        var e :| e in t.ledger && SameKey(e, p.sender, RedPacketRefund, id);
        var i :| 0 <= i < |t.ledger| && t.ledger[i] == e;
        assert Backed(t, t.ledger[i]);
        forall j | 0 <= j < |t.ledger| && j != i ensures !IsRefundOf(t.ledger[j], p.sender, id) {
          if j < i { assert !SameKey(t.ledger[i], t.ledger[j].user, t.ledger[j].business, t.ledger[j].businessId); }
        }
      } else {
        NotYetBooked(t, p.sender, RedPacketRefund, id);
      }
    }
  }

  /** In every reachable state the branches kept for the impossible stay untaken. */
  lemma ImpossibleErrors(steps: seq<Step>, id: string, user: string, now: nat)
    ensures var t := Run(EmptyTables, steps);
            && ClaimTx(t, id, user, now).1 != Failure(InvalidClaimAmount)
            && ClaimTx(t, id, user, now).1 != Failure(DuplicateLedger)
            && RefundExpiredTx(t, id, user, now).1 != Failure(MissingRefundLedger)
            && RefundExpiredTx(t, id, user, now).1 != Failure(DuplicateLedger)
  {
    ReachableIsValid(steps);
    ClaimKeeps(Run(EmptyTables, steps), id, user, now);
    RefundExpiredKeeps(Run(EmptyTables, steps), id, user, now);
  }

  // ---------- repeated requests ----------

  lemma MoveExtends(t: Tables, user: string, direction: Direction, amount: int, business: Business, id: string,
      now: int)
    ensures var r := Move(t, user, direction, amount, business, id, now);
            r.Success? ==> r.value == t.(balances := r.value.balances, ledger := r.value.ledger)
  {
  }

  lemma ShareExtends(t: Tables, id: string, user: string, amount: int, now: int)
    requires id in t.packets && t.packets[id].status == Active
    ensures Extends(t, TakeShare(t, id, user, amount, now).0)
  {
    hide Move;
    var taken := t.(claims := t.claims[id := ClaimsOf(t, id)[user := amount]],
                    packets := t.packets[id := WithoutShare(t.packets[id], amount)]);
    MoveExtends(taken, user, Credit, amount, RedPacketClaim, id, now);
  }

  lemma RefundExtends(t: Tables, id: string, now: int)
    requires id in t.packets && t.packets[id].status == Active
    ensures var r := RefundRemainder(t, id, now); r.Success? ==> Extends(t, r.value.0)
  {
    hide Move;
    MoveExtends(t, t.packets[id].sender, Credit, t.packets[id].remainingAmount, RedPacketRefund, id, now);
  }

  lemma ClaimExtends(t: Tables, id: string, user: string, now: int)
    ensures Extends(t, ClaimTx(t, id, user, now).0)
  {
    hide NextEqualClaimAmount, TakeShare, RefundRemainder;
    if id in t.packets && t.packets[id].status == Active {
      ShareExtends(t, id, user, NextEqualClaimAmount(t.packets[id]), now);
      RefundExtends(t, id, now);
    }
  }

  lemma StepExtends(t: Tables, s: Step)
    ensures Extends(t, Apply(t, s))
  {
    hide Move, ClaimTx, RefundRemainder;
    match s
    case Recharge(user, request, order, now) =>
      MoveExtends(t.(orders := t.orders[(user, request) := order]), user, Credit, order.amount, MockRecharge,
        request, now);
    case Create(id, sender, conversation, toType, total, count, expiresAt, now) =>
      MoveExtends(t, sender, Debit, total, RedPacketSend, id, now);
    case Claim(id, user, now) =>
      ClaimExtends(t, id, user, now);
    case RefundExpired(id, sender, now) =>
      if id in t.packets && t.packets[id].status == Active { RefundExtends(t, id, now); }
  }

  lemma {:induction false} RunExtends(t: Tables, steps: seq<Step>)
    ensures Extends(t, Run(t, steps))
    decreases steps
  {
    hide Apply;
    if |steps| > 0 {
      StepExtends(t, steps[0]);
      RunExtends(Apply(t, steps[0]), steps[1..]);
    }
  }

  /** Once a request is paid, any later repetition is refused by its key and changes nothing. */
  lemma RechargeOnlyOnce(t: Tables, user: string, request: string, order: Order, later: seq<Step>, again: Order,
      now: int)
    requires (user, request) in t.orders && t.orders[(user, request)] == order
    ensures var u := Run(t, later);
            && (user, request) in u.orders && u.orders[(user, request)] == order
            && RechargeTx(u, user, request, again, now) == (u, Failure(DuplicateOrder))
  {
    RunExtends(t, later);
  }

  lemma ClaimRefused(t: Tables, id: string, user: string, now: nat)
    requires user in ClaimsOf(t, id)
    ensures ClaimTx(t, id, user, now).1.Failure?
    ensures ClaimsOf(ClaimTx(t, id, user, now).0, id) == ClaimsOf(t, id)
  {
    hide NextEqualClaimAmount;
  }

  /** A user who has a share of a packet never gets a second one, whatever happens in between. */
  lemma ClaimOnlyOnce(steps: seq<Step>, id: string, user: string, later: seq<Step>, now: nat)
    requires user in ClaimsOf(Run(EmptyTables, steps), id)
    ensures var u := Run(Run(EmptyTables, steps), later);
            && user in ClaimsOf(u, id) && ClaimsOf(u, id)[user] == ClaimsOf(Run(EmptyTables, steps), id)[user]
            && ClaimTx(u, id, user, now).1.Failure?
            && ClaimsOf(ClaimTx(u, id, user, now).0, id) == ClaimsOf(u, id)
  {
    hide Apply, BooksOk, PacketsMatch, LedgerMatches, Conserved, Run;
    RunExtends(Run(EmptyTables, steps), later);
    ClaimRefused(Run(Run(EmptyTables, steps), later), id, user, now);
  }
}
