/**
 The wallet and red-packet services as the source writes them: methods over mutable tables, statement by statement,
 with an explicit rollback. Each is proved to do exactly the transaction function of module Money.
 `between` lists the transactions other callers commit after a method's unlocked pre-check and before its transaction.
 */
module MoneyStore {
  import opened Wrappers
  import opened Money
  import opened MoneyInvariant
  import opened MoneyOutcomes

  class Database {
    var balances: map<string, int>
    var ledger: seq<Entry>
    var orders: map<(string, string), Order>
    var packets: map<string, Packet>
    var claims: map<string, map<string, int>>

    function State(): Tables
      reads this
    {
      Tables(balances, ledger, orders, packets, claims)
    }

    constructor ()
      ensures State() == EmptyTables
    {
      balances, ledger, orders, packets, claims := map[], [], map[], map[], map[];
    }

    /** Undo everything since `saved` was taken. */
    method Rollback(saved: Tables)
      modifies this
      ensures State() == saved
    {
      balances, ledger, orders, packets, claims :=
        saved.balances, saved.ledger, saved.orders, saved.packets, saved.claims;
    }

    method OtherTransactions(steps: seq<Step>)
      modifies this
      ensures State() == Run(old(State()), steps)
    {
      var i := 0;
      ghost var start := State();
      while i < |steps|
        invariant 0 <= i <= |steps|
        invariant Run(State(), steps[i..]) == Run(start, steps)
      {
        assert steps[i..][1..] == steps[i + 1..];
        Rollback(Apply(State(), steps[i]));
        i := i + 1;
      }
    }

    method LockWallet(user: string) returns (balance: int)
      modifies this
      ensures State() == Money.LockWallet(old(State()), user)
      ensures user in balances && balance == balances[user]
    {
      if user !in balances {
        balances := balances[user := 0];
      }
      balance := balances[user];
    }

    method UpdateWalletAndLedger(e: Entry) returns (error: Option<Error>)
      modifies this
      ensures match PostEntry(old(State()), e)
              case Success(t) => error == None && State() == t
              case Failure(f) => error == Some(f)
    {
      if e.balanceAfter < 0 || e.amount <= 0 {
        return Some(InsufficientBalance);
      }
      if e.user !in balances {
        return Some(AccountMissing);
      }
      balances := balances[e.user := e.balanceAfter];
      if exists r | r in ledger :: SameKey(r, e.user, e.business, e.businessId) {
        return Some(DuplicateLedger);
      }
      ledger := ledger + [e];
      return None;
    }

    /** Lock, add or subtract, and post: the sequence every money movement repeats. */
    method MoveMoney(user: string, direction: Direction, amount: int, business: Business, id: string, now: int)
      returns (error: Option<Error>, balance: int)
      modifies this
      ensures match Move(old(State()), user, direction, amount, business, id, now)
              case Success(t) => error == None && State() == t && user in balances && balance == balances[user]
              case Failure(f) => error == Some(f)
    {
      balance := LockWallet(user);
      if direction == Credit {
        balance := balance + amount;
      } else {
        balance := balance - amount;
      }
      error := UpdateWalletAndLedger(Entry(user, direction, amount, business, id, balance, now));
    }
  }

  class WalletService {
    const DB: Database

    constructor (db: Database)
      ensures DB == db
    {
      DB := db;
    }

    method RechargeOnce(user: string, request: string, order: Order, now: int) returns (r: Result<Order, Error>)
      modifies DB
      ensures (DB.State(), r) == RechargeTx(old(DB.State()), user, request, order, now)
    {
      var saved := DB.State();
      if (user, request) in DB.orders {
        return Failure(DuplicateOrder);
      }
      DB.orders := DB.orders[(user, request) := order];
      var error, _ := DB.MoveMoney(user, Credit, order.amount, Business.MockRecharge, request, now);
      if error.Some? {
        DB.Rollback(saved);
        return Failure(error.value);
      }
      return Success(order);
    }

    /**
     Pay, or return the order an earlier call with the same request id paid. When another caller's order wins the
     race between the look-up and the insert, the method starts again and then finds that order.
     */
    method MockRecharge(user: string, request: string, channel: string, amount: int, orderId: string, now: int,
        between: seq<Step>)
      returns (r: Result<(Order, bool), Error>)
      requires Valid(DB.State())
      modifies DB
      decreases if (user, request) in DB.orders then 0 else 1
      ensures !ValidRecharge(user, request, NormalChannel(channel), amount) ==>
                r == Failure(Invalid) && DB.State() == old(DB.State())
      ensures ValidRecharge(user, request, NormalChannel(channel), amount) ==>
                var before := old(DB.State());
                var order := Order(orderId, NormalChannel(channel), amount);
                var raced := if (user, request) in before.orders then before else Run(before, between);
                if (user, request) in raced.orders then
                  var paid := raced.orders[(user, request)];
                  && DB.State() == raced
                  && r == if paid.amount == amount && paid.channel == NormalChannel(channel) then Success((paid, true))
                          else Failure(RequestReused)
                else
                  && r == Success((order, false))
                  && (DB.State(), Success(order)) == RechargeTx(raced, user, request, order, now)
    {
      var normal := NormalChannel(channel);
      if !ValidRecharge(user, request, normal, amount) {
        return Failure(Invalid);
      }
      if (user, request) in DB.orders {
        var existing := DB.orders[(user, request)];
        if existing.amount != amount || existing.channel != normal {
          return Failure(RequestReused);
        }
        return Success((existing, true));
      }
      RunKeeps(DB.State(), between);
      DB.OtherTransactions(between);
      var order := Order(orderId, normal, amount);
      RechargeKeeps(DB.State(), user, request, order, now);
      var paid := RechargeOnce(user, request, order, now);
      match paid {
        case Success(_) => return Success((order, false));
        case Failure(_) => r := MockRecharge(user, request, channel, amount, orderId, now, []);
      }
    }
  }

  class RedPacketService {
    const DB: Database

    constructor (db: Database)
      ensures DB == db
    {
      DB := db;
    }

    method Create(id: string, sender: string, conversation: string, toType: string,
                  total: int, count: int, expiresAt: int, now: nat) returns (r: Result<Packet, Error>)
      modifies DB
      ensures if ValidCreate(sender, conversation, toType, total, count, expiresAt, now)
              then (DB.State(), r) == CreateTx(old(DB.State()), id, sender, total, count, ExpiryOf(expiresAt, now), now)
              else r == Failure(Invalid) && DB.State() == old(DB.State())
    {
      if sender == "" || conversation == "" || (toType != "user" && toType != "group") {
        return Failure(Invalid);
      }
      if total <= 0 || count <= 0 || total < count || count > MAX_COUNT {
        return Failure(Invalid);
      }
      var expiry := expiresAt;
      if expiry <= 0 {
        expiry := now + DEFAULT_TTL;
      }
      if expiry <= now {
        return Failure(Invalid);
      }
      var saved := DB.State();
      var balance := DB.LockWallet(sender);
      if balance < total {
        DB.Rollback(saved);
        return Failure(InsufficientBalance);
      }
      balance := balance - total;
      var error := DB.UpdateWalletAndLedger(Entry(sender, Debit, total, RedPacketSend, id, balance, now));
      if error.Some? {
        DB.Rollback(saved);
        return Failure(error.value);
      }
      if id in DB.packets {
        DB.Rollback(saved);
        return Failure(DuplicatePacket);
      }
      var packet := Packet(sender, total, count, total, count, Active, expiry);
      DB.packets := DB.packets[id := packet];
      return Success(packet);
    }

    method RefundRemainder(id: string, now: int) returns (r: Result<Refund, Error>)
      requires id in DB.packets
      modifies DB
      ensures match Money.RefundRemainder(old(DB.State()), id, now)
              case Success(done) => r == Success(done.1) && DB.State() == done.0
              case Failure(e) => r == Failure(e)
    {
      var packet := DB.packets[id];
      var refund := Refund(packet.remainingAmount, 0, now, false);
      if packet.remainingAmount > 0 {
        var error, balance := DB.MoveMoney(packet.sender, Credit, packet.remainingAmount, RedPacketRefund, id, now);
        if error.Some? {
          return Failure(error.value);
        }
        refund := refund.(balance := balance);
      }
      DB.packets := DB.packets[id := packet.(status := Expired)];
      return Success(refund);
    }

    method Claim(id: string, user: string, now: int, between: seq<Step>) returns (r: Result<int, Error>)
      modifies DB
      ensures id == "" || user == "" ==> r == Failure(Invalid) && DB.State() == old(DB.State())
      ensures id != "" && user != "" ==>
                if user in ClaimsOf(old(DB.State()), id)
                then r == Failure(AlreadyClaimed(ClaimsOf(old(DB.State()), id)[user])) && DB.State() == old(DB.State())
                else (DB.State(), r) == ClaimTx(Run(old(DB.State()), between), id, user, now)
      ensures id != "" && user != "" && Valid(old(DB.State())) ==>
                var t := Run(old(DB.State()), between);
                r.Success? <==>
                  && user !in ClaimsOf(old(DB.State()), id) && id in t.packets && t.packets[id].status == Active
                  && now < t.packets[id].expiresAt && user !in ClaimsOf(t, id)
    {
      if id == "" || user == "" {
        return Failure(Invalid);
      }
      if id in DB.claims && user in DB.claims[id] {
        return Failure(AlreadyClaimed(DB.claims[id][user]));
      }
      if Valid(DB.State()) {
        RunKeeps(DB.State(), between);
        ClaimOutcome(Run(DB.State(), between), id, user, now);
      }
      DB.OtherTransactions(between);
      r := ClaimLocked(id, user, now);
    }

    method ClaimLocked(id: string, user: string, now: int) returns (r: Result<int, Error>)
      modifies DB
      ensures (DB.State(), r) == ClaimTx(old(DB.State()), id, user, now)
    {
      var saved := DB.State();
      if id !in DB.packets {
        return Failure(NotFound);
      }
      var packet := DB.packets[id];
      if packet.status == Expired {
        return Failure(PacketExpired);
      }
      if packet.status != Active {
        return Failure(PacketFinished);
      }
      if packet.expiresAt > 0 && packet.expiresAt <= now {
        var refund := RefundRemainder(id, now);
        if refund.Failure? {
          DB.Rollback(saved);
          return Failure(refund.error);
        }
        return Failure(PacketExpired);
      }
      if packet.remainingCount <= 0 || packet.remainingAmount <= 0 {
        DB.packets := DB.packets[id := packet.(status := Finished)];
        return Failure(PacketFinished);
      }
      r := TakeShare(id, user, NextEqualClaimAmount(packet), now);
    }

    method TakeShare(id: string, user: string, amount: int, now: int) returns (r: Result<int, Error>)
      requires id in DB.packets
      modifies DB
      ensures (DB.State(), r) == Money.TakeShare(old(DB.State()), id, user, amount, now)
    {
      var saved := DB.State();
      var packet := DB.packets[id];
      if amount <= 0 || amount > packet.remainingAmount {
        return Failure(InvalidClaimAmount);
      }
      var taken := if id in DB.claims then DB.claims[id] else map[];
      if user in taken {
        return Failure(AlreadyClaimed(taken[user]));
      }
      DB.claims := DB.claims[id := taken[user := amount]];
      var nextStatus := Active;
      if packet.remainingCount == 1 || packet.remainingAmount == amount {
        nextStatus := Finished;
      }
      DB.packets := DB.packets[id := packet.(remainingAmount := packet.remainingAmount - amount,
                                             remainingCount := packet.remainingCount - 1, status := nextStatus)];
      var error, _ := DB.MoveMoney(user, Credit, amount, RedPacketClaim, id, now);
      if error.Some? {
        DB.Rollback(saved);
        return Failure(error.value);
      }
      return Success(amount);
    }

    method RefundExpired(id: string, sender: string, now: int) returns (r: Result<Refund, Error>)
      modifies DB
      ensures if id == "" || sender == "" then r == Failure(Invalid) && DB.State() == old(DB.State())
              else (DB.State(), r) == RefundExpiredTx(old(DB.State()), id, sender, now)
    {
      if id == "" || sender == "" {
        return Failure(Invalid);
      }
      var saved := DB.State();
      if id !in DB.packets {
        return Failure(NotFound);
      }
      var packet := DB.packets[id];
      if packet.sender != sender {
        return Failure(NotSender);
      }
      if packet.status == Finished {
        return Failure(PacketFinished);
      }
      if packet.status == Expired {
        r := LoadRefund(DB.ledger, sender, id);
        return;
      }
      if packet.expiresAt <= 0 || packet.expiresAt > now {
        return Failure(NotExpired);
      }
      r := RefundRemainder(id, now);
      if r.Failure? {
        DB.Rollback(saved);
      }
    }
  }
}
