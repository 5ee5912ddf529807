/**
 The wallet and red-packet tables, and each transaction over them as a function.
 A transaction either returns new tables or leaves them as they were (rollback).
 */
module Money {
  import opened Wrappers

  datatype Direction = Credit | Debit

  datatype Business = MockRecharge | RedPacketSend | RedPacketClaim | RedPacketRefund

  /** A row of wallet_ledger; (user, business, businessId) is a unique key. */
  datatype Entry = Entry(user: string, direction: Direction, amount: int, business: Business,
                         businessId: string, balanceAfter: int, createdAt: int)

  datatype Order = Order(orderId: string, channel: string, amount: int)

  datatype Status = Active | Finished | Expired

  datatype Packet = Packet(sender: string, totalAmount: int, totalCount: int,
                           remainingAmount: int, remainingCount: int, status: Status, expiresAt: int)

  datatype Refund = Refund(amount: int, balance: int, refundedAt: int, alreadyDone: bool)

  datatype Tables = Tables(
    balances: map<string, int>,
    ledger: seq<Entry>,
    orders: map<(string, string), Order>,      // by (user, request id)
    packets: map<string, Packet>,
    claims: map<string, map<string, int>>)     // by packet id, then user

  datatype Error =
    | Invalid | InsufficientBalance | NotFound | AlreadyClaimed(amount: int) | PacketFinished | PacketExpired
    | NotExpired | NotSender | InvalidClaimAmount | MissingRefundLedger
    | DuplicatePacket | DuplicateOrder | DuplicateLedger | AccountMissing | RequestReused

  const EmptyTables := Tables(map[], [], map[], map[], map[])

  /** Who claimed what from one packet. */
  function ClaimsOf(t: Tables, id: string): map<string, int>
  {
    if id in t.claims then t.claims[id] else map[]
  }

  const DEFAULT_TTL := 86_400_000
  const MAX_COUNT := 1000
  const MAX_RECHARGE := 1_000_000

  // ---------- wallet ----------

  function LockWallet(t: Tables, user: string): Tables
  {
    if user in t.balances then t else t.(balances := t.balances[user := 0])
  }

  predicate SameKey(e: Entry, user: string, business: Business, id: string)
  {
    e.user == user && e.business == business && e.businessId == id
  }

  predicate Booked(t: Tables, user: string, business: Business, id: string)
  {
    exists e | e in t.ledger :: SameKey(e, user, business, id)
  }

  function PostEntry(t: Tables, e: Entry): Result<Tables, Error>
  {
    if e.balanceAfter < 0 || e.amount <= 0 then Failure(InsufficientBalance)
    else if e.user !in t.balances then Failure(AccountMissing)
    else if Booked(t, e.user, e.business, e.businessId) then Failure(DuplicateLedger)
    else Success(t.(balances := t.balances[e.user := e.balanceAfter], ledger := t.ledger + [e]))
  }

  /** The ledger row a movement appends: it stores the balance the locked wallet will have. */
  function NewRow(t: Tables, user: string, direction: Direction, amount: int,
                  business: Business, id: string, now: int): Entry
  {
    var before := LockWallet(t, user).balances[user];
    var after := if direction == Credit then before + amount else before - amount;
    Entry(user, direction, amount, business, id, after, now)
  }

  /** Lock the wallet, move amount in or out of it and append the ledger row. */
  function Move(t: Tables, user: string, direction: Direction, amount: int,
                business: Business, id: string, now: int): Result<Tables, Error>
  {
    PostEntry(LockWallet(t, user), NewRow(t, user, direction, amount, business, id, now))
  }

  function NormalChannel(channel: string): string
  {
    if channel == "wechat" then "mock_wechat" else if channel == "alipay" then "mock_alipay" else channel
  }

  predicate ValidRecharge(user: string, request: string, channel: string, amount: int)
  {
    && user != "" && request != "" && |request| <= 128
    && (channel == "mock_wechat" || channel == "mock_alipay")
    && 0 < amount <= MAX_RECHARGE
  }

  /** The recharge transaction; the unique (user, request) key makes a second one fail. */
  function RechargeTx(t: Tables, user: string, request: string, order: Order, now: int): (Tables, Result<Order, Error>)
  {
    if (user, request) in t.orders then (t, Failure(DuplicateOrder))
    else
      var placed := t.(orders := t.orders[(user, request) := order]);
      match Move(placed, user, Credit, order.amount, MockRecharge, request, now)
      case Success(paid) => (paid, Success(order))
      case Failure(e) => (t, Failure(e))
  }

  // ---------- red packets ----------

  function NextEqualClaimAmount(p: Packet): int
  {
    if p.totalCount <= 0 || p.remainingCount <= 0 then 0
    else if p.remainingCount == 1 then p.remainingAmount
    else
      var base := p.totalAmount / p.totalCount;
      var remainder := p.totalAmount % p.totalCount;
      if p.totalCount - p.remainingCount < remainder then base + 1 else base
  }

  predicate ValidCreate(sender: string, conversation: string, toType: string,
                        total: int, count: int, expiresAt: int, now: int)
  {
    && sender != "" && conversation != ""
    && (toType == "user" || toType == "group")
    && 0 < total && 0 < count && count <= total && count <= MAX_COUNT
    && now < ExpiryOf(expiresAt, now)
  }

  function ExpiryOf(expiresAt: int, now: int): int
  {
    if expiresAt <= 0 then now + DEFAULT_TTL else expiresAt
  }

  function CreateTx(t: Tables, id: string, sender: string, total: int, count: int, expiresAt: int, now: int)
    : (Tables, Result<Packet, Error>)
  {
    if LockWallet(t, sender).balances[sender] < total then (t, Failure(InsufficientBalance))
    else
      match Move(t, sender, Debit, total, RedPacketSend, id, now)
      case Failure(e) => (t, Failure(e))
      case Success(debited) =>
        if id in debited.packets then (t, Failure(DuplicatePacket))
        else
          var packet := Packet(sender, total, count, total, count, Active, expiresAt);
          (debited.(packets := debited.packets[id := packet]), Success(packet))
  }

  function RefundRemainder(t: Tables, id: string, now: int): Result<(Tables, Refund), Error>
    requires id in t.packets
  {
    var p := t.packets[id];
    var expired := p.(status := Expired);
    if p.remainingAmount > 0 then
      match Move(t, p.sender, Credit, p.remainingAmount, RedPacketRefund, id, now)
      case Failure(e) => Failure(e)
      case Success(credited) =>
        Success((credited.(packets := t.packets[id := expired]),
                 Refund(p.remainingAmount, credited.balances[p.sender], now, false)))
    else
      Success((t.(packets := t.packets[id := expired]), Refund(p.remainingAmount, 0, now, false)))
  }

  function ClaimTx(t: Tables, id: string, user: string, now: int): (Tables, Result<int, Error>)
  {
    if id !in t.packets then (t, Failure(NotFound))
    else
      var p := t.packets[id];
      if p.status == Expired then (t, Failure(PacketExpired))
      else if p.status != Active then (t, Failure(PacketFinished))
      else if p.expiresAt > 0 && p.expiresAt <= now then
        match RefundRemainder(t, id, now)
        case Success(done) => (done.0, Failure(PacketExpired))
        case Failure(e) => (t, Failure(e))
      else if p.remainingCount <= 0 || p.remainingAmount <= 0 then
        (t.(packets := t.packets[id := p.(status := Finished)]), Failure(PacketFinished))
      else
        TakeShare(t, id, user, NextEqualClaimAmount(p), now)
  }

  function WithoutShare(p: Packet, amount: int): Packet
  {
    p.(remainingAmount := p.remainingAmount - amount, remainingCount := p.remainingCount - 1,
       status := if p.remainingCount == 1 || p.remainingAmount == amount then Finished else Active)
  }

  function TakeShare(t: Tables, id: string, user: string, amount: int, now: int): (Tables, Result<int, Error>)
    requires id in t.packets
  {
    var p := t.packets[id];
    if amount <= 0 || amount > p.remainingAmount then (t, Failure(InvalidClaimAmount))
    else if user in ClaimsOf(t, id) then (t, Failure(AlreadyClaimed(ClaimsOf(t, id)[user])))
    else
      var taken := t.(claims := t.claims[id := ClaimsOf(t, id)[user := amount]],
                      packets := t.packets[id := WithoutShare(p, amount)]);
      match Move(taken, user, Credit, amount, RedPacketClaim, id, now)
      case Success(paid) => (paid, Success(amount))
      case Failure(e) => (t, Failure(e))
  }

  /** Any ledger row that records a refund of this packet to its sender. */
  predicate IsRefundOf(e: Entry, sender: string, id: string)
  {
    SameKey(e, sender, RedPacketRefund, id)
  }

  function RefundExpiredTx(t: Tables, id: string, sender: string, now: int): (Tables, Result<Refund, Error>)
  {
    if id !in t.packets then (t, Failure(NotFound))
    else
      var p := t.packets[id];
      if p.sender != sender then (t, Failure(NotSender))
      else if p.status == Finished then (t, Failure(PacketFinished))
      else if p.status == Expired then (t, LoadRefund(t.ledger, sender, id))
      else if p.expiresAt <= 0 || p.expiresAt > now then (t, Failure(NotExpired))
      else
        match RefundRemainder(t, id, now)
        case Success(done) => (done.0, Success(done.1))
        case Failure(e) => (t, Failure(e))
  }

  function LoadRefund(ledger: seq<Entry>, sender: string, id: string): Result<Refund, Error>
  {
    if |ledger| == 0 then Failure(MissingRefundLedger)
    else if IsRefundOf(ledger[0], sender, id) then
      Success(Refund(ledger[0].amount, ledger[0].balanceAfter, ledger[0].createdAt, true))
    else LoadRefund(ledger[1..], sender, id)
  }

  // ---------- runs ----------

  /** One committed (or rolled-back) transaction; every interleaving is a sequence of these. */
  datatype Step =
    | Recharge(user: string, request: string, order: Order, now: nat)
    | Create(id: string, sender: string, conversation: string, toType: string,
             total: int, count: int, expiresAt: int, now: nat)
    | Claim(id: string, user: string, now: nat)
    | RefundExpired(id: string, sender: string, now: nat)

  function Apply(t: Tables, s: Step): Tables
  {
    match s
    case Recharge(user, request, order, now) =>
      if ValidRecharge(user, request, order.channel, order.amount) then RechargeTx(t, user, request, order, now).0
        else t
    case Create(id, sender, conversation, toType, total, count, expiresAt, now) =>
      if ValidCreate(sender, conversation, toType, total, count, expiresAt, now)
      then CreateTx(t, id, sender, total, count, ExpiryOf(expiresAt, now), now).0 else t
    case Claim(id, user, now) =>
      if id != "" && user != "" then ClaimTx(t, id, user, now).0 else t
    case RefundExpired(id, sender, now) =>
      if id != "" && sender != "" then RefundExpiredTx(t, id, sender, now).0 else t
  }

  function Run(t: Tables, steps: seq<Step>): Tables
    decreases steps
  {
    if |steps| == 0 then t else Run(Apply(t, steps[0]), steps[1..])
  }
}
