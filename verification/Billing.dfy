/**
 * Settlement of orders: payment and refund compute everything first and then commit wallet,
 * order, subscription, entitlements, idempotency indexes, frozen result and outbox row in one step.
 *
 * Orders, settlements and wallet transactions are never removed, so each is named by its position.
 */
module Billing {
  import opened Prelude
  import A = SkillAccess
  import O = BillingOutbox

  // ---------------------------------------------------------------- records

  datatype OrderKind = PackPlan | SkillPlan | Recharge
  datatype OrderStatus = Unpaid | Paid | Refunded | Dropped
  /** `Unknown` is a payment method outside the three the store accepts. */
  datatype Method = Balance | Mock | Provider | Unknown

  datatype Order = Order(
    userId: string, kind: OrderKind, packId: string, planId: string, tenantId: string, period: Option<A.Period>,
    amount: nat, status: OrderStatus, payMethod: Option<Method>, paidAt: Option<int>, refundedAt: Option<int>)

  datatype TxnKind = RechargeTxn | PurchaseTxn | RefundTxn | AdjustTxn

  datatype Txn = Txn(userId: string, kind: TxnKind, amount: int, balanceAfter: int, order: Option<nat>, settlement: Option<nat>)

  datatype Operation = Payment | Refund

  datatype Settlement = Settlement(
    order: nat, operation: Operation, key: string, hash: string, payMethod: Option<Method>, providerRef: Option<string>,
    amount: nat, createdAt: int)

  datatype Result = Result(
    replayed: bool, settlement: Settlement, order: Order, txn: Option<Txn>, subscription: Option<A.Subscription>,
    entitlements: seq<A.Entitlement>, outbox: O.Row)

  datatype Error =
    | IdempotencyConflict | InvalidPaymentMethod | FulfillmentInvalid | OrderNotFound | OrderNotPending
    | RechargeBalanceForbidden | InsufficientBalance | RechargeRefundForbidden | OrderNotPaid | NeedsReconciliation

  datatype Outcome = Settled(result: Result) | Refused(error: Error)

  datatype Ledger = Ledger(users: map<string, int>, orders: seq<Order>, txns: seq<Txn>)

  datatype OrderOp = OrderOp(order: nat, operation: Operation)
  datatype OpKey = OpKey(operation: Operation, key: string)

  datatype Books = Books(
    settlements: seq<Settlement>, results: seq<Result>, byOrder: map<OrderOp, nat>, byKey: map<OpKey, nat>)

  datatype State = State(ledger: Ledger, books: Books, outbox: O.State, access: A.State, subByOrder: map<nat, nat>)

  // ---------------------------------------------------------------- replay

  datatype ReplayOutcome = New | Clash | Replay(settlement: nat)

  /** `billingSettlementReplay`: an unused order and key, an exact replay, or a conflict. */
  function Lookup(b: Books, op: Operation, order: nat, key: string, hash: string, payMethod: Option<Method>,
                  providerRef: Option<string>): (r: ReplayOutcome)
    ensures r.Replay? ==> r.settlement < |b.results|
  {
    if key == "" || hash == "" then Clash
    else
      var o, k := OrderOp(order, op), OpKey(op, key);
      if o !in b.byOrder && k !in b.byKey then New
      else if o !in b.byOrder || k !in b.byKey || b.byOrder[o] != b.byKey[k] then Clash
      else
        var i := b.byOrder[o];
        if i >= |b.settlements| || i >= |b.results| then Clash
        else
          var t := b.settlements[i];
          if t.order != order || t.operation != op || t.key != key || t.hash != hash || t.providerRef != providerRef ||
             (op == Payment && t.payMethod != payMethod)
          then Clash
          else Replay(i)
  }

  // ---------------------------------------------------------------- payment

  /** `paidAt` of None does not parse; `at` is the commit clock and `uid` the outbox identifier. */
  datatype PayRequest = PayRequest(
    order: nat, userId: string, payMethod: Method, providerRef: Option<string>, key: string, hash: string,
    paidAt: Option<int>, at: int, uid: int)

  predicate RefChar(c: char) {
    'A' <= c <= 'Z' || 'a' <= c <= 'z' || '0' <= c <= '9' || c == '.' || c == '_' || c == ':' || c == '/' || c == '-'
  }

  predicate ValidRef(r: Option<string>) {
    && r.Some? && 1 <= |r.value| <= 256
    && RefChar(r.value[0]) && r.value[0] !in "._:/-"
    && forall i :: 0 <= i < |r.value| ==> RefChar(r.value[i])
  }

  /** Wallet movement of a payment: a recharge credits, a balance payment debits, anything else moves nothing. */
  function Delta(order: Order, payMethod: Method): int {
    var amount: int := order.amount;
    if order.kind == Recharge then amount else if payMethod == Balance then -amount else 0
  }

  function PayTxnKind(order: Order, payMethod: Method): Option<TxnKind> {
    if order.kind == Recharge then Some(RechargeTxn) else if payMethod == Balance then Some(PurchaseTxn) else None
  }

  const DAY_MS := 86_400_000

  function Expiry(paidAt: int, period: A.Period): int {
    paidAt + (if period == A.Monthly then 31 else 366) * DAY_MS
  }

  /** The subscription an earlier, unfinished fulfilment of this order left behind. */
  function ExistingSub(s: State, o: nat): (r: Option<nat>)
    ensures r.Some? ==> r.value < |s.access.subscriptions|
  {
    if o in s.subByOrder && s.subByOrder[o] < |s.access.subscriptions| then Some(s.subByOrder[o]) else None
  }

  predicate SubFits(sub: A.Subscription, order: Order) {
    && sub.userId == order.userId && sub.tenantId == order.tenantId && sub.planId == order.planId
    && order.period == Some(sub.period) && sub.status != A.Refunded
  }

  function FulfilProblem(s: State, o: nat, order: Order): Option<Error> {
    match order.kind
    case Recharge => None
    case PackPlan => if order.packId == "" || order.period.None? then Some(FulfillmentInvalid) else None
    case SkillPlan =>
      if order.planId == "" || order.tenantId == "" || order.period.None? || order.planId !in s.access.plans
      then Some(FulfillmentInvalid)
      else
        var existing := ExistingSub(s, o);
        if existing.Some? && !SubFits(s.access.subscriptions[existing.value], order) then Some(FulfillmentInvalid) else None
  }

  /** The first check a new payment fails, in the order the store makes them. */
  function PayProblem(s: State, p: PayRequest): Option<Error> {
    if p.payMethod == Unknown then Some(InvalidPaymentMethod)
    else if p.payMethod == Provider && !ValidRef(p.providerRef) then Some(FulfillmentInvalid)
    else if p.order >= |s.ledger.orders| || s.ledger.orders[p.order].userId != p.userId then Some(OrderNotFound)
    else
      var order := s.ledger.orders[p.order];
      if order.status != Unpaid then Some(OrderNotPending)
      else if order.kind == Recharge && p.payMethod == Balance then Some(RechargeBalanceForbidden)
      else if order.userId !in s.ledger.users then Some(OrderNotFound)
      else if p.paidAt.None? then Some(FulfillmentInvalid)
      else if s.ledger.users[order.userId] + Delta(order, p.payMethod) < 0 then Some(InsufficientBalance)
      else FulfilProblem(s, p.order, order)
  }

  /** An empty reference is not recorded. */
  function Recorded(r: Option<string>): Option<string> {
    if r == Some("") then None else r
  }

  // ---------------------------------------------------------------- what a settlement writes

  /** The entitlement of one Skill of the plan: the existing row revived, or a new one. */
  function NewEntitlement(id: nat, sub: A.Subscription, skillId: string, at: int): A.Entitlement {
    A.Entitlement(id, sub.tenantId, sub.userId, skillId, sub.planId, A.Granted, sub.expiresAt, at)
  }

  function StagedEntitlement(es: seq<A.Entitlement>, id: nat, sub: A.Subscription, skillId: string, at: int): A.Entitlement {
    var found := A.FindScope(es, id, skillId, sub.planId);
    if found.Some? then
      es[found.value].(tenantId := sub.tenantId, userId := sub.userId, status := A.Granted, expiresAt := sub.expiresAt)
    else NewEntitlement(id, sub, skillId, at)
  }

  /** Write one staged entitlement over the row it came from, or at the end. */
  function WriteEntitlement(es: seq<A.Entitlement>, table: seq<A.Entitlement>, id: nat, sub: A.Subscription,
                            skillId: string, at: int): (r: seq<A.Entitlement>)
    requires |es| <= |table|
    ensures |table| <= |r|
  {
    var found := A.FindScope(es, id, skillId, sub.planId);
    var e := StagedEntitlement(es, id, sub, skillId, at);
    if found.Some? then table[found.value := e] else table + [e]
  }

  function WriteEntitlements(es: seq<A.Entitlement>, skills: seq<string>, id: nat, sub: A.Subscription, at: int)
    : (r: seq<A.Entitlement>)
    ensures |es| <= |r|
  {
    if |skills| == 0 then es
    else
      WriteEntitlement(es, WriteEntitlements(es, skills[..|skills| - 1], id, sub, at), id, sub, skills[|skills| - 1], at)
  }

  function StagedEntitlements(es: seq<A.Entitlement>, skills: seq<string>, id: nat, sub: A.Subscription, at: int)
    : (r: seq<A.Entitlement>)
    ensures |r| == |skills|
    ensures forall k :: 0 <= k < |skills| ==> r[k] == StagedEntitlement(es, id, sub, skills[k], at)
  {
    seq(|skills|, k requires 0 <= k < |skills| => StagedEntitlement(es, id, sub, skills[k], at))
  }

  function WriteSubscription(subs: seq<A.Subscription>, id: nat, sub: A.Subscription): seq<A.Subscription> {
    if id < |subs| then subs[id := sub] else subs + [sub]
  }

  /** Number and content of the subscription a paid Skill order opens. */
  function OpenedSub(s: State, o: nat, order: Order, paidAt: int, at: int): (nat, A.Subscription)
    requires order.period.Some?
  {
    var expiresAt := Expiry(paidAt, order.period.value);
    var existing := ExistingSub(s, o);
    if existing.Some? then
      (existing.value, s.access.subscriptions[existing.value].(status := A.Active, startsAt := paidAt, expiresAt := expiresAt))
    else
      (|s.access.subscriptions|,
       A.Subscription(order.userId, order.tenantId, order.planId, A.Active, order.period.value, paidAt, expiresAt, o, at))
  }

  function OpenAccess(a: A.State, id: nat, sub: A.Subscription, skills: seq<string>, at: int): A.State {
    a.(subscriptions := WriteSubscription(a.subscriptions, id, sub),
       entitlements := WriteEntitlements(a.entitlements, skills, id, sub, at))
  }

  /** Wallet and order table after a settlement. */
  function Post(l: Ledger, o: nat, order: Order, txn: Option<Txn>): Ledger
    requires o < |l.orders|
  {
    var orders := l.orders[o := order];
    if txn.None? then l.(orders := orders)
    else Ledger(l.users[txn.value.userId := txn.value.balanceAfter], orders, l.txns + [txn.value])
  }

  function File(b: Books, t: Settlement, r: Result): Books {
    Books(b.settlements + [t], b.results + [r], b.byOrder[OrderOp(t.order, t.operation) := |b.settlements|],
          b.byKey[OpKey(t.operation, t.key) := |b.settlements|])
  }

  function NewOutboxRow(s: State, uid: int, at: int): O.Row {
    O.Row(uid, |s.books.settlements|, 0, at, None, None, None, None, None, at)
  }

  /** Everything a settlement commits at once. */
  function Commit(s: State, o: nat, order: Order, txn: Option<Txn>, t: Settlement, r: Result, access: A.State,
                  subByOrder: map<nat, nat>): State
    requires o < |s.ledger.orders|
  {
    State(Post(s.ledger, o, order, txn), File(s.books, t, r), s.outbox.(rows := s.outbox.rows + [r.outbox]), access, subByOrder)
  }

  function PayTxn(s: State, p: PayRequest): Option<Txn>
    requires PayProblem(s, p).None?
  {
    var order := s.ledger.orders[p.order];
    var kind := PayTxnKind(order, p.payMethod);
    if kind.None? then None
    else
      Some(Txn(order.userId, kind.value, Delta(order, p.payMethod), s.ledger.users[order.userId] + Delta(order, p.payMethod),
               Some(p.order), Some(|s.books.settlements|)))
  }

  function PaidOrder(order: Order, p: PayRequest): Order {
    order.(status := Paid, payMethod := Some(p.payMethod), paidAt := p.paidAt)
  }

  function PaySettlement(order: Order, p: PayRequest): Settlement {
    Settlement(p.order, Payment, p.key, p.hash, Some(p.payMethod), Recorded(p.providerRef), order.amount, p.at)
  }

  /** State and result of a payment that passed every check. */
  function PayCommit(s: State, p: PayRequest): (State, Result)
    requires PayProblem(s, p).None?
  {
    var order := s.ledger.orders[p.order];
    var paid, txn, t := PaidOrder(order, p), PayTxn(s, p), PaySettlement(order, p);
    if order.kind == SkillPlan then
      var (id, sub) := OpenedSub(s, p.order, order, p.paidAt.value, p.at);
      var skills := s.access.plans[order.planId].skillIds;
      var r := Result(false, t, paid, txn, Some(sub),
                      StagedEntitlements(s.access.entitlements, skills, id, sub, p.at), NewOutboxRow(s, p.uid, p.at));
      (Commit(s, p.order, paid, txn, t, r, OpenAccess(s.access, id, sub, skills, p.at), s.subByOrder[sub.sourceOrder := id]), r)
    else
      var r := Result(false, t, paid, txn, None, [], NewOutboxRow(s, p.uid, p.at));
      (Commit(s, p.order, paid, txn, t, r, s.access, s.subByOrder), r)
  }

  /** `settleOrderPayment`. */
  function Pay(s: State, p: PayRequest): (State, Outcome) {
    match Lookup(s.books, Payment, p.order, p.key, p.hash, Some(p.payMethod), p.providerRef)
    case Clash => (s, Refused(IdempotencyConflict))
    case Replay(i) => (s, Settled(s.books.results[i].(replayed := true)))
    case New =>
      if PayProblem(s, p).Some? then (s, Refused(PayProblem(s, p).value))
      else
        var (s', r) := PayCommit(s, p);
        (s', Settled(r))
  }

  // ---------------------------------------------------------------- refund

  /** `ambiguousLegacy`: an active pack entitlement of unknown origin on one of the user's devices. */
  datatype RefundRequest = RefundRequest(
    order: nat, providerRef: Option<string>, key: string, hash: string, refundedAt: Option<int>, ambiguousLegacy: bool,
    at: int, uid: int)

  function RefundProblem(s: State, q: RefundRequest): Option<Error> {
    if q.order >= |s.ledger.orders| then Some(OrderNotFound)
    else
      var order := s.ledger.orders[q.order];
      if order.kind == Recharge then Some(RechargeRefundForbidden)
      else if order.status != Paid then Some(OrderNotPaid)
      else if order.userId !in s.ledger.users then Some(OrderNotFound)
      else if q.refundedAt.None? then Some(FulfillmentInvalid)
      else if q.providerRef.Some? && !ValidRef(q.providerRef) then Some(FulfillmentInvalid)
      else if order.kind == PackPlan then
        if order.packId == "" || q.ambiguousLegacy then Some(NeedsReconciliation) else None
      else
        var sub := ExistingSub(s, q.order);
        if sub.None? || s.access.subscriptions[sub.value].userId != order.userId ||
           s.access.subscriptions[sub.value].planId != order.planId
        then Some(NeedsReconciliation)
        else None
  }

  function RevokeAll(es: seq<A.Entitlement>, sub: nat): (r: seq<A.Entitlement>)
    ensures |r| == |es|
    ensures forall i :: 0 <= i < |es| ==> r[i] == if es[i].subscriptionId == sub then A.Revoke(es[i]) else es[i]
  {
    seq(|es|, i requires 0 <= i < |es| => if es[i].subscriptionId == sub then A.Revoke(es[i]) else es[i])
  }

  function RevokedOf(es: seq<A.Entitlement>, sub: nat): seq<A.Entitlement> {
    if |es| == 0 then []
    else
      var last := es[|es| - 1];
      RevokedOf(es[..|es| - 1], sub) + if last.subscriptionId == sub then [A.Revoke(last)] else []
  }

  function CloseAccess(a: A.State, id: nat): A.State
    requires id < |a.subscriptions|
  {
    a.(subscriptions := a.subscriptions[id := a.subscriptions[id].(status := A.Refunded)],
       entitlements := RevokeAll(a.entitlements, id))
  }

  function RefundTxnOf(s: State, q: RefundRequest): Txn
    requires RefundProblem(s, q).None?
  {
    var order := s.ledger.orders[q.order];
    Txn(order.userId, RefundTxn, order.amount, s.ledger.users[order.userId] + order.amount, Some(q.order),
        Some(|s.books.settlements|))
  }

  function RefundSettlement(order: Order, q: RefundRequest): Settlement {
    Settlement(q.order, Refund, q.key, q.hash, if q.providerRef.Some? then Some(Provider) else None, q.providerRef,
               order.amount, q.at)
  }

  function RefundCommit(s: State, q: RefundRequest): (State, Result)
    requires RefundProblem(s, q).None?
  {
    var order := s.ledger.orders[q.order];
    var refunded := order.(status := Refunded, refundedAt := q.refundedAt);
    var txn, t := RefundTxnOf(s, q), RefundSettlement(order, q);
    if order.kind == SkillPlan then
      var id := ExistingSub(s, q.order).value;
      var r := Result(false, t, refunded, Some(txn), Some(s.access.subscriptions[id].(status := A.Refunded)),
                      RevokedOf(s.access.entitlements, id), NewOutboxRow(s, q.uid, q.at));
      (Commit(s, q.order, refunded, Some(txn), t, r, CloseAccess(s.access, id), s.subByOrder), r)
    else
      var r := Result(false, t, refunded, Some(txn), None, [], NewOutboxRow(s, q.uid, q.at));
      (Commit(s, q.order, refunded, Some(txn), t, r, s.access, s.subByOrder), r)
  }

  /** `settleOrderRefund`. */
  function RefundOrder(s: State, q: RefundRequest): (State, Outcome) {
    match Lookup(s.books, Refund, q.order, q.key, q.hash, None, q.providerRef)
    case Clash => (s, Refused(IdempotencyConflict))
    case Replay(i) => (s, Settled(s.books.results[i].(replayed := true)))
    case New =>
      if RefundProblem(s, q).Some? then (s, Refused(RefundProblem(s, q).value))
      else
        var (s', r) := RefundCommit(s, q);
        (s', Settled(r))
  }

  // ---------------------------------------------------------------- other wallet and order steps

  /** `addWalletTransaction` as the adjustment route uses it; a refused adjustment changes nothing. */
  function Adjust(l: Ledger, userId: string, amount: int): Ledger {
    if userId !in l.users || l.users[userId] + amount < 0 then l
    else
      l.(users := l.users[userId := l.users[userId] + amount],
         txns := l.txns + [Txn(userId, AdjustTxn, amount, l.users[userId] + amount, None, None)])
  }

  /** `createUser` for a new account. */
  function AddUser(l: Ledger, userId: string): Ledger {
    if userId in l.users then l else l.(users := l.users[userId := 0])
  }

  /** `createOrder`. */
  function AddOrder(l: Ledger, order: Order): Ledger {
    l.(orders := l.orders + [order.(status := Unpaid, payMethod := None, paidAt := None, refundedAt := None)])
  }

  // ---------------------------------------------------------------- the store

  class BillingStore {
    const access: A.AccessStore
    const outbox: O.OutboxStore
    var users: map<string, int>
    var orders: seq<Order>
    var txns: seq<Txn>
    var settlements: seq<Settlement>
    var results: seq<Result>
    var byOrder: map<OrderOp, nat>
    var byKey: map<OpKey, nat>
    var subByOrder: map<nat, nat>

    ghost function View(): State
      reads this, access, outbox
    {
      State(Ledger(users, orders, txns), Books(settlements, results, byOrder, byKey), outbox.View(), access.View(), subByOrder)
    }

    constructor (access: A.AccessStore, outbox: O.OutboxStore)
      ensures this.access == access && this.outbox == outbox
      ensures View() == State(Ledger(map[], [], []), Books([], [], map[], map[]), outbox.View(), access.View(), map[])
    {
      this.access, this.outbox := access, outbox;
      users, orders, txns := map[], [], [];
      settlements, results, byOrder, byKey, subByOrder := [], [], map[], map[], map[];
    }

    method FindReplay(op: Operation, order: nat, key: string, hash: string, payMethod: Option<Method>, providerRef: Option<string>)
      returns (r: ReplayOutcome)
      ensures r == Lookup(View().books, op, order, key, hash, payMethod, providerRef)
    {
      if key == "" || hash == "" { return Clash; }
      var o, k := OrderOp(order, op), OpKey(op, key);
      if o !in byOrder && k !in byKey { return New; }
      if o !in byOrder || k !in byKey || byOrder[o] != byKey[k] { return Clash; }
      var i := byOrder[o];
      if i >= |settlements| || i >= |results| { return Clash; }
      var t := settlements[i];
      if t.order != order || t.operation != op || t.key != key || t.hash != hash || t.providerRef != providerRef ||
         (op == Payment && t.payMethod != payMethod) { return Clash; }
      r := Replay(i);
    }

    method CheckPayment(p: PayRequest) returns (e: Option<Error>)
      ensures e == PayProblem(View(), p)
    {
      if p.payMethod == Unknown { return Some(InvalidPaymentMethod); }
      if p.payMethod == Provider && !ValidRef(p.providerRef) { return Some(FulfillmentInvalid); }
      if p.order >= |orders| || orders[p.order].userId != p.userId { return Some(OrderNotFound); }
      var order := orders[p.order];
      if order.status != Unpaid { return Some(OrderNotPending); }
      if order.kind == Recharge && p.payMethod == Balance { return Some(RechargeBalanceForbidden); }
      if order.userId !in users { return Some(OrderNotFound); }
      if p.paidAt.None? { return Some(FulfillmentInvalid); }
      if users[order.userId] + Delta(order, p.payMethod) < 0 { return Some(InsufficientBalance); }
      if order.kind == PackPlan {
        if order.packId == "" || order.period.None? { return Some(FulfillmentInvalid); }
      } else if order.kind == SkillPlan {
        if order.planId == "" || order.tenantId == "" || order.period.None? || order.planId !in access.plans {
          return Some(FulfillmentInvalid);
        }
        if p.order in subByOrder && subByOrder[p.order] < |access.subscriptions| {
          var sub := access.subscriptions[subByOrder[p.order]];
          if sub.userId != order.userId || sub.tenantId != order.tenantId || sub.planId != order.planId ||
             Some(sub.period) != order.period || sub.status == A.Refunded { return Some(FulfillmentInvalid); }
        }
      }
      e := None;
    }

    /** Stage the entitlements of a plan's Skills and the table with them written. */
    method StageEntitlements(skills: seq<string>, id: nat, sub: A.Subscription, at: int)
      returns (staged: seq<A.Entitlement>, table: seq<A.Entitlement>)
      ensures staged == StagedEntitlements(access.entitlements, skills, id, sub, at)
      ensures table == WriteEntitlements(access.entitlements, skills, id, sub, at)
    {
      staged, table := [], access.entitlements;
      var k := 0;
      while k < |skills|
        invariant k == |staged| <= |skills|
        invariant forall j :: 0 <= j < k ==> staged[j] == StagedEntitlement(access.entitlements, id, sub, skills[j], at)
        invariant table == WriteEntitlements(access.entitlements, skills[..k], id, sub, at)
      {
        assert skills[..k + 1][..k] == skills[..k];
        staged := staged + [StagedEntitlement(access.entitlements, id, sub, skills[k], at)];
        table := WriteEntitlement(access.entitlements, table, id, sub, skills[k], at);
        k := k + 1;
      }
      assert skills[..k] == skills;
    }

    /** Wallet, order, books and outbox of a settlement, in one go. */
    method CommitSettlement(o: nat, order: Order, txn: Option<Txn>, t: Settlement, r: Result)
      requires o < |orders|
      modifies this, outbox
      ensures View() == Commit(old(View()), o, order, txn, t, r, old(access.View()), old(subByOrder))
    {
      if txn.Some? {
        users := users[txn.value.userId := txn.value.balanceAfter];
        txns := txns + [txn.value];
      }
      orders := orders[o := order];
      byOrder := byOrder[OrderOp(t.order, t.operation) := |settlements|];
      byKey := byKey[OpKey(t.operation, t.key) := |settlements|];
      settlements := settlements + [t];
      results := results + [r];
      outbox.rows := outbox.rows + [r.outbox];
    }

    method SettlePayment(p: PayRequest) returns (outcome: Outcome)
      modifies this, access, outbox
      ensures (View(), outcome) == Pay(old(View()), p)
    {
      var replay := FindReplay(Payment, p.order, p.key, p.hash, Some(p.payMethod), p.providerRef);
      if replay == Clash { return Refused(IdempotencyConflict); }
      if replay.Replay? { return Settled(results[replay.settlement].(replayed := true)); }
      var problem := CheckPayment(p);
      if problem.Some? { return Refused(problem.value); }
      var r := FulfilPayment(p);
      outcome := Settled(r);
    }

    method FulfilPayment(p: PayRequest) returns (r: Result)
      requires PayProblem(View(), p).None?
      modifies this, access, outbox
      ensures (View(), r) == PayCommit(old(View()), p)
    {
      hide WriteEntitlements, StagedEntitlements, ValidRef;
      ghost var s := View();
      var order := orders[p.order];
      var paid := PaidOrder(order, p);
      var t := PaySettlement(order, p);
      var kind := PayTxnKind(order, p.payMethod);
      var txn := None;
      if kind.Some? {
        var delta := Delta(order, p.payMethod);
        txn := Some(Txn(order.userId, kind.value, delta, users[order.userId] + delta, Some(p.order), Some(|settlements|)));
      }
      assert txn == PayTxn(s, p);
      var row := O.Row(p.uid, |settlements|, 0, p.at, None, None, None, None, None, p.at);
      if order.kind != SkillPlan {
        r := Result(false, t, paid, txn, None, [], row);
        CommitSettlement(p.order, paid, txn, t, r);
        return;
      }
      var expiresAt := Expiry(p.paidAt.value, order.period.value);
      var id := |access.subscriptions|;
      var sub := A.Subscription(order.userId, order.tenantId, order.planId, A.Active, order.period.value, p.paidAt.value,
        expiresAt, p.order, p.at);
      if p.order in subByOrder && subByOrder[p.order] < |access.subscriptions| {
        id := subByOrder[p.order];
        sub := access.subscriptions[id].(status := A.Active, startsAt := p.paidAt.value, expiresAt := expiresAt);
      }
      assert (id, sub) == OpenedSub(s, p.order, order, p.paidAt.value, p.at);
      var staged, table := StageEntitlements(access.plans[order.planId].skillIds, id, sub, p.at);
      r := Result(false, t, paid, txn, Some(sub), staged, row);
      CommitSettlement(p.order, paid, txn, t, r);
      access.subscriptions := WriteSubscription(access.subscriptions, id, sub);
      access.entitlements := table;
      subByOrder := subByOrder[sub.sourceOrder := id];
    }

    method CheckRefund(q: RefundRequest) returns (e: Option<Error>)
      ensures e == RefundProblem(View(), q)
    {
      if q.order >= |orders| { return Some(OrderNotFound); }
      var order := orders[q.order];
      if order.kind == Recharge { return Some(RechargeRefundForbidden); }
      if order.status != Paid { return Some(OrderNotPaid); }
      if order.userId !in users { return Some(OrderNotFound); }
      if q.refundedAt.None? { return Some(FulfillmentInvalid); }
      if q.providerRef.Some? && !ValidRef(q.providerRef) { return Some(FulfillmentInvalid); }
      if order.kind == PackPlan {
        return if order.packId == "" || q.ambiguousLegacy then Some(NeedsReconciliation) else None;
      }
      if q.order !in subByOrder || subByOrder[q.order] >= |access.subscriptions| { return Some(NeedsReconciliation); }
      var sub := access.subscriptions[subByOrder[q.order]];
      e := if sub.userId != order.userId || sub.planId != order.planId then Some(NeedsReconciliation) else None;
    }

    /** Revoke every entitlement of a subscription, and list the revoked ones. */
    method StageRevocations(sub: nat) returns (staged: seq<A.Entitlement>, table: seq<A.Entitlement>)
      ensures staged == RevokedOf(access.entitlements, sub)
      ensures table == RevokeAll(access.entitlements, sub)
    {
      var es := access.entitlements;
      staged, table := [], [];
      var i := 0;
      while i < |es|
        invariant i == |table| <= |es|
        invariant staged == RevokedOf(es[..i], sub)
        invariant forall k :: 0 <= k < i ==> table[k] == if es[k].subscriptionId == sub then A.Revoke(es[k]) else es[k]
      {
        assert es[..i + 1][..i] == es[..i];
        if es[i].subscriptionId == sub {
          staged := staged + [A.Revoke(es[i])];
          table := table + [A.Revoke(es[i])];
        } else {
          staged := staged + [];
          table := table + [es[i]];
        }
        i := i + 1;
      }
      assert es[..i] == es;
    }

    method SettleRefund(q: RefundRequest) returns (outcome: Outcome)
      modifies this, access, outbox
      ensures (View(), outcome) == RefundOrder(old(View()), q)
    {
      var replay := FindReplay(Refund, q.order, q.key, q.hash, None, q.providerRef);
      if replay == Clash { return Refused(IdempotencyConflict); }
      if replay.Replay? { return Settled(results[replay.settlement].(replayed := true)); }
      var problem := CheckRefund(q);
      if problem.Some? { return Refused(problem.value); }
      var r := PerformRefund(q);
      outcome := Settled(r);
    }

    method PerformRefund(q: RefundRequest) returns (r: Result)
      requires RefundProblem(View(), q).None?
      modifies this, access, outbox
      ensures (View(), r) == RefundCommit(old(View()), q)
    {
      hide RevokeAll, RevokedOf, ValidRef;
      ghost var s := View();
      var order := orders[q.order];
      var refunded := order.(status := Refunded, refundedAt := q.refundedAt);
      var txn := Txn(order.userId, RefundTxn, order.amount, users[order.userId] + order.amount, Some(q.order), Some(|settlements|));
      assert txn == RefundTxnOf(s, q);
      var t := RefundSettlement(order, q);
      var row := O.Row(q.uid, |settlements|, 0, q.at, None, None, None, None, None, q.at);
      if order.kind != SkillPlan {
        r := Result(false, t, refunded, Some(txn), None, [], row);
        CommitSettlement(q.order, refunded, Some(txn), t, r);
        return;
      }
      var id := subByOrder[q.order];
      var sub := access.subscriptions[id].(status := A.Refunded);
      var staged, table := StageRevocations(id);
      r := Result(false, t, refunded, Some(txn), Some(sub), staged, row);
      CommitSettlement(q.order, refunded, Some(txn), t, r);
      access.subscriptions := access.subscriptions[id := sub];
      access.entitlements := table;
    }

    method AdjustWallet(userId: string, amount: int) returns (ok: bool)
      modifies this
      ensures View() == old(View()).(ledger := Adjust(old(View()).ledger, userId, amount))
      ensures ok <==> userId in old(users) && old(users)[userId] + amount >= 0
    {
      ok := userId in users && users[userId] + amount >= 0;
      if ok {
        var next := users[userId] + amount;
        users := users[userId := next];
        txns := txns + [Txn(userId, AdjustTxn, amount, next, None, None)];
      }
    }
  }
}
