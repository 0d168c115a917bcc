/** What settlement guarantees over whole runs: money conservation, bookkeeping, replay, and access. */
module BillingLaws {
  import opened Prelude
  import opened Billing
  import A = SkillAccess
  import L = ExecutionLimits
  import O = BillingOutbox
  import W = AccessOutcomes

  // ---------------------------------------------------------------- runs

  datatype Op =
    | PayOp(pay: PayRequest)
    | RefundOp(refund: RefundRequest)
    | AdjustOp(userId: string, amount: int)
    | AddUserOp(newUser: string)
    | AddOrderOp(order: Order)
    | CancelOp(subscriptionId: nat)
    | GrantOp(grant: A.GrantRequest)
    | RevokeOp(entitlement: nat)
    | PlanOp(planId: string, plan: A.Plan)
    | OutboxOp(outbox: O.Op)

  /** A plan has distinct Skills and positive limits. */
  predicate PlanOk(p: A.Plan) {
    && p.requestsPerMinute >= 1 && p.maxConcurrency >= 1
    && forall i, j :: 0 <= i < j < |p.skillIds| ==> p.skillIds[i] != p.skillIds[j]
  }

  predicate Legal(op: Op) {
    && (op.PlanOp? ==> PlanOk(op.plan))
    && (op.OutboxOp? ==> !op.outbox.AppendOp?)
  }

  /** The cancel route may act on a status it read before a refund, so it is not guarded here. */
  function Apply(s: State, op: Op): State {
    match op
    case PayOp(p) => Pay(s, p).0
    case RefundOp(q) => RefundOrder(s, q).0
    case AdjustOp(u, amount) => s.(ledger := Adjust(s.ledger, u, amount))
    case AddUserOp(u) => s.(ledger := AddUser(s.ledger, u))
    case AddOrderOp(order) => s.(ledger := AddOrder(s.ledger, order))
    case CancelOp(sub) => s.(access := A.UpdateStatus(s.access, sub, A.Cancelled))
    case GrantOp(g) => s.(access := A.Grant(s.access, g))
    case RevokeOp(e) => s.(access := A.RevokeEntitlement(s.access, e))
    case PlanOp(id, plan) => s.(access := s.access.(plans := s.access.plans[id := plan]))
    case OutboxOp(o) => s.(outbox := O.Apply(s.outbox, o))
  }

  predicate LegalRun(ops: seq<Op>) {
    forall i :: 0 <= i < |ops| ==> Legal(ops[i])
  }

  function Run(s: State, ops: seq<Op>): State
    decreases |ops|
  {
    if ops == [] then s else Run(Apply(s, ops[0]), ops[1..])
  }

  const EMPTY := State(Ledger(map[], [], []), Books([], [], map[], map[]), O.State([], 0), A.State(map[], [], []), map[])

  // ---------------------------------------------------------------- money

  function TxnAmount(t: Txn, u: string): int { if t.userId == u then t.amount else 0 }

  function Total(txns: seq<Txn>, u: string): int { Sum(txns, (t: Txn) => TxnAmount(t, u)) }

  function AdjustAmount(t: Txn, u: string): int { if t.userId == u && t.kind == AdjustTxn then t.amount else 0 }

  function Adjustments(txns: seq<Txn>, u: string): int { Sum(txns, (t: Txn) => AdjustAmount(t, u)) }

  /** What an order has moved in its owner's wallet: paid recharges, balance payments, refunds. */
  function Moved(o: Order): int {
    var amount: int := o.amount;
    match o.status
    case Paid => if o.kind == Recharge then amount else if o.payMethod == Some(Balance) then -amount else 0
    case Refunded => if o.payMethod == Some(Balance) then 0 else amount
    case _ => 0
  }

  function MovedBy(o: Order, u: string): int { if o.userId == u then Moved(o) else 0 }

  function OrdersMoved(orders: seq<Order>, u: string): int { Sum(orders, (o: Order) => MovedBy(o, u)) }

  /** Balances are never negative and equal both the transaction total and the closed form over orders. */
  ghost predicate BalanceOk(l: Ledger, u: string) {
    u in l.users ==>
      && l.users[u] >= 0
      && l.users[u] == Total(l.txns, u)
      && l.users[u] == OrdersMoved(l.orders, u) + Adjustments(l.txns, u)
  }

  ghost predicate Prefixes(txns: seq<Txn>) {
    forall i :: 0 <= i < |txns| ==> txns[i].balanceAfter == Total(txns[..i + 1], txns[i].userId)
  }

  predicate Known(l: Ledger) {
    && (forall i :: 0 <= i < |l.txns| ==> l.txns[i].userId in l.users)
    && (forall i :: 0 <= i < |l.orders| ==>
          l.orders[i].userId in l.users || l.orders[i].status == Unpaid || l.orders[i].status == Dropped)
  }

  ghost predicate LedgerOk(l: Ledger) {
    (forall u: string :: BalanceOk(l, u)) && Prefixes(l.txns) && Known(l)
  }

  lemma AppendTxn(txns: seq<Txn>, t: Txn, u: string)
    ensures Total(txns + [t], u) == Total(txns, u) + TxnAmount(t, u)
    ensures Adjustments(txns + [t], u) == Adjustments(txns, u) + AdjustAmount(t, u)
  {
    SumSnoc(txns, t, (t: Txn) => TxnAmount(t, u));
    SumSnoc(txns, t, (t: Txn) => AdjustAmount(t, u));
  }

  lemma AppendPrefix(txns: seq<Txn>, t: Txn)
    requires Prefixes(txns) && t.balanceAfter == Total(txns, t.userId) + t.amount
    ensures Prefixes(txns + [t])
  {
    var txns' := txns + [t];
    forall i | 0 <= i < |txns'| ensures txns'[i].balanceAfter == Total(txns'[..i + 1], txns'[i].userId) {
      if i == |txns| {
        assert txns'[..i + 1] == txns + [t];
        AppendTxn(txns, t, t.userId);
      } else {
        assert txns'[..i + 1] == txns[..i + 1];
      }
    }
  }

  /** A settlement whose transaction is exactly what its order moves keeps every balance right. */
  lemma PostKeepsLedger(l: Ledger, o: nat, order: Order, txn: Option<Txn>)
    requires LedgerOk(l) && o < |l.orders| && order.userId == l.orders[o].userId && order.userId in l.users
    requires txn.None? ==> Moved(order) == Moved(l.orders[o])
    requires txn.Some? ==>
               && txn.value.userId == order.userId && txn.value.kind != AdjustTxn
               && txn.value.amount == Moved(order) - Moved(l.orders[o])
               && txn.value.balanceAfter == l.users[order.userId] + txn.value.amount >= 0
    ensures LedgerOk(Post(l, o, order, txn))
  {
    var l' := Post(l, o, order, txn);
    forall u: string ensures BalanceOk(l', u) {
      assert BalanceOk(l, u);
      SumUpdate(l.orders, o, order, (x: Order) => MovedBy(x, u));
      if txn.Some? {
        AppendTxn(l.txns, txn.value, u);
      }
    }
    if txn.Some? {
      assert BalanceOk(l, order.userId);
      AppendPrefix(l.txns, txn.value);
    }
  }

  lemma AdjustKeepsLedger(l: Ledger, u: string, amount: int)
    requires LedgerOk(l)
    ensures LedgerOk(Adjust(l, u, amount))
  {
    var l' := Adjust(l, u, amount);
    if l' != l {
      var t := l'.txns[|l.txns|];
      assert BalanceOk(l, u);
      AppendPrefix(l.txns, t);
      forall v: string ensures BalanceOk(l', v) {
        assert BalanceOk(l, v);
        AppendTxn(l.txns, t, v);
      }
    }
  }

  lemma AddUserKeepsLedger(l: Ledger, u: string)
    requires LedgerOk(l)
    ensures LedgerOk(AddUser(l, u))
  {
    var l' := AddUser(l, u);
    forall v: string ensures BalanceOk(l', v) {
      assert BalanceOk(l, v);
      if v == u && u !in l.users {
        SumZero(l.txns, (t: Txn) => TxnAmount(t, u));
        SumZero(l.txns, (t: Txn) => AdjustAmount(t, u));
        SumZero(l.orders, (o: Order) => MovedBy(o, u));
      }
    }
  }

  lemma AddOrderKeepsLedger(l: Ledger, order: Order)
    requires LedgerOk(l)
    ensures LedgerOk(AddOrder(l, order))
  {
    var l' := AddOrder(l, order);
    forall u: string ensures BalanceOk(l', u) {
      assert BalanceOk(l, u);
      SumSnoc(l.orders, l'.orders[|l.orders|], (o: Order) => MovedBy(o, u));
    }
  }

  lemma PayKeepsLedger(s: State, p: PayRequest)
    requires LedgerOk(s.ledger) && PayProblem(s, p).None?
    ensures LedgerOk(PayCommit(s, p).0.ledger)
  {
    var order := s.ledger.orders[p.order];
    PostKeepsLedger(s.ledger, p.order, PaidOrder(order, p), PayTxn(s, p));
  }

  lemma RefundKeepsLedger(s: State, q: RefundRequest)
    requires LedgerOk(s.ledger) && RefundProblem(s, q).None?
    ensures LedgerOk(RefundCommit(s, q).0.ledger)
  {
    var order := s.ledger.orders[q.order];
    assert BalanceOk(s.ledger, order.userId);
    PostKeepsLedger(s.ledger, q.order, order.(status := Refunded, refundedAt := q.refundedAt), Some(RefundTxnOf(s, q)));
  }

  // ---------------------------------------------------------------- bookkeeping

  function OrderOpOf(t: Settlement): OrderOp { OrderOp(t.order, t.operation) }

  function OpKeyOf(t: Settlement): OpKey { OpKey(t.operation, t.key) }

  /** Settlement `i` is found under its order and under its key, and its result is the frozen original. */
  predicate Filed(b: Books, i: nat)
    requires i < |b.settlements| == |b.results|
  {
    var t := b.settlements[i];
    && OrderOpOf(t) in b.byOrder && b.byOrder[OrderOpOf(t)] == i
    && OpKeyOf(t) in b.byKey && b.byKey[OpKeyOf(t)] == i
    && b.results[i].settlement == t && !b.results[i].replayed
  }

  ghost predicate IndexesOk(b: Books) {
    && |b.results| == |b.settlements|
    && (forall i :: 0 <= i < |b.settlements| ==> Filed(b, i))
    && (forall k :: k in b.byOrder ==> b.byOrder[k] < |b.settlements| && OrderOpOf(b.settlements[b.byOrder[k]]) == k)
    && (forall k :: k in b.byKey ==> b.byKey[k] < |b.settlements| && OpKeyOf(b.settlements[b.byKey[k]]) == k)
  }

  predicate SettledAs(byOrder: map<OrderOp, nat>, o: nat, status: OrderStatus) {
    && (OrderOp(o, Payment) in byOrder <==> status == Paid || status == Refunded)
    && (OrderOp(o, Refund) in byOrder <==> status == Refunded)
  }

  /** An order has a payment settlement exactly when it is paid or refunded, and a refund one when refunded. */
  ghost predicate OrdersOk(byOrder: map<OrderOp, nat>, orders: seq<Order>) {
    && (forall o: nat :: o < |orders| ==> SettledAs(byOrder, o, orders[o].status))
    && (forall k :: k in byOrder ==> k.order < |orders|)
  }

  /** Row `i` of the outbox reports settlement `i`: exactly one row each. */
  predicate OutboxOk(outbox: O.State, settlements: nat) {
    && |outbox.rows| == settlements
    && forall i :: 0 <= i < |outbox.rows| ==> outbox.rows[i].settlement == i
  }

  lemma FileKeepsIndexes(b: Books, t: Settlement, r: Result)
    requires IndexesOk(b) && OrderOpOf(t) !in b.byOrder && OpKeyOf(t) !in b.byKey && r.settlement == t && !r.replayed
    ensures IndexesOk(File(b, t, r))
  {
    var b' := File(b, t, r);
    forall i | 0 <= i < |b'.settlements| ensures Filed(b', i) {
      if i < |b.settlements| {
        assert Filed(b, i);
      }
    }
  }

  lemma FileKeepsOrders(b: Books, orders: seq<Order>, t: Settlement, r: Result, order: Order)
    requires OrdersOk(b.byOrder, orders) && t.order < |orders|
    requires t.operation == Payment ==> orders[t.order].status == Unpaid && order.status == Paid
    requires t.operation == Refund ==> orders[t.order].status == Paid && order.status == Refunded
    ensures OrdersOk(File(b, t, r).byOrder, orders[t.order := order])
  {
    var orders' := orders[t.order := order];
    forall o: nat | o < |orders'| ensures SettledAs(File(b, t, r).byOrder, o, orders'[o].status) {
      assert SettledAs(b.byOrder, o, orders[o].status);
    }
  }

  // ---------------------------------------------------------------- access

  /** A subscription belongs to the order that opened it; the subscription of a refunded order is not active. */
  ghost predicate LinkOk(subByOrder: map<nat, nat>, subs: seq<A.Subscription>, orders: seq<Order>) {
    && (forall o :: o in subByOrder ==>
          && o < |orders| && orders[o].kind == SkillPlan && (orders[o].status == Paid || orders[o].status == Refunded)
          && subByOrder[o] < |subs| && subs[subByOrder[o]].sourceOrder == o
          && (orders[o].status == Refunded ==> subs[subByOrder[o]].status != A.Active))
    && (forall i :: 0 <= i < |subs| ==> subs[i].sourceOrder in subByOrder && subByOrder[subs[i].sourceOrder] == i)
  }

  ghost predicate PlansOk(a: A.State) {
    forall p :: p in a.plans ==> PlanOk(a.plans[p])
  }

  ghost predicate Inv(s: State) {
    && LedgerOk(s.ledger)
    && IndexesOk(s.books)
    && OrdersOk(s.books.byOrder, s.ledger.orders)
    && OutboxOk(s.outbox, |s.books.settlements|)
    && A.Valid(s.access)
    && PlansOk(s.access)
    && LinkOk(s.subByOrder, s.access.subscriptions, s.ledger.orders)
  }

  predicate NoneOf(es: seq<A.Entitlement>, id: nat) {
    forall i :: 0 <= i < |es| ==> es[i].subscriptionId != id
  }

  function NewEntitlements(id: nat, sub: A.Subscription, skills: seq<string>, at: int): (r: seq<A.Entitlement>)
    ensures |r| == |skills|
    ensures forall k :: 0 <= k < |skills| ==> r[k] == NewEntitlement(id, sub, skills[k], at)
  {
    seq(|skills|, k requires 0 <= k < |skills| => NewEntitlement(id, sub, skills[k], at))
  }

  /** For a subscription without entitlements a payment appends one row per Skill. */
  lemma {:induction false} FreshEntitlements(es: seq<A.Entitlement>, skills: seq<string>, id: nat, sub: A.Subscription, at: int)
    requires NoneOf(es, id)
    ensures WriteEntitlements(es, skills, id, sub, at) == es + NewEntitlements(id, sub, skills, at)
  {
    if |skills| == 0 {
      assert es + NewEntitlements(id, sub, skills, at) == es;
    } else {
      var front, last := skills[..|skills| - 1], skills[|skills| - 1];
      FreshEntitlements(es, front, id, sub, at);
      assert NewEntitlements(id, sub, skills, at) == NewEntitlements(id, sub, front, at) + [NewEntitlement(id, sub, last, at)];
    }
  }

  /** Opening a new subscription keeps every entitlement backed and unique. */
  lemma OpenKeepsValid(a: A.State, sub: A.Subscription, skills: seq<string>, at: int)
    requires A.Valid(a) && sub.status == A.Active
    requires forall i, j :: 0 <= i < j < |skills| ==> skills[i] != skills[j]
    ensures A.Valid(OpenAccess(a, |a.subscriptions|, sub, skills, at))
    ensures OpenAccess(a, |a.subscriptions|, sub, skills, at).entitlements ==
            a.entitlements + NewEntitlements(|a.subscriptions|, sub, skills, at)
  {
    var id, es := |a.subscriptions|, a.entitlements;
    assert NoneOf(es, id) by {
      forall i | 0 <= i < |es| ensures es[i].subscriptionId != id {
        assert A.Backed(a, es[i]);
      }
    }
    FreshEntitlements(es, skills, id, sub, at);
    var a' := OpenAccess(a, id, sub, skills, at);
    var es' := a'.entitlements;
    forall i | 0 <= i < |es'| ensures A.Backed(a', es'[i]) {
      if i < |es| {
        assert A.Backed(a, es[i]);
      }
    }
    forall i, j | 0 <= i < j < |es'| ensures !A.SameScope(es'[i], es'[j]) {
      if j < |es| {
        assert !A.SameScope(es[i], es[j]);
      } else if i < |es| {
        assert A.Backed(a, es[i]);
      } else {
        assert skills[i - |es|] != skills[j - |es|];
      }
    }
  }

  lemma CloseKeepsValid(a: A.State, id: nat)
    requires A.Valid(a) && id < |a.subscriptions|
    ensures A.Valid(CloseAccess(a, id))
  {
    var a' := CloseAccess(a, id);
    forall i, j | 0 <= i < j < |a'.entitlements| ensures !A.SameScope(a'.entitlements[i], a'.entitlements[j]) {
      assert !A.SameScope(a.entitlements[i], a.entitlements[j]);
    }
    forall i | 0 <= i < |a'.entitlements| ensures A.Backed(a', a'.entitlements[i]) {
      assert A.Backed(a, a.entitlements[i]);
    }
  }

  // ---------------------------------------------------------------- every step keeps the invariant

  /** The parts a settlement commits besides access. */
  lemma CommitKeepsBooks(s: State, o: nat, order: Order, txn: Option<Txn>, t: Settlement, r: Result, access: A.State,
                         subByOrder: map<nat, nat>)
    requires IndexesOk(s.books) && OrdersOk(s.books.byOrder, s.ledger.orders) && OutboxOk(s.outbox, |s.books.settlements|)
    requires o < |s.ledger.orders| && t.order == o && OrderOpOf(t) !in s.books.byOrder && OpKeyOf(t) !in s.books.byKey
    requires r.settlement == t && !r.replayed && r.outbox.settlement == |s.books.settlements|
    requires t.operation == Payment ==> s.ledger.orders[o].status == Unpaid && order.status == Paid
    requires t.operation == Refund ==> s.ledger.orders[o].status == Paid && order.status == Refunded
    ensures var s' := Commit(s, o, order, txn, t, r, access, subByOrder);
            && IndexesOk(s'.books) && OrdersOk(s'.books.byOrder, s'.ledger.orders)
            && OutboxOk(s'.outbox, |s'.books.settlements|)
  {
    FileKeepsIndexes(s.books, t, r);
    FileKeepsOrders(s.books, s.ledger.orders, t, r, order);
  }

  lemma PayCommitKeepsBooks(s: State, p: PayRequest)
    requires Inv(s) && PayProblem(s, p).None?
    requires OrderOp(p.order, Payment) !in s.books.byOrder && OpKey(Payment, p.key) !in s.books.byKey
    ensures var s' := PayCommit(s, p).0;
            && IndexesOk(s'.books) && OrdersOk(s'.books.byOrder, s'.ledger.orders)
            && OutboxOk(s'.outbox, |s'.books.settlements|)
  {
    hide LedgerOk, A.Valid, LinkOk, IndexesOk, OrdersOk, WriteEntitlements, File, Post;
    var order := s.ledger.orders[p.order];
    var (s', r) := PayCommit(s, p);
    CommitKeepsBooks(s, p.order, PaidOrder(order, p), PayTxn(s, p), PaySettlement(order, p), r, s'.access, s'.subByOrder);
  }

  /** A first payment of a Skill order opens a new subscription. */
  lemma PayOpensNew(s: State, p: PayRequest)
    requires Inv(s) && PayProblem(s, p).None? && s.ledger.orders[p.order].kind == SkillPlan
    ensures ExistingSub(s, p.order).None?
  {
    assert p.order !in s.subByOrder;
  }

  /** Paying links the order to the subscription it opens, or leaves the links alone. */
  lemma PayKeepsLink(subByOrder: map<nat, nat>, subs: seq<A.Subscription>, orders: seq<Order>, o: nat, paid: Order, sub: Option<A.Subscription>)
    requires LinkOk(subByOrder, subs, orders) && o < |orders| && orders[o].status == Unpaid
    requires paid.status == Paid && paid.kind == orders[o].kind
    requires sub.Some? ==> paid.kind == SkillPlan && sub.value.sourceOrder == o
    ensures if sub.Some? then LinkOk(subByOrder[o := |subs|], subs + [sub.value], orders[o := paid])
            else LinkOk(subByOrder, subs, orders[o := paid])
  {
    assert o !in subByOrder;
  }

  lemma PayKeepsAccess(s: State, p: PayRequest)
    requires Inv(s) && PayProblem(s, p).None?
    ensures var s' := PayCommit(s, p).0;
            A.Valid(s'.access) && PlansOk(s'.access) && LinkOk(s'.subByOrder, s'.access.subscriptions, s'.ledger.orders)
  {
    hide LedgerOk, IndexesOk, OrdersOk, OutboxOk, A.Valid, WriteEntitlements, File, LinkOk;
    var order := s.ledger.orders[p.order];
    if order.kind == SkillPlan {
      PayOpensNew(s, p);
      var (id, sub) := OpenedSub(s, p.order, order, p.paidAt.value, p.at);
      assert PlanOk(s.access.plans[order.planId]);
      OpenKeepsValid(s.access, sub, s.access.plans[order.planId].skillIds, p.at);
      PayKeepsLink(s.subByOrder, s.access.subscriptions, s.ledger.orders, p.order, PaidOrder(order, p), Some(sub));
    } else {
      PayKeepsLink(s.subByOrder, s.access.subscriptions, s.ledger.orders, p.order, PaidOrder(order, p), None);
    }
  }

  lemma PayKeepsInv(s: State, p: PayRequest)
    requires Inv(s)
    ensures Inv(Pay(s, p).0)
  {
    hide LedgerOk, IndexesOk, OrdersOk, OutboxOk, A.Valid, PlansOk, LinkOk, PayCommit;
    if Lookup(s.books, Payment, p.order, p.key, p.hash, Some(p.payMethod), p.providerRef) == New && PayProblem(s, p).None? {
      PayKeepsLedger(s, p);
      PayCommitKeepsBooks(s, p);
      PayKeepsAccess(s, p);
    }
  }

  lemma RefundCommitKeepsBooks(s: State, q: RefundRequest)
    requires Inv(s) && RefundProblem(s, q).None?
    requires OrderOp(q.order, Refund) !in s.books.byOrder && OpKey(Refund, q.key) !in s.books.byKey
    ensures var s' := RefundCommit(s, q).0;
            && IndexesOk(s'.books) && OrdersOk(s'.books.byOrder, s'.ledger.orders)
            && OutboxOk(s'.outbox, |s'.books.settlements|)
  {
    hide LedgerOk, A.Valid, LinkOk, IndexesOk, OrdersOk, RevokeAll, RevokedOf, File, Post;
    var order := s.ledger.orders[q.order];
    var (s', r) := RefundCommit(s, q);
    CommitKeepsBooks(s, q.order, order.(status := Refunded, refundedAt := q.refundedAt), Some(RefundTxnOf(s, q)),
      RefundSettlement(order, q), r, s'.access, s'.subByOrder);
  }

  lemma RefundKeepsAccess(s: State, q: RefundRequest)
    requires Inv(s) && RefundProblem(s, q).None?
    ensures var s' := RefundCommit(s, q).0;
            A.Valid(s'.access) && PlansOk(s'.access) && LinkOk(s'.subByOrder, s'.access.subscriptions, s'.ledger.orders)
  {
    hide LedgerOk, IndexesOk, OrdersOk, OutboxOk, A.Valid, RevokeAll, RevokedOf, File;
    if s.ledger.orders[q.order].kind == SkillPlan {
      CloseKeepsValid(s.access, ExistingSub(s, q.order).value);
    }
  }

  lemma RefundKeepsInv(s: State, q: RefundRequest)
    requires Inv(s)
    ensures Inv(RefundOrder(s, q).0)
  {
    hide LedgerOk, IndexesOk, OrdersOk, OutboxOk, A.Valid, PlansOk, LinkOk, RefundCommit;
    if Lookup(s.books, Refund, q.order, q.key, q.hash, None, q.providerRef) == New && RefundProblem(s, q).None? {
      RefundKeepsLedger(s, q);
      RefundCommitKeepsBooks(s, q);
      RefundKeepsAccess(s, q);
    }
  }

  lemma OutboxKeeps(outbox: O.State, op: O.Op, n: nat)
    requires OutboxOk(outbox, n) && !op.AppendOp?
    ensures OutboxOk(O.Apply(outbox, op), n)
  {
  }

  lemma CancelKeepsLink(s: State, sub: nat)
    requires LinkOk(s.subByOrder, s.access.subscriptions, s.ledger.orders)
    ensures LinkOk(s.subByOrder, A.UpdateStatus(s.access, sub, A.Cancelled).subscriptions, s.ledger.orders)
  {
  }

  lemma AddOrderKeepsBooks(s: State, order: Order)
    requires OrdersOk(s.books.byOrder, s.ledger.orders)
    requires LinkOk(s.subByOrder, s.access.subscriptions, s.ledger.orders)
    ensures OrdersOk(s.books.byOrder, AddOrder(s.ledger, order).orders)
    ensures LinkOk(s.subByOrder, s.access.subscriptions, AddOrder(s.ledger, order).orders)
  {
    var orders' := AddOrder(s.ledger, order).orders;
    forall o: nat | o < |orders'| ensures SettledAs(s.books.byOrder, o, orders'[o].status) {
      assert o < |s.ledger.orders| ==> SettledAs(s.books.byOrder, o, s.ledger.orders[o].status);
    }
  }

  lemma ApplyKeepsInv(s: State, op: Op)
    requires Inv(s) && Legal(op)
    ensures Inv(Apply(s, op))
  {
    hide LedgerOk, IndexesOk, OrdersOk, OutboxOk, A.Valid, LinkOk, Pay, RefundOrder, O.Apply;
    match op {
      case PayOp(p) => PayKeepsInv(s, p);
      case RefundOp(q) => RefundKeepsInv(s, q);
      case AdjustOp(u, amount) => AdjustKeepsLedger(s.ledger, u, amount);
      case AddUserOp(u) => AddUserKeepsLedger(s.ledger, u);
      case AddOrderOp(order) =>
        AddOrderKeepsLedger(s.ledger, order);
        AddOrderKeepsBooks(s, order);
      case CancelOp(sub) =>
        A.UpdateStatusKeepsValid(s.access, sub, A.Cancelled);
        CancelKeepsLink(s, sub);
      case GrantOp(g) => A.GrantKeepsValid(s.access, g);
      case RevokeOp(e) => A.RevokeEntitlementKeepsValid(s.access, e);
      case PlanOp(id, plan) => PlanKeepsValid(s.access, id, plan);
      case OutboxOp(o) => OutboxKeeps(s.outbox, o, |s.books.settlements|);
    }
  }

  lemma PlanKeepsValid(a: A.State, id: string, plan: A.Plan)
    requires A.Valid(a)
    ensures A.Valid(a.(plans := a.plans[id := plan]))
  {
    var a' := a.(plans := a.plans[id := plan]);
    forall i | 0 <= i < |a'.entitlements| ensures A.Backed(a', a'.entitlements[i]) {
      assert A.Backed(a, a.entitlements[i]);
    }
  }

  lemma {:induction false} RunKeepsInv(s: State, ops: seq<Op>)
    requires Inv(s) && LegalRun(ops)
    ensures Inv(Run(s, ops))
    decreases |ops|
  {
    if ops != [] {
      assert Legal(ops[0]);
      ApplyKeepsInv(s, ops[0]);
      RunKeepsInv(Apply(s, ops[0]), ops[1..]);
    }
  }

  lemma EmptyInv()
    ensures Inv(EMPTY)
  {
  }

  // ---------------------------------------------------------------- main results

  /**
   * In every run: a user's balance is never negative, equals the sum of the user's transactions and
   * equals paid recharges minus balance payments plus refunds plus adjustments; and every
   * transaction reports the balance after itself.
   */
  lemma MoneyIsConserved(ops: seq<Op>, u: string, i: nat)
    requires LegalRun(ops)
    ensures var l := Run(EMPTY, ops).ledger;
            && (u in l.users ==>
                  l.users[u] >= 0 && l.users[u] == Total(l.txns, u) == OrdersMoved(l.orders, u) + Adjustments(l.txns, u))
            && (i < |l.txns| ==> l.txns[i].balanceAfter == Total(l.txns[..i + 1], l.txns[i].userId))
  {
    EmptyInv();
    RunKeepsInv(EMPTY, ops);
    assert BalanceOk(Run(EMPTY, ops).ledger, u);
  }

  /**
   * In every run settlements, orders, indexes, frozen results and outbox rows correspond one to one:
   * each settlement is the only one of its order and operation and of its key, a payment settlement
   * exists exactly for paid or refunded orders and a refund settlement exactly for refunded ones.
   */
  lemma SettlementsMatchOrders(ops: seq<Op>, i: nat, j: nat, o: nat)
    requires LegalRun(ops)
    ensures var s := Run(EMPTY, ops);
            var ts := s.books.settlements;
            && (i < |ts| && j < |ts| && (OrderOpOf(ts[i]) == OrderOpOf(ts[j]) || OpKeyOf(ts[i]) == OpKeyOf(ts[j])) ==> i == j)
            && |s.outbox.rows| == |s.books.results| == |ts|
            && (i < |ts| ==> s.outbox.rows[i].settlement == i && s.books.results[i].settlement == ts[i])
            && (o < |s.ledger.orders| ==>
                  && (s.ledger.orders[o].status in {Paid, Refunded} <==>
                        exists k :: 0 <= k < |ts| && OrderOpOf(ts[k]) == OrderOp(o, Payment))
                  && (s.ledger.orders[o].status == Refunded <==>
                        exists k :: 0 <= k < |ts| && OrderOpOf(ts[k]) == OrderOp(o, Refund)))
  {
    hide LedgerOk, A.Valid, PlansOk, LinkOk, IndexesOk, OrdersOk, OutboxOk, Legal, Run;
    EmptyInv();
    RunKeepsInv(EMPTY, ops);
    var s := Run(EMPTY, ops);
    SettlementsAreUnique(s.books, s.outbox, i, j);
    OrderIsSettled(s.books, s.ledger.orders, o);
  }

  lemma SettlementsAreUnique(b: Books, outbox: O.State, i: nat, j: nat)
    requires IndexesOk(b) && OutboxOk(outbox, |b.settlements|)
    ensures var ts := b.settlements;
            && (i < |ts| && j < |ts| && (OrderOpOf(ts[i]) == OrderOpOf(ts[j]) || OpKeyOf(ts[i]) == OpKeyOf(ts[j])) ==> i == j)
            && |outbox.rows| == |b.results| == |ts|
            && (i < |ts| ==> outbox.rows[i].settlement == i && b.results[i].settlement == ts[i])
  {
    if i < |b.settlements| {
      assert Filed(b, i);
    }
    if j < |b.settlements| {
      assert Filed(b, j);
    }
  }

  lemma OrderIsSettled(b: Books, orders: seq<Order>, o: nat)
    requires IndexesOk(b) && OrdersOk(b.byOrder, orders)
    ensures o < |orders| ==>
              && (orders[o].status in {Paid, Refunded} <==>
                    exists k :: 0 <= k < |b.settlements| && OrderOpOf(b.settlements[k]) == OrderOp(o, Payment))
              && (orders[o].status == Refunded <==>
                    exists k :: 0 <= k < |b.settlements| && OrderOpOf(b.settlements[k]) == OrderOp(o, Refund))
  {
    if o < |orders| {
      assert SettledAs(b.byOrder, o, orders[o].status);
      SettledExists(b, OrderOp(o, Payment));
      SettledExists(b, OrderOp(o, Refund));
      hide IndexesOk, OrdersOk;
    }
  }

  lemma SettledExists(b: Books, k: OrderOp)
    requires IndexesOk(b)
    ensures k in b.byOrder <==> exists i :: 0 <= i < |b.settlements| && OrderOpOf(b.settlements[i]) == k
  {
    if i :| 0 <= i < |b.settlements| && OrderOpOf(b.settlements[i]) == k {
      assert Filed(b, i);
    }
  }

  /**
   * In every run, payments, refunds, grants, cancellations and revocations mixed: a granted
   * entitlement has an active subscription of the same user, tenant and plan, and no two
   * entitlements share subscription, Skill and plan.
   */
  lemma EntitlementsBackedInEveryRun(ops: seq<Op>, i: nat, j: nat)
    requires LegalRun(ops)
    ensures var a := Run(EMPTY, ops).access;
            && (i < |a.entitlements| && a.entitlements[i].status == A.Granted ==>
                  var e := a.entitlements[i];
                  && e.subscriptionId < |a.subscriptions|
                  && var sub := a.subscriptions[e.subscriptionId];
                     sub.status == A.Active && sub.userId == e.userId && sub.tenantId == e.tenantId && sub.planId == e.planId)
            && (i < |a.entitlements| && j < |a.entitlements| && A.SameScope(a.entitlements[i], a.entitlements[j]) ==> i == j)
  {
    hide LedgerOk, IndexesOk, OrdersOk, OutboxOk, PlansOk, LinkOk, Legal, Run;
    EmptyInv();
    RunKeepsInv(EMPTY, ops);
    var a := Run(EMPTY, ops).access;
    assert i < |a.entitlements| ==> A.Backed(a, a.entitlements[i]);
  }

  /**
   * What the replay check finds, under the books' invariant: a replay of settlement `i` exactly if that
   * settlement carries the whole request, and nothing exactly if no settlement has the order and
   * operation or the operation and key; anything else is a conflict.
   */
  lemma LookupMeans(b: Books, op: Operation, order: nat, key: string, hash: string, payMethod: Option<Method>,
                    providerRef: Option<string>, i: nat)
    requires IndexesOk(b)
    ensures Lookup(b, op, order, key, hash, payMethod, providerRef) == Replay(i) <==>
            && key != "" && hash != "" && i < |b.settlements|
            && var t := b.settlements[i];
               && t.order == order && t.operation == op && t.key == key && t.hash == hash && t.providerRef == providerRef
               && (op == Payment ==> t.payMethod == payMethod)
    ensures Lookup(b, op, order, key, hash, payMethod, providerRef) == New <==>
            && key != "" && hash != ""
            && forall k :: 0 <= k < |b.settlements| ==>
                 OrderOpOf(b.settlements[k]) != OrderOp(order, op) && OpKeyOf(b.settlements[k]) != OpKey(op, key)
  {
    if i < |b.settlements| {
      assert Filed(b, i);
    }
    forall k | 0 <= k < |b.settlements|
      ensures (OrderOpOf(b.settlements[k]) == OrderOp(order, op) ==> OrderOp(order, op) in b.byOrder)
      ensures (OpKeyOf(b.settlements[k]) == OpKey(op, key) ==> OpKey(op, key) in b.byKey)
    {
      assert Filed(b, k);
    }
  }

  /** Only a new settlement changes anything: a refused call and a replay leave the state as it was. */
  lemma OnlyNewSettlementsChangeState(s: State, p: PayRequest, q: RefundRequest)
    ensures Pay(s, p).0 == s || (Pay(s, p).1.Settled? && !Pay(s, p).1.result.replayed)
    ensures RefundOrder(s, q).0 == s || (RefundOrder(s, q).1.Settled? && !RefundOrder(s, q).1.result.replayed)
  {
  }

  lemma PayEvolvesAccess(s: State, p: PayRequest)
    requires Inv(s) && PayProblem(s, p).None?
    ensures L.Evolves(s.access, PayCommit(s, p).0.access)
  {
    hide LedgerOk, IndexesOk, OrdersOk, OutboxOk, A.Valid, LinkOk, WriteEntitlements, File, Post;
    if s.ledger.orders[p.order].kind == SkillPlan {
      PayOpensNew(s, p);
    }
  }

  lemma RefundEvolvesAccess(s: State, q: RefundRequest)
    requires Inv(s) && RefundProblem(s, q).None?
    ensures L.Evolves(s.access, RefundCommit(s, q).0.access)
  {
    hide LedgerOk, IndexesOk, OrdersOk, OutboxOk, A.Valid, LinkOk, RevokeAll, RevokedOf, File, Post;
  }

  /** Every billing step is an access change that execution admission tolerates, unless it lowers a plan's limits. */
  lemma BillingEvolvesAccess(s: State, op: Op)
    requires Inv(s) && Legal(op)
    requires op.PlanOp? && op.planId in s.access.plans ==> L.NotLowered(s.access.plans[op.planId], op.plan)
    ensures L.Evolves(s.access, Apply(s, op).access)
  {
    hide LedgerOk, IndexesOk, OrdersOk, OutboxOk, A.Valid, LinkOk, PayCommit, RefundCommit, O.Apply;
    assert L.Evolves(s.access, s.access);
    match op {
      case PayOp(p) => if PayProblem(s, p).None? { PayEvolvesAccess(s, p); }
      case RefundOp(q) => if RefundProblem(s, q).None? { RefundEvolvesAccess(s, q); }
      case _ =>
    }
  }

  /** Filed settlements, frozen results and index entries are never touched again. */
  ghost predicate BooksKept(b: Books, b': Books) {
    && |b.settlements| <= |b'.settlements| && |b.results| <= |b'.results|
    && (forall i :: 0 <= i < |b.settlements| ==> b'.settlements[i] == b.settlements[i])
    && (forall i :: 0 <= i < |b.results| ==> b'.results[i] == b.results[i])
    && (forall k :: k in b.byOrder ==> k in b'.byOrder && b'.byOrder[k] == b.byOrder[k])
    && (forall k :: k in b.byKey ==> k in b'.byKey && b'.byKey[k] == b.byKey[k])
  }

  lemma FileKeepsBooks(b: Books, t: Settlement, r: Result)
    requires OrderOpOf(t) !in b.byOrder && OpKeyOf(t) !in b.byKey
    ensures BooksKept(b, File(b, t, r))
  {
  }

  lemma PayKeepsBooks(s: State, p: PayRequest)
    ensures BooksKept(s.books, Pay(s, p).0.books)
  {
    hide FulfilProblem, ValidRef, Post, OpenAccess, File, BooksKept;
    assert BooksKept(s.books, s.books) by { BooksKeptReflexive(s.books); }
    if Lookup(s.books, Payment, p.order, p.key, p.hash, Some(p.payMethod), p.providerRef) == New && PayProblem(s, p).None? {
      FileKeepsBooks(s.books, PaySettlement(s.ledger.orders[p.order], p), PayCommit(s, p).1);
    }
  }

  lemma RefundKeepsBooks(s: State, q: RefundRequest)
    ensures BooksKept(s.books, RefundOrder(s, q).0.books)
  {
    hide ValidRef, Post, CloseAccess, File, BooksKept;
    assert BooksKept(s.books, s.books) by { BooksKeptReflexive(s.books); }
    if Lookup(s.books, Refund, q.order, q.key, q.hash, None, q.providerRef) == New && RefundProblem(s, q).None? {
      FileKeepsBooks(s.books, RefundSettlement(s.ledger.orders[q.order], q), RefundCommit(s, q).1);
    }
  }

  lemma BooksKeptReflexive(b: Books)
    ensures BooksKept(b, b)
  {
  }

  lemma ApplyKeepsBooks(s: State, op: Op)
    ensures BooksKept(s.books, Apply(s, op).books)
  {
    hide Pay, RefundOrder, BooksKept;
    BooksKeptReflexive(s.books);
    match op {
      case PayOp(p) => PayKeepsBooks(s, p);
      case RefundOp(q) => RefundKeepsBooks(s, q);
      case _ =>
    }
  }

  lemma {:induction false} RunKeepsBooks(s: State, ops: seq<Op>)
    ensures BooksKept(s.books, Run(s, ops).books)
    decreases |ops|
  {
    if ops != [] {
      ApplyKeepsBooks(s, ops[0]);
      RunKeepsBooks(Apply(s, ops[0]), ops[1..]);
    }
  }

  /** What a new payment files, and where. */
  lemma PayFiles(s: State, p: PayRequest)
    requires IndexesOk(s.books) && Pay(s, p).1.Settled? && !Pay(s, p).1.result.replayed
    ensures var (s', outcome) := Pay(s, p);
            var n := |s.books.settlements|;
            && p.key != "" && p.hash != ""
            && |s'.books.settlements| == |s'.books.results| == n + 1
            && OrderOp(p.order, Payment) in s'.books.byOrder && s'.books.byOrder[OrderOp(p.order, Payment)] == n
            && OpKey(Payment, p.key) in s'.books.byKey && s'.books.byKey[OpKey(Payment, p.key)] == n
            && s'.books.results[n] == outcome.result
            && s'.books.settlements[n].order == p.order && s'.books.settlements[n].operation == Payment
            && s'.books.settlements[n].key == p.key && s'.books.settlements[n].hash == p.hash
            && s'.books.settlements[n].payMethod == Some(p.payMethod)
            && s'.books.settlements[n].providerRef == Recorded(p.providerRef)
  {
    hide PayProblem, Post, OpenAccess;
  }

  /**
   * An exact replay of a payment, after any run in between, refunds included, returns the original
   * frozen result and changes nothing, if and only if the request does not carry an empty provider
   * reference: an empty reference is not recorded, so its replay reads as a conflict.
   */
  lemma PaymentReplay(s: State, p: PayRequest, ops: seq<Op>)
    requires Inv(s) && LegalRun(ops) && Pay(s, p).1.Settled? && !Pay(s, p).1.result.replayed
    ensures var s2 := Run(Pay(s, p).0, ops);
            && (p.providerRef != Some("") <==>
                  Pay(s2, p) == (s2, Settled(Pay(s, p).1.result.(replayed := true))))
            && (p.providerRef == Some("") <==> Pay(s2, p) == (s2, Refused(IdempotencyConflict)))
  {
    hide Pay, Inv, IndexesOk;
    assert IndexesOk(s.books) by { InvIndexes(s); }
    PayFiles(s, p);
    RunKeepsBooks(Pay(s, p).0, ops);
    ReplayAnswers(Run(Pay(s, p).0, ops), p, |s.books.settlements|);
  }

  lemma InvIndexes(s: State)
    requires Inv(s)
    ensures IndexesOk(s.books)
  {
  }

  lemma ReplayAnswers(s: State, p: PayRequest, n: nat)
    requires n < |s.books.settlements| && n < |s.books.results| && p.key != "" && p.hash != ""
    requires OrderOp(p.order, Payment) in s.books.byOrder && s.books.byOrder[OrderOp(p.order, Payment)] == n
    requires OpKey(Payment, p.key) in s.books.byKey && s.books.byKey[OpKey(Payment, p.key)] == n
    requires var t := s.books.settlements[n];
             && t.order == p.order && t.operation == Payment && t.key == p.key && t.hash == p.hash
             && t.payMethod == Some(p.payMethod) && t.providerRef == Recorded(p.providerRef)
    ensures Pay(s, p) == if p.providerRef == Some("") then (s, Refused(IdempotencyConflict))
                         else (s, Settled(s.books.results[n].(replayed := true)))
  {
  }

  /** The failing family of `PaymentReplay` is not empty: this mock payment settles, its replay conflicts. */
  lemma EmptyReferenceBreaksReplay()
    ensures var order := Order("u", Recharge, "", "", "", None, 5, Unpaid, None, None, None);
            var s := EMPTY.(ledger := Ledger(map["u" := 0], [order], []));
            var p := PayRequest(0, "u", Mock, Some(""), "k", "h", Some(0), 0, 0);
            Pay(s, p).1.Settled? && Pay(Pay(s, p).0, p).1 == Refused(IdempotencyConflict)
  {
    var order := Order("u", Recharge, "", "", "", None, 5, Unpaid, None, None, None);
    var s := EMPTY.(ledger := Ledger(map["u" := 0], [order], []));
    var p := PayRequest(0, "u", Mock, Some(""), "k", "h", Some(0), 0, 0);
    assert PayProblem(s, p).None?;
    PayFiles(s, p);
    ReplayAnswers(Pay(s, p).0, p, 0);
  }

  /** Refund replays never meet that case: an empty reference is refused outright. */
  lemma RefundReplay(s: State, q: RefundRequest, ops: seq<Op>)
    requires Inv(s) && LegalRun(ops) && RefundOrder(s, q).1.Settled? && !RefundOrder(s, q).1.result.replayed
    ensures var s2 := Run(RefundOrder(s, q).0, ops);
            RefundOrder(s2, q) == (s2, Settled(RefundOrder(s, q).1.result.(replayed := true)))
  {
    hide RefundOrder, Inv, IndexesOk;
    assert IndexesOk(s.books) by { InvIndexes(s); }
    RefundFiles(s, q);
    RunKeepsBooks(RefundOrder(s, q).0, ops);
    RefundReplayAnswers(Run(RefundOrder(s, q).0, ops), q, |s.books.settlements|);
  }

  lemma RefundFiles(s: State, q: RefundRequest)
    requires IndexesOk(s.books) && RefundOrder(s, q).1.Settled? && !RefundOrder(s, q).1.result.replayed
    ensures var (s', outcome) := RefundOrder(s, q);
            var n := |s.books.settlements|;
            && q.key != "" && q.hash != ""
            && |s'.books.settlements| == |s'.books.results| == n + 1
            && OrderOp(q.order, Refund) in s'.books.byOrder && s'.books.byOrder[OrderOp(q.order, Refund)] == n
            && OpKey(Refund, q.key) in s'.books.byKey && s'.books.byKey[OpKey(Refund, q.key)] == n
            && s'.books.results[n] == outcome.result
            && s'.books.settlements[n].order == q.order && s'.books.settlements[n].operation == Refund
            && s'.books.settlements[n].key == q.key && s'.books.settlements[n].hash == q.hash
            && s'.books.settlements[n].providerRef == q.providerRef
  {
    hide RefundProblem, Post, CloseAccess;
  }

  lemma RefundReplayAnswers(s: State, q: RefundRequest, n: nat)
    requires n < |s.books.settlements| && n < |s.books.results| && q.key != "" && q.hash != ""
    requires OrderOp(q.order, Refund) in s.books.byOrder && s.books.byOrder[OrderOp(q.order, Refund)] == n
    requires OpKey(Refund, q.key) in s.books.byKey && s.books.byKey[OpKey(Refund, q.key)] == n
    requires var t := s.books.settlements[n];
             t.order == q.order && t.operation == Refund && t.key == q.key && t.hash == q.hash && t.providerRef == q.providerRef
    ensures RefundOrder(s, q) == (s, Settled(s.books.results[n].(replayed := true)))
  {
  }

  /** A month of access is 31 days, a year 366. */
  function PaidDays(period: A.Period): int { match period case Monthly => 31 case Yearly => 366 }

  /** Some entitlement of subscription `id` opens the Skill at `now` for the owner of `order`. */
  predicate Answers(a: A.State, id: nat, order: Order, skillId: string, now: int) {
    exists i :: 0 <= i < |a.entitlements| && a.entitlements[i].subscriptionId == id
                && W.Opens(a, a.entitlements[i], order.userId, order.tenantId, skillId, None, now)
  }

  /** The subscription a payment opens, and its entitlements. */
  lemma PaymentOpensSubscription(s: State, p: PayRequest)
    requires Inv(s) && Pay(s, p).1.Settled? && !Pay(s, p).1.result.replayed && s.ledger.orders[p.order].kind == SkillPlan
    ensures var s', order, id := Pay(s, p).0, s.ledger.orders[p.order], |s.access.subscriptions|;
            && order.period.Some? && p.paidAt.Some? && order.planId in s.access.plans
            && var days := PaidDays(order.period.value);
               var sub := A.Subscription(order.userId, order.tenantId, order.planId, A.Active, order.period.value,
                                         p.paidAt.value, p.paidAt.value + days * 24 * 60 * 60 * 1_000, p.order, p.at);
               && s'.access == A.State(s.access.plans, s.access.subscriptions + [sub],
                    s.access.entitlements + NewEntitlements(id, sub, s.access.plans[order.planId].skillIds, p.at))
               && s'.subByOrder == s.subByOrder[p.order := id]
               && NoneOf(s.access.entitlements, id)
  {
    hide LedgerOk, IndexesOk, OrdersOk, OutboxOk, LinkOk, WriteEntitlements, File, Post;
    var order, id := s.ledger.orders[p.order], |s.access.subscriptions|;
    var skills := s.access.plans[order.planId].skillIds;
    PayOpensNew(s, p);
    var (_, sub) := OpenedSub(s, p.order, order, p.paidAt.value, p.at);
    assert PlanOk(s.access.plans[order.planId]);
    OpenKeepsValid(s.access, sub, skills, p.at);
    forall i | 0 <= i < |s.access.entitlements| ensures s.access.entitlements[i].subscriptionId != id {
      assert A.Backed(s.access, s.access.entitlements[i]);
    }
  }

  /**
   * The subscription a payment opens runs 31 or 366 days by the order's period, and answers for a Skill if and
   * only if the Skill is in the plan and the instant lies from the payment on and before those days are over;
   * within that time the Skill resolves.
   */
  lemma PaymentOpensAccess(s: State, p: PayRequest, skillId: string, now: int)
    requires Inv(s) && Pay(s, p).1.Settled? && !Pay(s, p).1.result.replayed && s.ledger.orders[p.order].kind == SkillPlan
    ensures var a', order, id := Pay(s, p).0.access, s.ledger.orders[p.order], |s.access.subscriptions|;
            && id < |a'.subscriptions| && p.paidAt.Some? && order.period.Some? && order.planId in s.access.plans
            && var days := PaidDays(order.period.value);
               && a'.subscriptions[id].startsAt == p.paidAt.value
               && a'.subscriptions[id].expiresAt - p.paidAt.value == days * 24 * 60 * 60 * 1_000
               && (Answers(a', id, order, skillId, now) <==>
                     skillId in s.access.plans[order.planId].skillIds &&
                     p.paidAt.value <= now < p.paidAt.value + days * 24 * 60 * 60 * 1_000)
               && (Answers(a', id, order, skillId, now) && order.userId != "" && skillId != "" ==>
                     A.Resolve(a', A.Query(order.userId, order.tenantId, skillId, Some({order.planId}), now)).Some?)
  {
    PaymentOpensSubscription(s, p);
    var a', order, id := Pay(s, p).0.access, s.ledger.orders[p.order], |s.access.subscriptions|;
    assert order.tenantId != "";
    var sub := a'.subscriptions[id];
    assert order.planId in s.access.plans && a'.plans == s.access.plans;
    hide Inv, Pay, W.Opens, Answers;
    NewSubscriptionAnswers(s.access, a', sub, order, s.access.plans[order.planId].skillIds, p.at, skillId, now);
    if Answers(a', id, order, skillId, now) {
      AnswerResolves(a', order, skillId, now);
    }
  }

  lemma NewSubscriptionAnswers(a: A.State, a': A.State, sub: A.Subscription, order: Order, skills: seq<string>, at: int, skillId: string, now: int)
    requires a'.plans == a.plans && a'.subscriptions == a.subscriptions + [sub]
    requires a'.entitlements == a.entitlements + NewEntitlements(|a.subscriptions|, sub, skills, at)
    requires NoneOf(a.entitlements, |a.subscriptions|) && sub.planId in a.plans && a.plans[sub.planId].skillIds == skills
    requires sub.userId == order.userId && sub.tenantId == order.tenantId && sub.planId == order.planId && sub.status == A.Active
    ensures Answers(a', |a.subscriptions|, order, skillId, now) <==> skillId in skills && sub.startsAt <= now < sub.expiresAt
    ensures Answers(a', |a.subscriptions|, order, skillId, now) ==> NewAnswers(a', order, skillId, now)
  {
    var id, n := |a.subscriptions|, |a.entitlements|;
    assert a'.subscriptions[id] == sub;
    if skillId in skills && sub.startsAt <= now < sub.expiresAt {
      var k :| 0 <= k < |skills| && skills[k] == skillId;
      assert a'.entitlements[n + k] == NewEntitlement(id, sub, skillId, at);
      assert W.Opens(a', a'.entitlements[n + k], order.userId, order.tenantId, skillId, None, now);
    }
    if i :| 0 <= i < |a'.entitlements| && a'.entitlements[i].subscriptionId == id &&
            W.Opens(a', a'.entitlements[i], order.userId, order.tenantId, skillId, None, now) {
      assert i >= n;
      assert a'.entitlements[i] == NewEntitlement(id, sub, skills[i - n], at);
    }
  }

  /** The answering entitlement is one of the order's plan. */
  predicate NewAnswers(a: A.State, order: Order, skillId: string, now: int) {
    exists i :: 0 <= i < |a.entitlements| && a.entitlements[i].planId == order.planId
                && W.Opens(a, a.entitlements[i], order.userId, order.tenantId, skillId, None, now)
  }

  lemma AnswerResolves(a: A.State, order: Order, skillId: string, now: int)
    requires NewAnswers(a, order, skillId, now)
    ensures order.userId != "" && order.tenantId != "" && skillId != "" ==>
              A.Resolve(a, A.Query(order.userId, order.tenantId, skillId, Some({order.planId}), now)).Some?
  {
    var i :| 0 <= i < |a.entitlements| && a.entitlements[i].planId == order.planId
             && W.Opens(a, a.entitlements[i], order.userId, order.tenantId, skillId, None, now);
    assert W.Opens(a, a.entitlements[i], order.userId, order.tenantId, skillId, Some({order.planId}), now);
    W.ResolveExactly(a, A.Query(order.userId, order.tenantId, skillId, Some({order.planId}), now));
  }

  /** After a refund, over every further run, no query is ever answered by the refunded subscription. */
  lemma RefundClosesAccess(s: State, q: RefundRequest, ops: seq<Op>, query: A.Query)
    requires Inv(s) && LegalRun(ops) && RefundOrder(s, q).1.Settled? && s.ledger.orders[q.order].kind == SkillPlan
    requires q.order in s.subByOrder
    ensures var s2 := Run(RefundOrder(s, q).0, ops);
            var answer := A.Resolve(s2.access, query);
            answer.Some? ==> s2.access.entitlements[answer.value].subscriptionId != s.subByOrder[q.order]
  {
    hide LedgerOk, IndexesOk, OutboxOk, A.Valid, PlansOk;
    var s1 := RefundOrder(s, q).0;
    RefundKeepsInv(s, q);
    RefundMarksOrder(s, q);
    RefundedStays(s1, ops, q.order);
    RunKeepsInv(s1, ops);
  }

  lemma RefundMarksOrder(s: State, q: RefundRequest)
    requires Inv(s) && RefundOrder(s, q).1.Settled? && s.ledger.orders[q.order].kind == SkillPlan && q.order in s.subByOrder
    ensures var s1 := RefundOrder(s, q).0;
            && q.order < |s1.ledger.orders| && s1.ledger.orders[q.order].status == Refunded
            && q.order in s1.subByOrder && s1.subByOrder[q.order] == s.subByOrder[q.order]
  {
    hide LedgerOk, OutboxOk, A.Valid, PlansOk, RevokeAll, RevokedOf;
    assert SettledAs(s.books.byOrder, q.order, s.ledger.orders[q.order].status);
  }

  lemma RefundedStep(s: State, op: Op, o: nat)
    requires Inv(s) && o < |s.ledger.orders| && s.ledger.orders[o].status == Refunded && o in s.subByOrder
    ensures var s1 := Apply(s, op);
            && o < |s1.ledger.orders| && s1.ledger.orders[o].status == Refunded
            && o in s1.subByOrder && s1.subByOrder[o] == s.subByOrder[o]
  {
    hide LedgerOk, IndexesOk, OrdersOk, OutboxOk, A.Valid, PlansOk, OpenAccess, CloseAccess, File, A.Grant, A.UpdateStatus, A.RevokeEntitlement, O.Apply;
    if op.PayOp? && Lookup(s.books, Payment, op.pay.order, op.pay.key, op.pay.hash, Some(op.pay.payMethod), op.pay.providerRef) == New &&
       PayProblem(s, op.pay).None? && s.ledger.orders[op.pay.order].kind == SkillPlan {
      PayOpensNew(s, op.pay);
    }
  }

  lemma {:induction false} RefundedStays(s: State, ops: seq<Op>, o: nat)
    requires Inv(s) && LegalRun(ops) && o < |s.ledger.orders| && s.ledger.orders[o].status == Refunded && o in s.subByOrder
    ensures var s2 := Run(s, ops);
            && o < |s2.ledger.orders| && s2.ledger.orders[o].status == Refunded
            && o in s2.subByOrder && s2.subByOrder[o] == s.subByOrder[o]
    decreases |ops|
  {
    hide LedgerOk, IndexesOk, OrdersOk, OutboxOk, A.Valid, PlansOk, LinkOk, Apply;
    if ops != [] {
      assert Legal(ops[0]);
      ApplyKeepsInv(s, ops[0]);
      RefundedStep(s, ops[0], o);
      RefundedStays(Apply(s, ops[0]), ops[1..], o);
    }
  }
}
