/** When a payment, a refund and an adjustment go through, and what each writes, in the fields of the tables. */
module BillingOutcomes {
  import opened Prelude
  import opened Billing
  import opened BillingLaws
  import A = SkillAccess
  import L = ExecutionLimits
  import O = BillingOutbox

  // ---------------------------------------------------------------- requests that are not answered from the books

  /** The request has a key and a hash, and no settlement has its order and operation, or its operation and key. */
  predicate Unfiled(b: Books, op: Operation, order: nat, key: string, hash: string) {
    && key != "" && hash != ""
    && forall k :: 0 <= k < |b.settlements| ==>
         b.settlements[k].operation != op || (b.settlements[k].order != order && b.settlements[k].key != key)
  }

  lemma UnfiledIsNew(b: Books, op: Operation, order: nat, key: string, hash: string, payMethod: Option<Method>, providerRef: Option<string>)
    requires IndexesOk(b) && Unfiled(b, op, order, key, hash)
    ensures Lookup(b, op, order, key, hash, payMethod, providerRef) == New
  {
    LookupMeans(b, op, order, key, hash, payMethod, providerRef, 0);
    hide IndexesOk, Lookup;
  }

  predicate Alphanumeric(c: char) { 'A' <= c <= 'Z' || 'a' <= c <= 'z' || '0' <= c <= '9' }

  /** A provider reference: up to 256 letters, digits and some signs, the first a letter or digit. */
  predicate Reference(r: string) {
    && 1 <= |r| <= 256 && Alphanumeric(r[0])
    && forall i :: 0 <= i < |r| ==> Alphanumeric(r[i]) || r[i] in "._:/-"
  }

  lemma ReferenceIsValid(r: string)
    ensures ValidRef(Some(r)) <==> Reference(r)
  {
    assert forall c: char :: c in "._:/-" <==> c == '.' || c == '_' || c == ':' || c == '/' || c == '-';
  }

  // ---------------------------------------------------------------- payment

  /** What stands against paying an order, the first objection first. */
  function PaymentObjection(s: State, p: PayRequest): Option<Error> {
    if p.payMethod == Unknown then Some(InvalidPaymentMethod)
    else if p.payMethod == Provider && (p.providerRef.None? || !Reference(p.providerRef.value)) then Some(FulfillmentInvalid)
    else if !(p.order < |s.ledger.orders| && s.ledger.orders[p.order].userId == p.userId) then Some(OrderNotFound)
    else
      var order := s.ledger.orders[p.order];
      if order.status != Unpaid then Some(OrderNotPending)
      else if order.kind == Recharge && p.payMethod == Balance then Some(RechargeBalanceForbidden)
      else if p.userId !in s.ledger.users then Some(OrderNotFound)
      else if p.paidAt.None? then Some(FulfillmentInvalid)
      else if p.payMethod == Balance && s.ledger.users[p.userId] < order.amount then Some(InsufficientBalance)
      else if order.kind == PackPlan && (order.packId == "" || order.period.None?) then Some(FulfillmentInvalid)
      else if order.kind == SkillPlan &&
              (order.planId == "" || order.tenantId == "" || order.period.None? || order.planId !in s.access.plans)
      then Some(FulfillmentInvalid)
      else None
  }

  /**
   * A payment whose order and key are unused settles exactly if nothing stands against it; a refused one
   * changes nothing. No unpaid order has a subscription yet, so none can stand in the way.
   */
  lemma PaymentSettlesExactly(s: State, p: PayRequest)
    requires Inv(s) && Unfiled(s.books, Payment, p.order, p.key, p.hash)
    ensures match Pay(s, p).1
            case Settled(r) => PaymentObjection(s, p).None? && !r.replayed
            case Refused(e) => PaymentObjection(s, p) == Some(e) && Pay(s, p).0 == s
  {
    UnfiledIsNew(s.books, Payment, p.order, p.key, p.hash, Some(p.payMethod), p.providerRef);
    if p.providerRef.Some? { ReferenceIsValid(p.providerRef.value); }
    if p.order < |s.ledger.orders| {
      assert BalanceOk(s.ledger, p.userId);
      assert s.ledger.orders[p.order].status == Unpaid ==> p.order !in s.subByOrder;
    }
    hide Inv, LedgerOk, IndexesOk, OrdersOk, OutboxOk, A.Valid, PlansOk, LinkOk, BalanceOk, Lookup, Reference, ValidRef, PayCommit, Unfiled;
  }

  /** The wallet movement of a payment: a recharge credits its user, a payment from the balance debits, anything else moves nothing. */
  function Movement(order: Order, payMethod: Method): Option<(TxnKind, int)> {
    if order.kind == Recharge then Some((RechargeTxn, order.amount as int))
    else if payMethod == Balance then Some((PurchaseTxn, -(order.amount as int)))
    else None
  }

  predicate WalletMoved(l: Ledger, l': Ledger, userId: string, m: Option<(TxnKind, int)>, order: nat, settlement: nat) {
    match m
    case None => l'.users == l.users && l'.txns == l.txns
    case Some((kind, amount)) =>
      && userId in l.users
      && l'.users == l.users[userId := l.users[userId] + amount]
      && l'.txns == l.txns + [Txn(userId, kind, amount, l.users[userId] + amount, Some(order), Some(settlement))]
  }

  /** One more settlement with its frozen result, and its outbox row: never tried, free, and due at once. */
  predicate Recorded(s: State, s': State, t: Settlement, r: Result, uid: int, at: int) {
    var n := |s.books.settlements|;
    && s'.books.settlements == s.books.settlements + [t] && s'.books.results == s.books.results + [r]
    && r.settlement == t && !r.replayed && |s'.outbox.rows| == |s.outbox.rows| + 1
    && s'.outbox == s.outbox.(rows := s.outbox.rows + [r.outbox])
    && r.outbox.settlement == n && r.outbox.uid == uid && r.outbox.createdAt == at
    && r.outbox.attempts == 0 && r.outbox.availableAt == at && r.outbox.lockToken.None? && r.outbox.lockedUntil.None?
    && r.outbox.publishedAt.None? && r.outbox.deadLetteredAt.None? && r.outbox.lastError.None?
  }

  /** Everything a payment writes: order, wallet, settlement, result and outbox row; access only for a Skill order. */
  lemma PaymentWrites(s: State, p: PayRequest)
    requires Inv(s) && Pay(s, p).1.Settled? && !Pay(s, p).1.result.replayed
    ensures var (s', r) := (Pay(s, p).0, Pay(s, p).1.result);
            && p.order < |s.ledger.orders|
            && var order := s.ledger.orders[p.order];
               && s'.ledger.orders == s.ledger.orders[p.order := order.(status := Paid, payMethod := Some(p.payMethod), paidAt := p.paidAt)]
               && WalletMoved(s.ledger, s'.ledger, order.userId, Movement(order, p.payMethod), p.order, |s.books.settlements|)
               && Recorded(s, s', Settlement(p.order, Payment, p.key, p.hash, Some(p.payMethod),
                                             if p.providerRef == Some("") then None else p.providerRef, order.amount, p.at), r, p.uid, p.at)
               && r.order == s'.ledger.orders[p.order]
               && r.txn == (if Movement(order, p.payMethod).None? then None else Some(s'.ledger.txns[|s.ledger.txns|]))
               && if order.kind == SkillPlan then
                    && r.subscription == Some(s'.access.subscriptions[|s.access.subscriptions|])
                    && r.entitlements == s'.access.entitlements[|s.access.entitlements|..]
                  else s'.access == s.access && s'.subByOrder == s.subByOrder && r.subscription.None? && r.entitlements == []
  {
    hide LedgerOk, IndexesOk, OrdersOk, OutboxOk, A.Valid, LinkOk, PlansOk, WriteEntitlements, StagedEntitlements, ValidRef, File;
    PaymentParts(s, p);
    if s.ledger.orders[p.order].kind == SkillPlan {
      PaymentResult(s, p);
    }
  }

  /** The parts besides access. */
  lemma PaymentParts(s: State, p: PayRequest)
    requires Inv(s) && Pay(s, p).1.Settled? && !Pay(s, p).1.result.replayed
    ensures var (s', r) := (Pay(s, p).0, Pay(s, p).1.result);
            && p.order < |s.ledger.orders|
            && var order := s.ledger.orders[p.order];
               && s'.ledger.orders == s.ledger.orders[p.order := order.(status := Paid, payMethod := Some(p.payMethod), paidAt := p.paidAt)]
               && WalletMoved(s.ledger, s'.ledger, order.userId, Movement(order, p.payMethod), p.order, |s.books.settlements|)
               && Recorded(s, s', Settlement(p.order, Payment, p.key, p.hash, Some(p.payMethod),
                                             if p.providerRef == Some("") then None else p.providerRef, order.amount, p.at), r, p.uid, p.at)
               && r.order == s'.ledger.orders[p.order]
               && r.txn == (if Movement(order, p.payMethod).None? then None else Some(s'.ledger.txns[|s.ledger.txns|]))
               && (order.kind != SkillPlan ==>
                     s'.access == s.access && s'.subByOrder == s.subByOrder && r.subscription.None? && r.entitlements == [])
  {
    assert |s.books.results| == |s.books.settlements|;
    hide LedgerOk, IndexesOk, OrdersOk, OutboxOk, A.Valid, LinkOk, PlansOk, WriteEntitlements, StagedEntitlements, ValidRef, OpenAccess, OpenedSub;
  }

  lemma {:induction false} StagedAreNew(es: seq<A.Entitlement>, skills: seq<string>, id: nat, sub: A.Subscription, at: int)
    requires NoneOf(es, id)
    ensures StagedEntitlements(es, skills, id, sub, at) == NewEntitlements(id, sub, skills, at)
  {
    forall k | 0 <= k < |skills| ensures StagedEntitlement(es, id, sub, skills[k], at) == NewEntitlement(id, sub, skills[k], at) {
    }
  }

  /** The result of a paid Skill order shows the subscription and the entitlements written. */
  lemma PaymentResult(s: State, p: PayRequest)
    requires Inv(s) && Pay(s, p).1.Settled? && !Pay(s, p).1.result.replayed && s.ledger.orders[p.order].kind == SkillPlan
    ensures var (s', r) := (Pay(s, p).0, Pay(s, p).1.result);
            && |s'.access.subscriptions| == |s.access.subscriptions| + 1 && |s.access.entitlements| <= |s'.access.entitlements|
            && r.subscription == Some(s'.access.subscriptions[|s.access.subscriptions|])
            && r.entitlements == s'.access.entitlements[|s.access.entitlements|..]
  {
    PaymentOpensSubscription(s, p);
    PayOpensNew(s, p);
    var order, id := s.ledger.orders[p.order], |s.access.subscriptions|;
    var (_, sub) := OpenedSub(s, p.order, order, p.paidAt.value, p.at);
    hide LedgerOk, IndexesOk, OrdersOk, OutboxOk, A.Valid, LinkOk, PlansOk, WriteEntitlements, File, Post;
    StagedAreNew(s.access.entitlements, s.access.plans[order.planId].skillIds, id, sub, p.at);
    var es, new_ := s.access.entitlements, NewEntitlements(id, sub, s.access.plans[order.planId].skillIds, p.at);
    assert (es + new_)[|es|..] == new_;
  }

  /** A paid Skill order adds one entitlement per Skill of its plan, in plan order, up to the subscription's expiry, and keeps all rows there were. */
  lemma PaymentGrants(s: State, p: PayRequest, k: nat)
    requires Inv(s) && Pay(s, p).1.Settled? && !Pay(s, p).1.result.replayed && s.ledger.orders[p.order].kind == SkillPlan
    ensures var a, a', order := s.access, Pay(s, p).0.access, s.ledger.orders[p.order];
            && order.planId in a.plans && a'.plans == a.plans && |a'.subscriptions| == |a.subscriptions| + 1
            && a'.subscriptions[..|a.subscriptions|] == a.subscriptions
            && |a'.entitlements| == |a.entitlements| + |a.plans[order.planId].skillIds|
            && a'.entitlements[..|a.entitlements|] == a.entitlements
            && (k < |a.plans[order.planId].skillIds| ==>
                  a'.entitlements[|a.entitlements| + k] ==
                  A.Entitlement(|a.subscriptions|, order.tenantId, order.userId, a.plans[order.planId].skillIds[k], order.planId,
                                A.Granted, a'.subscriptions[|a.subscriptions|].expiresAt, p.at))
  {
    PaymentOpensSubscription(s, p);
    hide Inv, Pay;
  }

  // ---------------------------------------------------------------- refund

  /** A paid Skill order has its subscription, of its user and plan; a paid pack order names its pack. */
  ghost predicate Fulfilled(s: State) {
    forall o :: 0 <= o < |s.ledger.orders| && s.ledger.orders[o].status == Paid ==>
      && (s.ledger.orders[o].kind == PackPlan ==> s.ledger.orders[o].packId != "")
      && (s.ledger.orders[o].kind == SkillPlan ==> HasSub(s, o))
  }

  predicate HasSub(s: State, o: nat)
    requires o < |s.ledger.orders|
  {
    && o in s.subByOrder && s.subByOrder[o] < |s.access.subscriptions|
    && s.access.subscriptions[s.subByOrder[o]].userId == s.ledger.orders[o].userId
    && s.access.subscriptions[s.subByOrder[o]].planId == s.ledger.orders[o].planId
  }

  lemma PaidPackNamed(s: State, p: PayRequest)
    requires Pay(s, p).1.Settled? && !Pay(s, p).1.result.replayed
    ensures p.order < |s.ledger.orders| && (s.ledger.orders[p.order].kind == PackPlan ==> s.ledger.orders[p.order].packId != "")
  {
    hide PayCommit, Lookup, ValidRef;
  }

  lemma PayKeepsFulfilled(s: State, p: PayRequest)
    requires Inv(s) && Fulfilled(s)
    ensures Fulfilled(Pay(s, p).0)
  {
    hide Inv, Pay, Recorded, WalletMoved;
    if Pay(s, p).1.Settled? && !Pay(s, p).1.result.replayed {
      PaymentParts(s, p);
      PaidPackNamed(s, p);
      if s.ledger.orders[p.order].kind == SkillPlan { PaymentOpensSubscription(s, p); }
    } else {
      OnlyNewSettlementsChangeState(s, p, RefundRequest(0, None, "", "", None, false, 0, 0));
    }
  }

  lemma RefundKeepsFulfilled(s: State, q: RefundRequest)
    requires Fulfilled(s)
    ensures Fulfilled(RefundOrder(s, q).0)
  {
    hide RevokeAll, RevokedOf, File, Lookup, ValidRef;
  }

  lemma ApplyKeepsFulfilled(s: State, op: Op)
    requires Inv(s) && Fulfilled(s)
    ensures Fulfilled(Apply(s, op))
  {
    hide Inv, Pay, RefundOrder, O.Apply;
    match op {
      case PayOp(p) => PayKeepsFulfilled(s, p);
      case RefundOp(q) => RefundKeepsFulfilled(s, q);
      case _ =>
    }
  }

  lemma {:induction false} RunKeepsFulfilled(s: State, ops: seq<Op>)
    requires Inv(s) && Fulfilled(s) && LegalRun(ops)
    ensures Inv(Run(s, ops)) && Fulfilled(Run(s, ops))
    decreases |ops|
  {
    hide Inv, Fulfilled, Apply;
    if ops != [] {
      assert Legal(ops[0]);
      ApplyKeepsInv(s, ops[0]);
      ApplyKeepsFulfilled(s, ops[0]);
      RunKeepsFulfilled(Apply(s, ops[0]), ops[1..]);
    }
  }

  /** What stands against refunding an order, the first objection first. */
  function RefundObjection(l: Ledger, q: RefundRequest): Option<Error> {
    if q.order >= |l.orders| then Some(OrderNotFound)
    else if l.orders[q.order].kind == Recharge then Some(RechargeRefundForbidden)
    else if l.orders[q.order].status != Paid then Some(OrderNotPaid)
    else if q.refundedAt.None? || (q.providerRef.Some? && !Reference(q.providerRef.value)) then Some(FulfillmentInvalid)
    else if l.orders[q.order].kind == PackPlan && q.ambiguousLegacy then Some(NeedsReconciliation)
    else None
  }

  lemma RefundSettles(s: State, q: RefundRequest)
    requires Inv(s) && Fulfilled(s) && Unfiled(s.books, Refund, q.order, q.key, q.hash)
    ensures match RefundOrder(s, q).1
            case Settled(r) => RefundObjection(s.ledger, q).None? && !r.replayed
            case Refused(e) => RefundObjection(s.ledger, q) == Some(e) && RefundOrder(s, q).0 == s
  {
    UnfiledIsNew(s.books, Refund, q.order, q.key, q.hash, None, q.providerRef);
    if q.providerRef.Some? { ReferenceIsValid(q.providerRef.value); }
    assert q.order < |s.ledger.orders| && s.ledger.orders[q.order].status == Paid ==> s.ledger.orders[q.order].userId in s.ledger.users;
    assert q.order < |s.ledger.orders| && s.ledger.orders[q.order].status == Paid && s.ledger.orders[q.order].kind == SkillPlan ==> HasSub(s, q.order);
    hide Inv, LedgerOk, IndexesOk, Lookup, Reference, ValidRef, RefundCommit, Unfiled;
  }

  /**
   * In every run a refund whose order and key are unused settles exactly if its order is a paid plan order, its
   * time parses, its reference is absent or well formed, and no pack entitlement of unknown origin is in the
   * way: user, subscription and pack of a paid order are always found.
   */
  lemma RefundSettlesExactly(ops: seq<Op>, q: RefundRequest)
    requires LegalRun(ops) && Unfiled(Run(EMPTY, ops).books, Refund, q.order, q.key, q.hash)
    ensures var s := Run(EMPTY, ops);
            match RefundOrder(s, q).1
            case Settled(r) => RefundObjection(s.ledger, q).None? && !r.replayed
            case Refused(e) => RefundObjection(s.ledger, q) == Some(e) && RefundOrder(s, q).0 == s
  {
    EmptyInv();
    RunKeepsFulfilled(EMPTY, ops);
    hide Inv, Fulfilled, Unfiled, LegalRun, Run;
    RefundSettles(Run(EMPTY, ops), q);
  }

  /** Everything a refund writes: order, wallet, settlement, result, outbox row; and a Skill order's subscription with all its entitlements. */
  lemma RefundWrites(s: State, q: RefundRequest)
    requires Inv(s) && RefundOrder(s, q).1.Settled? && !RefundOrder(s, q).1.result.replayed
    ensures var (s', r) := (RefundOrder(s, q).0, RefundOrder(s, q).1.result);
            && q.order < |s.ledger.orders|
            && var order := s.ledger.orders[q.order];
               && s'.ledger.orders == s.ledger.orders[q.order := order.(status := Refunded, refundedAt := q.refundedAt)]
               && WalletMoved(s.ledger, s'.ledger, order.userId, Some((RefundTxn, order.amount as int)), q.order, |s.books.settlements|)
               && Recorded(s, s', Settlement(q.order, Refund, q.key, q.hash, if q.providerRef.None? then None else Some(Provider),
                                             q.providerRef, order.amount, q.at), r, q.uid, q.at)
               && r.order == s'.ledger.orders[q.order] && r.txn == Some(s'.ledger.txns[|s.ledger.txns|])
               && s'.subByOrder == s.subByOrder && s'.access.plans == s.access.plans
  {
    assert |s.books.results| == |s.books.settlements|;
    hide LedgerOk, IndexesOk, OrdersOk, OutboxOk, A.Valid, LinkOk, PlansOk, RevokeAll, RevokedOf, ValidRef;
  }

  /** A refunded Skill order's subscription is marked and every entitlement of it revoked, and no other touched. */
  lemma RefundRevokes(s: State, q: RefundRequest, i: nat)
    requires Inv(s) && RefundOrder(s, q).1.Settled? && !RefundOrder(s, q).1.result.replayed
    ensures var s' := RefundOrder(s, q).0;
            if s.ledger.orders[q.order].kind == SkillPlan then
              && q.order in s.subByOrder && s.subByOrder[q.order] < |s.access.subscriptions|
              && var id := s.subByOrder[q.order];
                 && s'.access.subscriptions == s.access.subscriptions[id := s.access.subscriptions[id].(status := A.Refunded)]
                 && |s'.access.entitlements| == |s.access.entitlements|
                 && (i < |s.access.entitlements| ==>
                       var e := s.access.entitlements[i];
                       s'.access.entitlements[i] == if e.subscriptionId == id then e.(status := A.Revoked) else e)
            else s'.access == s.access
  {
    hide LedgerOk, IndexesOk, OrdersOk, OutboxOk, A.Valid, LinkOk, PlansOk, RevokedOf, ValidRef, File, Post;
  }

  lemma {:induction false} RevokedAreListed(es: seq<A.Entitlement>, sub: nat)
    ensures |RevokedOf(es, sub)| == Count(es, (e: A.Entitlement) => e.subscriptionId == sub)
    ensures forall x :: x in RevokedOf(es, sub) <==> x in RevokeAll(es, sub) && x.subscriptionId == sub
  {
    if |es| > 0 {
      var front, last := es[..|es| - 1], es[|es| - 1];
      RevokedAreListed(front, sub);
      assert RevokeAll(es, sub) == RevokeAll(front, sub) + [if last.subscriptionId == sub then A.Revoke(last) else last];
    }
  }

  /** The result of a refund shows the marked subscription and exactly its entitlements, as they are now. */
  lemma RefundResult(s: State, q: RefundRequest)
    requires Inv(s) && RefundOrder(s, q).1.Settled? && !RefundOrder(s, q).1.result.replayed
    ensures var (s', r) := (RefundOrder(s, q).0, RefundOrder(s, q).1.result);
            if s.ledger.orders[q.order].kind == SkillPlan then
              && q.order in s.subByOrder && s.subByOrder[q.order] < |s'.access.subscriptions|
              && var id := s.subByOrder[q.order];
                 && r.subscription == Some(s'.access.subscriptions[id])
                 && |r.entitlements| == Count(s.access.entitlements, (e: A.Entitlement) => e.subscriptionId == id)
                 && forall x :: x in r.entitlements <==> x in s'.access.entitlements && x.subscriptionId == id
            else r.subscription.None? && r.entitlements == []
  {
    hide LedgerOk, IndexesOk, OrdersOk, OutboxOk, A.Valid, LinkOk, PlansOk, RevokeAll, RevokedOf, ValidRef, File, Post;
    if s.ledger.orders[q.order].kind == SkillPlan {
      RevokedAreListed(s.access.entitlements, s.subByOrder[q.order]);
    }
  }

  // ---------------------------------------------------------------- other steps of the ledger

  /** An adjustment of a known user that keeps the balance non-negative is booked; any other changes nothing. */
  lemma AdjustMeans(l: Ledger, userId: string, amount: int)
    ensures Adjust(l, userId, amount) ==
            if userId in l.users && l.users[userId] + amount >= 0 then
              Ledger(l.users[userId := l.users[userId] + amount], l.orders,
                     l.txns + [Txn(userId, AdjustTxn, amount, l.users[userId] + amount, None, None)])
            else l
  {
  }

  /** A new account is empty and an old one untouched; a new order is unpaid, whatever it claims. */
  lemma NewcomersMean(l: Ledger, userId: string, order: Order)
    ensures AddUser(l, userId).users == if userId in l.users then l.users else l.users[userId := 0]
    ensures AddUser(l, userId).orders == l.orders && AddUser(l, userId).txns == l.txns
    ensures var o := AddOrder(l, order);
            && |o.orders| == |l.orders| + 1 && o.orders[..|l.orders|] == l.orders && o.users == l.users && o.txns == l.txns
            && o.orders[|l.orders|] == Order(order.userId, order.kind, order.packId, order.planId, order.tenantId, order.period,
                                             order.amount, Unpaid, None, None, None)
  {
  }
}
