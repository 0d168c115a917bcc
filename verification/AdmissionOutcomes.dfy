/**
 * What admission answers, in the fields of its tables: when a request is admitted, what its row says,
 * how long its lease lasts, and what a release does.
 */
module AdmissionOutcomes {
  import opened Prelude
  import opened SkillExecution
  import opened ExecutionLimits
  import Access = SkillAccess

  // ---------------------------------------------------------------- the request

  predicate Named(s: string) { 1 <= |s| <= 256 }

  /** A request is malformed exactly outside these bounds, and then changes nothing. */
  lemma MalformedExactly(s: State, q: Request)
    ensures Reserve(s, q).1 == Rejected(InvalidRequest, None) <==>
            !(&& Named(q.taskId) && Named(q.userId) && Named(q.tenantId) && Named(q.deviceId) && Named(q.agentId)
              && Named(q.skillId) && Named(q.planId) && q.subscription != Some(Garbled)
              && (q.inputDigest.None? || 1 <= |q.inputDigest.value| <= 512)
              && q.now.Some? && (q.leaseTtlMs.None? || 1_000 <= q.leaseTtlMs.value <= 900_000))
    ensures Reserve(s, q).1 == Rejected(InvalidRequest, None) ==> Reserve(s, q).0 == s
  {
    hide ChosenSubscription, ExpireRows, NextExpiry;
  }

  predicate Fits(sub: Access.Subscription, q: Request) {
    sub.planId == q.planId && sub.userId == q.userId && sub.tenantId == q.tenantId
  }

  /** The subscription a request counts against: the asserted one, or else the newest that fits, the first among equals. */
  predicate Picks(a: Access.State, q: Request, sub: nat) {
    && sub < |a.subscriptions| && Fits(a.subscriptions[sub], q)
    && match q.subscription
       case Some(Id(id)) => sub == id
       case Some(Garbled) => false
       case None => forall j :: 0 <= j < |a.subscriptions| && Fits(a.subscriptions[j], q) ==>
                      || a.subscriptions[j].createdAt < a.subscriptions[sub].createdAt
                      || (a.subscriptions[j].createdAt == a.subscriptions[sub].createdAt && sub <= j)
  }

  lemma ChosenIsPicked(a: Access.State, q: Request, sub: nat)
    ensures ChosenSubscription(a, q) == Some(sub) <==> Picks(a, q, sub)
  {
    assert forall j :: 0 <= j < |a.subscriptions| ==> Fits(a.subscriptions[j], q) == Subscribes(a.subscriptions[j], q);
  }

  // ---------------------------------------------------------------- what a fresh admission writes

  /** The default lease is five minutes. */
  function AskedLease(q: Request): int { if q.leaseTtlMs.Some? then q.leaseTtlMs.value else 5 * 60 * 1_000 }

  predicate IsRowOf(r: Reservation, a: Access.State, q: Request) {
    && r.taskId == q.taskId && r.userId == q.userId && r.tenantId == q.tenantId && r.deviceId == q.deviceId
    && r.agentId == q.agentId && r.skillId == q.skillId && r.planId == q.planId && r.inputDigest == q.inputDigest
    && Picks(a, q, r.subscriptionId) && r.periodStart == a.subscriptions[r.subscriptionId].startsAt
    && q.now == Some(r.reservedAt) && r.leaseExpiresAt == r.reservedAt + AskedLease(q) && r.releasedAt.None?
  }

  /** A row whose lease is over by `now` is marked released at `now`; any other row stays. */
  predicate SweptTo(rows: seq<Reservation>, rows': seq<Reservation>, now: int) {
    && |rows'| == |rows|
    && forall i :: 0 <= i < |rows| ==>
         rows'[i] == if rows[i].releasedAt.None? && rows[i].leaseExpiresAt <= now then rows[i].(releasedAt := Some(now)) else rows[i]
  }

  /**
   * A fresh admission appends one row with the request's own fields and a lease as long as asked, five
   * minutes if nothing is asked, indexes it by its task, and otherwise only sweeps.
   */
  lemma FreshRowMeans(s: State, q: Request, id: nat)
    requires q.taskId !in s.byTask && Reserve(s, q).1 == Admitted(id)
    ensures var s' := Reserve(s, q).0;
            && q.now.Some? && s'.access == s.access && s'.byTask == s.byTask[q.taskId := id]
            && id == |s.rows| && |s'.rows| == id + 1
            && SweptTo(s.rows, s'.rows[..id], q.now.value) && IsRowOf(s'.rows[id], s.access, q)
  {
    hide Refusal, ChosenSubscription;
    ChosenIsPicked(s.access, q, ChosenSubscription(s.access, q).value);
    assert s.byTask - {q.taskId} == s.byTask;
  }

  // ---------------------------------------------------------------- a lease lasts until its expiry

  /** The operation releases row `id` of task `taskId`, if anyone's. */
  predicate Frees(op: Op, id: nat, taskId: string) {
    && op.ReleaseOp?
    && (op.release.reservation == Some(id) || (op.release.reservation.None? && op.release.taskId == Some(taskId)))
  }

  predicate Earlier(op: Op, until: int) { OpTime(op).Some? ==> OpTime(op).value < until }

  lemma StepSparesRow(s: State, op: Op, id: nat)
    requires Indexed(s) && id < |s.rows| && !Frees(op, id, s.rows[id].taskId)
    requires s.rows[id].releasedAt.None? && Earlier(op, s.rows[id].leaseExpiresAt)
    ensures Indexed(Apply(s, op)) && id < |Apply(s, op).rows| && Apply(s, op).rows[id] == s.rows[id]
  {
    hide Refusal, ChosenSubscription, SameBinding, NewRow, Name;
    match op {
      case ReserveOp(q) => ReserveKeepsIndex(s, q);
      case ReleaseOp(q) => ReleaseKeepsIndex(s, q);
      case ChangeOp(_) =>
    }
  }

  lemma {:induction false} RunSparesRow(s: State, ops: seq<Op>, id: nat)
    requires Indexed(s) && id < |s.rows| && s.rows[id].releasedAt.None?
    requires forall k :: 0 <= k < |ops| ==> !Frees(ops[k], id, s.rows[id].taskId) && Earlier(ops[k], s.rows[id].leaseExpiresAt)
    ensures id < |Final(s, ops).rows| && Final(s, ops).rows[id] == s.rows[id]
    decreases |ops|
  {
    hide Apply, Indexed, Frees;
    if ops != [] {
      StepSparesRow(s, ops[0], id);
      RunSparesRow(Apply(s, ops[0]), ops[1..], id);
    }
  }

  /**
   * The lease of a fresh admission lasts exactly as long as asked: over every run that does not release
   * the row, under any clock that stays before the expiry, the row keeps its caller's slot.
   */
  lemma LeaseLasts(s: State, q: Request, id: nat, ops: seq<Op>)
    requires Indexed(s) && q.taskId !in s.byTask && Reserve(s, q).1 == Admitted(id) && q.now.Some?
    requires forall k :: 0 <= k < |ops| ==> !Frees(ops[k], id, q.taskId) && Earlier(ops[k], q.now.value + AskedLease(q))
    ensures var rows := Final(Reserve(s, q).0, ops).rows;
            && id < |rows| && IsRowOf(rows[id], s.access, q)
            && rows[id].releasedAt.None? && rows[id].leaseExpiresAt == q.now.value + AskedLease(q)
  {
    hide Reserve, Indexed;
    assert Indexed(Reserve(s, q).0) by { ReserveKeepsIndex(s, q); }
    FreshRowMeans(s, q, id);
    RunSparesRow(Reserve(s, q).0, ops, id);
  }

  // ---------------------------------------------------------------- when a request is admitted

  function CallsOf(rows: seq<Reservation>, sub: nat, skillId: string): nat {
    Count(rows, (r: Reservation) => r.subscriptionId == sub && r.skillId == skillId)
  }

  predicate SameDevice(r: Reservation, sub: nat, q: Request) {
    r.subscriptionId == sub && r.tenantId == q.tenantId && r.userId == q.userId && r.deviceId == q.deviceId
  }

  /** Calls of the requesting device in the aligned minute of `now`. */
  function MinuteCalls(rows: seq<Reservation>, sub: nat, q: Request, now: int): nat {
    Count(rows, (r: Reservation) => SameDevice(r, sub, q) && now / 60_000 * 60_000 <= r.reservedAt < now / 60_000 * 60_000 + 60_000)
  }

  /** Leases of the requesting device that run beyond `at`. */
  function TakenSlots(rows: seq<Reservation>, sub: nat, q: Request, at: int): nat {
    Count(rows, (r: Reservation) => SameDevice(r, sub, q) && r.releasedAt.None? && at < r.leaseExpiresAt)
  }

  predicate Running(sub: Access.Subscription, now: int) {
    sub.status == Access.Active && sub.startsAt <= now < sub.expiresAt
  }

  /** The Skill is in the plan, and some granted, unexpired entitlement of the subscription covers it. */
  predicate Covered(a: Access.State, q: Request, sub: nat, now: int)
    requires q.planId in a.plans
  {
    && q.skillId in a.plans[q.planId].skillIds
    && exists e :: e in a.entitlements && e.subscriptionId == sub && e.userId == q.userId && e.tenantId == q.tenantId
                   && e.skillId == q.skillId && e.planId == q.planId && e.status == Access.Granted && now < e.expiresAt
  }

  /** The answer to a fresh, well-formed request, from the plan, the subscription and the whole usage. */
  function Verdict(s: State, q: Request, sub: nat, now: int): Option<Reason>
    requires sub < |s.access.subscriptions|
  {
    if q.planId !in s.access.plans then Some(PlanMismatch)
    else if !Running(s.access.subscriptions[sub], now) then Some(SubscriptionInactive)
    else if !Covered(s.access, q, sub, now) then Some(SkillNotEntitled)
    else
      var plan := s.access.plans[q.planId];
      if CallsOf(s.rows, sub, q.skillId) >= plan.includedCalls then Some(QuotaExceeded)
      else if MinuteCalls(s.rows, sub, q, now) >= plan.requestsPerMinute then Some(RateLimited)
      else if TakenSlots(s.rows, sub, q, now) >= plan.maxConcurrency then Some(ConcurrencyLimit)
      else None
  }

  lemma CoveredIsEntitled(a: Access.State, q: Request, sub: nat, now: int)
    requires q.planId in a.plans
    ensures Covered(a, q, sub, now) <==> q.skillId in a.plans[q.planId].skillIds && Entitled(a, sub, q, now)
  {
    if q.skillId in a.plans[q.planId].skillIds {
      if Entitled(a, sub, q, now) {
        var i :| 0 <= i < |a.entitlements| && Entitles(a.entitlements[i], sub, q, now);
        assert a.entitlements[i] in a.entitlements;
      }
      if e :| e in a.entitlements && Entitles(e, sub, q, now) {
        var i :| 0 <= i < |a.entitlements| && a.entitlements[i] == e;
      }
    }
  }

  lemma QuotaFigure(s: State, sub: nat, skillId: string, now: int)
    requires Inv(s, now) && HasPlan(s.access, sub)
    ensures SkillCallsIn(s.rows, sub, skillId, s.access.subscriptions[sub].startsAt, now) == CallsOf(s.rows, sub, skillId)
  {
    CycleCountIsTotal(s, sub, skillId, now);
    hide Inv;
    CountEq(s.rows, (r: Reservation) => IsSkillCall(r, sub, skillId), s.rows,
      (r: Reservation) => r.subscriptionId == sub && r.skillId == skillId);
  }

  lemma RateFigure(s: State, sub: nat, q: Request, now: int)
    requires Inv(s, now)
    ensures CallsIn(s.rows, Caller(sub, q.tenantId, q.userId, q.deviceId), MinuteStart(now), now) == MinuteCalls(s.rows, sub, q, now)
  {
    var c := Caller(sub, q.tenantId, q.userId, q.deviceId);
    MinuteCountIsWhole(s, c, now);
    hide Inv;
    CountEq(s.rows, (r: Reservation) => CallerOf(r) == c && now / MINUTE_MS * MINUTE_MS <= r.reservedAt <= now / MINUTE_MS * MINUTE_MS + MINUTE_MS - 1,
      s.rows, (r: Reservation) => SameDevice(r, sub, q) && now / 60_000 * 60_000 <= r.reservedAt < now / 60_000 * 60_000 + 60_000);
  }

  lemma SlotFigure(rows: seq<Reservation>, sub: nat, q: Request, now: int)
    ensures LiveLeases(rows, Caller(sub, q.tenantId, q.userId, q.deviceId), now) == TakenSlots(rows, sub, q, now)
  {
    var c := Caller(sub, q.tenantId, q.userId, q.deviceId);
    CountEq(rows, (r: Reservation) => Holds(r, c, now), rows,
      (r: Reservation) => SameDevice(r, sub, q) && r.releasedAt.None? && now < r.leaseExpiresAt);
  }

  /** A sweep changes none of the three figures. */
  lemma SweepKeepsFigures(rows: seq<Reservation>, sub: nat, q: Request, now: int)
    ensures var swept := ExpireRows(rows, now);
            && CallsOf(swept, sub, q.skillId) == CallsOf(rows, sub, q.skillId)
            && MinuteCalls(swept, sub, q, now) == MinuteCalls(rows, sub, q, now)
            && TakenSlots(swept, sub, q, now) == TakenSlots(rows, sub, q, now)
  {
    var swept := ExpireRows(rows, now);
    CountEq(swept, (r: Reservation) => r.subscriptionId == sub && r.skillId == q.skillId,
      rows, (r: Reservation) => r.subscriptionId == sub && r.skillId == q.skillId);
    CountEq(swept, (r: Reservation) => SameDevice(r, sub, q) && now / 60_000 * 60_000 <= r.reservedAt < now / 60_000 * 60_000 + 60_000,
      rows, (r: Reservation) => SameDevice(r, sub, q) && now / 60_000 * 60_000 <= r.reservedAt < now / 60_000 * 60_000 + 60_000);
    CountEq(swept, (r: Reservation) => SameDevice(r, sub, q) && r.releasedAt.None? && now < r.leaseExpiresAt,
      rows, (r: Reservation) => SameDevice(r, sub, q) && r.releasedAt.None? && now < r.leaseExpiresAt);
  }

  /** The three figures the gates look at, over swept rows, are the whole usage. */
  lemma FiguresAreWhole(s: State, clock: int, q: Request, sub: nat)
    requires q.now.Some? && Inv(s, clock) && clock <= q.now.value && HasPlan(s.access, sub)
    ensures var now, rows := q.now.value, ExpireRows(s.rows, q.now.value);
            var c := Caller(sub, q.tenantId, q.userId, q.deviceId);
            && SkillCallsIn(rows, sub, q.skillId, s.access.subscriptions[sub].startsAt, now) == CallsOf(s.rows, sub, q.skillId)
            && CallsIn(rows, c, MinuteStart(now), now) == MinuteCalls(s.rows, sub, q, now)
            && LiveLeases(rows, c, now) == TakenSlots(s.rows, sub, q, now)
  {
    var now := q.now.value;
    hide Inv, CallsOf, MinuteCalls, TakenSlots, SkillCallsIn, CallsIn, LiveLeases, ExpireRows;
    var swept := s.(rows := ExpireRows(s.rows, now));
    SweepKeepsInv(s, clock, now);
    SweepKeepsFigures(s.rows, sub, q, now);
    QuotaFigure(swept, sub, q.skillId, now);
    RateFigure(swept, sub, q, now);
    SlotFigure(swept.rows, sub, q, now);
  }

  /** The gates decide as the verdict, given the figures. */
  lemma GatesAreVerdict(s: State, swept: State, q: Request, sub: nat)
    requires q.now.Some? && ChosenSubscription(s.access, q) == Some(sub) && swept.access == s.access
    requires HasPlan(s.access, sub) ==>
               var c := Caller(sub, q.tenantId, q.userId, q.deviceId);
               && SkillCallsIn(swept.rows, sub, q.skillId, s.access.subscriptions[sub].startsAt, q.now.value) == CallsOf(s.rows, sub, q.skillId)
               && CallsIn(swept.rows, c, MinuteStart(q.now.value), q.now.value) == MinuteCalls(s.rows, sub, q, q.now.value)
               && LiveLeases(swept.rows, c, q.now.value) == TakenSlots(s.rows, sub, q, q.now.value)
    ensures Refusal(swept, q).None? <==> Verdict(s, q, sub, q.now.value).None?
    ensures Refusal(swept, q).Some? ==> Some(Refusal(swept, q).value.reason) == Verdict(s, q, sub, q.now.value)
  {
    if q.planId in s.access.plans {
      CoveredIsEntitled(s.access, q, sub, q.now.value);
    }
    hide NextExpiry, CallsOf, MinuteCalls, TakenSlots, SkillCallsIn, CallsIn, LiveLeases, Covered, Entitled;
  }

  /**
   * A fresh request is admitted exactly if its plan and subscription run, an entitlement covers the
   * Skill, and the whole usage leaves room under all three limits; otherwise the first of these that
   * fails is the reason.
   */
  lemma OutcomeExactly(s: State, clock: int, q: Request, sub: nat)
    requires Inv(s, clock) && WellFormed(q) && clock <= q.now.value && q.taskId !in s.byTask && Picks(s.access, q, sub)
    ensures match Reserve(s, q).1
            case Admitted(_) => Verdict(s, q, sub, q.now.value).None?
            case Rejected(reason, _) => Verdict(s, q, sub, q.now.value) == Some(reason)
  {
    var swept := s.(rows := ExpireRows(s.rows, q.now.value));
    ChosenIsPicked(s.access, q, sub);
    if HasPlan(s.access, sub) {
      FiguresAreWhole(s, clock, q, sub);
    }
    GatesAreVerdict(s, swept, q, sub);
    assert s.byTask - {q.taskId} == s.byTask;
    hide Inv, Refusal, Verdict, ExpireRows, ChosenSubscription;
  }

  /** Without a subscription that fits, a fresh request is a mismatch. */
  lemma NothingPicked(s: State, q: Request)
    requires WellFormed(q) && q.taskId !in s.byTask && forall sub: nat :: !Picks(s.access, q, sub)
    ensures Reserve(s, q).1 == Rejected(PlanMismatch, None)
  {
    hide ExpireRows, NextExpiry;
    if ChosenSubscription(s.access, q).Some? {
      ChosenIsPicked(s.access, q, ChosenSubscription(s.access, q).value);
    }
    hide ChosenSubscription, Picks;
  }

  // ---------------------------------------------------------------- a full caller waits

  /** No operation of the run releases a lease of this device, and all come before `until`. */
  ghost predicate Spares(s: State, ops: seq<Op>, sub: nat, q: Request, until: int)
    decreases |ops|
  {
    ops == [] ||
    (&& Earlier(ops[0], until)
     && (forall i :: 0 <= i < |s.rows| && SameDevice(s.rows[i], sub, q) ==> !Frees(ops[0], i, s.rows[i].taskId))
     && Spares(Apply(s, ops[0]), ops[1..], sub, q, until))
  }

  /** Leases of the device that run at least until `until`. */
  function LongLeases(rows: seq<Reservation>, sub: nat, q: Request, until: int): nat {
    Count(rows, (r: Reservation) => SameDevice(r, sub, q) && r.releasedAt.None? && until <= r.leaseExpiresAt)
  }

  lemma {:induction false} CountPrefix(rows: seq<Reservation>, rows': seq<Reservation>, p: Reservation -> bool)
    requires |rows| <= |rows'| && forall i :: 0 <= i < |rows| ==> p(rows[i]) ==> p(rows'[i])
    ensures Count(rows, p) <= Count(rows', p)
    decreases |rows'|
  {
    if |rows| == |rows'| {
      CountLe(rows, p, rows', p);
    } else {
      CountPrefix(rows, rows'[..|rows'| - 1], p);
    }
  }

  lemma {:induction false} LongLeasesStay(s: State, ops: seq<Op>, sub: nat, q: Request, until: int)
    requires Indexed(s) && Spares(s, ops, sub, q, until)
    ensures LongLeases(s.rows, sub, q, until) <= LongLeases(Final(s, ops).rows, sub, q, until)
    decreases |ops|
  {
    hide Apply, Indexed, Frees;
    if ops != [] {
      var s1 := Apply(s, ops[0]);
      StepKeepsHistory(s, ops[0]);
      assert Indexed(s1) by { StepKeepsIndex(s, ops[0]); }
      forall i | 0 <= i < |s.rows| && SameDevice(s.rows[i], sub, q) && s.rows[i].releasedAt.None? && until <= s.rows[i].leaseExpiresAt
        ensures s1.rows[i] == s.rows[i]
      {
        StepSparesRow(s, ops[0], i);
      }
      CountPrefix(s.rows, s1.rows, (r: Reservation) => SameDevice(r, sub, q) && r.releasedAt.None? && until <= r.leaseExpiresAt);
      LongLeasesStay(s1, ops[1..], sub, q, until);
    }
  }

  lemma StepKeepsIndex(s: State, op: Op)
    requires Indexed(s)
    ensures Indexed(Apply(s, op))
  {
    match op {
      case ReserveOp(q) => ReserveKeepsIndex(s, q);
      case ReleaseOp(q) => ReleaseKeepsIndex(s, q);
      case ChangeOp(_) =>
    }
  }

  /**
   * A device whose leases fill its concurrency limit until some instant is refused every fresh request
   * before that instant, over every run that releases none of its leases; with access, quota and rate to
   * spare the reason is the concurrency limit.
   */
  lemma FullDeviceWaits(s: State, clock: int, ops: seq<Op>, q: Request, sub: nat, until: int)
    requires Inv(s, clock) && LegalRun(s, clock, ops) && Spares(s, ops, sub, q, until)
    requires var t := Final(s, ops);
             && WellFormed(q) && FinalClock(clock, ops) <= q.now.value < until && q.taskId !in t.byTask && Picks(t.access, q, sub)
             && (q.planId in t.access.plans ==> LongLeases(s.rows, sub, q, until) >= t.access.plans[q.planId].maxConcurrency)
    ensures var t := Final(s, ops);
            var o := Reserve(t, q).1;
            && o.Rejected?
            && (&& q.planId in t.access.plans && Running(t.access.subscriptions[sub], q.now.value) && Covered(t.access, q, sub, q.now.value)
                && CallsOf(t.rows, sub, q.skillId) < t.access.plans[q.planId].includedCalls
                && MinuteCalls(t.rows, sub, q, q.now.value) < t.access.plans[q.planId].requestsPerMinute
                ==> o.reason == ConcurrencyLimit)
  {
    var t := Final(s, ops);
    RunKeepsInv(s, clock, ops);
    assert Indexed(s);
    hide Inv, Final, LegalRun, Spares, Reserve, Indexed, WellFormed;
    LongLeasesStay(s, ops, sub, q, until);
    CountLe(t.rows, (r: Reservation) => SameDevice(r, sub, q) && r.releasedAt.None? && until <= r.leaseExpiresAt,
      t.rows, (r: Reservation) => SameDevice(r, sub, q) && r.releasedAt.None? && q.now.value < r.leaseExpiresAt);
    OutcomeExactly(t, FinalClock(clock, ops), q, sub);
    hide Picks, Covered, CallsOf, MinuteCalls;
  }

  // ---------------------------------------------------------------- reuse of a task

  /** A task that has a row answers from it: the row for the same request, a conflict for any other. */
  lemma ReuseMeans(s: State, q: Request)
    requires Indexed(s) && WellFormed(q) && q.taskId in s.byTask
    ensures var r := s.rows[s.byTask[q.taskId]];
            Reserve(s, q).1 ==
              if && r.userId == q.userId && r.tenantId == q.tenantId && r.deviceId == q.deviceId && r.agentId == q.agentId
                 && r.skillId == q.skillId && r.planId == q.planId && r.inputDigest == q.inputDigest
                 && (q.subscription.None? || q.subscription == Some(Id(r.subscriptionId)))
              then Admitted(s.byTask[q.taskId]) else Rejected(IdempotencyConflict, None)
    ensures SweptTo(s.rows, Reserve(s, q).0.rows, q.now.value)
  {
  }

  // ---------------------------------------------------------------- hints

  predicate OpenLease(r: Reservation, sub: nat, q: Request, at: int) {
    SameDevice(r, sub, q) && r.releasedAt.None? && at < r.leaseExpiresAt
  }

  predicate FirstToExpire(rows: seq<Reservation>, i: nat, sub: nat, q: Request, at: int) {
    && i < |rows| && OpenLease(rows[i], sub, q, at)
    && forall j :: 0 <= j < |rows| && OpenLease(rows[j], sub, q, at) ==> rows[i].leaseExpiresAt <= rows[j].leaseExpiresAt
  }

  /** The hint of a refusal is the least whole number of seconds, one at least, that reaches the instant waited for. */
  lemma HintsAreLeast(s: State, q: Request, hint: Option<int>)
    requires q.taskId !in s.byTask && WellFormed(q)
    ensures Reserve(s, q).1 == Rejected(RateLimited, hint) ==>
              var next := q.now.value / 60_000 * 60_000 + 60_000;
              hint.Some? && next <= q.now.value + 1_000 * hint.value < next + 1_000
    ensures Reserve(s, q).1 == Rejected(ConcurrencyLimit, hint) && hint.Some? ==>
              exists i: nat, sub: nat :: && Picks(s.access, q, sub) && FirstToExpire(s.rows, i, sub, q, q.now.value)
                && s.rows[i].leaseExpiresAt <= q.now.value + 1_000 * hint.value < s.rows[i].leaseExpiresAt + 1_000
    ensures Reserve(s, q).1.Rejected? && !(Reserve(s, q).1.reason in {RateLimited, ConcurrencyLimit}) ==>
              Reserve(s, q).1.retryAfterSeconds.None?
  {
    var swept := s.(rows := ExpireRows(s.rows, q.now.value));
    assert s.byTask - {q.taskId} == s.byTask;
    if Reserve(s, q).1 == Rejected(ConcurrencyLimit, hint) && hint.Some? {
      var sub := ChosenSubscription(s.access, q).value;
      ChosenIsPicked(s.access, q, sub);
      var c := Caller(sub, q.tenantId, q.userId, q.deviceId);
      var next := NextExpiry(swept.rows, c, q.now.value);
      var i :| 0 <= i < |swept.rows| && Holds(swept.rows[i], c, q.now.value) && swept.rows[i].leaseExpiresAt == next.value;
      assert OpenLease(s.rows[i], sub, q, q.now.value);
      forall j | 0 <= j < |s.rows| && OpenLease(s.rows[j], sub, q, q.now.value)
        ensures s.rows[i].leaseExpiresAt <= s.rows[j].leaseExpiresAt
      {
        assert Holds(swept.rows[j], c, q.now.value);
      }
      assert FirstToExpire(s.rows, i, sub, q, q.now.value);
    }
  }

  // ---------------------------------------------------------------- release

  predicate Agrees(r: Reservation, q: ReleaseRequest) {
    && (q.taskId.None? || r.taskId == q.taskId.value) && (q.userId.None? || r.userId == q.userId.value)
    && (q.tenantId.None? || r.tenantId == q.tenantId.value)
  }

  /** A release names a row by its number, or without one by its task. */
  predicate Addresses(s: State, q: ReleaseRequest, id: nat) {
    && id < |s.rows| && Agrees(s.rows[id], q)
    && match q.reservation
       case Some(r) => r == id
       case None => q.taskId == Some(s.rows[id].taskId) && s.rows[id].taskId != ""
  }

  /** A release that addresses a row whose lease still runs ends it now; every other release only sweeps, if its time parses. */
  lemma ReleaseExactly(s: State, q: ReleaseRequest, id: nat)
    requires Indexed(s) && q.now.Some? && id < |s.rows|
    ensures var (s', released) := Release(s, q);
            var open := s.rows[id].releasedAt.None? && s.rows[id].leaseExpiresAt > q.now.value;
            && s'.access == s.access && s'.byTask == s.byTask && |s'.rows| == |s.rows|
            && (Addresses(s, q, id) ==> released == open)
            && (Addresses(s, q, id) && open ==> SweptTo(s.rows[id := s.rows[id].(releasedAt := q.now)], s'.rows, q.now.value))
            && (released ==> exists i :: 0 <= i < |s.rows| && Addresses(s, q, i) && s.rows[i].releasedAt.None? && s.rows[i].leaseExpiresAt > q.now.value)
            && (!released ==> if q.reservation.None? && (q.taskId.None? || q.taskId.value == "") then s' == s
                              else SweptTo(s.rows, s'.rows, q.now.value))
  {
    if Release(s, q).1 {
      assert Addresses(s, q, ReleaseTarget(s.(rows := ExpireRows(s.rows, q.now.value)), q).value);
    }
  }
}
