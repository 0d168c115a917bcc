/**
 * Execution admission under clocks that go back and forth: which limits need the clock to keep its
 * direction, and exactly when an admission respects them without it.
 */
module LaggingClock {
  import opened Prelude
  import opened SkillExecution
  import opened ExecutionLimits
  import Access = SkillAccess

  /** The request meets the gates instead of being answered from its task's row. */
  predicate IsFresh(s: State, q: Request) { !(q.taskId in s.byTask && s.byTask[q.taskId] < |s.rows|) }

  /** A fresh admission passes every gate over the swept rows and adds one row. */
  lemma FreshAdmission(s: State, q: Request)
    requires IsFresh(s, q) && Reserve(s, q).1.Admitted?
    ensures WellFormed(q) && ChosenSubscription(s.access, q).Some? && q.planId in s.access.plans
    ensures var swept := s.(rows := ExpireRows(s.rows, q.now.value), byTask := s.byTask - {q.taskId});
            && Refusal(swept, q).None?
            && Reserve(s, q).0.rows == swept.rows + [NewRow(s.access, q, ChosenSubscription(s.access, q).value)]
            && Reserve(s, q).0.access == s.access
  {
    hide Refusal, ExpireRows, ChosenSubscription;
  }

  /** What passing the gates means for the figures they look at. */
  lemma GatesPassed(s: State, q: Request, sub: nat)
    requires q.now.Some? && Refusal(s, q).None? && ChosenSubscription(s.access, q) == Some(sub)
    ensures var c := Caller(sub, q.tenantId, q.userId, q.deviceId);
            && HasPlan(s.access, sub) && PlanOf(s.access, sub) == s.access.plans[q.planId]
            && s.access.subscriptions[sub].startsAt <= q.now.value
            && LiveLeases(s.rows, c, q.now.value) < PlanOf(s.access, sub).maxConcurrency
  {
  }

  lemma SweepIsMarking(rows: seq<Reservation>, now: int)
    ensures SameUsage(rows, ExpireRows(rows, now))
  {
  }

  // ---------------------------------------------------------------- the quota

  /** Calls of a subscription and Skill later than `now`. */
  function SkillCallsAfter(rows: seq<Reservation>, sub: nat, skillId: string, now: int): nat {
    Count(rows, (r: Reservation) => IsSkillCall(r, sub, skillId) && r.reservedAt > now)
  }

  /** The whole usage is what the quota gate sees and what is later than its clock. */
  lemma UsageSplits(s: State, clock: int, sub: nat, skillId: string, now: int)
    requires forall i :: 0 <= i < |s.rows| ==> RowOk(s.access, s.rows[i], clock)
    requires sub < |s.access.subscriptions| && s.access.subscriptions[sub].startsAt <= now
    ensures SkillCalls(s.rows, sub, skillId) ==
            SkillCallsIn(s.rows, sub, skillId, s.access.subscriptions[sub].startsAt, now) + SkillCallsAfter(s.rows, sub, skillId, now)
  {
    var from := s.access.subscriptions[sub].startsAt;
    forall i | 0 <= i < |s.rows| ensures IsSkillCall(s.rows[i], sub, skillId) ==> from <= s.rows[i].reservedAt {
      assert RowOk(s.access, s.rows[i], clock);
    }
    CountParts(s.rows, (r: Reservation) => IsSkillCall(r, sub, skillId),
      (r: Reservation) => IsSkillCall(r, sub, skillId) && from <= r.reservedAt <= now,
      (r: Reservation) => IsSkillCall(r, sub, skillId) && r.reservedAt > now);
  }

  lemma AppendQuota(s: State, s': State, row: Reservation)
    requires WithinQuota(s) && HasPlan(s.access, row.subscriptionId) && s'.access == s.access && s'.rows == s.rows + [row]
    ensures WithinQuota(s') <==>
            SkillCalls(s.rows, row.subscriptionId, row.skillId) < PlanOf(s.access, row.subscriptionId).includedCalls
  {
    var sub, skillId := row.subscriptionId, row.skillId;
    CountSnoc(s.rows, row, (r: Reservation) => IsSkillCall(r, sub, skillId));
    assert SkillCalls(s'.rows, sub, skillId) == SkillCalls(s.rows, sub, skillId) + 1;
    if SkillCalls(s.rows, sub, skillId) < PlanOf(s.access, sub).includedCalls {
      AppendKeepsQuota(s, row);
      assert s.(rows := s.rows + [row]).rows == s'.rows;
    }
  }

  /**
   * Whatever the clock: a fresh admission keeps the quota if and only if the gate's figure together
   * with the calls later than the request's clock is below the included calls.
   */
  lemma QuotaKeptExactly(s: State, clock: int, q: Request)
    requires forall i :: 0 <= i < |s.rows| ==> RowOk(s.access, s.rows[i], clock)
    requires WithinQuota(s) && IsFresh(s, q) && Reserve(s, q).1.Admitted?
    ensures ChosenSubscription(s.access, q).Some? && q.planId in s.access.plans && q.now.Some?
    ensures var sub := ChosenSubscription(s.access, q).value;
            WithinQuota(Reserve(s, q).0) <==>
            SkillCallsIn(s.rows, sub, q.skillId, s.access.subscriptions[sub].startsAt, q.now.value)
            + SkillCallsAfter(s.rows, sub, q.skillId, q.now.value) < s.access.plans[q.planId].includedCalls
  {
    FreshAdmission(s, q);
    var now, sub := q.now.value, ChosenSubscription(s.access, q).value;
    var swept := s.(rows := ExpireRows(s.rows, now), byTask := s.byTask - {q.taskId});
    hide Reserve, Refusal, ChosenSubscription, SkillCallsIn, SkillCallsAfter, ExpireRows, RowOk, WellFormed;
    GatesPassed(swept, q, sub);
    UsageSplits(s, clock, sub, q.skillId, now);
    SweepIsMarking(s.rows, now);
    SameUsageCounts(s.rows, swept.rows);
    assert WithinQuota(swept);
    AppendQuota(swept, Reserve(s, q).0, NewRow(s.access, q, sub));
  }

  /** So the quota gate counts the whole usage exactly if no call is later than the request's own clock. */
  lemma QuotaGateIsExact(s: State, clock: int, sub: nat, skillId: string, now: int)
    requires forall i :: 0 <= i < |s.rows| ==> RowOk(s.access, s.rows[i], clock)
    requires sub < |s.access.subscriptions| && s.access.subscriptions[sub].startsAt <= now
    ensures SkillCallsIn(s.rows, sub, skillId, s.access.subscriptions[sub].startsAt, now) == SkillCalls(s.rows, sub, skillId) <==>
            forall i :: 0 <= i < |s.rows| && IsSkillCall(s.rows[i], sub, skillId) ==> s.rows[i].reservedAt <= now
  {
    UsageSplits(s, clock, sub, skillId, now);
    var p := (r: Reservation) => IsSkillCall(r, sub, skillId) && r.reservedAt > now;
    if Count(s.rows, p) > 0 {
      var k := CountWitness(s.rows, p);
      assert IsSkillCall(s.rows[k], sub, skillId);
    } else if i :| 0 <= i < |s.rows| && p(s.rows[i]) {
      CountLt(s.rows, (r: Reservation) => false, s.rows, p, i);
    }
  }

  // ---------------------------------------------------------------- the rate

  function MinuteEnd(t: int): int { MinuteStart(t) + MINUTE_MS - 1 }

  lemma MinuteSplits(rows: seq<Reservation>, c: Caller, now: int)
    ensures CallsInMinute(rows, c, now / MINUTE_MS) ==
            CallsIn(rows, c, MinuteStart(now), now) + CallsIn(rows, c, now + 1, MinuteEnd(now))
  {
    var m := now / MINUTE_MS;
    CountParts(rows,
      (r: Reservation) => CallerOf(r) == c && m * MINUTE_MS <= r.reservedAt <= m * MINUTE_MS + MINUTE_MS - 1,
      (r: Reservation) => CallerOf(r) == c && MinuteStart(now) <= r.reservedAt <= now,
      (r: Reservation) => CallerOf(r) == c && now + 1 <= r.reservedAt <= MinuteEnd(now));
  }

  lemma AppendRate(s: State, s': State, row: Reservation)
    requires WithinRate(s) && HasPlan(s.access, row.subscriptionId) && s'.access == s.access && s'.rows == s.rows + [row]
    ensures WithinRate(s') <==>
            CallsInMinute(s.rows, CallerOf(row), row.reservedAt / MINUTE_MS) < PlanOf(s.access, row.subscriptionId).requestsPerMinute
  {
    var c, m := CallerOf(row), row.reservedAt / MINUTE_MS;
    CountSnoc(s.rows, row,
      (r: Reservation) => CallerOf(r) == c && m * MINUTE_MS <= r.reservedAt <= m * MINUTE_MS + MINUTE_MS - 1);
    assert CallsInMinute(s'.rows, c, m) == CallsInMinute(s.rows, c, m) + 1;
    if CallsInMinute(s.rows, c, m) < PlanOf(s.access, row.subscriptionId).requestsPerMinute {
      AppendKeepsRate(s, row);
      assert s.(rows := s.rows + [row]).rows == s'.rows;
    }
  }

  /**
   * Whatever the clock: a fresh admission keeps the rate if and only if the gate's figure together with
   * the caller's calls later in the same aligned minute is below the rate.
   */
  lemma RateKeptExactly(s: State, q: Request)
    requires WithinRate(s) && IsFresh(s, q) && Reserve(s, q).1.Admitted?
    ensures ChosenSubscription(s.access, q).Some? && q.planId in s.access.plans && q.now.Some?
    ensures var c := Caller(ChosenSubscription(s.access, q).value, q.tenantId, q.userId, q.deviceId);
            WithinRate(Reserve(s, q).0) <==>
            CallsIn(s.rows, c, MinuteStart(q.now.value), q.now.value) + CallsIn(s.rows, c, q.now.value + 1, MinuteEnd(q.now.value))
            < s.access.plans[q.planId].requestsPerMinute
  {
    FreshAdmission(s, q);
    var now, sub := q.now.value, ChosenSubscription(s.access, q).value;
    var swept := s.(rows := ExpireRows(s.rows, now), byTask := s.byTask - {q.taskId});
    hide Reserve, Refusal, ChosenSubscription, CallsIn, ExpireRows, WellFormed;
    GatesPassed(swept, q, sub);
    MinuteSplits(s.rows, Caller(sub, q.tenantId, q.userId, q.deviceId), now);
    SweepIsMarking(s.rows, now);
    SameUsageCounts(s.rows, swept.rows);
    assert WithinRate(swept) by {
      forall c: Caller, minute: int | HasPlan(s.access, c.subscriptionId)
        ensures CallsInMinute(swept.rows, c, minute) <= PlanOf(s.access, c.subscriptionId).requestsPerMinute
      {
        assert CallsInMinute(swept.rows, c, minute) == CallsInMinute(s.rows, c, minute);
      }
    }
    AppendRate(swept, Reserve(s, q).0, NewRow(s.access, q, sub));
  }

  // ---------------------------------------------------------------- an overrun of both

  /** Rows later than the request's own clock are not counted. */
  lemma LaterRowsDoNotCount(rows: seq<Reservation>, sub: nat, skillId: string, now: int)
    requires forall i :: 0 <= i < |rows| ==> rows[i].reservedAt > now
    ensures forall from :: SkillCallsIn(rows, sub, skillId, from, now) == 0
    ensures forall c, from :: CallsIn(rows, c, from, now) == 0
  {
    forall from ensures SkillCallsIn(rows, sub, skillId, from, now) == 0 {
      CountZero(rows, (r: Reservation) => IsSkillCall(r, sub, skillId) && from <= r.reservedAt <= now);
    }
    forall c, from ensures CallsIn(rows, c, from, now) == 0 {
      CountZero(rows, (r: Reservation) => CallerOf(r) == c && from <= r.reservedAt <= now);
    }
  }

  /** Every gate open at once. */
  lemma NothingRefuses(s: State, q: Request, sub: nat)
    requires q.now.Some? && ChosenSubscription(s.access, q) == Some(sub) && q.planId in s.access.plans
    requires s.access.subscriptions[sub].status == Access.Active
    requires s.access.subscriptions[sub].startsAt <= q.now.value < s.access.subscriptions[sub].expiresAt
    requires q.skillId in s.access.plans[q.planId].skillIds && Entitled(s.access, sub, q, q.now.value)
    requires SkillCallsIn(s.rows, sub, q.skillId, s.access.subscriptions[sub].startsAt, q.now.value) < s.access.plans[q.planId].includedCalls
    requires var c := Caller(sub, q.tenantId, q.userId, q.deviceId);
             && CallsIn(s.rows, c, MinuteStart(q.now.value), q.now.value) < s.access.plans[q.planId].requestsPerMinute
             && LiveLeases(s.rows, c, q.now.value) < s.access.plans[q.planId].maxConcurrency
    ensures Refusal(s, q).None?
  {
  }

  lemma UnrefusedIsAdmitted(s: State, q: Request)
    requires WellFormed(q) && q.taskId !in s.byTask && ExpireRows(s.rows, q.now.value) == s.rows && Refusal(s, q).None?
    ensures Reserve(s, q).1.Admitted? && IsFresh(s, q)
  {
    hide Refusal, ExpireRows, ChosenSubscription;
    assert s.byTask - {q.taskId} == s.byTask;
  }

  /** One row alone is within every limit of at least one. */
  lemma OneRowInv(s: State, row: Reservation)
    requires PlansValid(s.access) && s.rows == [row] && s.byTask == map[row.taskId := 0] && RowOk(s.access, row, 100)
    requires PlanOf(s.access, row.subscriptionId).includedCalls >= 1
    ensures Inv(s, 100)
  {
    forall sub: nat, skillId: string | HasPlan(s.access, sub)
      ensures SkillCalls(s.rows, sub, skillId) <= PlanOf(s.access, sub).includedCalls
    {
      if sub != row.subscriptionId { CountZero(s.rows, (r: Reservation) => IsSkillCall(r, sub, skillId)); }
    }
  }

  /**
   * Quota and rate need the clock: with one call allowed and used, a request whose clock lags behind
   * that call is admitted, and both limits are exceeded.
   */
  lemma LaggingClockOverruns() returns (s: State, q: Request)
    ensures Inv(s, 100) && q.now == Some(50)
    ensures Reserve(s, q).1.Admitted? && !WithinQuota(Reserve(s, q).0) && !WithinRate(Reserve(s, q).0)
  {
    hide Reserve, Refusal, SkillCallsIn, CallsIn, Inv;
    var a := Access.State(
      map["plan" := Access.Plan(["draw"], 1, 1, 5)],
      [Access.Subscription("user", "tenant", "plan", Access.Active, Access.Monthly, 0, 1_000, 0, 0)],
      [Access.Entitlement(0, "tenant", "user", "draw", "plan", Access.Granted, 1_000, 0)]);
    var row := Reservation("first", "user", "tenant", "device", "agent", "draw", "plan", 0, None, 0, 100, 2_000, None);
    s := State(a, [row], map["first" := 0]);
    q := Request("second", "user", "tenant", "device", "agent", "draw", "plan", Some(Id(0)), None, Some(50), None);
    OneRowInv(s, row);
    LaterRowsDoNotCount(s.rows, 0, "draw", 50);
    assert Entitles(a.entitlements[0], 0, q, 50);
    NothingRefuses(s, q, 0);
    assert ExpireRows(s.rows, 50) == s.rows;
    UnrefusedIsAdmitted(s, q);
    OverrunFollows(s, q, row);
  }

  lemma OverrunFollows(s: State, q: Request, row: Reservation)
    requires Inv(s, 100) && s.rows == [row] && IsFresh(s, q) && Reserve(s, q).1.Admitted? && q.now == Some(50)
    requires ChosenSubscription(s.access, q) == Some(row.subscriptionId) && q.skillId == row.skillId && row.reservedAt == 100
    requires CallerOf(row) == Caller(row.subscriptionId, q.tenantId, q.userId, q.deviceId)
    requires q.planId in s.access.plans && s.access.plans[q.planId].includedCalls == s.access.plans[q.planId].requestsPerMinute == 1
    ensures !WithinQuota(Reserve(s, q).0) && !WithinRate(Reserve(s, q).0)
  {
    hide Reserve, ChosenSubscription;
    QuotaKeptExactly(s, 100, q);
    RateKeptExactly(s, q);
    OneCount(row, (r: Reservation) => IsSkillCall(r, row.subscriptionId, row.skillId) && r.reservedAt > 50);
    OneCount(row, (r: Reservation) => CallerOf(r) == CallerOf(row) && 51 <= r.reservedAt <= MinuteEnd(50));
  }

  lemma OneCount(row: Reservation, p: Reservation -> bool)
    requires p(row)
    ensures Count([row], p) == 1
  {
    assert [row][..0] == [];
  }

  // ---------------------------------------------------------------- concurrency needs no clock

  function Later(a: int, b: int): int { if a < b then b else a }

  /** The latest time any operation has carried. */
  function Top(top: int, op: Op): int { if OpTime(op).Some? then Later(top, OpTime(op).value) else top }

  function FinalTop(top: int, ops: seq<Op>): int
    decreases |ops|
  {
    if ops == [] then top else FinalTop(Top(top, ops[0]), ops[1..])
  }

  /** Times are arbitrary; only access evolves as usual. */
  ghost predicate AnyClockRun(s: State, ops: seq<Op>)
    decreases |ops|
  {
    ops == [] || ((ops[0].ChangeOp? ==> Evolves(s.access, ops[0].next)) && AnyClockRun(Apply(s, ops[0]), ops[1..]))
  }

  /** Leases of a caller not marked released, expired or not. */
  function OpenLeases(rows: seq<Reservation>, c: Caller): nat {
    Count(rows, (r: Reservation) => CallerOf(r) == c && r.releasedAt.None?)
  }

  ghost predicate WithinOpen(s: State) {
    forall c: Caller :: HasPlan(s.access, c.subscriptionId) ==>
      OpenLeases(s.rows, c) <= PlanOf(s.access, c.subscriptionId).maxConcurrency
  }

  ghost predicate LeasesOk(s: State, top: int) {
    && PlansValid(s.access) && WithinOpen(s)
    && forall i :: 0 <= i < |s.rows| ==> RowOk(s.access, s.rows[i], top)
  }

  /** Live leases are open, and right after a sweep at `now` the open ones are live at `now`. */
  lemma SweptAreLive(rows: seq<Reservation>, c: Caller, now: int)
    ensures LiveLeases(rows, c, now) <= OpenLeases(rows, c)
    ensures OpenLeases(ExpireRows(rows, now), c) == LiveLeases(ExpireRows(rows, now), c, now)
  {
    var open, live := (r: Reservation) => CallerOf(r) == c && r.releasedAt.None?, (r: Reservation) => Holds(r, c, now);
    CountLe(rows, live, rows, open);
    CountEq(ExpireRows(rows, now), open, ExpireRows(rows, now), live);
  }

  /** Release marks, set at any time, only close leases. */
  lemma MarkingKeepsLeases(s: State, rows': seq<Reservation>, top: int, now: int)
    requires LeasesOk(s, top) && SameUsage(s.rows, rows')
    requires forall i :: 0 <= i < |s.rows| ==>
               rows'[i].releasedAt == s.rows[i].releasedAt || (s.rows[i].releasedAt.None? && rows'[i].releasedAt == Some(now))
    ensures LeasesOk(s.(rows := rows'), Later(top, now))
  {
    forall c: Caller | HasPlan(s.access, c.subscriptionId)
      ensures OpenLeases(rows', c) <= PlanOf(s.access, c.subscriptionId).maxConcurrency
    {
      CountLe(rows', (r: Reservation) => CallerOf(r) == c && r.releasedAt.None?,
              s.rows, (r: Reservation) => CallerOf(r) == c && r.releasedAt.None?);
      assert OpenLeases(s.rows, c) <= PlanOf(s.access, c.subscriptionId).maxConcurrency;
    }
    forall i | 0 <= i < |rows'| ensures RowOk(s.access, rows'[i], Later(top, now)) {
      assert RowOk(s.access, s.rows[i], top);
    }
  }

  lemma AppendKeepsLeases(s: State, s': State, row: Reservation, top: int)
    requires LeasesOk(s, top) && RowOk(s.access, row, top)
    requires s'.access == s.access && s'.rows == s.rows + [row]
    requires OpenLeases(s.rows, CallerOf(row)) < PlanOf(s.access, row.subscriptionId).maxConcurrency
    ensures LeasesOk(s', top)
  {
    forall c: Caller | HasPlan(s.access, c.subscriptionId)
      ensures OpenLeases(s'.rows, c) <= PlanOf(s.access, c.subscriptionId).maxConcurrency
    {
      CountSnoc(s.rows, row, (r: Reservation) => CallerOf(r) == c && r.releasedAt.None?);
      assert OpenLeases(s.rows, c) <= PlanOf(s.access, c.subscriptionId).maxConcurrency;
    }
  }

  lemma ReserveKeepsLeases(s: State, top: int, q: Request)
    requires LeasesOk(s, top)
    ensures LeasesOk(Reserve(s, q).0, Top(top, ReserveOp(q)))
  {
    hide Refusal, LeasesOk;
    if !WellFormed(q) {
      TopKeepsLeases(s, top, Top(top, ReserveOp(q)));
      return;
    }
    var now := q.now.value;
    var rows := ExpireRows(s.rows, now);
    MarkingKeepsLeases(s, rows, top, now);
    var swept := s.(rows := rows, byTask := s.byTask - {q.taskId});
    SameLeases(s.(rows := rows), swept, Later(top, now));
    SameLeases(s.(rows := rows), Reserve(s, q).0, Later(top, now));
    if IsFresh(s, q) && Reserve(s, q).1.Admitted? {
      FreshAdmission(s, q);
      var sub := ChosenSubscription(s.access, q).value;
      GatesPassed(swept, q, sub);
      hide Reserve, ChosenSubscription, ExpireRows;
      SweptAreLive(s.rows, Caller(sub, q.tenantId, q.userId, q.deviceId), now);
      AppendKeepsLeases(swept, Reserve(s, q).0, NewRow(s.access, q, sub), Later(top, now));
    }
  }

  /** The leases do not depend on the task index. */
  lemma SameLeases(s: State, s': State, top: int)
    ensures LeasesOk(s, top) && s'.access == s.access && s'.rows == s.rows ==> LeasesOk(s', top)
  {
  }

  lemma TopKeepsLeases(s: State, top: int, top': int)
    requires LeasesOk(s, top) && top <= top'
    ensures LeasesOk(s, top')
  {
    MarkingKeepsLeases(s, s.rows, top, top');
    assert s.(rows := s.rows) == s;
  }

  lemma ReleaseKeepsLeases(s: State, top: int, q: ReleaseRequest)
    requires LeasesOk(s, top)
    ensures LeasesOk(Release(s, q).0, Top(top, ReleaseOp(q)))
  {
    hide LeasesOk;
    if q.now.Some? {
      MarkingKeepsLeases(s, Release(s, q).0.rows, top, q.now.value);
      SameLeases(s.(rows := Release(s, q).0.rows), Release(s, q).0, Later(top, q.now.value));
    }
  }

  lemma ChangeKeepsLeases(s: State, top: int, a: Access.State)
    requires LeasesOk(s, top) && Evolves(s.access, a)
    ensures LeasesOk(s.(access := a), top)
  {
    forall i | 0 <= i < |s.rows| ensures RowOk(a, s.rows[i], top) {
      assert RowOk(s.access, s.rows[i], top);
      assert SameTerms(s.access.subscriptions[s.rows[i].subscriptionId], a.subscriptions[s.rows[i].subscriptionId]);
    }
    forall c: Caller | HasPlan(a, c.subscriptionId)
      ensures OpenLeases(s.rows, c) <= PlanOf(a, c.subscriptionId).maxConcurrency
    {
      PlanGrew(s, top, a, c.subscriptionId);
      if Unused(s.rows, c.subscriptionId) {
        CountZero(s.rows, (r: Reservation) => CallerOf(r) == c && r.releasedAt.None?);
      } else {
        assert OpenLeases(s.rows, c) <= PlanOf(s.access, c.subscriptionId).maxConcurrency;
      }
    }
  }

  lemma {:induction false} RunKeepsLeases(s: State, top: int, ops: seq<Op>)
    requires LeasesOk(s, top) && AnyClockRun(s, ops)
    ensures LeasesOk(Final(s, ops), FinalTop(top, ops))
    decreases |ops|
  {
    hide LeasesOk, Reserve, Release, Evolves;
    if ops != [] {
      match ops[0] {
        case ReserveOp(q) => ReserveKeepsLeases(s, top, q);
        case ReleaseOp(q) => ReleaseKeepsLeases(s, top, q);
        case ChangeOp(a) => ChangeKeepsLeases(s, top, a);
      }
      RunKeepsLeases(Apply(s, ops[0]), Top(top, ops[0]), ops[1..]);
    }
  }

  /**
   * The concurrency limit does not need the clock: over every run, with clocks going back and forth, no
   * caller has more leases open than its limit, so no more are live at any instant, past or future.
   */
  lemma ConcurrencyNeedsNoClock(a: Access.State, ops: seq<Op>, c: Caller, instant: int)
    requires PlansValid(a) && AnyClockRun(State(a, [], map[]), ops)
    requires HasPlan(Final(State(a, [], map[]), ops).access, c.subscriptionId)
    ensures var s := Final(State(a, [], map[]), ops);
            LiveLeases(s.rows, c, instant) <= OpenLeases(s.rows, c) <= PlanOf(s.access, c.subscriptionId).maxConcurrency
  {
    RunKeepsLeases(State(a, [], map[]), 0, ops);
    SweptAreLive(Final(State(a, [], map[]), ops).rows, c, instant);
  }
}
