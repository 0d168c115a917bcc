/**
 * What cloud Skill admission guarantees over whole runs of reserve, release and access changes:
 * the three limits, one row per task, permanent usage history, sound retry hints, and agreement
 * with access resolution.
 */
module ExecutionLimits {
  import opened Prelude
  import opened SkillExecution
  import Access = SkillAccess

  // ---------------------------------------------------------------- runs

  /** Plans keep existing with limits that are not lowered; a subscription keeps its scope and its start. */
  ghost predicate Evolves(a: Access.State, b: Access.State) {
    && (forall p :: p in a.plans ==> p in b.plans && NotLowered(a.plans[p], b.plans[p]))
    && |a.subscriptions| <= |b.subscriptions|
    && (forall i :: 0 <= i < |a.subscriptions| ==> SameTerms(a.subscriptions[i], b.subscriptions[i]))
    && PlansValid(b)
  }

  predicate NotLowered(p: Access.Plan, q: Access.Plan) {
    p.includedCalls <= q.includedCalls && p.requestsPerMinute <= q.requestsPerMinute && p.maxConcurrency <= q.maxConcurrency
  }

  predicate SameTerms(s: Access.Subscription, t: Access.Subscription) {
    s.userId == t.userId && s.tenantId == t.tenantId && s.planId == t.planId && s.startsAt == t.startsAt
  }

  /** Plan validation never accepts a zero rate or a zero concurrency. */
  ghost predicate PlansValid(a: Access.State) {
    forall p :: p in a.plans ==> a.plans[p].requestsPerMinute >= 1 && a.plans[p].maxConcurrency >= 1
  }

  datatype Op = ReserveOp(request: Request) | ReleaseOp(release: ReleaseRequest) | ChangeOp(next: Access.State)

  function Apply(s: State, op: Op): State {
    match op
    case ReserveOp(q) => Reserve(s, q).0
    case ReleaseOp(q) => Release(s, q).0
    case ChangeOp(a) => s.(access := a)
  }

  function OpTime(op: Op): Option<int> {
    match op
    case ReserveOp(q) => q.now
    case ReleaseOp(q) => q.now
    case ChangeOp(_) => None
  }

  function Tick(clock: int, op: Op): int {
    if OpTime(op).Some? then OpTime(op).value else clock
  }

  /** The clock does not go backwards and access evolves as above. */
  ghost predicate Legal(s: State, clock: int, op: Op) {
    clock <= Tick(clock, op) && (op.ChangeOp? ==> Evolves(s.access, op.next))
  }

  ghost predicate LegalRun(s: State, clock: int, ops: seq<Op>)
    decreases |ops|
  {
    ops == [] || (Legal(s, clock, ops[0]) && LegalRun(Apply(s, ops[0]), Tick(clock, ops[0]), ops[1..]))
  }

  function Final(s: State, ops: seq<Op>): State
    decreases |ops|
  {
    if ops == [] then s else Final(Apply(s, ops[0]), ops[1..])
  }

  function FinalClock(clock: int, ops: seq<Op>): int
    decreases |ops|
  {
    if ops == [] then clock else FinalClock(Tick(clock, ops[0]), ops[1..])
  }

  // ---------------------------------------------------------------- the limits

  function SkillCalls(rows: seq<Reservation>, sub: nat, skillId: string): nat {
    Count(rows, (r: Reservation) => IsSkillCall(r, sub, skillId))
  }

  function CallsInMinute(rows: seq<Reservation>, c: Caller, minute: int): nat {
    CallsIn(rows, c, minute * MINUTE_MS, minute * MINUTE_MS + MINUTE_MS - 1)
  }

  predicate HasPlan(a: Access.State, sub: nat) {
    sub < |a.subscriptions| && a.subscriptions[sub].planId in a.plans
  }

  function PlanOf(a: Access.State, sub: nat): Access.Plan
    requires HasPlan(a, sub)
  {
    a.plans[a.subscriptions[sub].planId]
  }

  ghost predicate WithinQuota(s: State) {
    forall sub: nat, skillId: string :: HasPlan(s.access, sub) ==>
      SkillCalls(s.rows, sub, skillId) <= PlanOf(s.access, sub).includedCalls
  }

  ghost predicate WithinRate(s: State) {
    forall c: Caller, minute: int :: HasPlan(s.access, c.subscriptionId) ==>
      CallsInMinute(s.rows, c, minute) <= PlanOf(s.access, c.subscriptionId).requestsPerMinute
  }

  ghost predicate WithinConcurrency(s: State, now: int) {
    forall c: Caller :: HasPlan(s.access, c.subscriptionId) ==>
      LiveLeases(s.rows, c, now) <= PlanOf(s.access, c.subscriptionId).maxConcurrency
  }

  // ---------------------------------------------------------------- invariant

  predicate RowOk(a: Access.State, r: Reservation, clock: int) {
    && HasPlan(a, r.subscriptionId)
    && a.subscriptions[r.subscriptionId].planId == r.planId
    && a.subscriptions[r.subscriptionId].startsAt == r.periodStart <= r.reservedAt <= clock
    && (r.releasedAt.Some? ==> r.releasedAt.value <= clock)
  }

  ghost predicate Indexed(s: State) {
    && (forall t :: t in s.byTask ==> s.byTask[t] < |s.rows| && s.rows[s.byTask[t]].taskId == t)
    && (forall i :: 0 <= i < |s.rows| ==> s.rows[i].taskId in s.byTask && s.byTask[s.rows[i].taskId] == i)
  }

  ghost predicate Inv(s: State, clock: int) {
    && PlansValid(s.access)
    && (forall i :: 0 <= i < |s.rows| ==> RowOk(s.access, s.rows[i], clock))
    && Indexed(s)
    && WithinQuota(s)
    && WithinRate(s)
    && WithinConcurrency(s, clock)
  }

  /** Same rows apart from release marks. */
  ghost predicate SameUsage(rows: seq<Reservation>, rows': seq<Reservation>) {
    && |rows| == |rows'|
    && forall i :: 0 <= i < |rows| ==> rows'[i].(releasedAt := rows[i].releasedAt) == rows[i]
  }

  /** Usage counts look only at what release marks do not touch. */
  lemma SameUsageCounts(rows: seq<Reservation>, rows': seq<Reservation>)
    requires SameUsage(rows, rows')
    ensures forall sub, skillId :: SkillCalls(rows', sub, skillId) == SkillCalls(rows, sub, skillId)
    ensures forall c, from, to :: CallsIn(rows', c, from, to) == CallsIn(rows, c, from, to)
    ensures forall sub, skillId, from, to :: SkillCallsIn(rows', sub, skillId, from, to) == SkillCallsIn(rows, sub, skillId, from, to)
  {
    forall sub, skillId ensures SkillCalls(rows', sub, skillId) == SkillCalls(rows, sub, skillId) {
      CountEq(rows', (r: Reservation) => IsSkillCall(r, sub, skillId), rows, (r: Reservation) => IsSkillCall(r, sub, skillId));
    }
    forall c, from, to ensures CallsIn(rows', c, from, to) == CallsIn(rows, c, from, to) {
      CountEq(rows', (r: Reservation) => CallerOf(r) == c && from <= r.reservedAt <= to,
              rows, (r: Reservation) => CallerOf(r) == c && from <= r.reservedAt <= to);
    }
    forall sub, skillId, from, to
      ensures SkillCallsIn(rows', sub, skillId, from, to) == SkillCallsIn(rows, sub, skillId, from, to)
    {
      CountEq(rows', (r: Reservation) => IsSkillCall(r, sub, skillId) && from <= r.reservedAt <= to,
              rows, (r: Reservation) => IsSkillCall(r, sub, skillId) && from <= r.reservedAt <= to);
    }
  }

  /** Marking rows released, and time passing, frees slots and never takes one. */
  lemma FewerLeases(rows: seq<Reservation>, rows': seq<Reservation>, c: Caller, now: int, now': int)
    requires SameUsage(rows, rows') && now <= now'
    requires forall i :: 0 <= i < |rows| ==> rows[i].releasedAt.Some? ==> rows'[i].releasedAt.Some?
    ensures LiveLeases(rows', c, now') <= LiveLeases(rows, c, now)
  {
    CountLe(rows', (r: Reservation) => Holds(r, c, now'), rows, (r: Reservation) => Holds(r, c, now));
  }

  /** Marking more rows released at a later instant keeps the invariant. */
  lemma MarkingKeepsInv(s: State, rows': seq<Reservation>, clock: int, now: int)
    requires Inv(s, clock) && clock <= now
    requires SameUsage(s.rows, rows')
    requires forall i :: 0 <= i < |s.rows| ==>
               rows'[i].releasedAt == s.rows[i].releasedAt || rows'[i].releasedAt == Some(now)
    ensures Inv(s.(rows := rows'), now)
  {
    SameUsageCounts(s.rows, rows');
    var s' := s.(rows := rows');
    forall c: Caller | HasPlan(s'.access, c.subscriptionId)
      ensures LiveLeases(rows', c, now) <= PlanOf(s'.access, c.subscriptionId).maxConcurrency
    {
      FewerLeases(s.rows, rows', c, clock, now);
    }
    forall c: Caller, minute: int | HasPlan(s'.access, c.subscriptionId)
      ensures CallsInMinute(rows', c, minute) <= PlanOf(s'.access, c.subscriptionId).requestsPerMinute
    {
      assert CallsInMinute(rows', c, minute) == CallsInMinute(s.rows, c, minute);
    }
    forall i | 0 <= i < |rows'| ensures RowOk(s'.access, rows'[i], now) {
      assert RowOk(s.access, s.rows[i], clock);
    }
  }

  lemma SweepKeepsInv(s: State, clock: int, now: int)
    requires Inv(s, clock) && clock <= now
    ensures Inv(s.(rows := ExpireRows(s.rows, now)), now)
  {
    MarkingKeepsInv(s, ExpireRows(s.rows, now), clock, now);
  }

  /** With every row inside [start, now], the cycle count is the whole count. */
  lemma CycleCountIsTotal(s: State, sub: nat, skillId: string, now: int)
    requires forall i :: 0 <= i < |s.rows| ==> RowOk(s.access, s.rows[i], now)
    requires HasPlan(s.access, sub)
    ensures SkillCallsIn(s.rows, sub, skillId, s.access.subscriptions[sub].startsAt, now) == SkillCalls(s.rows, sub, skillId)
  {
    forall i | 0 <= i < |s.rows|
      ensures IsSkillCall(s.rows[i], sub, skillId) ==> s.access.subscriptions[sub].startsAt <= s.rows[i].reservedAt <= now
    {
      assert RowOk(s.access, s.rows[i], now);
    }
    CountEq(s.rows,
      (r: Reservation) => IsSkillCall(r, sub, skillId) && s.access.subscriptions[sub].startsAt <= r.reservedAt <= now,
      s.rows, (r: Reservation) => IsSkillCall(r, sub, skillId));
  }

  /** With no row after `now`, the count up to `now` is the count of the whole aligned minute. */
  lemma MinuteCountIsWhole(s: State, c: Caller, now: int)
    requires forall i :: 0 <= i < |s.rows| ==> RowOk(s.access, s.rows[i], now)
    ensures CallsIn(s.rows, c, MinuteStart(now), now) == CallsInMinute(s.rows, c, now / MINUTE_MS)
  {
    forall i | 0 <= i < |s.rows| ensures s.rows[i].reservedAt <= now {
      assert RowOk(s.access, s.rows[i], now);
    }
    CountEq(s.rows, (r: Reservation) => CallerOf(r) == c && MinuteStart(now) <= r.reservedAt <= now,
      s.rows, (r: Reservation) => CallerOf(r) == c &&
        now / MINUTE_MS * MINUTE_MS <= r.reservedAt <= now / MINUTE_MS * MINUTE_MS + MINUTE_MS - 1);
  }

  /** A row that passed the quota gate keeps the quota. */
  lemma AppendKeepsQuota(s: State, row: Reservation)
    requires WithinQuota(s) && HasPlan(s.access, row.subscriptionId)
    requires SkillCalls(s.rows, row.subscriptionId, row.skillId) < PlanOf(s.access, row.subscriptionId).includedCalls
    ensures WithinQuota(s.(rows := s.rows + [row]))
  {
    forall sub: nat, skillId: string | HasPlan(s.access, sub)
      ensures SkillCalls(s.rows + [row], sub, skillId) <= PlanOf(s.access, sub).includedCalls
    {
      CountSnoc(s.rows, row, (r: Reservation) => IsSkillCall(r, sub, skillId));
      assert SkillCalls(s.rows, sub, skillId) <= PlanOf(s.access, sub).includedCalls;
    }
  }

  /** A row that passed the rate gate keeps the rate. */
  lemma AppendKeepsRate(s: State, row: Reservation)
    requires WithinRate(s) && HasPlan(s.access, row.subscriptionId)
    requires CallsInMinute(s.rows, CallerOf(row), row.reservedAt / MINUTE_MS) < PlanOf(s.access, row.subscriptionId).requestsPerMinute
    ensures WithinRate(s.(rows := s.rows + [row]))
  {
    forall c: Caller, minute: int | HasPlan(s.access, c.subscriptionId)
      ensures CallsInMinute(s.rows + [row], c, minute) <= PlanOf(s.access, c.subscriptionId).requestsPerMinute
    {
      CountSnoc(s.rows, row,
        (r: Reservation) => CallerOf(r) == c && minute * MINUTE_MS <= r.reservedAt <= minute * MINUTE_MS + MINUTE_MS - 1);
      assert CallsInMinute(s.rows, c, minute) <= PlanOf(s.access, c.subscriptionId).requestsPerMinute;
    }
  }

  /** A row that passed the concurrency gate keeps the concurrency. */
  lemma AppendKeepsConcurrency(s: State, row: Reservation)
    requires WithinConcurrency(s, row.reservedAt) && HasPlan(s.access, row.subscriptionId)
    requires LiveLeases(s.rows, CallerOf(row), row.reservedAt) < PlanOf(s.access, row.subscriptionId).maxConcurrency
    ensures WithinConcurrency(s.(rows := s.rows + [row]), row.reservedAt)
  {
    forall c: Caller | HasPlan(s.access, c.subscriptionId)
      ensures LiveLeases(s.rows + [row], c, row.reservedAt) <= PlanOf(s.access, c.subscriptionId).maxConcurrency
    {
      CountSnoc(s.rows, row, (r: Reservation) => Holds(r, c, row.reservedAt));
    }
  }

  /** The row of an admitted fresh request keeps the invariant. */
  lemma AdmitKeepsInv(s: State, q: Request, sub: nat)
    requires q.now.Some? && Inv(s, q.now.value) && q.taskId !in s.byTask
    requires Refusal(s, q).None? && ChosenSubscription(s.access, q) == Some(sub)
    ensures Inv(s.(rows := s.rows + [NewRow(s.access, q, sub)], byTask := s.byTask[q.taskId := |s.rows|]), q.now.value)
  {
    var now, row := q.now.value, NewRow(s.access, q, sub);
    CycleCountIsTotal(s, sub, q.skillId, now);
    MinuteCountIsWhole(s, CallerOf(row), now);
    AppendKeepsQuota(s, row);
    AppendKeepsRate(s, row);
    AppendKeepsConcurrency(s, row);
    var s' := s.(rows := s.rows + [row], byTask := s.byTask[q.taskId := |s.rows|]);
    assert s'.rows == s.(rows := s.rows + [row]).rows;
    assert RowOk(s'.access, row, now);
  }

  lemma ReserveKeepsInv(s: State, clock: int, q: Request)
    requires Inv(s, clock) && (q.now.Some? ==> clock <= q.now.value)
    ensures Inv(Reserve(s, q).0, Tick(clock, ReserveOp(q)))
  {
    if !WellFormed(q) {
      if q.now.Some? {
        MarkingKeepsInv(s, s.rows, clock, q.now.value);
      }
      return;
    }
    var now := q.now.value;
    SweepKeepsInv(s, clock, now);
    if q.taskId in s.byTask {
      return;
    }
    var swept := s.(rows := ExpireRows(s.rows, now));
    assert swept.(byTask := swept.byTask - {q.taskId}) == swept;
    if Refusal(swept, q).None? {
      AdmitKeepsInv(swept, q, ChosenSubscription(swept.access, q).value);
    }
  }

  lemma ReleaseKeepsInv(s: State, clock: int, q: ReleaseRequest)
    requires Inv(s, clock) && (q.now.Some? ==> clock <= q.now.value)
    ensures Inv(Release(s, q).0, Tick(clock, ReleaseOp(q)))
  {
    hide Inv, SameUsage;
    if q.now.Some? {
      ReleaseIsMarking(s, q);
      hide Release;
      MarkingKeepsInv(s, Release(s, q).0.rows, clock, q.now.value);
    }
  }

  /** A release only sets release marks, and sets them to its own time. */
  lemma ReleaseIsMarking(s: State, q: ReleaseRequest)
    requires q.now.Some?
    ensures var s' := Release(s, q).0;
            && s' == s.(rows := s'.rows) && SameUsage(s.rows, s'.rows)
            && (s' == s || forall i :: 0 <= i < |s.rows| ==>
                  s'.rows[i].releasedAt == s.rows[i].releasedAt || s'.rows[i].releasedAt == q.now)
  {
  }

  predicate Unused(rows: seq<Reservation>, sub: nat) {
    forall i :: 0 <= i < |rows| ==> rows[i].subscriptionId != sub
  }

  /** Every subscription with a plan either has no rows or had a plan with limits at most as high. */
  lemma PlanGrew(s: State, clock: int, a: Access.State, sub: nat)
    requires Evolves(s.access, a) && HasPlan(a, sub)
    requires forall i :: 0 <= i < |s.rows| ==> RowOk(s.access, s.rows[i], clock)
    ensures Unused(s.rows, sub) || (HasPlan(s.access, sub) && NotLowered(PlanOf(s.access, sub), PlanOf(a, sub)))
  {
    if HasPlan(s.access, sub) {
      assert SameTerms(s.access.subscriptions[sub], a.subscriptions[sub]);
    } else {
      forall i | 0 <= i < |s.rows| ensures s.rows[i].subscriptionId != sub {
        assert RowOk(s.access, s.rows[i], clock);
      }
    }
  }

  lemma UnusedCounts(rows: seq<Reservation>, c: Caller, skillId: string, minute: int, now: int)
    requires Unused(rows, c.subscriptionId)
    ensures SkillCalls(rows, c.subscriptionId, skillId) == 0
    ensures CallsInMinute(rows, c, minute) == 0 && LiveLeases(rows, c, now) == 0
  {
    CountZero(rows, (r: Reservation) => IsSkillCall(r, c.subscriptionId, skillId));
    CountZero(rows,
      (r: Reservation) => CallerOf(r) == c && minute * MINUTE_MS <= r.reservedAt <= minute * MINUTE_MS + MINUTE_MS - 1);
    CountZero(rows, (r: Reservation) => Holds(r, c, now));
  }

  lemma ChangeKeepsInv(s: State, clock: int, a: Access.State)
    requires Inv(s, clock) && Evolves(s.access, a)
    ensures Inv(s.(access := a), clock)
  {
    var s' := s.(access := a);
    forall i | 0 <= i < |s.rows| ensures RowOk(a, s.rows[i], clock) {
      assert RowOk(s.access, s.rows[i], clock);
      assert SameTerms(s.access.subscriptions[s.rows[i].subscriptionId], a.subscriptions[s.rows[i].subscriptionId]);
    }
    forall sub: nat, skillId: string | HasPlan(a, sub)
      ensures SkillCalls(s.rows, sub, skillId) <= PlanOf(a, sub).includedCalls
    {
      PlanGrew(s, clock, a, sub);
      if Unused(s.rows, sub) { UnusedCounts(s.rows, Caller(sub, "", "", ""), skillId, 0, 0); }
    }
    forall c: Caller, minute: int | HasPlan(a, c.subscriptionId)
      ensures CallsInMinute(s.rows, c, minute) <= PlanOf(a, c.subscriptionId).requestsPerMinute
    {
      PlanGrew(s, clock, a, c.subscriptionId);
      if Unused(s.rows, c.subscriptionId) { UnusedCounts(s.rows, c, "", minute, 0); }
    }
    forall c: Caller | HasPlan(a, c.subscriptionId)
      ensures LiveLeases(s.rows, c, clock) <= PlanOf(a, c.subscriptionId).maxConcurrency
    {
      PlanGrew(s, clock, a, c.subscriptionId);
      if Unused(s.rows, c.subscriptionId) { UnusedCounts(s.rows, c, "", 0, clock); }
    }
  }

  lemma StepKeepsInv(s: State, clock: int, op: Op)
    requires Inv(s, clock) && Legal(s, clock, op)
    ensures Inv(Apply(s, op), Tick(clock, op))
  {
    match op {
      case ReserveOp(q) => ReserveKeepsInv(s, clock, q);
      case ReleaseOp(q) => ReleaseKeepsInv(s, clock, q);
      case ChangeOp(a) => ChangeKeepsInv(s, clock, a);
    }
  }

  lemma {:induction false} RunKeepsInv(s: State, clock: int, ops: seq<Op>)
    requires Inv(s, clock) && LegalRun(s, clock, ops)
    ensures Inv(Final(s, ops), FinalClock(clock, ops))
    decreases |ops|
  {
    if ops != [] {
      StepKeepsInv(s, clock, ops[0]);
      RunKeepsInv(Apply(s, ops[0]), Tick(clock, ops[0]), ops[1..]);
    }
  }

  /** Release marks do not touch the task index. */
  lemma MarkingKeepsIndex(s: State, rows': seq<Reservation>)
    requires Indexed(s) && SameUsage(s.rows, rows')
    ensures Indexed(s.(rows := rows'))
  {
  }

  /** The task index stays exact whatever the clock does. */
  lemma ReserveKeepsIndex(s: State, q: Request)
    requires Indexed(s)
    ensures Indexed(Reserve(s, q).0)
    ensures Reserve(s, q).1.Admitted? ==> Reserve(s, q).1.id < |Reserve(s, q).0.rows|
    ensures Reserve(s, q).1.Admitted? ==> Reserve(s, q).0.rows[Reserve(s, q).1.id].taskId == q.taskId
    ensures Reserve(s, q).1.Admitted? ==> SameBinding(Reserve(s, q).0.rows[Reserve(s, q).1.id], q)
  {
    hide Refusal, Name;
    if WellFormed(q) {
      MarkingKeepsIndex(s, ExpireRows(s.rows, q.now.value));
      if q.taskId !in s.byTask {
        assert s.byTask - {q.taskId} == s.byTask;
      }
    }
  }

  lemma ReleaseKeepsIndex(s: State, q: ReleaseRequest)
    requires Indexed(s)
    ensures Indexed(Release(s, q).0)
  {
    assert SameUsage(s.rows, Release(s, q).0.rows);
    MarkingKeepsIndex(s, Release(s, q).0.rows);
  }

  // ---------------------------------------------------------------- main results

  /** Before anything is reserved every limit holds. */
  lemma EmptyInv(a: Access.State, clock: int)
    requires PlansValid(a)
    ensures Inv(State(a, [], map[]), clock)
  {
  }

  /**
   * In every run that starts without reservations: no subscription and Skill exceeds its included
   * calls, no caller exceeds its rate in any aligned minute, and from the current instant on no
   * caller holds more live leases than its concurrency limit.
   */
  lemma LimitsHoldInEveryRun(a: Access.State, clock: int, ops: seq<Op>, later: int)
    requires PlansValid(a) && LegalRun(State(a, [], map[]), clock, ops)
    requires FinalClock(clock, ops) <= later
    ensures var s := Final(State(a, [], map[]), ops);
            WithinQuota(s) && WithinRate(s) && WithinConcurrency(s, later)
  {
    EmptyInv(a, clock);
    RunKeepsInv(State(a, [], map[]), clock, ops);
    var s := Final(State(a, [], map[]), ops);
    forall c: Caller | HasPlan(s.access, c.subscriptionId)
      ensures LiveLeases(s.rows, c, later) <= PlanOf(s.access, c.subscriptionId).maxConcurrency
    {
      FewerLeases(s.rows, s.rows, c, FinalClock(clock, ops), later);
    }
  }

  /** Sixty seconds touch two aligned minutes at most. */
  lemma TwoMinutesCover(rows: seq<Reservation>, c: Caller, from: int)
    ensures var m := from / MINUTE_MS;
            CallsIn(rows, c, from, from + MINUTE_MS - 1) <= CallsInMinute(rows, c, m) + CallsInMinute(rows, c, m + 1)
  {
    var m := from / MINUTE_MS;
    CountSplit(rows, (r: Reservation) => CallerOf(r) == c && from <= r.reservedAt <= from + MINUTE_MS - 1,
      (r: Reservation) => CallerOf(r) == c && m * MINUTE_MS <= r.reservedAt <= m * MINUTE_MS + MINUTE_MS - 1,
      (r: Reservation) => CallerOf(r) == c && (m + 1) * MINUTE_MS <= r.reservedAt <= (m + 1) * MINUTE_MS + MINUTE_MS - 1);
  }

  /** In every run any sixty seconds, aligned or not, hold at most twice the per-minute rate. */
  lemma SlidingMinuteBound(a: Access.State, clock: int, ops: seq<Op>, c: Caller, from: int)
    requires PlansValid(a) && LegalRun(State(a, [], map[]), clock, ops)
    requires HasPlan(Final(State(a, [], map[]), ops).access, c.subscriptionId)
    ensures var s := Final(State(a, [], map[]), ops);
            CallsIn(s.rows, c, from, from + MINUTE_MS - 1) <= 2 * PlanOf(s.access, c.subscriptionId).requestsPerMinute
  {
    LimitsHoldInEveryRun(a, clock, ops, FinalClock(clock, ops));
    var s, m := Final(State(a, [], map[]), ops), from / MINUTE_MS;
    hide CallsIn, Final, LegalRun, WithinQuota, WithinConcurrency, PlansValid;
    TwoMinutesCover(s.rows, c, from);
    assert CallsInMinute(s.rows, c, m) <= PlanOf(s.access, c.subscriptionId).requestsPerMinute;
    assert CallsInMinute(s.rows, c, m + 1) <= PlanOf(s.access, c.subscriptionId).requestsPerMinute;
  }

  /** Usage is permanent: rows keep their place and content, and a release mark never changes again. */
  ghost predicate HistoryKept(rows: seq<Reservation>, rows': seq<Reservation>) {
    && |rows| <= |rows'|
    && (forall i :: 0 <= i < |rows| ==> rows'[i].(releasedAt := rows[i].releasedAt) == rows[i])
    && (forall i :: 0 <= i < |rows| ==> rows[i].releasedAt.Some? ==> rows'[i].releasedAt == rows[i].releasedAt)
  }

  lemma StepKeepsHistory(s: State, op: Op)
    ensures HistoryKept(s.rows, Apply(s, op).rows)
  {
    hide Refusal, ChosenSubscription, WellFormed, SameBinding;
  }

  lemma {:induction false} HistoryKeptInEveryRun(s: State, ops: seq<Op>)
    ensures HistoryKept(s.rows, Final(s, ops).rows)
    decreases |ops|
  {
    if ops != [] {
      var s1 := Apply(s, ops[0]);
      StepKeepsHistory(s, ops[0]);
      HistoryKeptInEveryRun(s1, ops[1..]);
      var end := Final(s1, ops[1..]).rows;
      forall i | 0 <= i < |s.rows|
        ensures end[i].(releasedAt := s.rows[i].releasedAt) == s.rows[i]
        ensures s.rows[i].releasedAt.Some? ==> end[i].releasedAt == s.rows[i].releasedAt
      {
        assert s1.rows[i].(releasedAt := s.rows[i].releasedAt) == s.rows[i];
        assert end[i].(releasedAt := s1.rows[i].releasedAt) == s1.rows[i];
      }
    }
  }

  /** A task has at most one row, whatever the clock, so a replayed task never consumes a second call. */
  lemma OneRowPerTask(s: State, i: nat, j: nat)
    requires Indexed(s) && i < |s.rows| && j < |s.rows| && s.rows[i].taskId == s.rows[j].taskId
    ensures i == j
  {
    assert s.byTask[s.rows[i].taskId] == i && s.byTask[s.rows[j].taskId] == j;
  }

  lemma StepKeepsTask(s: State, op: Op, taskId: string)
    requires Indexed(s) && taskId in s.byTask
    ensures Indexed(Apply(s, op))
    ensures taskId in Apply(s, op).byTask && Apply(s, op).byTask[taskId] == s.byTask[taskId]
  {
    match op {
      case ReserveOp(q) => ReserveKeepsIndex(s, q);
      case ReleaseOp(q) => ReleaseKeepsIndex(s, q);
      case ChangeOp(_) =>
    }
  }

  lemma {:induction false} TaskIndexKept(s: State, ops: seq<Op>, taskId: string)
    requires Indexed(s) && taskId in s.byTask
    ensures taskId in Final(s, ops).byTask && Final(s, ops).byTask[taskId] == s.byTask[taskId]
    decreases |ops|
  {
    if ops != [] {
      StepKeepsTask(s, ops[0], taskId);
      TaskIndexKept(Apply(s, ops[0]), ops[1..], taskId);
    }
  }

  /** After an admission the task index names the admitted row, which is bound to the request. */
  lemma AdmittedIsIndexed(s: State, q: Request)
    requires Indexed(s) && Reserve(s, q).1.Admitted?
    ensures var (s', outcome) := Reserve(s, q);
            && WellFormed(q) && q.taskId in s'.byTask && s'.byTask[q.taskId] == outcome.id < |s'.rows|
            && SameBinding(s'.rows[outcome.id], q)
  {
    ReserveKeepsIndex(s, q);
  }

  /** A bound and indexed request is answered from its row. */
  lemma ReplayOfIndexed(s1: State, s2: State, q: Request, id: nat, at: int)
    requires WellFormed(q) && id < |s1.rows| && SameBinding(s1.rows[id], q) && HistoryKept(s1.rows, s2.rows)
    requires q.taskId in s2.byTask && s2.byTask[q.taskId] == id
    ensures var again := Reserve(s2, q.(now := Some(at)));
            && again.1 == Admitted(id)
            && |again.0.rows| == |s2.rows|
            && again.0.rows[id].(releasedAt := None) == s1.rows[id].(releasedAt := None)
  {
    assert s2.rows[id].(releasedAt := s1.rows[id].releasedAt) == s1.rows[id];
  }

  /**
   * A retry of an admitted request, after any run in between and at any instant, returns the same
   * reservation with its original lease and adds no row.
   */
  lemma RetryReturnsOriginal(s: State, q: Request, id: nat, ops: seq<Op>, retryAt: int)
    requires Indexed(s) && Reserve(s, q).1 == Admitted(id)
    ensures var s2 := Final(Reserve(s, q).0, ops);
            var again := Reserve(s2, q.(now := Some(retryAt)));
            && again.1 == Admitted(id)
            && |again.0.rows| == |s2.rows|
            && again.0.rows[id].(releasedAt := None) == Reserve(s, q).0.rows[id].(releasedAt := None)
  {
    var s1 := Reserve(s, q).0;
    AdmittedIsIndexed(s, q);
    ReserveKeepsIndex(s, q);
    TaskIndexKept(s1, ops, q.taskId);
    HistoryKeptInEveryRun(s1, ops);
    ReplayOfIndexed(s1, Final(s1, ops), q, id, retryAt);
  }

  /** A refusal by a usage gate changes nothing but the sweep. */
  lemma UsageRefusal(s: State, q: Request)
    requires Indexed(s) && Reserve(s, q).1.Rejected? && Reserve(s, q).1.reason in {RateLimited, ConcurrencyLimit}
    ensures WellFormed(q) && q.taskId !in s.byTask
    ensures Reserve(s, q).0 == s.(rows := ExpireRows(s.rows, q.now.value))
    ensures Refusal(s.(rows := ExpireRows(s.rows, q.now.value)), q) == Some(Reserve(s, q).1)
  {
    assert s.byTask - {q.taskId} == s.byTask || q.taskId in s.byTask;
  }

  /** The same request later meets the same gates over the rows swept at that later instant. */
  lemma RetryMeetsGates(s: State, q: Request, later: int)
    requires WellFormed(q) && q.taskId !in s.byTask
    ensures var q' := q.(now := Some(later));
            var swept := s.(rows := ExpireRows(s.rows, later));
            && (Reserve(s, q').1.Rejected? ==> Refusal(swept, q') == Some(Reserve(s, q').1))
            && ChosenSubscription(swept.access, q') == ChosenSubscription(s.access, q)
  {
    hide ExpireRows, Refusal, Newest;
    assert s.byTask - {q.taskId} == s.byTask;
    if q.subscription.None? {
      SameChoice(s.access.subscriptions, q, later);
    }
  }

  lemma {:induction false} SameChoice(subs: seq<Access.Subscription>, q: Request, later: int)
    ensures Newest(subs, (s: Access.Subscription) => Subscribes(s, q.(now := Some(later))), (s: Access.Subscription) => s.createdAt)
         == Newest(subs, (s: Access.Subscription) => Subscribes(s, q), (s: Access.Subscription) => s.createdAt)
  {
    if |subs| > 0 {
      SameChoice(subs[..|subs| - 1], q, later);
    }
  }

  /** The minute after the one a request was refused in starts with no calls. */
  lemma NextMinuteIsEmpty(s: State, c: Caller, now: int, later: int)
    requires forall i :: 0 <= i < |s.rows| ==> RowOk(s.access, s.rows[i], now)
    requires later >= MinuteStart(now) + MINUTE_MS
    ensures CallsIn(ExpireRows(s.rows, later), c, MinuteStart(later), later) == 0
  {
    var rows := ExpireRows(s.rows, later);
    forall i | 0 <= i < |rows| ensures rows[i].reservedAt < MinuteStart(later) {
      assert RowOk(s.access, s.rows[i], now);
    }
    CountZero(rows, (r: Reservation) => CallerOf(r) == c && MinuteStart(later) <= r.reservedAt <= later);
  }

  /** What a refusal by the rate gate says. */
  lemma RateRefusal(s: State, q: Request)
    requires q.now.Some? && Refusal(s, q).Some? && Refusal(s, q).value.reason == RateLimited
    ensures ChosenSubscription(s.access, q).Some? && q.planId in s.access.plans
    ensures var hint := Refusal(s, q).value.retryAfterSeconds;
            && hint.Some? && 1 <= hint.value <= 60
            && q.now.value + 1_000 * hint.value >= MinuteStart(q.now.value) + MINUTE_MS
  {
  }

  /** A caller without calls in the current minute is not refused by the rate gate. */
  lemma RatePasses(s: State, q: Request, sub: nat)
    requires q.now.Some? && PlansValid(s.access) && ChosenSubscription(s.access, q) == Some(sub)
    requires CallsIn(s.rows, Caller(sub, q.tenantId, q.userId, q.deviceId), MinuteStart(q.now.value), q.now.value) == 0
    ensures Refusal(s, q).Some? ==> Refusal(s, q).value.reason != RateLimited
  {
  }

  /** After a rate refusal the hint is between one and sixty seconds, and waiting it out passes the rate gate. */
  lemma RateHintSound(s: State, clock: int, q: Request, s1: State, hint: Option<int>, later: int)
    requires Inv(s, clock) && Legal(s, clock, ReserveOp(q)) && Reserve(s, q) == (s1, Rejected(RateLimited, hint))
    ensures hint.Some? && 1 <= hint.value <= 60
    ensures later >= q.now.value + 1_000 * hint.value ==>
              var again := Reserve(s1, q.(now := Some(later))).1;
              again.Rejected? ==> again.reason != RateLimited
  {
    hide Reserve, Refusal, ChosenSubscription, NextExpiry, LiveLeases, CallsIn, ExpireRows, WithinQuota, WithinRate, Indexed;
    UsageRefusal(s, q);
    ReserveKeepsInv(s, clock, q);
    RateRefusal(s1, q);
    if later >= q.now.value + 1_000 * hint.value {
      var sub := ChosenSubscription(s1.access, q).value;
      NextMinuteIsEmpty(s1, Caller(sub, q.tenantId, q.userId, q.deviceId), q.now.value, later);
      RetryMeetsGates(s1, q, later);
      RatePasses(s1.(rows := ExpireRows(s1.rows, later)), q.(now := Some(later)), sub);
    }
  }

  /** Once the first lease to expire has expired, the caller holds fewer leases than the limit. */
  lemma SlotFreed(s: State, c: Caller, now: int, later: int)
    requires WithinConcurrency(s, now) && PlansValid(s.access) && HasPlan(s.access, c.subscriptionId)
    requires LiveLeases(s.rows, c, now) >= PlanOf(s.access, c.subscriptionId).maxConcurrency
    ensures var next := NextExpiry(s.rows, c, now);
            && next.Some? && next.value > now
            && (later >= next.value ==>
                  LiveLeases(ExpireRows(s.rows, later), c, later) < PlanOf(s.access, c.subscriptionId).maxConcurrency)
  {
    var k := CountWitness(s.rows, (r: Reservation) => Holds(r, c, now));
    var next := NextExpiry(s.rows, c, now);
    k :| 0 <= k < |s.rows| && Holds(s.rows[k], c, now) && s.rows[k].leaseExpiresAt == next.value;
    if later >= next.value {
      var rows := ExpireRows(s.rows, later);
      CountLt(rows, (r: Reservation) => Holds(r, c, later), s.rows, (r: Reservation) => Holds(r, c, now), k);
      assert LiveLeases(s.rows, c, now) <= PlanOf(s.access, c.subscriptionId).maxConcurrency;
    }
  }

  /** What a refusal by the concurrency gate says. */
  lemma ConcurrencyRefusal(s: State, q: Request)
    requires q.now.Some? && Refusal(s, q).Some? && Refusal(s, q).value.reason == ConcurrencyLimit
    ensures ChosenSubscription(s.access, q).Some? && q.planId in s.access.plans
    ensures var c := Caller(ChosenSubscription(s.access, q).value, q.tenantId, q.userId, q.deviceId);
            var next := NextExpiry(s.rows, c, q.now.value);
            && LiveLeases(s.rows, c, q.now.value) >= s.access.plans[q.planId].maxConcurrency
            && Refusal(s, q).value.retryAfterSeconds == if next.None? then None else RetryAfter(next.value, q.now.value)
  {
  }

  /** A caller with a free slot is not refused by the concurrency gate. */
  lemma ConcurrencyPasses(s: State, q: Request, sub: nat)
    requires q.now.Some? && ChosenSubscription(s.access, q) == Some(sub) && q.planId in s.access.plans
    requires LiveLeases(s.rows, Caller(sub, q.tenantId, q.userId, q.deviceId), q.now.value) < s.access.plans[q.planId].maxConcurrency
    ensures Refusal(s, q).Some? ==> Refusal(s, q).value.reason != ConcurrencyLimit
  {
  }

  /** After a concurrency refusal a hint is always given, and waiting it out passes the concurrency gate. */
  lemma ConcurrencyHintSound(s: State, clock: int, q: Request, s1: State, hint: Option<int>, later: int)
    requires Inv(s, clock) && Legal(s, clock, ReserveOp(q)) && Reserve(s, q) == (s1, Rejected(ConcurrencyLimit, hint))
    ensures hint.Some? && 1 <= hint.value
    ensures later >= q.now.value + 1_000 * hint.value ==>
              var again := Reserve(s1, q.(now := Some(later))).1;
              again.Rejected? ==> again.reason != ConcurrencyLimit
  {
    hide Reserve, Refusal, ChosenSubscription, NextExpiry, LiveLeases, CallsIn, ExpireRows, WithinQuota, WithinRate, Indexed;
    UsageRefusal(s, q);
    ReserveKeepsInv(s, clock, q);
    ConcurrencyRefusal(s1, q);
    var sub := ChosenSubscription(s1.access, q).value;
    SlotFreed(s1, Caller(sub, q.tenantId, q.userId, q.deviceId), q.now.value, later);
    if later >= q.now.value + 1_000 * hint.value {
      RetryMeetsGates(s1, q, later);
      ConcurrencyPasses(s1.(rows := ExpireRows(s1.rows, later)), q.(now := Some(later)), sub);
    }
  }

  /** A grant found by access resolution is never refused for a reason access resolution vouches for. */
  lemma ResolvedIsAdmissible(s: State, q: Request, e: nat, allowed: Option<set<string>>)
    requires WellFormed(q)
    requires Access.Resolve(s.access, Access.Query(q.userId, q.tenantId, q.skillId, allowed, q.now.value)) == Some(e)
    requires q.planId == s.access.entitlements[e].planId
    requires q.subscription == Some(Id(s.access.entitlements[e].subscriptionId))
    ensures var outcome := Reserve(s, q).1;
            outcome.Rejected? ==>
              outcome.reason in {IdempotencyConflict, QuotaExceeded, RateLimited, ConcurrencyLimit}
  {
    assert Entitles(s.access.entitlements[e], s.access.entitlements[e].subscriptionId, q, q.now.value);
  }

  /** A fresh admission names a plan for which access resolution finds a grant at the same instant. */
  lemma AdmittedIsResolved(s: State, q: Request)
    requires Reserve(s, q).1.Admitted? && !(q.taskId in s.byTask && s.byTask[q.taskId] < |s.rows|)
    ensures Access.Resolve(s.access,
              Access.Query(q.userId, q.tenantId, q.skillId, Some({q.planId}), q.now.value)).Some?
  {
    var query := Access.Query(q.userId, q.tenantId, q.skillId, Some({q.planId}), q.now.value);
    var sub := ChosenSubscription(s.access, q).value;
    var i :| 0 <= i < |s.access.entitlements| && Entitles(s.access.entitlements[i], sub, q, q.now.value);
    assert Access.Grants(s.access, s.access.entitlements[i], query);
  }
}
