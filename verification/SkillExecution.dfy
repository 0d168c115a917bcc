/**
 * Admission of cloud Skill executions: reservation, release and lazy expiry of leases under
 * three limits at once (cycle quota, aligned-minute rate, concurrent leases).
 *
 * Reservation rows are never removed, so a reservation identifier is a position in the table.
 */
module SkillExecution {
  import opened Prelude
  import Access = SkillAccess

  const DEFAULT_LEASE_TTL_MS := 300_000
  const MIN_LEASE_TTL_MS := 1_000
  const MAX_LEASE_TTL_MS := 900_000
  const MINUTE_MS := 60_000

  datatype Reservation = Reservation(
    taskId: string, userId: string, tenantId: string, deviceId: string, agentId: string, skillId: string,
    planId: string, subscriptionId: nat, inputDigest: Option<string>, periodStart: int,
    reservedAt: int, leaseExpiresAt: int, releasedAt: Option<int>)

  datatype State = State(access: Access.State, rows: seq<Reservation>, byTask: map<string, nat>)

  /** An asserted subscription identifier, or a text that is empty or too long to be one. */
  datatype SubscriptionRef = Id(id: nat) | Garbled

  /** `now` of None is a timestamp that does not parse. */
  datatype Request = Request(
    taskId: string, userId: string, tenantId: string, deviceId: string, agentId: string, skillId: string,
    planId: string, subscription: Option<SubscriptionRef>, inputDigest: Option<string>,
    now: Option<int>, leaseTtlMs: Option<int>)

  datatype Reason =
    | InvalidRequest | IdempotencyConflict | PlanMismatch | SubscriptionInactive | SkillNotEntitled
    | QuotaExceeded | RateLimited | ConcurrencyLimit

  datatype Outcome = Admitted(id: nat) | Rejected(reason: Reason, retryAfterSeconds: Option<int>)

  // ---------------------------------------------------------------- request shape

  predicate Name(s: string) { 0 < |s| <= 256 }

  predicate WellFormed(q: Request) {
    && Name(q.taskId) && Name(q.userId) && Name(q.tenantId) && Name(q.deviceId) && Name(q.agentId)
    && Name(q.skillId) && Name(q.planId)
    && q.subscription != Some(Garbled)
    && (q.inputDigest.Some? ==> 0 < |q.inputDigest.value| <= 512)
    && q.now.Some?
    && (q.leaseTtlMs.Some? ==> MIN_LEASE_TTL_MS <= q.leaseTtlMs.value <= MAX_LEASE_TTL_MS)
  }

  function LeaseTtl(q: Request): int {
    if q.leaseTtlMs.Some? then q.leaseTtlMs.value else DEFAULT_LEASE_TTL_MS
  }

  // ---------------------------------------------------------------- counting rows

  predicate IsSkillCall(r: Reservation, sub: nat, skillId: string) {
    r.subscriptionId == sub && r.skillId == skillId
  }

  /** Rate and concurrency are limited per calling device inside a subscription, whatever the Agent. */
  datatype Caller = Caller(subscriptionId: nat, tenantId: string, userId: string, deviceId: string)

  function CallerOf(r: Reservation): Caller {
    Caller(r.subscriptionId, r.tenantId, r.userId, r.deviceId)
  }

  /** The row still holds a concurrency slot of caller `c` at `now`. */
  predicate Holds(r: Reservation, c: Caller, now: int) {
    CallerOf(r) == c && r.releasedAt.None? && r.leaseExpiresAt > now
  }

  function MinuteStart(t: int): int { t / MINUTE_MS * MINUTE_MS }

  /** Rows of a subscription and Skill reserved in [from, to]. */
  function SkillCallsIn(rows: seq<Reservation>, sub: nat, skillId: string, from: int, to: int): nat {
    Count(rows, (r: Reservation) => IsSkillCall(r, sub, skillId) && from <= r.reservedAt <= to)
  }

  /** Rows of one caller reserved in [from, to]. */
  function CallsIn(rows: seq<Reservation>, c: Caller, from: int, to: int): nat {
    Count(rows, (r: Reservation) => CallerOf(r) == c && from <= r.reservedAt <= to)
  }

  /** Leases of one caller that still hold a concurrency slot at `now`. */
  function LiveLeases(rows: seq<Reservation>, c: Caller, now: int): nat {
    Count(rows, (r: Reservation) => Holds(r, c, now))
  }

  /** Expiry of the first of those leases to run out. */
  function NextExpiry(rows: seq<Reservation>, c: Caller, now: int): (m: Option<int>)
    ensures m.None? ==> forall i :: 0 <= i < |rows| ==> !Holds(rows[i], c, now)
    ensures m.Some? ==> exists i :: 0 <= i < |rows| && Holds(rows[i], c, now) && rows[i].leaseExpiresAt == m.value
    ensures m.Some? ==> forall i :: 0 <= i < |rows| ==> Holds(rows[i], c, now) ==> m.value <= rows[i].leaseExpiresAt
  {
    if |rows| == 0 then None
    else
      var last := rows[|rows| - 1];
      var before := rows[..|rows| - 1];
      var m := NextExpiry(before, c, now);
      assert forall i :: 0 <= i < |rows| - 1 ==> rows[i] == before[i];
      if Holds(last, c, now) && (m.None? || last.leaseExpiresAt < m.value) then Some(last.leaseExpiresAt) else m
  }

  /** Whole seconds, rounded up, from `now` to a later instant. */
  function CeilSeconds(ms: int): int { (ms + 999) / 1_000 }

  function RetryAfter(until: int, now: int): Option<int> {
    if until <= now then None
    else Some(if CeilSeconds(until - now) < 1 then 1 else CeilSeconds(until - now))
  }

  // ---------------------------------------------------------------- expiry sweep

  function ExpireRow(r: Reservation, now: int): Reservation {
    if r.releasedAt.None? && r.leaseExpiresAt <= now then r.(releasedAt := Some(now)) else r
  }

  function ExpireRows(rows: seq<Reservation>, now: int): (r: seq<Reservation>)
    ensures |r| == |rows|
    ensures forall i :: 0 <= i < |rows| ==> r[i] == ExpireRow(rows[i], now)
  {
    seq(|rows|, i requires 0 <= i < |rows| => ExpireRow(rows[i], now))
  }

  // ---------------------------------------------------------------- reserve

  predicate SameBinding(r: Reservation, q: Request) {
    && r.userId == q.userId && r.tenantId == q.tenantId && r.deviceId == q.deviceId && r.agentId == q.agentId
    && r.skillId == q.skillId && r.planId == q.planId
    && (q.subscription.None? || q.subscription == Some(Id(r.subscriptionId)))
    && r.inputDigest == q.inputDigest
  }

  predicate Subscribes(sub: Access.Subscription, q: Request) {
    sub.planId == q.planId && sub.userId == q.userId && sub.tenantId == q.tenantId
  }

  /** The newest matching subscription, or exactly the asserted one. */
  function ChosenSubscription(a: Access.State, q: Request): (r: Option<nat>)
    ensures r.Some? ==> r.value < |a.subscriptions| && Subscribes(a.subscriptions[r.value], q)
  {
    match q.subscription
    case Some(Id(id)) => if id < |a.subscriptions| && Subscribes(a.subscriptions[id], q) then Some(id) else None
    case Some(Garbled) => None
    case None => Newest(a.subscriptions, (s: Access.Subscription) => Subscribes(s, q), (s: Access.Subscription) => s.createdAt)
  }

  predicate Entitles(e: Access.Entitlement, sub: nat, q: Request, now: int) {
    && e.subscriptionId == sub && e.tenantId == q.tenantId && e.userId == q.userId
    && e.skillId == q.skillId && e.planId == q.planId && e.status == Access.Granted && e.expiresAt > now
  }

  predicate Entitled(a: Access.State, sub: nat, q: Request, now: int) {
    exists i :: 0 <= i < |a.entitlements| && Entitles(a.entitlements[i], sub, q, now)
  }

  /** The first gate that refuses a fresh request, in the order the store applies them. */
  function Refusal(s: State, q: Request): (r: Option<Outcome>)
    requires q.now.Some?
    ensures r.Some? ==> r.value.Rejected?
    ensures r.None? ==> ChosenSubscription(s.access, q).Some? && q.planId in s.access.plans
  {
    var now := q.now.value;
    var chosen := ChosenSubscription(s.access, q);
    if q.planId !in s.access.plans then Some(Rejected(PlanMismatch, None))
    else if chosen.None? then Some(Rejected(PlanMismatch, None))
    else
      var plan := s.access.plans[q.planId];
      var sub := s.access.subscriptions[chosen.value];
      var caller := Caller(chosen.value, q.tenantId, q.userId, q.deviceId);
      if sub.status != Access.Active || now < sub.startsAt || now >= sub.expiresAt
      then Some(Rejected(SubscriptionInactive, None))
      else if q.skillId !in plan.skillIds || !Entitled(s.access, chosen.value, q, now)
      then Some(Rejected(SkillNotEntitled, None))
      else if SkillCallsIn(s.rows, chosen.value, q.skillId, sub.startsAt, now) >= plan.includedCalls
      then Some(Rejected(QuotaExceeded, None))
      else if CallsIn(s.rows, caller, MinuteStart(now), now) >= plan.requestsPerMinute
      then Some(Rejected(RateLimited, RetryAfter(MinuteStart(now) + MINUTE_MS, now)))
      else if LiveLeases(s.rows, caller, now) >= plan.maxConcurrency
      then
        var next := NextExpiry(s.rows, caller, now);
        Some(Rejected(ConcurrencyLimit, if next.None? then None else RetryAfter(next.value, now)))
      else None
  }

  function NewRow(a: Access.State, q: Request, sub: nat): Reservation
    requires q.now.Some? && sub < |a.subscriptions|
  {
    Reservation(q.taskId, q.userId, q.tenantId, q.deviceId, q.agentId, q.skillId, q.planId, sub, q.inputDigest,
                a.subscriptions[sub].startsAt, q.now.value, q.now.value + LeaseTtl(q), None)
  }

  /** `reserveCloudSkillExecution`. */
  function Reserve(s: State, q: Request): (State, Outcome) {
    if !WellFormed(q) then (s, Rejected(InvalidRequest, None))
    else
      var swept := s.(rows := ExpireRows(s.rows, q.now.value));
      if q.taskId in s.byTask && s.byTask[q.taskId] < |s.rows| then
        var id := s.byTask[q.taskId];
        if SameBinding(swept.rows[id], q) then (swept, Admitted(id)) else (swept, Rejected(IdempotencyConflict, None))
      else
        var clean := swept.(byTask := swept.byTask - {q.taskId});
        var refusal := Refusal(clean, q);
        if refusal.Some? then (clean, refusal.value)
        else
          var sub := ChosenSubscription(clean.access, q).value;
          (clean.(rows := clean.rows + [NewRow(clean.access, q, sub)], byTask := clean.byTask[q.taskId := |clean.rows|]),
           Admitted(|clean.rows|))
  }

  // ---------------------------------------------------------------- release

  /** A reservation identifier no row has is any number past the table. */
  datatype ReleaseRequest = ReleaseRequest(
    reservation: Option<nat>, taskId: Option<string>, userId: Option<string>, tenantId: Option<string>,
    now: Option<int>)

  predicate Names(r: Reservation, q: ReleaseRequest) {
    && (q.taskId.Some? ==> r.taskId == q.taskId.value)
    && (q.userId.Some? ==> r.userId == q.userId.value)
    && (q.tenantId.Some? ==> r.tenantId == q.tenantId.value)
  }

  /** The row a release refers to, before the identity checks. */
  function ReleaseTarget(s: State, q: ReleaseRequest): (r: Option<nat>)
    ensures r.Some? ==> r.value < |s.rows|
  {
    match q.reservation
    case Some(id) => if id < |s.rows| then Some(id) else None
    case None =>
      if q.taskId.Some? && q.taskId.value in s.byTask && s.byTask[q.taskId.value] < |s.rows|
      then Some(s.byTask[q.taskId.value])
      else None
  }

  /** `releaseCloudSkillExecution`. */
  function Release(s: State, q: ReleaseRequest): (State, bool) {
    if q.now.None? || (q.reservation.None? && (q.taskId.None? || q.taskId.value == "")) then (s, false)
    else
      var swept := s.(rows := ExpireRows(s.rows, q.now.value));
      var target := ReleaseTarget(swept, q);
      if target.None? || !Names(swept.rows[target.value], q) || swept.rows[target.value].releasedAt.Some?
      then (swept, false)
      else
        (swept.(rows := swept.rows[target.value := swept.rows[target.value].(releasedAt := Some(q.now.value))]), true)
  }

  // ---------------------------------------------------------------- the store

  class ExecutionStore {
    const access: Access.AccessStore
    var rows: seq<Reservation>
    var byTask: map<string, nat>

    ghost function View(): State
      reads this, access
    {
      State(access.View(), rows, byTask)
    }

    constructor (access: Access.AccessStore)
      ensures this.access == access && View() == State(access.View(), [], map[])
    {
      this.access := access;
      rows, byTask := [], map[];
    }

    method ExpireLeases(now: int)
      modifies this`rows
      ensures rows == ExpireRows(old(rows), now)
    {
      var i := 0;
      while i < |rows|
        invariant i <= |rows| == |old(rows)|
        invariant forall k :: 0 <= k < i ==> rows[k] == ExpireRow(old(rows)[k], now)
        invariant forall k :: i <= k < |rows| ==> rows[k] == old(rows)[k]
      {
        var row := rows[i];
        if row.releasedAt.None? && row.leaseExpiresAt <= now {
          rows := rows[i := row.(releasedAt := Some(now))];
        }
        i := i + 1;
      }
    }

    method FindSubscription(q: Request) returns (r: Option<nat>)
      requires WellFormed(q)
      ensures r == ChosenSubscription(access.View(), q)
    {
      r := None;
      var subs := access.subscriptions;
      if q.subscription.Some? {
        var id := q.subscription.value.id;
        if id < |subs| && subs[id].planId == q.planId && subs[id].userId == q.userId && subs[id].tenantId == q.tenantId {
          r := Some(id);
        }
        return;
      }
      var i := 0;
      while i < |subs|
        invariant i <= |subs|
        invariant r == Newest(subs[..i], (s: Access.Subscription) => Subscribes(s, q), (s: Access.Subscription) => s.createdAt)
      {
        assert subs[..i + 1][..i] == subs[..i];
        if Subscribes(subs[i], q) && (r.None? || subs[r.value].createdAt < subs[i].createdAt) {
          r := Some(i);
        }
        i := i + 1;
      }
      assert subs[..i] == subs;
    }

    method IsEntitled(sub: nat, q: Request, now: int) returns (r: bool)
      ensures r == Entitled(access.View(), sub, q, now)
    {
      r := false;
      var i := 0;
      while i < |access.entitlements| && !r
        invariant i <= |access.entitlements|
        invariant !r ==> forall k :: 0 <= k < i ==> !Entitles(access.entitlements[k], sub, q, now)
        invariant r ==> Entitled(access.View(), sub, q, now)
        decreases |access.entitlements| - i
      {
        r := Entitles(access.entitlements[i], sub, q, now);
        i := i + 1;
      }
    }

    /** One pass over the rows for the three usage figures and the first expiry. */
    method Usage(c: Caller, skillId: string, startsAt: int, now: int)
      returns (cycleCalls: nat, minuteCalls: nat, active: nat, nextExpiry: Option<int>)
      ensures cycleCalls == SkillCallsIn(rows, c.subscriptionId, skillId, startsAt, now)
      ensures minuteCalls == CallsIn(rows, c, MinuteStart(now), now)
      ensures active == LiveLeases(rows, c, now)
      ensures nextExpiry == NextExpiry(rows, c, now)
    {
      cycleCalls, minuteCalls, active, nextExpiry := 0, 0, 0, None;
      var i := 0;
      while i < |rows|
        invariant i <= |rows|
        invariant cycleCalls == SkillCallsIn(rows[..i], c.subscriptionId, skillId, startsAt, now)
        invariant minuteCalls == CallsIn(rows[..i], c, MinuteStart(now), now)
        invariant active == LiveLeases(rows[..i], c, now)
        invariant nextExpiry == NextExpiry(rows[..i], c, now)
      {
        var row := rows[i];
        assert rows[..i + 1][..i] == rows[..i];
        if row.subscriptionId == c.subscriptionId {
          if row.skillId == skillId && startsAt <= row.reservedAt <= now {
            cycleCalls := cycleCalls + 1;
          }
          if row.tenantId == c.tenantId && row.userId == c.userId && row.deviceId == c.deviceId {
            if MinuteStart(now) <= row.reservedAt <= now {
              minuteCalls := minuteCalls + 1;
            }
            if row.releasedAt.None? && row.leaseExpiresAt > now {
              active := active + 1;
              if nextExpiry.None? || row.leaseExpiresAt < nextExpiry.value {
                nextExpiry := Some(row.leaseExpiresAt);
              }
            }
          }
        }
        i := i + 1;
      }
      assert rows[..i] == rows;
    }

    /** The gates a fresh request has to pass, in order. */
    method PassGates(q: Request) returns (refusal: Option<Outcome>, chosen: Option<nat>)
      requires WellFormed(q)
      ensures refusal == Refusal(View(), q)
      ensures refusal.None? ==> chosen == ChosenSubscription(access.View(), q)
    {
      var now := q.now.value;
      chosen := None;
      if q.planId !in access.plans {
        return Some(Rejected(PlanMismatch, None)), None;
      }
      var plan := access.plans[q.planId];
      chosen := FindSubscription(q);
      if chosen.None? {
        return Some(Rejected(PlanMismatch, None)), None;
      }
      var id := chosen.value;
      var sub := access.subscriptions[id];
      if sub.status != Access.Active || now < sub.startsAt || now >= sub.expiresAt {
        return Some(Rejected(SubscriptionInactive, None)), None;
      }
      var entitled := IsEntitled(id, q, now);
      if q.skillId !in plan.skillIds || !entitled {
        return Some(Rejected(SkillNotEntitled, None)), None;
      }
      var caller := Caller(id, q.tenantId, q.userId, q.deviceId);
      var cycleCalls, minuteCalls, active, nextExpiry := Usage(caller, q.skillId, sub.startsAt, now);
      if cycleCalls >= plan.includedCalls {
        return Some(Rejected(QuotaExceeded, None)), None;
      }
      if minuteCalls >= plan.requestsPerMinute {
        return Some(Rejected(RateLimited, RetryAfter(MinuteStart(now) + MINUTE_MS, now))), None;
      }
      if active >= plan.maxConcurrency {
        return Some(Rejected(ConcurrencyLimit, if nextExpiry.None? then None else RetryAfter(nextExpiry.value, now))), None;
      }
      refusal := None;
    }

    method ReserveExecution(q: Request) returns (outcome: Outcome)
      modifies this
      ensures (View(), outcome) == Reserve(old(View()), q)
    {
      if !WellFormed(q) {
        return Rejected(InvalidRequest, None);
      }
      ExpireLeases(q.now.value);
      if q.taskId in byTask && byTask[q.taskId] < |rows| {
        var id := byTask[q.taskId];
        if SameBinding(rows[id], q) {
          return Admitted(id);
        }
        return Rejected(IdempotencyConflict, None);
      }
      byTask := byTask - {q.taskId};
      var refusal, chosen := PassGates(q);
      if refusal.Some? {
        return refusal.value;
      }
      var sub := access.subscriptions[chosen.value];
      var row := Reservation(q.taskId, q.userId, q.tenantId, q.deviceId, q.agentId, q.skillId, q.planId, chosen.value,
        q.inputDigest, sub.startsAt, q.now.value, q.now.value + LeaseTtl(q), None);
      byTask := byTask[q.taskId := |rows|];
      outcome := Admitted(|rows|);
      rows := rows + [row];
    }

    method ReleaseExecution(q: ReleaseRequest) returns (released: bool)
      modifies this
      ensures (View(), released) == Release(old(View()), q)
    {
      if q.now.None? || (q.reservation.None? && (q.taskId.None? || q.taskId.value == "")) {
        return false;
      }
      ExpireLeases(q.now.value);
      var target := None;
      if q.reservation.Some? {
        if q.reservation.value < |rows| {
          target := q.reservation;
        }
      } else if q.taskId.value in byTask && byTask[q.taskId.value] < |rows| {
        target := Some(byTask[q.taskId.value]);
      }
      if target.None? || !Names(rows[target.value], q) {
        return false;
      }
      var row := rows[target.value];
      if row.releasedAt.Some? {
        return false;
      }
      rows := rows[target.value := row.(releasedAt := q.now)];
      released := true;
    }
  }
}
