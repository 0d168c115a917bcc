/**
 * Cloud Skill plans, subscriptions and entitlements: who may call which Skill, and when.
 *
 * Store-minted identifiers are the position of the record in its table: records are never
 * removed, so a fresh identifier is the next position. Times are milliseconds.
 */
module SkillAccess {
  import opened Prelude

  datatype Plan = Plan(skillIds: seq<string>, includedCalls: nat, requestsPerMinute: nat, maxConcurrency: nat)

  datatype SubscriptionStatus = Active | Cancelled | Expired | Refunded | Suspended

  datatype Period = Monthly | Yearly

  datatype Subscription = Subscription(
    userId: string, tenantId: string, planId: string, status: SubscriptionStatus, period: Period,
    startsAt: int, expiresAt: int, sourceOrder: nat, createdAt: int)

  datatype EntitlementStatus = Granted | Withheld | Revoked

  datatype Entitlement = Entitlement(
    subscriptionId: nat, tenantId: string, userId: string, skillId: string, planId: string,
    status: EntitlementStatus, expiresAt: int, createdAt: int)

  datatype State = State(
    plans: map<string, Plan>, subscriptions: seq<Subscription>, entitlements: seq<Entitlement>)

  /** A query naming nobody, no tenant or no Skill never resolves. `allowed` of None places no restriction. */
  datatype Query = Query(userId: string, tenantId: string, skillId: string, allowed: Option<set<string>>, now: int)

  predicate WellNamed(q: Query) {
    q.userId != "" && q.tenantId != "" && q.skillId != ""
  }

  /** Entitlement `e` grants the access asked for by `q`. */
  predicate Grants(a: State, e: Entitlement, q: Query) {
    && e.userId == q.userId && e.tenantId == q.tenantId && e.skillId == q.skillId
    && e.status == Granted && e.expiresAt > q.now
    && (q.allowed.None? || e.planId in q.allowed.value)
    && e.subscriptionId < |a.subscriptions|
    && e.planId in a.plans
    && var sub := a.subscriptions[e.subscriptionId];
       && sub.planId == e.planId && sub.userId == q.userId && sub.tenantId == q.tenantId
       && sub.status == Active && sub.startsAt <= q.now < sub.expiresAt
       && q.skillId in a.plans[e.planId].skillIds
  }

  /** The newest granting entitlement, if any. */
  function Resolve(a: State, q: Query): (r: Option<nat>)
    ensures r.Some? ==> r.value < |a.entitlements| && Grants(a, a.entitlements[r.value], q)
    ensures r.Some? <==> WellNamed(q) && exists i :: 0 <= i < |a.entitlements| && Grants(a, a.entitlements[i], q)
  {
    if !WellNamed(q) then None
    else Newest(a.entitlements, e => Grants(a, e, q), (e: Entitlement) => e.createdAt)
  }

  // ---------------------------------------------------------------- what every step keeps

  predicate SameScope(e: Entitlement, f: Entitlement) {
    e.subscriptionId == f.subscriptionId && e.skillId == f.skillId && e.planId == f.planId
  }

  predicate Backed(a: State, e: Entitlement) {
    && e.subscriptionId < |a.subscriptions|
    && var sub := a.subscriptions[e.subscriptionId];
       && sub.userId == e.userId && sub.tenantId == e.tenantId && sub.planId == e.planId
       && (e.status == Granted ==> sub.status == Active)
  }

  /** Every entitlement is backed by its subscription, and there is one per subscription, Skill and plan. */
  predicate Valid(a: State) {
    && (forall i :: 0 <= i < |a.entitlements| ==> Backed(a, a.entitlements[i]))
    && (forall i, j :: 0 <= i < j < |a.entitlements| ==> !SameScope(a.entitlements[i], a.entitlements[j]))
  }

  // ---------------------------------------------------------------- steps

  function Revoke(e: Entitlement): Entitlement { e.(status := Revoked) }

  /** Every entitlement of subscription `sub` that is still granted becomes revoked. */
  function RevokeGranted(es: seq<Entitlement>, sub: nat): (r: seq<Entitlement>)
    ensures |r| == |es|
    ensures forall i :: 0 <= i < |es| ==>
              r[i] == if es[i].subscriptionId == sub && es[i].status == Granted then Revoke(es[i]) else es[i]
  {
    seq(|es|, i requires 0 <= i < |es| =>
      if es[i].subscriptionId == sub && es[i].status == Granted then Revoke(es[i]) else es[i])
  }

  /** `updateCloudSkillSubscriptionStatus`: an unknown subscription changes nothing. */
  function UpdateStatus(a: State, sub: nat, status: SubscriptionStatus): State {
    if sub >= |a.subscriptions| then a
    else
      a.(subscriptions := a.subscriptions[sub := a.subscriptions[sub].(status := status)],
         entitlements := if status == Active then a.entitlements else RevokeGranted(a.entitlements, sub))
  }

  datatype GrantError = SubscriptionNotFound | PlanMismatch | SkillNotInPlan | ScopeMismatch

  datatype GrantRequest = GrantRequest(
    subscriptionId: nat, tenantId: Option<string>, userId: Option<string>, skillId: string, planId: string,
    expiresAt: Option<int>, createdAt: int)

  function GrantProblem(a: State, g: GrantRequest): Option<GrantError> {
    if g.subscriptionId >= |a.subscriptions| then Some(SubscriptionNotFound)
    else
      var sub := a.subscriptions[g.subscriptionId];
      if sub.planId != g.planId then Some(PlanMismatch)
      else if g.planId !in a.plans || g.skillId !in a.plans[g.planId].skillIds then Some(SkillNotInPlan)
      else if (g.tenantId.Some? && g.tenantId.value != sub.tenantId) || (g.userId.Some? && g.userId.value != sub.userId)
      then Some(ScopeMismatch)
      else None
  }

  /** The position of the entitlement of this subscription, Skill and plan: the first one found. */
  function FindScope(es: seq<Entitlement>, sub: nat, skillId: string, planId: string): (r: Option<nat>)
    ensures r.Some? ==> r.value < |es| && es[r.value].subscriptionId == sub &&
                        es[r.value].skillId == skillId && es[r.value].planId == planId
    ensures r.None? ==> forall i :: 0 <= i < |es| ==>
              !(es[i].subscriptionId == sub && es[i].skillId == skillId && es[i].planId == planId)
  {
    if |es| == 0 then None
    else
      var r := FindScope(es[..|es| - 1], sub, skillId, planId);
      var last := es[|es| - 1];
      if r.Some? then r
      else if last.subscriptionId == sub && last.skillId == skillId && last.planId == planId then Some(|es| - 1)
      else None
  }

  /** `grantCloudSkillEntitlement`: repair the existing row or append one; a refused grant changes nothing. */
  function Grant(a: State, g: GrantRequest): State {
    if GrantProblem(a, g).Some? then a
    else
      var sub := a.subscriptions[g.subscriptionId];
      var expiresAt := if g.expiresAt.Some? then g.expiresAt.value else sub.expiresAt;
      var found := FindScope(a.entitlements, g.subscriptionId, g.skillId, g.planId);
      if found.Some? then
        var e := a.entitlements[found.value];
        var status := if e.status == Revoked && sub.status == Active then Granted else e.status;
        a.(entitlements := a.entitlements[found.value := e.(status := status, expiresAt := expiresAt)])
      else
        a.(entitlements := a.entitlements + [Entitlement(
             g.subscriptionId, sub.tenantId, sub.userId, g.skillId, g.planId,
             if sub.status == Active then Granted else Revoked, expiresAt, g.createdAt)])
  }

  /** `revokeCloudSkillEntitlement`. */
  function RevokeEntitlement(a: State, e: nat): State {
    if e >= |a.entitlements| then a
    else a.(entitlements := a.entitlements[e := Revoke(a.entitlements[e])])
  }

  lemma UpdateStatusKeepsValid(a: State, sub: nat, status: SubscriptionStatus)
    requires Valid(a)
    ensures Valid(UpdateStatus(a, sub, status))
  {
  }

  lemma GrantKeepsValid(a: State, g: GrantRequest)
    requires Valid(a)
    ensures Valid(Grant(a, g))
  {
    var a' := Grant(a, g);
    var es, es' := a.entitlements, a'.entitlements;
    if a' != a {
      var found := FindScope(es, g.subscriptionId, g.skillId, g.planId);
      assert found.None? ==> es' == es + [es'[|es|]];
      forall i, j | 0 <= i < j < |es'| ensures !SameScope(es'[i], es'[j]) {
        assert found.Some? ==> SameScope(es'[i], es[i]) && SameScope(es'[j], es[j]) && !SameScope(es[i], es[j]);
      }
    }
  }

  lemma RevokeEntitlementKeepsValid(a: State, e: nat)
    requires Valid(a)
    ensures Valid(RevokeEntitlement(a, e))
  {
    var a' := RevokeEntitlement(a, e);
    forall i, j | 0 <= i < j < |a'.entitlements| ensures !SameScope(a'.entitlements[i], a'.entitlements[j]) {
      assert !SameScope(a.entitlements[i], a.entitlements[j]);
    }
  }

  // ---------------------------------------------------------------- the store

  class AccessStore {
    var plans: map<string, Plan>
    var subscriptions: seq<Subscription>
    var entitlements: seq<Entitlement>

    ghost function View(): State
      reads this
    {
      State(plans, subscriptions, entitlements)
    }

    constructor ()
      ensures View() == State(map[], [], [])
    {
      plans, subscriptions, entitlements := map[], [], [];
    }

    /** The candidate filter and the checks on subscription and plan. */
    method IsGranting(e: Entitlement, q: Query) returns (r: bool)
      ensures r == Grants(View(), e, q)
    {
      var candidate := e.userId == q.userId && e.tenantId == q.tenantId && e.skillId == q.skillId &&
        e.status == Granted && e.expiresAt > q.now && (q.allowed.None? || e.planId in q.allowed.value);
      r := false;
      if candidate && e.subscriptionId < |subscriptions| && e.planId in plans {
        var sub, plan := subscriptions[e.subscriptionId], plans[e.planId];
        r := !(sub.planId != e.planId || sub.userId != q.userId || sub.tenantId != q.tenantId ||
          sub.status != Active || sub.startsAt > q.now || sub.expiresAt <= q.now || q.skillId !in plan.skillIds);
      }
    }

    /** `resolveCloudSkillAccess`. */
    method ResolveAccess(q: Query) returns (r: Option<nat>)
      ensures r == Resolve(View(), q)
    {
      hide Grants;
      r := None;
      if q.userId == "" || q.tenantId == "" || q.skillId == "" {
        return;
      }
      ghost var a := View();
      var i := 0;
      while i < |entitlements|
        invariant i <= |entitlements|
        invariant r == Newest(entitlements[..i], e => Grants(a, e, q), (e: Entitlement) => e.createdAt)
      {
        var granting := IsGranting(entitlements[i], q);
        assert entitlements[..i + 1][..i] == entitlements[..i];
        if granting && (r.None? || entitlements[r.value].createdAt < entitlements[i].createdAt) {
          r := Some(i);
        }
        i := i + 1;
      }
      assert entitlements[..i] == entitlements;
    }

    method UpdateSubscriptionStatus(sub: nat, status: SubscriptionStatus) returns (found: bool)
      modifies this
      ensures View() == UpdateStatus(old(View()), sub, status)
      ensures found == (sub < |old(subscriptions)|)
    {
      found := sub < |subscriptions|;
      if !found {
        return;
      }
      subscriptions := subscriptions[sub := subscriptions[sub].(status := status)];
      if status != Active {
        var i := 0;
        while i < |entitlements|
          invariant i <= |entitlements| == |old(entitlements)|
          invariant plans == old(plans) && subscriptions == old(subscriptions)[sub := old(subscriptions)[sub].(status := status)]
          invariant entitlements[..i] == RevokeGranted(old(entitlements), sub)[..i]
          invariant entitlements[i..] == old(entitlements)[i..]
        {
          var e := entitlements[i];
          assert e == old(entitlements)[i..][0];
          if e.subscriptionId == sub && e.status == Granted {
            entitlements := entitlements[i := Revoke(e)];
          }
          i := i + 1;
        }
      }
    }

    method GrantEntitlement(g: GrantRequest) returns (problem: Option<GrantError>)
      modifies this
      ensures View() == Grant(old(View()), g)
      ensures problem == GrantProblem(old(View()), g)
    {
      if g.subscriptionId >= |subscriptions| { return Some(SubscriptionNotFound); }
      var sub := subscriptions[g.subscriptionId];
      if sub.planId != g.planId { return Some(PlanMismatch); }
      if g.planId !in plans || g.skillId !in plans[g.planId].skillIds { return Some(SkillNotInPlan); }
      var tenantId := if g.tenantId.Some? then g.tenantId.value else sub.tenantId;
      var userId := if g.userId.Some? then g.userId.value else sub.userId;
      if tenantId != sub.tenantId || userId != sub.userId { return Some(ScopeMismatch); }
      var expiresAt := if g.expiresAt.Some? then g.expiresAt.value else sub.expiresAt;
      var i, found := 0, None;
      while i < |entitlements| && found.None?
        invariant i <= |entitlements|
        invariant found == FindScope(entitlements[..i], g.subscriptionId, g.skillId, g.planId)
        decreases |entitlements| - i
      {
        var e := entitlements[i];
        assert entitlements[..i + 1][..i] == entitlements[..i];
        if e.subscriptionId == g.subscriptionId && e.skillId == g.skillId && e.planId == g.planId {
          found := Some(i);
        }
        i := i + 1;
      }
      FindScopePrefix(entitlements, i, g.subscriptionId, g.skillId, g.planId);
      if found.Some? {
        var e := entitlements[found.value];
        if e.status == Revoked && sub.status == Active {
          e := e.(status := Granted);
        }
        entitlements := entitlements[found.value := e.(expiresAt := expiresAt)];
      } else {
        entitlements := entitlements + [Entitlement(g.subscriptionId, tenantId, userId, g.skillId, g.planId,
          if sub.status == Active then Granted else Revoked, expiresAt, g.createdAt)];
      }
      problem := None;
    }

    method RevokeOne(e: nat)
      modifies this
      ensures View() == RevokeEntitlement(old(View()), e)
    {
      if e < |entitlements| {
        entitlements := entitlements[e := Revoke(entitlements[e])];
      }
    }
  }

  /** A search that stopped early, or ran to the end, agrees with the search of the whole table. */
  lemma {:induction false} FindScopePrefix(es: seq<Entitlement>, n: nat, sub: nat, skillId: string, planId: string)
    requires n <= |es|
    requires n == |es| || FindScope(es[..n], sub, skillId, planId).Some?
    ensures FindScope(es, sub, skillId, planId) == FindScope(es[..n], sub, skillId, planId)
  {
    if n == |es| {
      assert es[..n] == es;
    } else {
      assert es[..|es| - 1][..n] == es[..n];
      FindScopePrefix(es[..|es| - 1], n, sub, skillId, planId);
    }
  }
}
