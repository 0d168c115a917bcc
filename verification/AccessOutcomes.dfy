/** What access steps do, in the fields of subscriptions and entitlements: which grant answers, and what a change takes away. */
module AccessOutcomes {
  import opened Prelude
  import opened SkillAccess

  // ---------------------------------------------------------------- which entitlement answers

  /** The entitlement covers the query now, and its subscription of the same user, tenant and plan runs. */
  predicate Opens(a: State, e: Entitlement, userId: string, tenantId: string, skillId: string, allowed: Option<set<string>>, now: int) {
    && e.status == Granted && now < e.expiresAt
    && e.userId == userId && e.tenantId == tenantId && e.skillId == skillId
    && (allowed.Some? ==> e.planId in allowed.value)
    && e.planId in a.plans && skillId in a.plans[e.planId].skillIds
    && e.subscriptionId < |a.subscriptions|
    && var s := a.subscriptions[e.subscriptionId];
       s.status == Active && s.userId == userId && s.tenantId == tenantId && s.planId == e.planId && s.startsAt <= now < s.expiresAt
  }

  /** The answer is the newest entitlement that opens, the first among equals; there is none if nothing opens or a name is empty. */
  lemma ResolveExactly(a: State, q: Query)
    ensures match Resolve(a, q)
            case None =>
              || q.userId == "" || q.tenantId == "" || q.skillId == ""
              || forall i :: 0 <= i < |a.entitlements| ==> !Opens(a, a.entitlements[i], q.userId, q.tenantId, q.skillId, q.allowed, q.now)
            case Some(i) =>
              && q.userId != "" && q.tenantId != "" && q.skillId != ""
              && i < |a.entitlements| && Opens(a, a.entitlements[i], q.userId, q.tenantId, q.skillId, q.allowed, q.now)
              && forall j :: 0 <= j < |a.entitlements| && Opens(a, a.entitlements[j], q.userId, q.tenantId, q.skillId, q.allowed, q.now) ==>
                   || a.entitlements[j].createdAt < a.entitlements[i].createdAt
                   || (a.entitlements[j].createdAt == a.entitlements[i].createdAt && i <= j)
  {
    forall i | 0 <= i < |a.entitlements|
      ensures Opens(a, a.entitlements[i], q.userId, q.tenantId, q.skillId, q.allowed, q.now) == Grants(a, a.entitlements[i], q)
    {
    }
    hide Opens, Grants;
  }

  // ---------------------------------------------------------------- status changes

  /** Another status is written to one subscription; unless it is the active one, its granted entitlements are revoked and nothing else. */
  lemma StatusMeans(a: State, sub: nat, status: SubscriptionStatus)
    requires sub < |a.subscriptions|
    ensures var a' := UpdateStatus(a, sub, status);
            && a'.plans == a.plans && a'.subscriptions == a.subscriptions[sub := a.subscriptions[sub].(status := status)]
            && |a'.entitlements| == |a.entitlements|
            && forall i :: 0 <= i < |a.entitlements| ==>
                 var e := a.entitlements[i];
                 a'.entitlements[i] == if status != Active && e.subscriptionId == sub && e.status == Granted then e.(status := Revoked) else e
  {
  }

  /** A subscription that left the active status answers no query, and becoming active again does not bring its entitlements back. */
  lemma LeavingEndsAccess(a: State, sub: nat, status: SubscriptionStatus, back: SubscriptionStatus, q: Query)
    requires sub < |a.subscriptions| && status != Active
    ensures var b := UpdateStatus(a, sub, status);
            && (Resolve(b, q).Some? ==> b.entitlements[Resolve(b, q).value].subscriptionId != sub)
            && var c := UpdateStatus(b, sub, back);
               Resolve(c, q).Some? ==> c.entitlements[Resolve(c, q).value].subscriptionId != sub
  {
    StatusMeans(a, sub, status);
    StatusMeans(UpdateStatus(a, sub, status), sub, back);
  }

  // ---------------------------------------------------------------- grants

  predicate OfScope(e: Entitlement, g: GrantRequest) {
    e.subscriptionId == g.subscriptionId && e.skillId == g.skillId && e.planId == g.planId
  }

  /** Why a grant is refused, the first reason first. */
  lemma GrantProblemMeans(a: State, g: GrantRequest)
    ensures GrantProblem(a, g) == Some(SubscriptionNotFound) <==> g.subscriptionId >= |a.subscriptions|
    ensures g.subscriptionId < |a.subscriptions| ==>
              var s := a.subscriptions[g.subscriptionId];
              var known := s.planId == g.planId;
              var listed := g.planId in a.plans && g.skillId in a.plans[g.planId].skillIds;
              var scoped := (g.tenantId.None? || g.tenantId.value == s.tenantId) && (g.userId.None? || g.userId.value == s.userId);
              && (GrantProblem(a, g) == Some(PlanMismatch) <==> !known)
              && (GrantProblem(a, g) == Some(SkillNotInPlan) <==> known && !listed)
              && (GrantProblem(a, g) == Some(ScopeMismatch) <==> known && listed && !scoped)
              && (GrantProblem(a, g).None? <==> known && listed && scoped)
    ensures GrantProblem(a, g).Some? ==> Grant(a, g) == a
  {
  }

  /**
   * An accepted grant leaves one entitlement of its scope, with the expiry asked for or the subscription's:
   * a revoked one is granted again if the subscription is active, one that is not revoked keeps its status,
   * and a new one is granted exactly if the subscription is active.
   */
  lemma GrantMeans(a: State, g: GrantRequest, i: nat)
    requires Valid(a) && GrantProblem(a, g).None? && i < |Grant(a, g).entitlements| && OfScope(Grant(a, g).entitlements[i], g)
    ensures var a' := Grant(a, g);
            var s, e := a.subscriptions[g.subscriptionId], a'.entitlements[i];
            && a'.plans == a.plans && a'.subscriptions == a.subscriptions
            && e.expiresAt == (if g.expiresAt.Some? then g.expiresAt.value else s.expiresAt)
            && e.userId == s.userId && e.tenantId == s.tenantId
            && if i < |a.entitlements| then
                 && a'.entitlements == a.entitlements[i := e] && e.createdAt == a.entitlements[i].createdAt
                 && e.status == if a.entitlements[i].status == Revoked && s.status == Active then Granted else a.entitlements[i].status
               else
                 && a'.entitlements == a.entitlements + [e] && e.createdAt == g.createdAt
                 && e.status == if s.status == Active then Granted else Revoked
  {
    var es, found := a.entitlements, FindScope(a.entitlements, g.subscriptionId, g.skillId, g.planId);
    if found.Some? {
      assert Backed(a, es[found.value]);
      assert i == found.value by {
        if i != found.value {
          assert es[i] == Grant(a, g).entitlements[i];
          assert SameScope(es[i], es[found.value]);
        }
      }
    }
  }

  /** An accepted grant always leaves an entitlement of its scope. */
  lemma GrantLeavesOne(a: State, g: GrantRequest)
    requires GrantProblem(a, g).None?
    ensures exists i :: 0 <= i < |Grant(a, g).entitlements| && OfScope(Grant(a, g).entitlements[i], g)
  {
    var found := FindScope(a.entitlements, g.subscriptionId, g.skillId, g.planId);
    assert OfScope(Grant(a, g).entitlements[if found.Some? then found.value else |a.entitlements|], g);
  }

  /** After an accepted grant for a running subscription, unless its entitlement was withheld, the Skill resolves. */
  lemma GrantOpens(a: State, g: GrantRequest, now: int)
    requires Valid(a) && GrantProblem(a, g).None?
    requires var s := a.subscriptions[g.subscriptionId];
             && s.status == Active && s.startsAt <= now < s.expiresAt && s.userId != "" && s.tenantId != "" && g.skillId != ""
             && (g.expiresAt.Some? ==> now < g.expiresAt.value)
    requires forall e :: e in a.entitlements && OfScope(e, g) ==> e.status != Withheld
    ensures var s := a.subscriptions[g.subscriptionId];
            Resolve(Grant(a, g), Query(s.userId, s.tenantId, g.skillId, Some({g.planId}), now)).Some?
  {
    var s, a' := a.subscriptions[g.subscriptionId], Grant(a, g);
    var found := FindScope(a.entitlements, g.subscriptionId, g.skillId, g.planId);
    var i := if found.Some? then found.value else |a.entitlements|;
    GrantMeans(a, g, i);
    assert i < |a.entitlements| ==> a.entitlements[i] in a.entitlements;
    assert Grants(a', a'.entitlements[i], Query(s.userId, s.tenantId, g.skillId, Some({g.planId}), now));
  }

  /** A revoked entitlement answers no query, and nothing else changes. */
  lemma RevocationMeans(a: State, e: nat, q: Query)
    requires e < |a.entitlements|
    ensures RevokeEntitlement(a, e) == a.(entitlements := a.entitlements[e := a.entitlements[e].(status := Revoked)])
    ensures Resolve(RevokeEntitlement(a, e), q) != Some(e)
  {
  }
}
