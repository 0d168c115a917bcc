/** The coordinator that carries a mutation through registry, gateway and Core policy, or rolls it back. */
module LifecycleSaga {
  import opened Prelude
  import opened AgentRegistry
  import opened AgentLifecycle
  import opened LifecycleSteps
  import L = LifecycleLaws

  // ---------------------------------------------------------------- loops that stop early

  lemma {:induction false} RevokeStops(rules: Rules, r: Reg, packIds: seq<string>, writes: nat -> bool, n: nat)
    requires n <= |packIds| && !RevokeTo(rules, r, packIds[..n], writes).1
    ensures RevokeTo(rules, r, packIds, writes) == RevokeTo(rules, r, packIds[..n], writes)
  {
    if n < |packIds| {
      assert packIds[..|packIds| - 1][..n] == packIds[..n];
      RevokeStops(rules, r, packIds[..|packIds| - 1], writes, n);
    } else {
      assert packIds[..n] == packIds;
    }
  }

  lemma {:induction false} ActivateStops(rules: Rules, r: Reg, installed: seq<Pack>, writes: nat -> bool, files: nat -> bool, n: nat)
    requires n <= |installed| && ActivateTo(rules, r, installed[..n], writes, files).1.None?
    ensures ActivateTo(rules, r, installed, writes, files) == ActivateTo(rules, r, installed[..n], writes, files)
  {
    if n < |installed| {
      assert installed[..|installed| - 1][..n] == installed[..n];
      ActivateStops(rules, r, installed[..|installed| - 1], writes, files, n);
    } else {
      assert installed[..n] == installed;
    }
  }

  /** One turn of the activation loop. */
  lemma ActivateTurn(rules: Rules, r: Reg, installed: seq<Pack>, writes: nat -> bool, files: nat -> bool, n: nat)
    requires n < |installed| && DistinctProfiles(r.entries) && DistinctPacks(installed)
    requires ActivateTo(rules, r, installed[..n], writes, files).1.Some?
    ensures var (r1, profiles) := ActivateTo(rules, r, installed[..n], writes, files);
            var (r2, e) := RegisterTo(rules, r1, installed[n], None, writes(n));
            && DistinctProfiles(r2.entries)
            && ActivateTo(rules, r, installed[..n + 1], writes, files) ==
               (r2, if e.None? || (e.value.enabled && !files(n)) then None
                    else Some(profiles.value + if e.value.enabled then [Profile(e.value, installed[n])] else []))
  {
    assert installed[..n + 1][..n] == installed[..n];
    ActivateToMeans(rules, r, installed[..n], writes, files);
    var (r1, profiles) := ActivateTo(rules, r, installed[..n], writes, files);
    RegisterMeans(rules, r1, installed[n], None, writes(n));
    hide DistinctProfiles, RegisterTo, DistinctPacks;
  }

  lemma RevocableSnoc(entries: seq<Entry>, i: nat, eligible: set<string>)
    requires i < |entries|
    ensures forall packId :: IsRevocable(entries[..i + 1], eligible, packId) <==>
              || IsRevocable(entries[..i], eligible, packId)
              || (packId !in eligible && entries[i].enabled && entries[i].packId == packId)
  {
    assert entries[..i + 1] == entries[..i] + [entries[i]];
    forall packId
      ensures IsRevocable(entries[..i + 1], eligible, packId) <==>
              || IsRevocable(entries[..i], eligible, packId)
              || (packId !in eligible && entries[i].enabled && entries[i].packId == packId)
    {
      assert forall e :: e in entries[..i + 1] <==> e in entries[..i] || e == entries[i];
    }
  }

  // ---------------------------------------------------------------- the outside

  class Gateway {
    var agents: seq<Agent>
    var defaultId: string

    constructor (agents: seq<Agent>, defaultId: string)
      ensures this.agents == agents && this.defaultId == defaultId
    {
      this.agents, this.defaultId := agents, defaultId;
    }

    method GetConfig(answers: bool) returns (r: Option<seq<Agent>>)
      ensures r == if answers then Some(agents) else None
    {
      r := if answers then Some(agents) else None;
    }

    method ReplaceAgents(next: seq<Agent>, w: Write) returns (ok: bool)
      modifies this`agents
      ensures ok == w.acknowledged && agents == Effect(w, old(agents), next)
    {
      if w.applied { agents := next; }
      ok := w.acknowledged;
    }

    method ListAgents(answers: bool) returns (r: Option<(string, seq<string>)>)
      ensures r == if answers then Some((defaultId, Ids(agents))) else None
    {
      r := if answers then Some((defaultId, Ids(agents))) else None;
    }
  }

  class Core {
    var policy: Policy

    constructor (policy: Policy)
      ensures this.policy == policy
    {
      this.policy := policy;
    }

    method Replace(next: Policy, w: Write) returns (ok: bool)
      modifies this
      ensures ok == w.acknowledged && policy == Effect(w, old(policy), next)
    {
      if w.applied { policy := next; }
      ok := w.acknowledged;
    }
  }

  datatype Sync = Stale | Fresh(revoked: seq<string>) | Failed(outcome: Outcome)

  // ---------------------------------------------------------------- the coordinator

  class Coordinator {
    const registry: Registry
    const gateway: Gateway
    const core: Core
    const env: Env
    var bridgePolicy: Policy
    var sourceBridgePolicy: Policy

    constructor (registry: Registry, gateway: Gateway, core: Core, env: Env, initial: Policy)
      requires env.rules == registry.rules
      ensures this.registry == registry && this.gateway == gateway && this.core == core && this.env == env
      ensures sourceBridgePolicy == initial && bridgePolicy == env.constrain(initial)
    {
      this.registry, this.gateway, this.core, this.env := registry, gateway, core, env;
      this.sourceBridgePolicy, this.bridgePolicy := initial, env.constrain(initial);
    }

    ghost predicate Valid() reads this, registry { env.rules == registry.rules && DistinctProfiles(registry.entries) }

    ghost function View(): World reads this, registry, gateway, core {
      World(registry.View(), gateway.agents, gateway.defaultId, core.policy, bridgePolicy, sourceBridgePolicy)
    }

    method Mutate(m: Mutation, writes: nat -> bool, files: bool) returns (ok: bool)
      requires Valid()
      modifies registry
      ensures Valid() && (registry.View(), ok) == MutateTo(env.rules, old(registry.View()), m, writes, files)
    {
      hide DistinctProfiles, RegisterTo, SwitchTo, RevokeTo;
      MutateToMeans(env.rules, registry.View(), m, writes, files);
      match m {
        case Enable(pack) =>
          var e := registry.Register(pack, Some(true), writes(0));
          ok := e.Some? && files;
        case Disable(packId, active) =>
          if active.None? { return false; }
          if Unowned(registry.entries, packId) {
            var e := registry.Register(active.value, Some(false), writes(0));
            ok := e.Some?;
          } else {
            ok := registry.SetPackEnabled(packId, false, writes(0));
          }
        case Revoke(packIds) =>
          ok := RevokeEach(packIds, writes);
      }
    }

    method RevokeEach(packIds: seq<string>, writes: nat -> bool) returns (ok: bool)
      requires Valid()
      modifies registry
      ensures Valid() && (registry.View(), ok) == RevokeTo(env.rules, old(registry.View()), packIds, writes)
    {
      hide DistinctProfiles, SwitchTo;
      var i := 0;
      while i < |packIds|
        invariant i <= |packIds| && Valid()
        invariant (registry.View(), true) == RevokeTo(env.rules, old(registry.View()), packIds[..i], writes)
      {
        assert packIds[..i + 1][..i] == packIds[..i];
        RevokeToMeans(env.rules, old(registry.View()), packIds[..i + 1], writes);
        ok := registry.SetPackEnabled(packIds[i], false, writes(i));
        if !ok {
          RevokeStops(env.rules, old(registry.View()), packIds, writes, i + 1);
          return;
        }
        i := i + 1;
      }
      assert packIds[..i] == packIds;
      ok := true;
    }

    /** Register every installed pack and collect those switched on. */
    method Activate(installed: seq<Pack>, writes: nat -> bool, files: nat -> bool) returns (r: Option<seq<Profile>>)
      requires Valid() && DistinctPacks(installed)
      modifies registry
      ensures Valid() && (registry.View(), r) == ActivateTo(env.rules, old(registry.View()), installed, writes, files)
      ensures r.Some? ==> r.value == ActiveProfiles(registry.entries, installed)
    {
      ActivateToMeans(env.rules, registry.View(), installed, writes, files);
      var profiles, i := [], 0;
      assert (registry.View(), Some(profiles)) == ActivateTo(env.rules, old(registry.View()), installed[..i], writes, files);
      hide DistinctProfiles, DistinctPacks, RegisterTo, RegisterAll, ActiveProfiles, ActivateTo;
      while i < |installed|
        invariant i <= |installed| && Valid()
        invariant (registry.View(), Some(profiles)) == ActivateTo(env.rules, old(registry.View()), installed[..i], writes, files)
      {
        ActivateTurn(env.rules, old(registry.View()), installed, writes, files, i);
        var e := registry.Register(installed[i], None, writes(i));
        if e.None? || (e.value.enabled && !files(i)) {
          ActivateStops(env.rules, old(registry.View()), installed, writes, files, i + 1);
          return None;
        }
        profiles := profiles + if e.value.enabled then [Profile(e.value, installed[i])] else [];
        i := i + 1;
      }
      assert installed[..i] == installed;
      r := Some(profiles);
    }

    /** The local part of the way forward: mutate, activate, compose. */
    method Prepare(call: Call) returns (next: Option<Plan>)
      requires Valid() && DistinctPacks(call.installed)
      modifies registry
      ensures Valid() && (registry.View(), next) == Prepared(env, old(registry.View()), call)
    {
      hide DistinctProfiles, DistinctPacks, MutateTo, ActivateTo, ActiveProfiles;
      var ok := Mutate(call.m, call.faults.mutateWrites, call.faults.mutateFiles);
      if !ok { return None; }
      var profiles := Activate(call.installed, call.faults.activateWrites, call.faults.activateFiles);
      next := if profiles.None? then None else env.plan(profiles.value);
    }

    /** The read-back. */
    method ReadsBack(agents: seq<Agent>, answers: bool) returns (ok: bool)
      ensures ok == Confirms(View(), agents, answers)
    {
      var listed := gateway.ListAgents(answers);
      ok := listed.Some? && listed.value.0 == "main" && listed.value.1 == Ids(agents);
    }

    /** The registry part of a rollback. */
    method RestoreRegistry(snap: Snap, f: Faults) returns (out: Outcome)
      requires env.rules == registry.rules
      modifies this`sourceBridgePolicy, registry
      ensures (Ended(out), View()) == PutBack(env, old(View()), snap, f)
    {
      sourceBridgePolicy := snap.source;
      if registry.entries == snap.entries { return Refused; }
      var ok := registry.Restore(snap.entries, f.undoRegistry);
      out := if ok then Refused else RollbackFailed;
    }

    method RollbackPolicy(call: Call, snap: Snap) returns (out: Outcome)
      requires env.rules == registry.rules
      modifies this`sourceBridgePolicy, registry, core
      ensures var (pc, w) := UndoPolicy(old(View()), snap, call.faults);
              (View(), out) == Rest(env, call, pc, w)
    {
      hide PutBack, Rest;
      var ok := core.Replace(snap.policy, call.faults.undoPolicy);
      MicroKeepsRest(env, call, UndoPolicing(snap), View());
      if !ok { return RollbackFailed; }
      out := RestoreRegistry(snap, call.faults);
    }

    /** The way back once the agents write was tried. */
    method RollbackAll(call: Call, snap: Snap) returns (out: Outcome)
      requires env.rules == registry.rules
      modifies this`sourceBridgePolicy, registry, gateway`agents, core
      ensures (View(), out) == Rest(env, call, UndoReading(snap), old(View()))
    {
      hide PutBack, Prepared, Confirms, Rest;
      var f := call.faults;
      MicroKeepsRest(env, call, UndoReading(snap), View());
      var current := gateway.GetConfig(f.undoRead);
      if current.None? { return RollbackFailed; }
      if current.value != snap.agents {
        var ok := gateway.ReplaceAgents(snap.agents, f.undoAgents);
        MicroKeepsRest(env, call, UndoWriting(snap), View());
        if !ok { return RollbackFailed; }
        MicroKeepsRest(env, call, UndoConfirming(snap), View());
        ok := ReadsBack(snap.agents, f.undoConfirm);
        if !ok { return RollbackFailed; }
      }
      out := RollbackPolicy(call, snap);
    }

    /** The gateway part of the way forward: write, read back, notify; then back if any of it fails. */
    method PushAgents(call: Call, snap: Snap, next: Plan) returns (out: Outcome)
      requires env.rules == registry.rules
      modifies this, registry, gateway`agents, core
      ensures var w := old(View());
              (View(), out) == Rest(env, call, Writing(snap, next), w.(agents := Effect(call.faults.agents, w.agents, next.agents)))
    {
      hide PutBack, Prepared, Confirms, Rest;
      var f := call.faults;
      var ok := gateway.ReplaceAgents(next.agents, f.agents);
      MicroKeepsRest(env, call, Writing(snap, next), View());
      if ok {
        MicroKeepsRest(env, call, Confirming(snap, next), View());
        ok := ReadsBack(next.agents, f.confirm);
        if ok {
          bridgePolicy, sourceBridgePolicy := env.constrain(next.source), next.source;
          if f.notified { return Done(Ids(next.agents)); }
        }
      }
      out := RollbackAll(call, snap);
    }

    /** The outside part: Core first, then the gateway. */
    method Push(call: Call, snap: Snap, next: Plan) returns (out: Outcome)
      requires env.rules == registry.rules
      modifies this, registry, gateway`agents, core
      ensures var w := old(View());
              (View(), out) == Rest(env, call, Policing(snap, next),
                                    w.(policy := Effect(call.faults.policy, w.policy, env.constrain(next.source))))
    {
      hide PutBack, Prepared, Confirms, Rest;
      var ok := core.Replace(env.constrain(next.source), call.faults.policy);
      MicroKeepsRest(env, call, Policing(snap, next), View());
      if ok {
        out := PushAgents(call, snap, next);
      } else {
        out := RollbackPolicy(call, snap);
      }
    }

    /** A whole operation: forward, or forward and back. */
    method ApplyMutation(call: Call) returns (out: Outcome)
      requires Valid() && DistinctPacks(call.installed)
      modifies this, registry, gateway`agents, core
      ensures Valid() && (View(), out) == Whole(env, call, old(View()))
      ensures registry.revision >= old(registry.revision)
      ensures out.Done? <==> L.Reaches(env, call, old(View())) && call.faults.notified
      ensures out.Done? ==> L.Arrived(env, call, old(View()), View())
      ensures out.Refused? ==> L.Restored(env, call, old(View()), View())
      ensures out.RollbackFailed? ==> L.CannotGoBack(env, call, old(View()))
    {
      L.OperationIsAtomic(env, call, View());
      hide DistinctProfiles, DistinctPacks, PutBack, Prepared, Rest, L.Arrived, L.Restored, L.Reaches, L.CannotGoBack;
      ghost var w := View();
      MicroKeepsRest(env, call, Queued, w);
      MicroKeepsRest(env, call, Reading(w.reg.entries), w);
      var agents := gateway.GetConfig(call.faults.read);
      if agents.None? { return Refused; }
      var snap := Snap(registry.entries, agents.value, bridgePolicy, sourceBridgePolicy);
      var next := Prepare(call);
      if next.None? {
        out := RestoreRegistry(snap, call.faults);
      } else {
        out := Push(call, snap, next.value);
      }
    }

    /** The packs that are switched on without being eligible, each once. */
    method Revocable(eligible: set<string>) returns (packIds: seq<string>)
      ensures forall packId :: packId in packIds <==> IsRevocable(registry.entries, eligible, packId)
      ensures forall i, j :: 0 <= i < j < |packIds| ==> packIds[i] != packIds[j]
    {
      var entries, i := registry.entries, 0;
      packIds := [];
      while i < |entries|
        invariant i <= |entries|
        invariant forall packId :: packId in packIds <==> IsRevocable(entries[..i], eligible, packId)
        invariant forall i, j :: 0 <= i < j < |packIds| ==> packIds[i] != packIds[j]
      {
        var e := entries[i];
        RevocableSnoc(entries, i, eligible);
        if e.enabled && e.packId !in eligible && e.packId !in packIds {
          packIds := packIds + [e.packId];
        }
        i := i + 1;
      }
      assert entries[..i] == entries;
    }

    /**
     * Without an answer nothing changes. With one, the packs reported as revoked are exactly those
     * switched on without being eligible; afterwards everything switched on is eligible, exactly if
     * nothing had to be revoked or every installed but unregistered pack is eligible. A revocation
     * that fails is rolled back like any other operation.
     */
    method SyncEntitlements(installed: seq<Pack>, eligible: Option<set<string>>, f: Faults) returns (out: Sync)
      requires Valid() && DistinctPacks(installed)
      modifies this, registry, gateway`agents, core
      ensures Valid() && registry.revision >= old(registry.revision)
      ensures out.Stale? <==> eligible.None?
      ensures out.Stale? || out == Fresh([]) ==> View() == old(View())
      ensures out.Fresh? ==> forall packId :: packId in out.revoked <==> IsRevocable(old(registry.entries), eligible.value, packId)
      ensures out.Fresh? ==> (AllEligible(registry.entries, eligible.value) <==>
                              out.revoked == [] || NewcomersEligible(old(registry.entries), installed, eligible.value))
      ensures out.Failed? ==> exists packIds: seq<string> ::
                && (forall packId :: packId in packIds <==> IsRevocable(old(registry.entries), eligible.value, packId))
                && !out.outcome.Done? && (View(), out.outcome) == Whole(env, Call(Revoke(packIds), installed, f), old(View()))
    {
      hide DistinctProfiles, DistinctPacks, Whole, L.Reaches, L.Restored, L.CannotGoBack;
      if eligible.None? { return Stale; }
      var packIds := Revocable(eligible.value);
      if packIds == [] {
        assert AllEligible(registry.entries, eligible.value) by {
          forall e | e in registry.entries && e.enabled ensures e.packId in eligible.value {
            assert IsRevocable(registry.entries, eligible.value, e.packId) || e.packId in eligible.value;
          }
        }
        return Fresh([]);
      }
      var call := Call(Revoke(packIds), installed, f);
      L.OperationIsAtomic(env, call, View());
      var o := ApplyMutation(call);
      if !o.Done? { return Failed(o); }
      RevocationTakesEffect(env.rules, old(registry.entries), packIds, eligible.value, installed);
      out := Fresh(packIds);
    }
  }
}
