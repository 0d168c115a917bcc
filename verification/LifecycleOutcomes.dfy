/**
 * When a lifecycle operation goes through and what it leaves: which installed packs and requests have a
 * target at all, what the target registry holds for every profile, and which outside calls must succeed.
 */
module LifecycleOutcomes {
  import opened Prelude
  import opened AgentRegistry
  import opened RegistryOutcomes
  import opened AgentLifecycle
  import opened LifecycleSteps
  import opened LifecycleLaws

  // ---------------------------------------------------------------- the activation

  lemma EntryMeans(s: seq<Entry>, pack: Pack)
    requires DistinctProfiles(s)
    ensures Registered(s, pack.profileId) <==> EntryOf(s, pack.profileId).Some?
    ensures OwnedElsewhere(s, pack) <==>
            EntryOf(s, pack.profileId).Some? && EntryOf(s, pack.profileId).value.packId != pack.packId
  {
    forall k | k in s && k.profileId == pack.profileId ensures EntryOf(s, pack.profileId) == Some(k) {
      EntryOfMember(s, k);
    }
    hide EntryOf;
  }

  predicate DistinctPackProfiles(installed: seq<Pack>) {
    forall i, j :: 0 <= i < j < |installed| ==> installed[i].profileId != installed[j].profileId
  }

  /** Every installed pack may have its profile, and no two ask for the same one. */
  predicate AllRegistrable(rules: Rules, s: seq<Entry>, installed: seq<Pack>) {
    && DistinctPackProfiles(installed)
    && forall i :: 0 <= i < |installed| ==> Registrable(rules, s, installed[i])
  }

  /** The pack can be registered behind others exactly if it could be before them and none took its profile. */
  lemma LastRegistrable(rules: Rules, s: seq<Entry>, front: seq<Pack>, last: Pack)
    requires DistinctProfiles(s) && RegisterAll(rules, s, front).Some?
    requires forall i :: 0 <= i < |front| ==> front[i].packId != last.packId
    ensures Registrable(rules, RegisterAll(rules, s, front).value, last) <==>
            Registrable(rules, s, last) && forall i :: 0 <= i < |front| ==> front[i].profileId != last.profileId
  {
    var t := RegisterAll(rules, s, front).value;
    ActivationKeeps(rules, s, front);
    EntryMeans(s, last);
    EntryMeans(t, last);
    hide DistinctProfiles, Sorted, RegisterAll, EntryOf, Registered, OwnedElsewhere;
    assert ActivatedEntry(s, t, front, last.profileId);
    forall i | 0 <= i < |front| && front[i].profileId == last.profileId ensures !Registrable(rules, t, last) {
      assert Owns(t, front[i]);
    }
  }

  lemma {:induction false} RegisterAllExactly(rules: Rules, s: seq<Entry>, installed: seq<Pack>)
    requires DistinctProfiles(s) && DistinctPacks(installed)
    ensures RegisterAll(rules, s, installed).Some? <==> AllRegistrable(rules, s, installed)
  {
    if |installed| > 0 {
      var front, last := installed[..|installed| - 1], installed[|installed| - 1];
      RegisterAllExactly(rules, s, front);
      assert AllRegistrable(rules, s, installed) ==> AllRegistrable(rules, s, front);
      if RegisterAll(rules, s, front).Some? {
        var t := RegisterAll(rules, s, front).value;
        ActivationKeeps(rules, s, front);
        WantedExactly(rules, t, last, None);
        LastRegistrable(rules, s, front, last);
        assert StoreWanted(rules, t, last, None).Some? <==> Registrable(rules, t, last);
        assert RegisterAll(rules, s, installed).Some? <==> StoreWanted(rules, t, last, None).Some?;
        hide DistinctProfiles, Sorted, Registrable, RegisterAll, Wanted;
        JoinRegistrable(rules, s, installed);
      }
    }
  }

  lemma JoinRegistrable(rules: Rules, s: seq<Entry>, installed: seq<Pack>)
    requires |installed| > 0
    ensures var n := |installed| - 1;
            AllRegistrable(rules, s, installed) <==>
            && AllRegistrable(rules, s, installed[..n]) && Registrable(rules, s, installed[n])
            && forall i :: 0 <= i < n ==> installed[..n][i].profileId != installed[n].profileId
  {
    hide Registrable;
    var n := |installed| - 1;
    forall i | 0 <= i < n ensures installed[..n][i] == installed[i] {
    }
    if AllRegistrable(rules, s, installed[..n]) && Registrable(rules, s, installed[n]) &&
       (forall i :: 0 <= i < n ==> installed[..n][i].profileId != installed[n].profileId) {
      forall i, j | 0 <= i < j < |installed| ensures installed[i].profileId != installed[j].profileId {
        assert installed[..n][i].profileId == installed[i].profileId;
        assert j < n ==> installed[..n][j].profileId == installed[j].profileId;
      }
      forall i | 0 <= i < |installed| ensures Registrable(rules, s, installed[i]) {
        assert i < n ==> Registrable(rules, s, installed[..n][i]);
      }
    }
  }

  /** What activation leaves for an installed pack: its own versions, a known agent and switch kept, a new one on. */
  predicate InstalledEntry(rules: Rules, s: seq<Entry>, pack: Pack, e: Entry) {
    && e.profileId == pack.profileId && e.packId == pack.packId
    && e.profileVersion == pack.profileVersion && e.packVersion == pack.packVersion
    && match EntryOf(s, pack.profileId)
       case Some(k) => e.agentId == k.agentId && e.enabled == k.enabled
       case None => rules.agentIdFor(pack.profileId) == Some(e.agentId) && e.enabled
  }

  /** Activation registers exactly the installed packs, with their versions, and leaves every other entry as it was. */
  ghost predicate ActivatedExactly(rules: Rules, s: seq<Entry>, t: seq<Entry>, installed: seq<Pack>) {
    && (forall i :: 0 <= i < |installed| ==>
          var e := EntryOf(t, installed[i].profileId); e.Some? && InstalledEntry(rules, s, installed[i], e.value))
    && (forall p :: !Lists(installed, p) ==> EntryOf(t, p) == EntryOf(s, p))
  }

  lemma FrontRegistered(rules: Rules, s: seq<Entry>, installed: seq<Pack>)
    requires |installed| > 0 && DistinctPacks(installed) && RegisterAll(rules, s, installed).Some?
    ensures var front := installed[..|installed| - 1];
            && DistinctPacks(front) && RegisterAll(rules, s, front).Some?
            && RegisterAll(rules, s, installed) == StoreWanted(rules, RegisterAll(rules, s, front).value, installed[|installed| - 1], None)
  {
    hide StoreWanted;
  }

  lemma {:induction false} ActivationExactly(rules: Rules, s: seq<Entry>, installed: seq<Pack>)
    requires DistinctProfiles(s) && DistinctPacks(installed) && RegisterAll(rules, s, installed).Some?
    ensures ActivatedExactly(rules, s, RegisterAll(rules, s, installed).value, installed)
  {
    if |installed| > 0 {
      var front, last := installed[..|installed| - 1], installed[|installed| - 1];
      FrontRegistered(rules, s, installed);
      hide DistinctProfiles, Sorted, RegisterAll, EntryOf, Wanted, Stored, DistinctPacks, Registered, Registrable;
      ActivationExactly(rules, s, front);
      ActivationKeeps(rules, s, front);
      RegisterAllExactly(rules, s, installed);
      var t := RegisterAll(rules, s, front).value;
      StoreWantedKeeps(rules, t, last, None);
      WantedExactly(rules, t, last, None);
      EntryMeans(t, last);
      assert installed == front + [last];
      ActivateOneExactly(rules, s, t, StoreWanted(rules, t, last, None).value, front, last, Wanted(rules, t, last, None).value);
    }
  }

  lemma ActivateOneExactly(rules: Rules, s: seq<Entry>, t: seq<Entry>, u: seq<Entry>, front: seq<Pack>, last: Pack, e: Entry)
    requires ActivatedExactly(rules, s, t, front) && RightEntry(rules, t, last, None, e)
    requires Registered(t, last.profileId) <==> EntryOf(t, last.profileId).Some?
    requires forall p :: EntryOf(u, p) == if p == last.profileId then Some(e) else EntryOf(t, p)
    requires DistinctPackProfiles(front + [last])
    ensures ActivatedExactly(rules, s, u, front + [last])
  {
    hide EntryOf;
    var all := front + [last];
    forall i | 0 <= i < |front| ensures front[i].profileId != last.profileId {
      assert all[i] == front[i] && all[|front|] == last;
    }
    assert !Lists(front, last.profileId);
    assert EntryOf(t, last.profileId).Some? ==> EntryOf(t, last.profileId).value in t;
    forall i | 0 <= i < |all|
      ensures EntryOf(u, all[i].profileId).Some? && InstalledEntry(rules, s, all[i], EntryOf(u, all[i].profileId).value)
    {
      assert i < |front| ==> all[i] == front[i];
    }
    forall p | !Lists(all, p) ensures EntryOf(u, p) == EntryOf(s, p) {
      ListsSnoc(front, last, p);
    }
  }

  // ---------------------------------------------------------------- which requests have a target

  /** The request names an installed pack, or packs that are registered. */
  predicate Sensible(s: seq<Entry>, m: Mutation, installed: seq<Pack>) {
    match m
    case Enable(pack) => pack in installed
    case Disable(packId, active) => active.Some? && active.value in installed && active.value.packId == packId
    case Revoke(packIds) => forall k :: 0 <= k < |packIds| ==> HasPack(s, packIds[k])
  }

  lemma {:induction false} RevokeAllExactly(rules: Rules, s: seq<Entry>, packIds: seq<string>)
    requires DistinctProfiles(s)
    ensures RevokeAll(rules, s, packIds).Some? <==> forall k :: 0 <= k < |packIds| ==> HasPack(s, packIds[k])
  {
    if |packIds| > 0 {
      var front, last := packIds[..|packIds| - 1], packIds[|packIds| - 1];
      RevokeAllExactly(rules, s, front);
      if RevokeAll(rules, s, front).Some? {
        RevokeAllKeeps(rules, s, front);
        SameOwners(s, RevokeAll(rules, s, front).value, last);
        assert Unowned(RevokeAll(rules, s, front).value, last) <==> !HasPack(RevokeAll(rules, s, front).value, last);
      }
      assert forall k :: 0 <= k < |front| ==> front[k] == packIds[k];
      hide HasPack, DistinctProfiles, Sorted, EntryOf;
    }
  }

  /** The same profiles with the same owners. */
  ghost predicate OwnersKept(s: seq<Entry>, t: seq<Entry>) {
    forall p ::
      && (EntryOf(t, p).Some? <==> EntryOf(s, p).Some?)
      && (EntryOf(s, p).Some? ==> EntryOf(t, p).value.packId == EntryOf(s, p).value.packId)
  }

  lemma SameOwners(s: seq<Entry>, t: seq<Entry>, packId: string)
    requires DistinctProfiles(s) && DistinctProfiles(t) && OwnersKept(s, t)
    ensures HasPack(t, packId) <==> HasPack(s, packId)
  {
    forall e | e in s && e.packId == packId ensures HasPack(t, packId) {
      EntryOfMember(s, e);
      assert EntryOf(t, e.profileId).value in t;
    }
    forall e | e in t && e.packId == packId ensures HasPack(s, packId) {
      EntryOfMember(t, e);
      assert EntryOf(s, e.profileId).value in s;
    }
  }

  lemma SameRegistrable(rules: Rules, s: seq<Entry>, t: seq<Entry>, pack: Pack)
    requires DistinctProfiles(s) && DistinctProfiles(t)
    requires EntryOf(t, pack.profileId).Some? == EntryOf(s, pack.profileId).Some?
    requires EntryOf(s, pack.profileId).Some? ==>
               EntryOf(t, pack.profileId).value.packId == EntryOf(s, pack.profileId).value.packId
    ensures Registrable(rules, t, pack) <==> Registrable(rules, s, pack)
  {
    EntryMeans(s, pack);
    EntryMeans(t, pack);
  }

  /** After a mutation that leaves owners alone, or gives an installed pack its own profile, the same packs are registrable. */
  lemma MutationKeepsRegistrable(rules: Rules, s: seq<Entry>, t: seq<Entry>, own: Option<Pack>, installed: seq<Pack>)
    requires DistinctProfiles(s) && DistinctProfiles(t)
    requires own.None? ==> OwnersKept(s, t)
    requires own.Some? ==> own.value in installed && Registrable(rules, s, own.value) && Owns(t, own.value)
    requires own.Some? ==> forall p :: p != own.value.profileId ==> EntryOf(t, p) == EntryOf(s, p)
    ensures AllRegistrable(rules, t, installed) <==> AllRegistrable(rules, s, installed)
  {
    hide EntryOf, DistinctProfiles, Registrable;
    if DistinctPackProfiles(installed) {
      forall i | 0 <= i < |installed| ensures Registrable(rules, t, installed[i]) <==> Registrable(rules, s, installed[i]) {
        if own.None? || installed[i].profileId != own.value.profileId {
          SameRegistrable(rules, s, t, installed[i]);
        } else {
          assert installed[i] == own.value;
          OwnerRegistrable(rules, s, t, own.value);
        }
      }
    }
  }

  lemma OwnerRegistrable(rules: Rules, s: seq<Entry>, t: seq<Entry>, pack: Pack)
    requires DistinctProfiles(t) && Registrable(rules, s, pack) && Owns(t, pack)
    ensures Registrable(rules, t, pack)
  {
    EntryMeans(t, pack);
  }

  lemma StoreThenRegistrable(rules: Rules, s: seq<Entry>, pack: Pack, enabled: Option<bool>, installed: seq<Pack>)
    requires DistinctProfiles(s) && pack in installed
    ensures StoreWanted(rules, s, pack, enabled).Some? <==> Registrable(rules, s, pack)
    ensures StoreWanted(rules, s, pack, enabled).Some? ==>
              var t := StoreWanted(rules, s, pack, enabled).value;
              DistinctProfiles(t) && (AllRegistrable(rules, t, installed) <==> AllRegistrable(rules, s, installed))
  {
    WantedExactly(rules, s, pack, enabled);
    if StoreWanted(rules, s, pack, enabled).Some? {
      StoreWantedKeeps(rules, s, pack, enabled);
      hide DistinctProfiles, Sorted, EntryOf, Registrable, Wanted, Stored, RightEntry;
      var t := StoreWanted(rules, s, pack, enabled).value;
      assert Wanted(rules, s, pack, enabled).value.packId == pack.packId by { WantedPack(rules, s, pack, enabled); }
      MutationKeepsRegistrable(rules, s, t, Some(pack), installed);
    }
  }

  lemma WantedPack(rules: Rules, s: seq<Entry>, pack: Pack, enabled: Option<bool>)
    requires Wanted(rules, s, pack, enabled).Some?
    ensures Wanted(rules, s, pack, enabled).value.packId == pack.packId
  {
  }

  /**
   * An operation has a target exactly if the request is sensible and every installed pack may have its
   * profile: whatever the request, one pack that cannot be registered makes them all fail.
   */
  lemma TargetExactly(rules: Rules, s: seq<Entry>, m: Mutation, installed: seq<Pack>)
    requires DistinctProfiles(s) && DistinctPacks(installed)
    requires m.Enable? ==> m.pack in installed
    requires m.Disable? && m.active.Some? ==> m.active.value in installed && m.active.value.packId == m.packId
    ensures Target(rules, s, m, installed).Some? <==> Sensible(s, m, installed) && AllRegistrable(rules, s, installed)
  {
    hide StoreWanted, SwitchPack, RevokeAll, RegisterAll, AllRegistrable, Registrable, DistinctProfiles, EntryOf, Sorted;
    match m {
      case Enable(pack) =>
        StoreThenRegistrable(rules, s, pack, Some(true), installed);
        if Mutated(rules, s, m).Some? { RegisterAllExactly(rules, Mutated(rules, s, m).value, installed); }
        else { NotAllRegistrable(rules, s, pack, installed); }
      case Disable(packId, active) =>
        if active.Some? {
          if Unowned(s, packId) {
            StoreThenRegistrable(rules, s, active.value, Some(false), installed);
            if Mutated(rules, s, m).Some? { RegisterAllExactly(rules, Mutated(rules, s, m).value, installed); }
            else { NotAllRegistrable(rules, s, active.value, installed); }
          } else {
            SwitchThenRegistrable(rules, s, packId, installed);
            RegisterAllExactly(rules, Mutated(rules, s, m).value, installed);
          }
        }
      case Revoke(packIds) =>
        RevokeAllExactly(rules, s, packIds);
        if Mutated(rules, s, m).Some? {
          RevokeThenRegistrable(rules, s, packIds, installed);
          RegisterAllExactly(rules, Mutated(rules, s, m).value, installed);
        }
    }
  }

  lemma NotAllRegistrable(rules: Rules, s: seq<Entry>, pack: Pack, installed: seq<Pack>)
    requires pack in installed && !Registrable(rules, s, pack)
    ensures !AllRegistrable(rules, s, installed)
  {
    var i :| 0 <= i < |installed| && installed[i] == pack;
    assert !Registrable(rules, s, installed[i]);
  }

  lemma SwitchThenRegistrable(rules: Rules, s: seq<Entry>, packId: string, installed: seq<Pack>)
    requires DistinctProfiles(s) && !Unowned(s, packId)
    ensures SwitchPack(rules, s, packId, false).Some?
    ensures var t := SwitchPack(rules, s, packId, false).value;
            DistinctProfiles(t) && (AllRegistrable(rules, t, installed) <==> AllRegistrable(rules, s, installed))
  {
    SwitchPackKeeps(rules, s, packId, false);
    hide DistinctProfiles, Sorted, EntryOf, SwitchPack, AllRegistrable;
    MutationKeepsRegistrable(rules, s, SwitchPack(rules, s, packId, false).value, None, installed);
  }

  lemma RevokeThenRegistrable(rules: Rules, s: seq<Entry>, packIds: seq<string>, installed: seq<Pack>)
    requires DistinctProfiles(s) && RevokeAll(rules, s, packIds).Some?
    ensures var t := RevokeAll(rules, s, packIds).value;
            DistinctProfiles(t) && (AllRegistrable(rules, t, installed) <==> AllRegistrable(rules, s, installed))
  {
    RevokeAllKeeps(rules, s, packIds);
    hide DistinctProfiles, Sorted, EntryOf, RevokeAll, AllRegistrable;
    MutationKeepsRegistrable(rules, s, RevokeAll(rules, s, packIds).value, None, installed);
  }

  // ---------------------------------------------------------------- which files an operation needs

  /** The `n`th installed pack needs the registry file only if its entry changes, and workspace files only if it is on. */
  predicate GoesThrough(rules: Rules, s: seq<Entry>, installed: seq<Pack>, n: nat, written: bool, files: bool)
    requires n < |installed|
  {
    match RegisterAll(rules, s, installed[..n])
    case None => false
    case Some(t) =>
      match Wanted(rules, t, installed[n], None)
      case None => false
      case Some(e) => (e in t || written) && (e.enabled ==> files)
  }

  ghost predicate AllThrough(rules: Rules, s: seq<Entry>, installed: seq<Pack>, writes: nat -> bool, files: nat -> bool) {
    forall n: nat :: n < |installed| ==> GoesThrough(rules, s, installed, n, writes(n), files(n))
  }

  lemma ThroughFront(rules: Rules, s: seq<Entry>, installed: seq<Pack>, writes: nat -> bool, files: nat -> bool)
    requires |installed| > 0
    ensures var k := |installed| - 1;
            AllThrough(rules, s, installed, writes, files) <==>
            AllThrough(rules, s, installed[..k], writes, files) && GoesThrough(rules, s, installed, k, writes(k), files(k))
  {
    hide GoesThrough;
    var k := |installed| - 1;
    forall n: nat | n < k
      ensures GoesThrough(rules, s, installed, n, writes(n), files(n)) <==> GoesThrough(rules, s, installed[..k], n, writes(n), files(n))
    {
      SameThrough(rules, s, installed, k, n, writes(n), files(n));
    }
  }

  lemma SameThrough(rules: Rules, s: seq<Entry>, installed: seq<Pack>, k: nat, n: nat, written: bool, files: bool)
    requires n < k <= |installed|
    ensures GoesThrough(rules, s, installed, n, written, files) <==> GoesThrough(rules, s, installed[..k], n, written, files)
  {
    hide RegisterAll, Wanted;
    assert installed[..n] == installed[..k][..n];
  }

  /** The last pack of an activation whose front got through. */
  lemma LastThrough(rules: Rules, r: Reg, installed: seq<Pack>, writes: nat -> bool, files: nat -> bool)
    requires |installed| > 0
    ensures var k := |installed| - 1;
            var (r1, profiles) := ActivateTo(rules, r, installed[..k], writes, files);
            profiles.Some? && RegisterAll(rules, r.entries, installed[..k]) == Some(r1.entries) ==>
              (ActivateTo(rules, r, installed, writes, files).1.Some? <==>
               GoesThrough(rules, r.entries, installed, k, writes(k), files(k)))
  {
    hide RegisterAll, Wanted, Stored;
  }

  /** An activation gets through exactly if every installed pack in turn does. */
  lemma {:induction false} ActivatesExactly(rules: Rules, r: Reg, installed: seq<Pack>, writes: nat -> bool, files: nat -> bool)
    requires DistinctProfiles(r.entries) && DistinctPacks(installed)
    ensures ActivateTo(rules, r, installed, writes, files).1.Some? <==> AllThrough(rules, r.entries, installed, writes, files)
  {
    if |installed| > 0 {
      var front := installed[..|installed| - 1];
      assert DistinctPacks(front);
      hide DistinctProfiles, DistinctPacks, RegisterAll, RegisterTo, ActiveProfiles, GoesThrough, AllThrough;
      ActivatesExactly(rules, r, front, writes, files);
      ActivateToMeans(rules, r, front, writes, files);
      ThroughFront(rules, r.entries, installed, writes, files);
      if ActivateTo(rules, r, front, writes, files).1.Some? {
        LastThrough(rules, r, installed, writes, files);
      }
    }
  }

  predicate Storable(rules: Rules, s: seq<Entry>, pack: Pack, enabled: Option<bool>, written: bool) {
    Registrable(rules, s, pack) && (written || exists e :: e in s && RightEntry(rules, s, pack, enabled, e))
  }

  /**
   * Enabling needs the agent's workspace files and, if its entry changes, the registry's; disabling needs no files of the
   * pack, and the registry's only if something is to be switched off or registered.
   */
  lemma MutatesExactly(rules: Rules, r: Reg, m: Mutation, writes: nat -> bool, files: bool)
    requires DistinctProfiles(r.entries) && !m.Revoke?
    ensures MutateTo(rules, r, m, writes, files).1 <==>
            match m
            case Enable(pack) => files && Storable(rules, r.entries, pack, Some(true), writes(0))
            case Disable(packId, active) =>
              active.Some? &&
              if HasPack(r.entries, packId) then writes(0) || !NeedsSwitch(r.entries, packId, false)
              else Storable(rules, r.entries, active.value, Some(false), writes(0))
  {
    hide DistinctProfiles, RegisterTo, SwitchTo, Registrable, RightEntry;
    match m {
      case Enable(pack) => RegisterExactly(rules, r, pack, Some(true), writes(0));
      case Disable(packId, active) =>
        SwitchExactly(rules, r, packId, false, writes(0));
        if active.Some? { RegisterExactly(rules, r, active.value, Some(false), writes(0)); }
        assert Unowned(r.entries, packId) <==> !HasPack(r.entries, packId);
    }
  }

  // ---------------------------------------------------------------- which operations succeed

  predicate SameIds(a: seq<Agent>, b: seq<Agent>) { |a| == |b| && forall i :: 0 <= i < |a| ==> a[i].id == b[i].id }

  lemma SameIdsMeans(a: seq<Agent>, b: seq<Agent>)
    ensures Ids(a) == Ids(b) <==> SameIds(a, b)
  {
    if Ids(a) == Ids(b) {
      assert |a| == |b|;
      forall i | 0 <= i < |a| ensures a[i].id == b[i].id {
        assert Ids(a)[i] == Ids(b)[i];
      }
    }
  }

  /**
   * An operation succeeds exactly if the configuration is read, the local part yields a plan, Core and the
   * gateway acknowledge their writes, the read-back answers with `main` as default and the plan's agent ids
   * (which the gateway has if it carried the write out, or had all along), and the notification goes through.
   */
  lemma SucceedsExactly(env: Env, call: Call, w: World)
    requires DistinctProfiles(w.reg.entries) && DistinctPacks(call.installed)
    ensures var f, plan := call.faults, Prepared(env, w.reg, call).1;
            Whole(env, call, w).1.Done? <==>
            && f.read && plan.Some? && f.policy.acknowledged && f.agents.acknowledged
            && f.confirm && w.defaultId == "main" && (f.agents.applied || SameIds(w.agents, plan.value.agents)) && f.notified
  {
    OperationIsAtomic(env, call, w);
    if Prepared(env, w.reg, call).1.Some? {
      SameIdsMeans(w.agents, Prepared(env, w.reg, call).1.value.agents);
    }
    hide Whole, Prepared, DistinctProfiles, DistinctPacks, Ids, SameIds, Arrived, Restored, CannotGoBack;
  }

  /** Nothing goes wrong outside. */
  ghost predicate Smooth(f: Faults) {
    && f.read && Local(f) && f.policy == Write(true, true) && f.agents == Write(true, true) && f.confirm && f.notified
  }

  /**
   * When nothing goes wrong, an operation on a gateway whose default is `main` succeeds exactly if the request
   * is sensible, every installed pack may have its profile, and the profiles switched on have a plan. It leaves
   * the registry at the target, the gateway with the plan's agents, and Core with the plan's constrained policy.
   */
  lemma SmoothOperation(env: Env, call: Call, w: World)
    requires DistinctProfiles(w.reg.entries) && DistinctPacks(call.installed) && Smooth(call.faults) && w.defaultId == "main"
    requires call.m.Enable? ==> call.m.pack in call.installed
    requires call.m.Disable? && call.m.active.Some? ==>
               call.m.active.value in call.installed && call.m.active.value.packId == call.m.packId
    ensures var (w', o) := Whole(env, call, w);
            var target := Target(env.rules, w.reg.entries, call.m, call.installed);
            && (o.Done? <==>
                  && Sensible(w.reg.entries, call.m, call.installed)
                  && AllRegistrable(env.rules, w.reg.entries, call.installed)
                  && target.Some? && env.plan(ActiveProfiles(target.value, call.installed)).Some?)
            && (o.Done? ==>
                  var plan := env.plan(ActiveProfiles(target.value, call.installed)).value;
                  && w' == World(w'.reg, plan.agents, "main", env.constrain(plan.source), env.constrain(plan.source), plan.source)
                  && w'.reg.entries == target.value && |o.ids| == |plan.agents|
                  && forall i :: 0 <= i < |o.ids| ==> o.ids[i] == plan.agents[i].id)
  {
    TargetExactly(env.rules, w.reg.entries, call.m, call.installed);
    LocalPrepares(env, call, w);
    SucceedsExactly(env, call, w);
    OperationIsAtomic(env, call, w);
    hide Whole, Prepared, DistinctProfiles, DistinctPacks, AllRegistrable, Sensible, SameIds, Target, ActiveProfiles, Restored, CannotGoBack, Reaches;
  }

  /** The profiles of an activation: one for each installed pack whose entry is on, and no other. */
  lemma {:induction false} ActiveProfilesExactly(s: seq<Entry>, installed: seq<Pack>, x: Profile)
    ensures x in ActiveProfiles(s, installed) <==>
            x.pack in installed && EntryOf(s, x.pack.profileId) == Some(x.entry) && x.entry.enabled
  {
    if |installed| > 0 {
      var front, last := installed[..|installed| - 1], installed[|installed| - 1];
      ActiveProfilesExactly(s, front, x);
      assert installed == front + [last];
      hide EntryOf;
      assert x in ActiveProfiles(s, installed) <==> x in ActiveProfiles(s, front) || x in ProfileOf(s, last);
    }
  }
}
