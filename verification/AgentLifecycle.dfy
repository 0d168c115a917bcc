/**
 * The desktop's lifecycle saga: one mutation changes the agent registry, the gateway's agent list
 * and the Core bridge policy together, or puts all three back. Every outside call can fail, and a
 * write that fails may still have taken effect.
 */
module AgentLifecycle {
  import opened Prelude
  import opened AgentRegistry

  datatype Agent = Agent(id: string, settings: string)
  datatype Policy = Policy(tools: map<string, set<string>>)
  datatype Profile = Profile(entry: Entry, pack: Pack)

  /** What the enabled profiles amount to: the gateway's agents and the unconstrained policy. */
  datatype Plan = Plan(agents: seq<Agent>, source: Policy)

  function Ids(agents: seq<Agent>): seq<string> {
    seq(|agents|, i requires 0 <= i < |agents| => agents[i].id)
  }

  // ---------------------------------------------------------------- what a mutation does to the registry

  /** Enable an installed pack; disable one, whose active version is None if it is not installed; revoke several. */
  datatype Mutation = Enable(pack: Pack) | Disable(packId: string, active: Option<Pack>) | Revoke(packIds: seq<string>)

  function StoreWanted(rules: Rules, s: seq<Entry>, pack: Pack, enabled: Option<bool>): Option<seq<Entry>> {
    match Wanted(rules, s, pack, enabled)
    case None => None
    case Some(e) => Some(Stored(rules, s, e))
  }

  function RevokeAll(rules: Rules, s: seq<Entry>, packIds: seq<string>): Option<seq<Entry>> {
    if |packIds| == 0 then Some(s)
    else
      match RevokeAll(rules, s, packIds[..|packIds| - 1])
      case None => None
      case Some(t) => SwitchPack(rules, t, packIds[|packIds| - 1], false)
  }

  function Mutated(rules: Rules, s: seq<Entry>, m: Mutation): Option<seq<Entry>> {
    match m
    case Enable(pack) => StoreWanted(rules, s, pack, Some(true))
    case Disable(packId, active) =>
      if active.None? then None
      else if Unowned(s, packId) then StoreWanted(rules, s, active.value, Some(false))
      else SwitchPack(rules, s, packId, false)
    case Revoke(packIds) => RevokeAll(rules, s, packIds)
  }

  /** Activation registers every installed pack in turn; a known profile keeps its switch. */
  function RegisterAll(rules: Rules, s: seq<Entry>, installed: seq<Pack>): Option<seq<Entry>> {
    if |installed| == 0 then Some(s)
    else
      match RegisterAll(rules, s, installed[..|installed| - 1])
      case None => None
      case Some(t) => StoreWanted(rules, t, installed[|installed| - 1], None)
  }

  function Target(rules: Rules, s: seq<Entry>, m: Mutation, installed: seq<Pack>): Option<seq<Entry>> {
    match Mutated(rules, s, m)
    case None => None
    case Some(t) => RegisterAll(rules, t, installed)
  }

  function ProfileOf(s: seq<Entry>, pack: Pack): seq<Profile> {
    match EntryOf(s, pack.profileId)
    case None => []
    case Some(e) => if e.enabled then [Profile(e, pack)] else []
  }

  /** The installed packs whose registry entry is switched on, in installation order. */
  function ActiveProfiles(s: seq<Entry>, installed: seq<Pack>): seq<Profile> {
    if |installed| == 0 then []
    else ActiveProfiles(s, installed[..|installed| - 1]) + ProfileOf(s, installed[|installed| - 1])
  }

  predicate DistinctPacks(installed: seq<Pack>) {
    forall i, j :: 0 <= i < j < |installed| ==> installed[i].packId != installed[j].packId
  }

  // ---------------------------------------------------------------- laws of activation

  lemma StoreWantedKeeps(rules: Rules, s: seq<Entry>, pack: Pack, enabled: Option<bool>)
    requires DistinctProfiles(s) && StoreWanted(rules, s, pack, enabled).Some?
    ensures var t, e := StoreWanted(rules, s, pack, enabled).value, Wanted(rules, s, pack, enabled).value;
            && DistinctProfiles(t) && (Sorted(rules.rank, s) ==> Sorted(rules.rank, t))
            && e.profileId == pack.profileId
            && forall p :: EntryOf(t, p) == if p == pack.profileId then Some(e) else EntryOf(s, p)
  {
    StoredKeeps(rules, s, Wanted(rules, s, pack, enabled).value);
  }

  predicate Lists(installed: seq<Pack>, profileId: string) {
    exists i :: 0 <= i < |installed| && installed[i].profileId == profileId
  }

  /** The entry keeps owner, agent and switch; versions may move. */
  predicate SameSwitch(e: Option<Entry>, f: Option<Entry>) {
    && e.Some? && f.Some? && e.value.packId == f.value.packId
    && e.value.agentId == f.value.agentId && e.value.enabled == f.value.enabled
  }

  /** What activation does to one profile: kept if known, registered and on if only installed, else absent. */
  predicate ActivatedEntry(s: seq<Entry>, t: seq<Entry>, installed: seq<Pack>, p: string) {
    if EntryOf(s, p).Some? then SameSwitch(EntryOf(s, p), EntryOf(t, p))
    else if Lists(installed, p) then EntryOf(t, p).Some? && EntryOf(t, p).value.enabled
    else EntryOf(t, p).None?
  }

  /** Each installed pack owns its profile's entry afterwards. */
  predicate Owns(t: seq<Entry>, pack: Pack) {
    EntryOf(t, pack.profileId).Some? && EntryOf(t, pack.profileId).value.packId == pack.packId
  }

  /** One more installed pack. */
  lemma ActivateOne(rules: Rules, s: seq<Entry>, t: seq<Entry>, front: seq<Pack>, last: Pack, p: string)
    requires DistinctProfiles(t) && StoreWanted(rules, t, last, None).Some? && ActivatedEntry(s, t, front, p)
    ensures ActivatedEntry(s, StoreWanted(rules, t, last, None).value, front + [last], p)
  {
    StoreWantedKeeps(rules, t, last, None);
    ListsSnoc(front, last, p);
    hide Lists, DistinctProfiles, Sorted, Stored, EntryOf;
  }

  lemma OwnsOne(rules: Rules, t: seq<Entry>, last: Pack, pack: Pack)
    requires DistinctProfiles(t) && StoreWanted(rules, t, last, None).Some?
    ensures Owns(t, pack) ==> Owns(StoreWanted(rules, t, last, None).value, pack)
    ensures Owns(StoreWanted(rules, t, last, None).value, last)
  {
    StoreWantedKeeps(rules, t, last, None);
    hide DistinctProfiles, Sorted, Stored, EntryOf;
  }

  lemma {:induction false} ActivationKeeps(rules: Rules, s: seq<Entry>, installed: seq<Pack>)
    requires DistinctProfiles(s) && RegisterAll(rules, s, installed).Some?
    ensures var t := RegisterAll(rules, s, installed).value;
            && DistinctProfiles(t) && (Sorted(rules.rank, s) ==> Sorted(rules.rank, t))
            && (forall p :: ActivatedEntry(s, t, installed, p))
            && (forall i :: 0 <= i < |installed| ==> Owns(t, installed[i]))
  {
    hide DistinctProfiles, Sorted, StoreWanted, EntryOf, Owns;
    if |installed| > 0 {
      var front, last := installed[..|installed| - 1], installed[|installed| - 1];
      ActivationKeeps(rules, s, front);
      var t := RegisterAll(rules, s, front).value;
      StoreWantedKeeps(rules, t, last, None);
      hide ActivatedEntry, RegisterAll;
      assert installed == front + [last];
      forall p ensures ActivatedEntry(s, StoreWanted(rules, t, last, None).value, installed, p) {
        ActivateOne(rules, s, t, front, last, p);
      }
      forall i | 0 <= i < |installed| ensures Owns(StoreWanted(rules, t, last, None).value, installed[i]) {
        OwnsOne(rules, t, last, installed[i]);
        assert i < |front| ==> Owns(t, front[i]);
      }
    }
  }

  lemma ListsSnoc(front: seq<Pack>, last: Pack, p: string)
    ensures Lists(front + [last], p) <==> Lists(front, p) || last.profileId == p
  {
    var s := front + [last];
    if Lists(front, p) {
      var i :| 0 <= i < |front| && front[i].profileId == p;
      assert s[i].profileId == p;
    }
    assert s[|front|] == last;
  }

  // ---------------------------------------------------------------- laws of the three mutations

  function Mute(e: Option<Entry>, packIds: seq<string>): Option<Entry> {
    if e.Some? && e.value.packId in packIds then Some(e.value.(enabled := false)) else e
  }

  lemma {:induction false} RevokeAllKeeps(rules: Rules, s: seq<Entry>, packIds: seq<string>)
    requires DistinctProfiles(s) && RevokeAll(rules, s, packIds).Some?
    ensures var t := RevokeAll(rules, s, packIds).value;
            && DistinctProfiles(t) && (Sorted(rules.rank, s) ==> Sorted(rules.rank, t))
            && forall p :: EntryOf(t, p) == Mute(EntryOf(s, p), packIds)
  {
    if |packIds| > 0 {
      var front, last := packIds[..|packIds| - 1], packIds[|packIds| - 1];
      RevokeAllKeeps(rules, s, front);
      var t := RevokeAll(rules, s, front).value;
      SwitchPackKeeps(rules, t, last, false);
      hide DistinctProfiles, Sorted, SwitchPack, EntryOf;
      assert packIds == front + [last];
      forall p ensures EntryOf(SwitchPack(rules, t, last, false).value, p) == Mute(EntryOf(s, p), packIds) {
        assert EntryOf(t, p) == Mute(EntryOf(s, p), front);
      }
    }
  }

  lemma MutationKeeps(rules: Rules, s: seq<Entry>, m: Mutation)
    requires DistinctProfiles(s) && Mutated(rules, s, m).Some?
    ensures var t := Mutated(rules, s, m).value;
            DistinctProfiles(t) && (Sorted(rules.rank, s) ==> Sorted(rules.rank, t))
  {
    hide DistinctProfiles, Sorted, StoreWanted, RevokeAll, SwitchPack;
    match m {
      case Enable(pack) => StoreWantedKeeps(rules, s, pack, Some(true));
      case Disable(packId, active) =>
        if Unowned(s, packId) { StoreWantedKeeps(rules, s, active.value, Some(false)); }
        else { SwitchPackKeeps(rules, s, packId, false); }
      case Revoke(packIds) => RevokeAllKeeps(rules, s, packIds);
    }
  }

  lemma TargetKeeps(rules: Rules, s: seq<Entry>, m: Mutation, installed: seq<Pack>)
    requires DistinctProfiles(s) && Target(rules, s, m, installed).Some?
    ensures var t := Target(rules, s, m, installed).value;
            DistinctProfiles(t) && (Sorted(rules.rank, s) ==> Sorted(rules.rank, t))
  {
    hide DistinctProfiles, Sorted;
    MutationKeeps(rules, s, m);
    ActivationKeeps(rules, Mutated(rules, s, m).value, installed);
  }

  /** After enabling a pack its profile is registered to it and switched on, through the activation that follows. */
  lemma EnableTakesEffect(rules: Rules, s: seq<Entry>, pack: Pack, installed: seq<Pack>)
    requires DistinctProfiles(s) && Target(rules, s, Enable(pack), installed).Some?
    ensures var e := EntryOf(Target(rules, s, Enable(pack), installed).value, pack.profileId);
            e.Some? && e.value.packId == pack.packId && e.value.enabled
  {
    var u := Mutated(rules, s, Enable(pack)).value;
    StoreWantedKeeps(rules, s, pack, Some(true));
    ActivationKeeps(rules, u, installed);
    assert ActivatedEntry(u, RegisterAll(rules, u, installed).value, installed, pack.profileId);
  }

  predicate AllOff(s: seq<Entry>, packId: string) {
    forall e :: e in s && e.packId == packId ==> !e.enabled
  }

  /**
   * After disabling a pack none of its entries is on, exactly if its active version's profile was
   * registered, or nothing of it was: a profile that first appears in the active version is
   * registered by the activation that follows, switched on.
   */
  lemma DisableTakesEffect(rules: Rules, s: seq<Entry>, active: Pack, installed: seq<Pack>)
    requires DistinctProfiles(s) && DistinctPacks(installed) && active in installed
    requires Target(rules, s, Disable(active.packId, Some(active)), installed).Some?
    ensures AllOff(Target(rules, s, Disable(active.packId, Some(active)), installed).value, active.packId) <==>
            EntryOf(s, active.profileId).Some? || Unowned(s, active.packId)
  {
    var packId, m := active.packId, Disable(active.packId, Some(active));
    var u, t := Mutated(rules, s, m).value, Target(rules, s, m, installed).value;
    MutationKeeps(rules, s, m);
    ActivationKeeps(rules, u, installed);
    DisableMutation(rules, s, active);
    hide DistinctProfiles, Sorted, Mutated, RegisterAll;
    assert ActivatedEntry(u, t, installed, active.profileId);
    var k :| 0 <= k < |installed| && installed[k] == active;
    assert Owns(t, installed[k]);
    if EntryOf(u, active.profileId).Some? {
      forall e | e in t && e.packId == packId ensures !e.enabled {
        EntryOfMember(t, e);
        assert ActivatedEntry(u, t, installed, e.profileId);
      }
    }
  }

  /** Before activation, every registered profile of the pack is off. */
  lemma DisableMutation(rules: Rules, s: seq<Entry>, active: Pack)
    requires DistinctProfiles(s) && Mutated(rules, s, Disable(active.packId, Some(active))).Some?
    ensures var u := Mutated(rules, s, Disable(active.packId, Some(active))).value;
            && (forall p :: EntryOf(u, p).Some? && EntryOf(u, p).value.packId == active.packId ==> !EntryOf(u, p).value.enabled)
            && (EntryOf(u, active.profileId).Some? <==>
                EntryOf(s, active.profileId).Some? || Unowned(s, active.packId))
  {
    if Unowned(s, active.packId) {
      StoreWantedKeeps(rules, s, active, Some(false));
    } else {
      SwitchPackKeeps(rules, s, active.packId, false);
    }
  }

  const PLAIN_RULES := Rules(p => 0, p => Some(p))

  lemma SwitchOne(e: Entry)
    requires e.enabled
    ensures SwitchPack(PLAIN_RULES, [e], e.packId, false) == Some([e.(enabled := false)])
  {
    var off := e.(enabled := false);
    var s := [e];
    assert s[0] in s;
    SortIsStable(PLAIN_RULES.rank, [off]);
    hide Sort;
    assert Switched(s, e.packId, false) == [off];
  }

  /** A pack whose new version brings a new profile: disabling it leaves that profile switched on. */
  lemma DisableCanLeaveOn() returns (s: seq<Entry>, active: Pack)
    ensures DistinctProfiles(s)
    ensures var t := Target(PLAIN_RULES, s, Disable(active.packId, Some(active)), [active]);
            t.Some? && !AllOff(t.value, active.packId)
  {
    s := [Entry("writer", "writer", "P", "1", "1", true)];
    active := Pack("P", "2", "editor", "1", true);
    var u := [s[0].(enabled := false)];
    SwitchOne(s[0]);
    assert [active][..0] == [];
    assert RegisterAll(PLAIN_RULES, u, []) == Some(u);
    DisableTakesEffect(PLAIN_RULES, s, active, [active]);
  }

  predicate AllEligible(s: seq<Entry>, eligible: set<string>) {
    forall e :: e in s && e.enabled ==> e.packId in eligible
  }

  /** The packs an entitlement check takes away: those switched on without being eligible. */
  predicate IsRevocable(s: seq<Entry>, eligible: set<string>, packId: string) {
    packId !in eligible && exists e :: e in s && e.enabled && e.packId == packId
  }

  /** Right after the revocation, before activation, every entry that is on is eligible, and the profiles are the same. */
  lemma RevokedAreOff(rules: Rules, s: seq<Entry>, packIds: seq<string>, eligible: set<string>, p: string)
    requires DistinctProfiles(s) && forall packId :: packId in packIds <==> IsRevocable(s, eligible, packId)
    requires RevokeAll(rules, s, packIds).Some?
    ensures var e := EntryOf(RevokeAll(rules, s, packIds).value, p);
            (e.Some? <==> EntryOf(s, p).Some?) && (e.Some? && e.value.enabled ==> e.value.packId in eligible)
  {
    RevokeAllKeeps(rules, s, packIds);
    hide DistinctProfiles, Sorted, RevokeAll;
    if EntryOf(s, p).Some? && EntryOf(s, p).value.enabled {
      assert EntryOf(s, p).value in s;
      assert IsRevocable(s, eligible, EntryOf(s, p).value.packId) || EntryOf(s, p).value.packId in eligible;
    }
  }

  predicate NewcomersEligible(s: seq<Entry>, installed: seq<Pack>, eligible: set<string>) {
    forall i :: 0 <= i < |installed| && EntryOf(s, installed[i].profileId).None? ==> installed[i].packId in eligible
  }

  lemma ActivationKeepsEligible(rules: Rules, u: seq<Entry>, installed: seq<Pack>, eligible: set<string>, e: Entry)
    requires DistinctProfiles(u) && RegisterAll(rules, u, installed).Some? && NewcomersEligible(u, installed, eligible)
    requires forall p :: EntryOf(u, p).Some? && EntryOf(u, p).value.enabled ==> EntryOf(u, p).value.packId in eligible
    requires e in RegisterAll(rules, u, installed).value && e.enabled
    ensures e.packId in eligible
  {
    var t := RegisterAll(rules, u, installed).value;
    ActivationKeeps(rules, u, installed);
    EntryOfMember(t, e);
    hide DistinctProfiles, Sorted, RegisterAll, EntryOf;
    assert ActivatedEntry(u, t, installed, e.profileId);
    if EntryOf(u, e.profileId).None? {
      var i :| 0 <= i < |installed| && installed[i].profileId == e.profileId;
      assert Owns(t, installed[i]);
    }
  }

  lemma ActivationSwitchesOn(rules: Rules, u: seq<Entry>, installed: seq<Pack>, i: nat)
    requires DistinctProfiles(u) && RegisterAll(rules, u, installed).Some?
    requires i < |installed| && EntryOf(u, installed[i].profileId).None?
    ensures var e := EntryOf(RegisterAll(rules, u, installed).value, installed[i].profileId);
            e.Some? && e.value.enabled && e.value.packId == installed[i].packId
  {
    ActivationKeeps(rules, u, installed);
    hide DistinctProfiles, Sorted, RegisterAll, EntryOf;
    var t := RegisterAll(rules, u, installed).value;
    assert Owns(t, installed[i]) && ActivatedEntry(u, t, installed, installed[i].profileId);
  }

  /**
   * After a revocation everything switched on is eligible, exactly if every installed pack whose
   * profile is not registered yet is eligible: the activation that follows registers those switched on.
   */
  lemma RevocationTakesEffect(rules: Rules, s: seq<Entry>, packIds: seq<string>, eligible: set<string>, installed: seq<Pack>)
    requires DistinctProfiles(s) && forall packId :: packId in packIds <==> IsRevocable(s, eligible, packId)
    requires Target(rules, s, Revoke(packIds), installed).Some?
    ensures AllEligible(Target(rules, s, Revoke(packIds), installed).value, eligible) <==> NewcomersEligible(s, installed, eligible)
  {
    var u, t := RevokeAll(rules, s, packIds).value, Target(rules, s, Revoke(packIds), installed).value;
    RevokeAllKeeps(rules, s, packIds);
    hide DistinctProfiles, Sorted, RevokeAll, RegisterAll, EntryOf, IsRevocable;
    forall p
      ensures EntryOf(u, p).Some? <==> EntryOf(s, p).Some?
      ensures EntryOf(u, p).Some? && EntryOf(u, p).value.enabled ==> EntryOf(u, p).value.packId in eligible
    {
      RevokedAreOff(rules, s, packIds, eligible, p);
    }
    if NewcomersEligible(s, installed, eligible) {
      assert NewcomersEligible(u, installed, eligible);
      forall e | e in t && e.enabled ensures e.packId in eligible {
        ActivationKeepsEligible(rules, u, installed, eligible, e);
      }
    } else {
      var i :| 0 <= i < |installed| && EntryOf(s, installed[i].profileId).None? && installed[i].packId !in eligible;
      ActivationSwitchesOn(rules, u, installed, i);
    }
  }

  /** Revoking one pack while another is installed, unregistered and not eligible switches that one on. */
  lemma RevocationCanSwitchOn() returns (s: seq<Entry>, pack: Pack)
    ensures DistinctProfiles(s) && IsRevocable(s, {}, "P") && forall e :: e in s ==> e.packId == "P"
    ensures var t := Target(PLAIN_RULES, s, Revoke(["P"]), [pack]);
            t.Some? && !AllEligible(t.value, {})
  {
    s := [Entry("writer", "writer", "P", "1", "1", true)];
    pack := Pack("Q", "1", "editor", "1", true);
    var u := [s[0].(enabled := false)];
    SwitchOne(s[0]);
    assert ["P"][..0] == [] && [pack][..0] == [];
    assert RevokeAll(PLAIN_RULES, s, []) == Some(s) && RevokeAll(PLAIN_RULES, s, ["P"]) == Some(u);
    assert RegisterAll(PLAIN_RULES, u, []) == Some(u);
    RevocationTakesEffect(PLAIN_RULES, s, ["P"], {}, [pack]);
  }

  // ---------------------------------------------------------------- profiles of the final registry

  lemma {:induction false} ProfilesAgree(s: seq<Entry>, t: seq<Entry>, installed: seq<Pack>)
    requires forall i :: 0 <= i < |installed| ==> EntryOf(t, installed[i].profileId) == EntryOf(s, installed[i].profileId)
    ensures ActiveProfiles(s, installed) == ActiveProfiles(t, installed)
  {
    if |installed| > 0 {
      var front, last := installed[..|installed| - 1], installed[|installed| - 1];
      assert EntryOf(t, last.profileId) == EntryOf(s, last.profileId);
      forall i | 0 <= i < |front| ensures EntryOf(t, front[i].profileId) == EntryOf(s, front[i].profileId) {
        assert front[i] == installed[i];
      }
      hide EntryOf;
      ProfilesAgree(s, t, front);
    }
  }

  /** Registering one more installed pack leaves the profiles of the earlier ones and adds its own. */
  lemma ProfilesGrow(rules: Rules, s: seq<Entry>, installed: seq<Pack>, n: nat)
    requires DistinctProfiles(s) && DistinctPacks(installed) && n < |installed|
    requires RegisterAll(rules, s, installed[..n]).Some?
    requires StoreWanted(rules, RegisterAll(rules, s, installed[..n]).value, installed[n], None).Some?
    ensures var t := RegisterAll(rules, s, installed[..n]).value;
            var u, e := StoreWanted(rules, t, installed[n], None).value, Wanted(rules, t, installed[n], None).value;
            && RegisterAll(rules, s, installed[..n + 1]) == Some(u)
            && ActiveProfiles(u, installed[..n + 1]) ==
               ActiveProfiles(t, installed[..n]) + if e.enabled then [Profile(e, installed[n])] else []
  {
    var front, last := installed[..n], installed[n];
    assert installed[..n + 1] == front + [last];
    assert installed[..n + 1][..n] == front;
    ActivationKeeps(rules, s, front);
    var t := RegisterAll(rules, s, front).value;
    var u := StoreWanted(rules, t, last, None).value;
    StoreWantedKeeps(rules, t, last, None);
    forall i | 0 <= i < n ensures EntryOf(u, front[i].profileId) == EntryOf(t, front[i].profileId) {
      assert Owns(t, front[i]);
    }
    hide EntryOf, Stored;
    ProfilesAgree(t, u, front);
  }
}
