/**
 * What the registry of agent profiles stores, entry by entry: which registrations it refuses, what an
 * accepted one keeps of a known profile, and which operations cost a revision.
 */
module RegistryOutcomes {
  import opened Prelude
  import opened AgentRegistry

  predicate Registered(s: seq<Entry>, profileId: string) { exists k :: k in s && k.profileId == profileId }

  /** Another pack owns the profile. */
  predicate OwnedElsewhere(s: seq<Entry>, pack: Pack) {
    exists k :: k in s && k.profileId == pack.profileId && k.packId != pack.packId
  }

  predicate Registrable(rules: Rules, s: seq<Entry>, pack: Pack) {
    && pack.valid && pack.profileId != "main" && !OwnedElsewhere(s, pack)
    && (Registered(s, pack.profileId) || rules.agentIdFor(pack.profileId).Some?)
  }

  /**
   * The entry carries the pack's own identity and versions. A known profile keeps its agent and, unless
   * told otherwise, its switch; a new one gets the derived agent and is on unless told otherwise.
   */
  predicate RightEntry(rules: Rules, s: seq<Entry>, pack: Pack, enabled: Option<bool>, e: Entry) {
    && e == Entry(pack.profileId, e.agentId, pack.packId, pack.profileVersion, pack.packVersion, e.enabled)
    && (enabled.Some? ==> e.enabled == enabled.value)
    && (forall k :: k in s && k.profileId == pack.profileId ==> e.agentId == k.agentId && (enabled.None? ==> e.enabled == k.enabled))
    && (!Registered(s, pack.profileId) ==> Some(e.agentId) == rules.agentIdFor(pack.profileId) && (enabled.None? ==> e.enabled))
  }

  lemma WantedExactly(rules: Rules, s: seq<Entry>, pack: Pack, enabled: Option<bool>)
    requires DistinctProfiles(s)
    ensures Wanted(rules, s, pack, enabled).Some? <==> Registrable(rules, s, pack)
    ensures Wanted(rules, s, pack, enabled).Some? ==> RightEntry(rules, s, pack, enabled, Wanted(rules, s, pack, enabled).value)
  {
    var known := EntryOf(s, pack.profileId);
    forall k | k in s && k.profileId == pack.profileId ensures known == Some(k) {
      EntryOfMember(s, k);
    }
    hide EntryOf, DistinctProfiles;
  }

  /** The entry is stored in place of whatever its profile had, and every other entry stays. */
  ghost predicate OnlyThisProfile(s: seq<Entry>, s': seq<Entry>, e: Entry) {
    forall x: Entry :: x in s' <==> x == e || (x in s && x.profileId != e.profileId)
  }

  lemma StoredExactly(rules: Rules, s: seq<Entry>, e: Entry)
    requires DistinctProfiles(s) && e !in s
    ensures OnlyThisProfile(s, Stored(rules, s, e), e) && Sorted(rules.rank, Stored(rules, s, e))
  {
    var t := Place(s, e);
    PlaceKeeps(s, e);
    SortKeeps(rules.rank, t);
    SortSorts(rules.rank, t);
    hide Place, Sort, Sorted;
    forall x | x in t && x.profileId == e.profileId ensures x == e {
      DistinctOnce(t, x, e);
    }
  }

  /**
   * A registration succeeds exactly if the pack may have the profile and the file could be written, if it
   * had to be; then the right entry is the only one of its profile, and the revision rises by one exactly
   * if the entry was not there already. A refusal changes nothing.
   */
  lemma RegisterExactly(rules: Rules, r: Reg, pack: Pack, enabled: Option<bool>, written: bool)
    requires DistinctProfiles(r.entries)
    ensures var (r', stored) := RegisterTo(rules, r, pack, enabled, written);
            && (stored.Some? <==>
                  && Registrable(rules, r.entries, pack)
                  && (written || exists e :: e in r.entries && RightEntry(rules, r.entries, pack, enabled, e)))
            && (stored.None? ==> r' == r)
            && (stored.Some? ==>
                  && RightEntry(rules, r.entries, pack, enabled, stored.value)
                  && OnlyThisProfile(r.entries, r'.entries, stored.value)
                  && r'.revision == r.revision + (if stored.value in r.entries then 0 else 1)
                  && (stored.value in r.entries ==> r' == r)
                  && (stored.value !in r.entries ==> Sorted(rules.rank, r'.entries)))
  {
    WantedExactly(rules, r.entries, pack, enabled);
    var wanted := Wanted(rules, r.entries, pack, enabled);
    hide Wanted, Stored, Sorted;
    if wanted.Some? {
      forall e | e in r.entries && RightEntry(rules, r.entries, pack, enabled, e) ensures wanted.value == e {
      }
      if wanted.value in r.entries {
        forall x | x in r.entries && x.profileId == pack.profileId ensures x == wanted.value {
          DistinctOnce(r.entries, x, wanted.value);
        }
      } else {
        StoredExactly(rules, r.entries, wanted.value);
      }
    }
  }

  /** The entry after its pack was switched. */
  function After(e: Entry, packId: string, enabled: bool): Entry {
    if e.packId != packId then e
    else Entry(e.profileId, e.agentId, e.packId, e.profileVersion, e.packVersion, enabled)
  }

  predicate HasPack(s: seq<Entry>, packId: string) { exists e :: e in s && e.packId == packId }

  predicate NeedsSwitch(s: seq<Entry>, packId: string, enabled: bool) {
    exists e :: e in s && e.packId == packId && e.enabled != enabled
  }

  /** Entry by entry the image of the old registry under the switch, and nothing else. */
  ghost predicate AllSwitched(s: seq<Entry>, s': seq<Entry>, packId: string, enabled: bool) {
    && |s'| == |s|
    && (forall e :: e in s ==> After(e, packId, enabled) in s')
    && (forall x :: x in s' ==> exists e :: e in s && x == After(e, packId, enabled))
  }

  lemma SwitchedExactly(rules: Rules, s: seq<Entry>, packId: string, enabled: bool)
    ensures AllSwitched(s, Sort(rules.rank, Switched(s, packId, enabled)), packId, enabled)
    ensures Sorted(rules.rank, Sort(rules.rank, Switched(s, packId, enabled)))
  {
    var t := Switched(s, packId, enabled);
    var u := Sort(rules.rank, t);
    SortSorts(rules.rank, t);
    SortKeeps(rules.rank, t);
    assert |u| == |t| by { assert |multiset(u)| == |multiset(t)|; }
    hide Sort, Sorted;
    forall e | e in s ensures After(e, packId, enabled) in u {
      var k :| 0 <= k < |s| && s[k] == e;
      assert t[k] == After(e, packId, enabled);
    }
    forall x | x in u ensures exists e :: e in s && x == After(e, packId, enabled) {
      var k :| 0 <= k < |t| && t[k] == x;
      assert s[k] in s && x == After(s[k], packId, enabled);
    }
  }

  /**
   * A switch is refused exactly for a pack without entries or when a needed write fails; it costs a
   * revision exactly if some entry of the pack stands the other way, and then switches them all.
   */
  lemma SwitchExactly(rules: Rules, r: Reg, packId: string, enabled: bool, written: bool)
    ensures var (r', ok) := SwitchTo(rules, r, packId, enabled, written);
            && (ok <==> HasPack(r.entries, packId) && (written || !NeedsSwitch(r.entries, packId, enabled)))
            && (!ok || !NeedsSwitch(r.entries, packId, enabled) ==> r' == r)
            && (ok && NeedsSwitch(r.entries, packId, enabled) ==>
                  && r'.revision == r.revision + 1
                  && AllSwitched(r.entries, r'.entries, packId, enabled) && Sorted(rules.rank, r'.entries))
  {
    SwitchedExactly(rules, r.entries, packId, enabled);
    hide AllSwitched, Sorted, Sort, Switched;
  }

  /**
   * A restore is accepted exactly if every entry has its derived agent, none is the reserved one, and no
   * profile and no agent comes twice; it then brings back exactly the snapshot's entries.
   */
  lemma RestoreExactly(rules: Rules, r: Reg, snapshot: seq<Entry>, written: bool)
    ensures var (r', ok) := RestoreTo(rules, r, snapshot, written);
            && (ok <==>
                  && written
                  && (forall i :: 0 <= i < |snapshot| ==>
                        rules.agentIdFor(snapshot[i].profileId) == Some(snapshot[i].agentId) && snapshot[i].agentId != "main")
                  && (forall i, j :: 0 <= i < |snapshot| && 0 <= j < |snapshot| && i != j ==>
                        snapshot[i].profileId != snapshot[j].profileId && snapshot[i].agentId != snapshot[j].agentId))
            && (!ok ==> r' == r)
            && (ok ==> r'.revision == r.revision + 1 && multiset(r'.entries) == multiset(snapshot) && Sorted(rules.rank, r'.entries))
  {
    SortSorts(rules.rank, snapshot);
    hide Sort, Sorted;
    var apart := forall i, j :: 0 <= i < |snapshot| && 0 <= j < |snapshot| && i != j ==>
      snapshot[i].profileId != snapshot[j].profileId && snapshot[i].agentId != snapshot[j].agentId;
    assert apart <==> DistinctProfiles(snapshot) && DistinctAgents(snapshot);
    assert (forall e :: e in snapshot ==> rules.agentIdFor(e.profileId) == Some(e.agentId) && e.agentId != "main") <==>
           (forall i :: 0 <= i < |snapshot| ==>
              rules.agentIdFor(snapshot[i].profileId) == Some(snapshot[i].agentId) && snapshot[i].agentId != "main");
  }
}
