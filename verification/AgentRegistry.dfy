/**
 * The desktop's registry of installed agent profiles. A commit writes the whole file and only then
 * replaces the state, under a new revision and sorted by the collation rank of the profile id.
 */
module AgentRegistry {
  import opened Prelude

  datatype Entry = Entry(
    profileId: string, agentId: string, packId: string, profileVersion: string, packVersion: string, enabled: bool)

  /** An installed pack; `valid` says whether its content passes validation. */
  datatype Pack = Pack(packId: string, packVersion: string, profileId: string, profileVersion: string, valid: bool)

  /** Collation of profile ids, and the agent id derived from a profile id (None where it throws). */
  datatype Rules = Rules(rank: string -> int, agentIdFor: string -> Option<string>)

  // ---------------------------------------------------------------- stable sort by rank

  predicate Sorted(rank: string -> int, s: seq<Entry>) {
    forall i, j :: 0 <= i < j < |s| ==> rank(s[i].profileId) <= rank(s[j].profileId)
  }

  function Insert(rank: string -> int, s: seq<Entry>, e: Entry): seq<Entry> {
    if |s| == 0 || rank(s[|s| - 1].profileId) <= rank(e.profileId) then s + [e]
    else Insert(rank, s[..|s| - 1], e) + [s[|s| - 1]]
  }

  function Sort(rank: string -> int, s: seq<Entry>): seq<Entry> {
    if |s| == 0 then [] else Insert(rank, Sort(rank, s[..|s| - 1]), s[|s| - 1])
  }

  lemma {:induction false} InsertKeeps(rank: string -> int, s: seq<Entry>, e: Entry)
    ensures multiset(Insert(rank, s, e)) == multiset(s) + multiset{e}
  {
    if |s| > 0 && rank(s[|s| - 1].profileId) > rank(e.profileId) {
      assert s == s[..|s| - 1] + [s[|s| - 1]];
      InsertKeeps(rank, s[..|s| - 1], e);
    }
  }

  lemma {:induction false} InsertSorts(rank: string -> int, s: seq<Entry>, e: Entry)
    requires Sorted(rank, s)
    ensures Sorted(rank, Insert(rank, s, e))
    ensures forall i :: 0 <= i < |Insert(rank, s, e)| ==>
              rank(Insert(rank, s, e)[i].profileId) <= if |s| == 0 then rank(e.profileId) else Max(rank(s[|s| - 1].profileId), rank(e.profileId))
  {
    if |s| > 0 && rank(s[|s| - 1].profileId) > rank(e.profileId) {
      InsertSorts(rank, s[..|s| - 1], e);
    }
  }

  function Max(a: int, b: int): int { if a < b then b else a }

  lemma {:induction false} SortSorts(rank: string -> int, s: seq<Entry>)
    ensures Sorted(rank, Sort(rank, s)) && multiset(Sort(rank, s)) == multiset(s)
  {
    if |s| > 0 {
      assert s == s[..|s| - 1] + [s[|s| - 1]];
      SortSorts(rank, s[..|s| - 1]);
      InsertSorts(rank, Sort(rank, s[..|s| - 1]), s[|s| - 1]);
      InsertKeeps(rank, Sort(rank, s[..|s| - 1]), s[|s| - 1]);
    }
  }

  /** Stability: a sequence already in order stays as it is. */
  lemma {:induction false} SortIsStable(rank: string -> int, s: seq<Entry>)
    requires Sorted(rank, s)
    ensures Sort(rank, s) == s
  {
    if |s| > 0 {
      SortIsStable(rank, s[..|s| - 1]);
    }
  }

  // ---------------------------------------------------------------- entries

  predicate DistinctProfiles(s: seq<Entry>) {
    forall i, j :: 0 <= i < j < |s| ==> s[i].profileId != s[j].profileId
  }

  predicate DistinctAgents(s: seq<Entry>) {
    forall i, j :: 0 <= i < j < |s| ==> s[i].agentId != s[j].agentId
  }

  /** A sort keeps the members and their profiles distinct. */
  lemma SortKeeps(rank: string -> int, s: seq<Entry>)
    ensures forall e: Entry :: e in Sort(rank, s) <==> e in s
    ensures DistinctProfiles(s) ==> DistinctProfiles(Sort(rank, s))
  {
    SortSorts(rank, s);
    var r := Sort(rank, s);
    forall e: Entry ensures e in r <==> e in s {
      assert e in multiset(r) <==> e in multiset(s);
    }
    if DistinctProfiles(s) && !DistinctProfiles(r) {
      var i, j :| 0 <= i < j < |r| && r[i].profileId == r[j].profileId;
      DistinctOnce(s, r[i], r[j]);
      TwiceInside(r, i, j);
    }
  }

  lemma DistinctOnce(s: seq<Entry>, e: Entry, f: Entry)
    requires DistinctProfiles(s) && e in s && f in s && e.profileId == f.profileId
    ensures e == f && multiset(s)[e] == 1
  {
    var k :| 0 <= k < |s| && s[k] == e;
    assert s == s[..k] + [e] + s[k + 1..];
    assert e !in s[..k] && e !in s[k + 1..];
  }

  lemma TwiceInside(s: seq<Entry>, i: nat, j: nat)
    requires i < j < |s| && s[i] == s[j]
    ensures multiset(s)[s[i]] >= 2
  {
    assert s == s[..j] + [s[j]] + s[j + 1..];
    assert s[i] == s[..j][i];
  }

  /** Position of a profile's entry, if any. */
  function Find(s: seq<Entry>, profileId: string): (r: Option<nat>)
    ensures r.Some? ==> r.value < |s| && s[r.value].profileId == profileId
    ensures r.None? ==> forall e :: e in s ==> e.profileId != profileId
  {
    if |s| == 0 then None
    else if s[0].profileId == profileId then Some(0)
    else match Find(s[1..], profileId)
         case None => None
         case Some(i) => Some(i + 1)
  }

  /** A profile's entry, if any. */
  function EntryOf(s: seq<Entry>, profileId: string): (r: Option<Entry>)
    ensures r.Some? ==> r.value in s && r.value.profileId == profileId
    ensures r.None? ==> forall e :: e in s ==> e.profileId != profileId
  {
    match Find(s, profileId)
    case None => None
    case Some(i) => Some(s[i])
  }

  lemma EntryOfMember(s: seq<Entry>, e: Entry)
    requires DistinctProfiles(s) && e in s
    ensures EntryOf(s, e.profileId) == Some(e)
  {
    DistinctOnce(s, EntryOf(s, e.profileId).value, e);
  }

  /** What `register` wants to store; None where it throws. A known profile keeps its agent and its switch. */
  function Wanted(rules: Rules, s: seq<Entry>, pack: Pack, enabled: Option<bool>): Option<Entry> {
    if !pack.valid || pack.profileId == "main" then None
    else
      match EntryOf(s, pack.profileId)
      case Some(known) =>
        if known.packId != pack.packId then None
        else Some(Entry(pack.profileId, known.agentId, pack.packId, pack.profileVersion, pack.packVersion,
                        if enabled.Some? then enabled.value else known.enabled))
      case None =>
        match rules.agentIdFor(pack.profileId)
        case None => None
        case Some(a) => Some(Entry(pack.profileId, a, pack.packId, pack.profileVersion, pack.packVersion,
                                   if enabled.Some? then enabled.value else true))
  }

  lemma WantedProfile(rules: Rules, s: seq<Entry>, pack: Pack, enabled: Option<bool>)
    ensures Wanted(rules, s, pack, enabled).Some? ==> Wanted(rules, s, pack, enabled).value.profileId == pack.profileId
  {
  }

  function Place(s: seq<Entry>, e: Entry): seq<Entry> {
    match Find(s, e.profileId)
    case Some(i) => s[i := e]
    case None => s + [e]
  }

  /** The registry after storing an entry: unchanged if it is there already. */
  function Stored(rules: Rules, s: seq<Entry>, e: Entry): seq<Entry> {
    if e in s then s else Sort(rules.rank, Place(s, e))
  }

  lemma PlaceKeeps(s: seq<Entry>, e: Entry)
    requires DistinctProfiles(s)
    ensures DistinctProfiles(Place(s, e)) && e in Place(s, e)
    ensures forall x: Entry :: x.profileId != e.profileId ==> (x in Place(s, e) <==> x in s)
  {
    var t := Place(s, e);
    match Find(s, e.profileId) {
      case Some(i) =>
        assert t[i] == e;
        forall x: Entry | x.profileId != e.profileId ensures x in s <==> x in t {
          if x in s { var k :| 0 <= k < |s| && s[k] == x; assert t[k] == x; }
          if x in t { var k :| 0 <= k < |t| && t[k] == x; assert s[k] == x; }
        }
      case None => assert t[|s|] == e;
    }
  }

  /** Storing an entry sets its profile, touches no other profile, and keeps order and distinctness. */
  lemma StoredKeeps(rules: Rules, s: seq<Entry>, e: Entry)
    requires DistinctProfiles(s)
    ensures DistinctProfiles(Stored(rules, s, e))
    ensures Sorted(rules.rank, s) ==> Sorted(rules.rank, Stored(rules, s, e))
    ensures forall p :: EntryOf(Stored(rules, s, e), p) == if p == e.profileId then Some(e) else EntryOf(s, p)
  {
    var t := Stored(rules, s, e);
    PlaceKeeps(s, e);
    SortKeeps(rules.rank, Place(s, e));
    SortSorts(rules.rank, Place(s, e));
    hide DistinctProfiles, Sorted, Sort, Place;
    forall p ensures EntryOf(t, p) == if p == e.profileId then Some(e) else EntryOf(s, p) {
      if p == e.profileId { EntryOfMember(t, e); }
      else if EntryOf(s, p).Some? { EntryOfMember(t, EntryOf(s, p).value); }
    }
  }

  /** Every entry of the pack switched; the others as they were. */
  function Switched(s: seq<Entry>, packId: string, enabled: bool): seq<Entry> {
    seq(|s|, i requires 0 <= i < |s| => if s[i].packId == packId then s[i].(enabled := enabled) else s[i])
  }

  predicate Unowned(s: seq<Entry>, packId: string) { forall e :: e in s ==> e.packId != packId }

  predicate AlreadySwitched(s: seq<Entry>, packId: string, enabled: bool) {
    forall e :: e in s && e.packId == packId ==> e.enabled == enabled
  }

  /** The registry after switching a pack; None where it throws for want of entries. */
  function SwitchPack(rules: Rules, s: seq<Entry>, packId: string, enabled: bool): Option<seq<Entry>> {
    if Unowned(s, packId) then None
    else if AlreadySwitched(s, packId, enabled) then Some(s)
    else Some(Sort(rules.rank, Switched(s, packId, enabled)))
  }

  function Flip(e: Option<Entry>, packId: string, enabled: bool): Option<Entry> {
    if e.Some? && e.value.packId == packId then Some(e.value.(enabled := enabled)) else e
  }

  lemma {:induction false} SwitchedEntry(s: seq<Entry>, packId: string, enabled: bool, p: string)
    ensures Find(Switched(s, packId, enabled), p) == Find(s, p)
    ensures EntryOf(Switched(s, packId, enabled), p) == Flip(EntryOf(s, p), packId, enabled)
  {
    if |s| > 0 {
      assert Switched(s, packId, enabled)[1..] == Switched(s[1..], packId, enabled);
      SwitchedEntry(s[1..], packId, enabled, p);
    }
  }

  /** Sorting does not change what is registered for a profile. */
  lemma SortedEntry(rank: string -> int, s: seq<Entry>, p: string)
    requires DistinctProfiles(s)
    ensures EntryOf(Sort(rank, s), p) == EntryOf(s, p)
  {
    SortKeeps(rank, s);
    if EntryOf(s, p).Some? {
      EntryOfMember(Sort(rank, s), EntryOf(s, p).value);
    }
  }

  /** Switching flips exactly the pack's entries, and keeps order and distinctness. */
  lemma SwitchPackKeeps(rules: Rules, s: seq<Entry>, packId: string, enabled: bool)
    requires DistinctProfiles(s) && SwitchPack(rules, s, packId, enabled).Some?
    ensures var t := SwitchPack(rules, s, packId, enabled).value;
            && DistinctProfiles(t) && (Sorted(rules.rank, s) ==> Sorted(rules.rank, t))
            && forall p :: EntryOf(t, p) == Flip(EntryOf(s, p), packId, enabled)
  {
    var t, u := SwitchPack(rules, s, packId, enabled).value, Switched(s, packId, enabled);
    assert DistinctProfiles(u);
    SortKeeps(rules.rank, u);
    SortSorts(rules.rank, u);
    hide DistinctProfiles, Sorted, Sort, Switched, EntryOf;
    forall p ensures EntryOf(t, p) == Flip(EntryOf(s, p), packId, enabled) {
      SwitchedEntry(s, packId, enabled, p);
      SortedEntry(rules.rank, u, p);
    }
  }

  // ---------------------------------------------------------------- commits

  datatype Reg = Reg(revision: nat, entries: seq<Entry>)

  /** A registration: no commit for an identical entry, otherwise one that may fail. */
  function RegisterTo(rules: Rules, r: Reg, pack: Pack, enabled: Option<bool>, written: bool): (Reg, Option<Entry>) {
    var wanted := Wanted(rules, r.entries, pack, enabled);
    if wanted.None? || wanted.value in r.entries then (r, wanted)
    else if !written then (r, None)
    else (Reg(r.revision + 1, Stored(rules, r.entries, wanted.value)), wanted)
  }

  /** A switch: no commit if nothing would change, otherwise one that may fail. */
  function SwitchTo(rules: Rules, r: Reg, packId: string, enabled: bool, written: bool): (Reg, bool) {
    if Unowned(r.entries, packId) then (r, false)
    else if AlreadySwitched(r.entries, packId, enabled) then (r, true)
    else if !written then (r, false)
    else (Reg(r.revision + 1, Sort(rules.rank, Switched(r.entries, packId, enabled))), true)
  }

  /** Entries a restore accepts. */
  predicate Restorable(rules: Rules, snapshot: seq<Entry>) {
    && (forall e :: e in snapshot ==> rules.agentIdFor(e.profileId) == Some(e.agentId) && e.agentId != "main")
    && DistinctProfiles(snapshot) && DistinctAgents(snapshot)
  }

  function RestoreTo(rules: Rules, r: Reg, snapshot: seq<Entry>, written: bool): (Reg, bool) {
    if !Restorable(rules, snapshot) || !written then (r, false)
    else (Reg(r.revision + 1, Sort(rules.rank, snapshot)), true)
  }

  /** What a registration does, whether it commits, fails or finds nothing to do. */
  lemma RegisterMeans(rules: Rules, r: Reg, pack: Pack, enabled: Option<bool>, written: bool)
    requires DistinctProfiles(r.entries)
    ensures var (r', e) := RegisterTo(rules, r, pack, enabled, written);
            && DistinctProfiles(r'.entries) && r.revision <= r'.revision <= r.revision + 1
            && (e.None? ==> r' == r && (written ==> Wanted(rules, r.entries, pack, enabled).None?))
            && (e.Some? ==> e == Wanted(rules, r.entries, pack, enabled) && r'.entries == Stored(rules, r.entries, e.value))
  {
    var wanted := Wanted(rules, r.entries, pack, enabled);
    if wanted.Some? { StoredKeeps(rules, r.entries, wanted.value); }
  }

  /** What a switch does. */
  lemma SwitchMeans(rules: Rules, r: Reg, packId: string, enabled: bool, written: bool)
    requires DistinctProfiles(r.entries)
    ensures var (r', ok) := SwitchTo(rules, r, packId, enabled, written);
            && DistinctProfiles(r'.entries) && r.revision <= r'.revision <= r.revision + 1
            && (!ok ==> r' == r && (written ==> SwitchPack(rules, r.entries, packId, enabled).None?))
            && (ok ==> SwitchPack(rules, r.entries, packId, enabled) == Some(r'.entries))
  {
    if SwitchPack(rules, r.entries, packId, enabled).Some? { SwitchPackKeeps(rules, r.entries, packId, enabled); }
  }

  /** A restore brings back the same entries, in commit order, under a higher revision. */
  lemma RestoreMeans(rules: Rules, r: Reg, snapshot: seq<Entry>, written: bool)
    ensures var (r', ok) := RestoreTo(rules, r, snapshot, written);
            && (ok <==> Restorable(rules, snapshot) && written) && (!ok ==> r' == r)
            && (ok ==> r'.revision == r.revision + 1 && multiset(r'.entries) == multiset(snapshot) && DistinctProfiles(r'.entries))
            && (ok && Sorted(rules.rank, snapshot) ==> r'.entries == snapshot)
  {
    SortSorts(rules.rank, snapshot);
    SortKeeps(rules.rank, snapshot);
    if Sorted(rules.rank, snapshot) { SortIsStable(rules.rank, snapshot); }
  }

  class Registry {
    const rules: Rules
    var revision: nat
    var entries: seq<Entry>

    constructor (rules: Rules, revision: nat, entries: seq<Entry>)
      ensures this.rules == rules && this.revision == revision && this.entries == entries
    {
      this.rules, this.revision, this.entries := rules, revision, entries;
    }

    ghost function View(): Reg reads this { Reg(revision, entries) }

    /** `written` says whether the file could be written; if not, nothing changes. */
    method Commit(next: seq<Entry>, written: bool) returns (ok: bool)
      modifies this
      ensures ok == written
      ensures View() == if ok then Reg(old(revision) + 1, Sort(rules.rank, next)) else old(View())
    {
      if !written { return false; }
      revision, entries := revision + 1, Sort(rules.rank, next);
      ok := true;
    }

    /**
     * Store the pack's profile. An identical entry costs no commit; a refusal or a failed write
     * changes nothing.
     */
    method Register(pack: Pack, enabled: Option<bool>, written: bool) returns (r: Option<Entry>)
      requires DistinctProfiles(entries)
      modifies this
      ensures (View(), r) == RegisterTo(rules, old(View()), pack, enabled, written)
      ensures r.None? ==> View() == old(View())
      ensures r.Some? ==> revision == old(revision) + if r.value in old(entries) then 0 else 1
    {
      hide Sort, DistinctProfiles, Wanted;
      r := Wanted(rules, entries, pack, enabled);
      WantedProfile(rules, entries, pack, enabled);
      if r.None? { return; }
      var e := r.value;
      var known := Find(entries, e.profileId);
      if known.Some? && entries[known.value] == e { return; }
      assert e !in entries by {
        if e in entries { EntryOfMember(entries, e); }
      }
      var ok := Commit(match known case Some(i) => entries[i := e] case None => entries + [e], written);
      if !ok { r := None; }
    }

    /** Switch every entry of a pack; refused for a pack without entries. */
    method SetPackEnabled(packId: string, enabled: bool, written: bool) returns (ok: bool)
      modifies this
      ensures (View(), ok) == SwitchTo(rules, old(View()), packId, enabled, written)
      ensures !ok ==> View() == old(View())
    {
      if Unowned(entries, packId) { return false; }
      if AlreadySwitched(entries, packId, enabled) { return true; }
      ok := Commit(Switched(entries, packId, enabled), written);
    }

    /** Put a snapshot back under a new revision; the revision never goes back. */
    method Restore(snapshot: seq<Entry>, written: bool) returns (ok: bool)
      modifies this
      ensures (View(), ok) == RestoreTo(rules, old(View()), snapshot, written)
      ensures ok ==> revision == old(revision) + 1 && multiset(entries) == multiset(snapshot)
      ensures ok && Sorted(rules.rank, snapshot) ==> entries == snapshot
    {
      hide Sort, Sorted, DistinctProfiles, DistinctAgents;
      RestoreMeans(rules, View(), snapshot, written);
      if !Restorable(rules, snapshot) { return false; }
      ok := Commit(snapshot, written);
    }
  }
}
