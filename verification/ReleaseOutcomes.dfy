/**
 * What the release routes publish, in the fields of the index, over every run from the empty one: which
 * uploads may start, what a finished one puts in front, and what an edit moves there.
 */
module ReleaseOutcomes {
  import opened Prelude
  import opened ReleaseIndex

  ghost predicate Reachable(s: State) { exists steps: seq<Step> :: s == Run(START, steps) }

  /** Every installer at a release path belongs to a release. */
  predicate FilesListed(s: State) { forall v :: v in s.files ==> exists r :: r in s.index && r.version == v }

  lemma VersionsKept(s: State, step: Step)
    requires Inv(s) && FilesListed(s)
    ensures FilesListed(Next(s, step))
  {
    var s' := Next(s, step);
    hide Next, Inv;
    forall v | v in s'.files ensures exists r :: r in s'.index && r.version == v {
      if v in s.files {
        var r :| r in s.index && r.version == v;
        var r' := VersionStays(s, step, r);
      } else {
        NewFile(s, step, v);
      }
    }
  }

  lemma NewFile(s: State, step: Step, v: Version)
    requires v !in s.files && v in Next(s, step).files
    ensures |Next(s, step).index| > 0 && Next(s, step).index[0].version == v
  {
  }

  lemma {:induction false} RunKeepsListed(s: State, steps: seq<Step>)
    requires Inv(s) && FilesListed(s)
    ensures Inv(Run(s, steps)) && FilesListed(Run(s, steps))
    decreases |steps|
  {
    hide Next, Inv, FilesListed;
    if steps != [] {
      NextKeepsInv(s, steps[0]);
      VersionsKept(s, steps[0]);
      RunKeepsListed(Next(s, steps[0]), steps[1..]);
    }
  }

  lemma ReachableOk(s: State)
    requires Reachable(s)
    ensures Inv(s) && FilesListed(s) && Load(s.index) == s.index && NextSequence(s.index) == SavedAmong(s.signings) + 1
    ensures forall r :: r in s.index ==> r.sequence <= SavedAmong(s.signings)
  {
    var steps :| s == Run(START, steps);
    hide Run;
    assert Inv(START) && FilesListed(START);
    RunKeepsListed(START, steps);
    LoadOrdered(s.index);
    hide FilesListed, FilesMatch, Load;
    forall r | r in s.index ensures r.sequence <= SavedAmong(s.signings) {
      var k :| 0 <= k < |s.index| && s.index[k] == r;
      assert k > 0 ==> Above(s.index[0], s.index[k]);
    }
  }

  // ---------------------------------------------------------------- which uploads may go on

  predicate Later(a: Version, b: Version) {
    || a.major > b.major
    || (a.major == b.major && a.minor > b.minor)
    || (a.major == b.major && a.minor == b.minor && a.patch > b.patch)
  }

  predicate HasVersion(s: seq<Release>, version: Version) { exists r :: r in s && r.version == version }

  /** Later than everything its channel has. */
  predicate Advances(s: seq<Release>, version: Version, channel: Channel) {
    forall r :: r in s && r.channel == channel ==> Later(version, r.version)
  }

  lemma LaterIsNewer(a: Version, b: Version)
    ensures Later(a, b) <==> Newer(a, b)
  {
  }

  lemma AdvancesOverLatest(s: seq<Release>, version: Version, channel: Channel)
    requires Ordered(s)
    ensures Advances(s, version, channel) <==>
            Latest(s, channel).None? || Compare(version, s[Latest(s, channel).value].version) > 0
  {
    hide Later, Compare;
    var latest := Latest(s, channel);
    forall k | 0 <= k < |s| && s[k].channel == channel
      ensures latest.Some? && (Newer(version, s[latest.value].version) ==> Later(version, s[k].version))
    {
      FirstIsNewest(s, k);
      CompareIsOrder(version, s[latest.value].version, s[k].version);
      LaterIsNewer(version, s[k].version);
    }
    if latest.Some? {
      assert s[latest.value] in s;
      LaterIsNewer(version, s[latest.value].version);
    }
  }

  lemma FoundMeans(s: seq<Release>, version: Version)
    ensures FindVersion(s, version).Some? <==> HasVersion(s, version)
  {
    var found := FindVersion(s, version);
    assert found.Some? ==> s[found.value] in s;
  }

  /**
   * In every run an upload is refused as existing exactly if some release has its version, and as a
   * rollback exactly if none has but some release of its channel is not older.
   */
  lemma RefusedExactly(s: State, version: Version, channel: Channel)
    requires Reachable(s)
    ensures Refused(Load(s.index), version, channel) ==
            if HasVersion(s.index, version) then Some(VersionExists)
            else if !Advances(s.index, version, channel) then Some(VersionRollback)
            else None
  {
    ReachableOk(s);
    AdvancesOverLatest(s.index, version, channel);
    FoundMeans(s.index, version);
    hide Reachable, Ordered, Load, Inv, FilesListed, Advances, Compare, Latest;
  }

  /** An upload starts streaming exactly under a number not in use, with a new version that advances its channel. */
  lemma BeginExactly(s: State, id: nat, version: Version, channel: Channel)
    requires Reachable(s)
    ensures Next(s, Begin(id, version, channel)) ==
            if id !in s.uploads && !HasVersion(s.index, version) && Advances(s.index, version, channel)
            then State(s.index, s.files, s.uploads[id := Upload(version, channel)], s.signings)
            else s
  {
    RefusedExactly(s, version, channel);
    ReachableOk(s);
    hide Reachable, Load, Inv, Refused, Advances;
  }

  // ---------------------------------------------------------------- what is published

  /**
   * In every run a finished upload is published exactly if it was streamed, linked and saved and, by then,
   * its version is still new and advances its channel. The release goes in front, paused for everyone, under
   * the number after all saved ones, with the uploaded installer at its path; otherwise index and files stay.
   * A manifest was signed exactly if the upload got past the stream and the checks.
   */
  lemma FinishExactly(s: State, id: nat, disk: Disk)
    requires Reachable(s) && id in s.uploads
    ensures var u, n := s.uploads[id], SavedAmong(s.signings) + 1;
            var signed := disk.streamed && !HasVersion(s.index, u.version) && Advances(s.index, u.version, u.channel);
            Next(s, Finish(id, disk)) ==
            if signed && disk.linked && disk.saved then
              State([Release(n, u.version, u.channel, id, Rollout(false, 0))] + s.index, s.files[u.version := id],
                    s.uploads - {id}, s.signings + [Signing(n, true)])
            else
              State(s.index, s.files, s.uploads - {id}, if signed then s.signings + [Signing(n, false)] else s.signings)
  {
    var u := s.uploads[id];
    ReachableOk(s);
    RefusedExactly(s, u.version, u.channel);
    hide Reachable, Load, Inv, Refused, Advances, NextSequence, SavedAmong;
  }

  // ---------------------------------------------------------------- edits

  /** The newest release of its channel. */
  predicate Newest(s: seq<Release>, r: Release) {
    r in s && forall x :: x in s && x.channel == r.channel ==> x == r || Later(r.version, x.version)
  }

  lemma NewestIsLatest(s: seq<Release>, i: nat)
    requires Ordered(s) && i < |s|
    ensures Newest(s, s[i]) <==> Latest(s, s[i].channel) == Some(i)
  {
    var l := Latest(s, s[i].channel).value;
    FirstIsNewest(s, i);
    if l == i {
      forall x | x in s && x.channel == s[i].channel ensures x == s[i] || Later(s[i].version, x.version) {
        var k :| 0 <= k < |s| && s[k] == x;
        FirstIsNewest(s, k);
        LaterIsNewer(s[i].version, x.version);
      }
    } else {
      assert s[l] in s;
      CompareIsOrder(s[l].version, s[i].version, s[l].version);
      LaterIsNewer(s[i].version, s[l].version);
    }
  }

  lemma FoundHere(s: seq<Release>, version: Version, i: nat)
    requires Ordered(s) && i < |s| && s[i].version == version
    ensures FindVersion(s, version) == Some(i)
  {
    var k := FindVersion(s, version).value;
    assert k < i ==> Above(s[k], s[i]);
    assert i < k ==> Above(s[i], s[k]);
  }

  /** The edit of the release at position `i`. */
  lemma EditsAt(s: State, i: nat, rollout: Rollout, saved: bool)
    requires Inv(s) && Load(s.index) == s.index && i < |s.index|
    ensures EditStep(s, s.index[i].version, rollout, saved) ==
            if Latest(s.index, s.index[i].channel) == Some(i) && s.index[i].rollout != rollout then
              var r := s.index[i].(sequence := NextSequence(s.index), rollout := rollout);
              s.(index := if saved then [r] + Without(s.index, i) else s.index, signings := s.signings + [Signing(r.sequence, saved)])
            else s
  {
    FoundHere(s.index, s.index[i].version, i);
    var l := Latest(s.index, s.index[i].channel);
    if l.Some? && l.value != i {
      assert Above(s.index[l.value], s.index[i]);
    }
    hide Load, Without, NextSequence;
  }

  /**
   * In every run an edit of a published version takes effect exactly if it is the newest of its channel,
   * the rollout differs, and the index could be saved: the release then leaves its place and stands in
   * front with the new rollout under the number after all saved ones, all else as it was. Nothing is
   * signed unless the first two conditions hold.
   */
  lemma EditExactly(s: State, rollout: Rollout, saved: bool, i: nat)
    requires Reachable(s) && i < |s.index|
    ensures var r, n := s.index[i], SavedAmong(s.signings) + 1;
            var signed := Newest(s.index, r) && r.rollout != rollout;
            Next(s, Edit(r.version, rollout, saved)) ==
            if signed && saved then
              State([Release(n, r.version, r.channel, r.content, rollout)] + s.index[..i] + s.index[i + 1..], s.files, s.uploads,
                    s.signings + [Signing(n, true)])
            else
              State(s.index, s.files, s.uploads, if signed then s.signings + [Signing(n, false)] else s.signings)
  {
    hide Inv, Load, Newest, NextSequence, SavedAmong, Without, EditStep, Reachable, Run, Latest;
    ReachableOk(s);
    assert Ordered(s.index) by { InvOrders(s); }
    hide Ordered;
    NewestIsLatest(s.index, i);
    EditsAt(s, i, rollout, saved);
    FrontAndRest(s.index, i, s.index[i].(sequence := SavedAmong(s.signings) + 1, rollout := rollout));
  }

  lemma InvOrders(s: State)
    requires Inv(s)
    ensures Ordered(s.index)
  {
  }

  lemma FrontAndRest(s: seq<Release>, i: nat, r: Release)
    requires i < |s|
    ensures [r] + Without(s, i) == [r] + s[..i] + s[i + 1..]
  {
  }

  /** An edit of an unknown version does nothing. */
  lemma EditUnknown(s: State, version: Version, rollout: Rollout, saved: bool)
    requires Reachable(s) && !HasVersion(s.index, version)
    ensures Next(s, Edit(version, rollout, saved)) == s
  {
    hide Inv, Load, NextSequence, SavedAmong, Reachable, Run, Latest;
    ReachableOk(s);
    FoundMeans(s.index, version);
  }
}
