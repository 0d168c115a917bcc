/**
 * The signed index of desktop releases. An upload checks the index, streams the installer, and
 * checks the index again before it publishes; a rollout edit re-signs the newest release of a
 * channel. Any number of uploads stream at the same time.
 */
module ReleaseIndex {
  import opened Prelude

  /** The x.y.z pattern admits no leading zeros, so equal text is equal numbers. */
  datatype Version = Version(major: nat, minor: nat, patch: nat)

  datatype Channel = Stable | Beta
  datatype Rollout = Rollout(active: bool, basisPoints: nat)

  /** `content` names the uploaded installer whose digest the manifest signs. */
  datatype Release = Release(sequence: int, version: Version, channel: Channel, content: nat, rollout: Rollout)

  // ---------------------------------------------------------------- comparing versions

  function Compare(a: Version, b: Version): int {
    if a.major != b.major then (if a.major < b.major then -1 else 1)
    else if a.minor != b.minor then (if a.minor < b.minor then -1 else 1)
    else if a.patch != b.patch then (if a.patch < b.patch then -1 else 1)
    else 0
  }

  predicate Newer(a: Version, b: Version) { Compare(a, b) > 0 }

  /** A strict total order: zero exactly on equal versions, antisymmetric, transitive. */
  lemma CompareIsOrder(a: Version, b: Version, c: Version)
    ensures Compare(a, b) == 0 <==> a == b
    ensures Compare(a, b) == -Compare(b, a)
    ensures Newer(a, b) && Newer(b, c) ==> Newer(a, c)
  {
  }

  // ---------------------------------------------------------------- reading the index

  /** Insert into a list sorted by falling sequence, behind equals. */
  function Insert(s: seq<Release>, r: Release): seq<Release> {
    if |s| == 0 || s[|s| - 1].sequence >= r.sequence then s + [r]
    else Insert(s[..|s| - 1], r) + [s[|s| - 1]]
  }

  /** The index as loaded: newest sequence first. */
  function Load(s: seq<Release>): seq<Release> {
    if |s| == 0 then [] else Insert(Load(s[..|s| - 1]), s[|s| - 1])
  }

  /** An index already in order loads as it is. */
  lemma {:induction false} LoadOrdered(s: seq<Release>)
    requires forall i, j :: 0 <= i < j < |s| ==> s[i].sequence >= s[j].sequence
    ensures Load(s) == s
  {
    if |s| > 0 {
      LoadOrdered(s[..|s| - 1]);
    }
  }

  /** First release of a channel, that is its newest. */
  function Latest(s: seq<Release>, channel: Channel): (r: Option<nat>)
    ensures r.Some? ==> r.value < |s| && s[r.value].channel == channel
    ensures r.Some? ==> forall j :: 0 <= j < r.value ==> s[j].channel != channel
    ensures r.None? ==> forall j :: 0 <= j < |s| ==> s[j].channel != channel
  {
    if |s| == 0 then None
    else if s[0].channel == channel then Some(0)
    else match Latest(s[1..], channel)
         case None => None
         case Some(i) => Some(i + 1)
  }

  function FindVersion(s: seq<Release>, version: Version): (r: Option<nat>)
    ensures r.Some? ==> r.value < |s| && s[r.value].version == version
    ensures r.None? ==> forall j :: 0 <= j < |s| ==> s[j].version != version
  {
    if |s| == 0 then None
    else if s[0].version == version then Some(0)
    else match FindVersion(s[1..], version)
         case None => None
         case Some(i) => Some(i + 1)
  }

  function NextSequence(s: seq<Release>): int { (if |s| > 0 then s[0].sequence else 0) + 1 }

  datatype Refusal = VersionExists | VersionRollback | ArtifactExists | NotFound | NotLatest | Unchanged | PublishFailed

  /** Why an upload of this version may not go on, judged by the index at hand. */
  function Refused(s: seq<Release>, version: Version, channel: Channel): Option<Refusal> {
    if FindVersion(s, version).Some? then Some(VersionExists)
    else
      match Latest(s, channel)
      case None => None
      case Some(i) => if Compare(version, s[i].version) <= 0 then Some(VersionRollback) else None
  }

  // ---------------------------------------------------------------- states and steps

  datatype Upload = Upload(version: Version, channel: Channel)

  /** A manifest is signed before the files are touched; `saved` says whether the index then carried it. */
  datatype Signing = Signing(sequence: int, saved: bool)

  /** `files` is the installer at each version's path; `signings` every signature ever made, in order. */
  datatype State = State(index: seq<Release>, files: map<Version, nat>, uploads: map<nat, Upload>, signings: seq<Signing>)

  /** Which of the file operations of a publication succeed. */
  datatype Disk = Disk(streamed: bool, linked: bool, saved: bool)

  datatype Step =
    | Begin(id: nat, version: Version, channel: Channel)
    | Finish(id: nat, disk: Disk)
    | Edit(version: Version, rollout: Rollout, saved: bool)

  function BeginStep(s: State, id: nat, version: Version, channel: Channel): State {
    if id in s.uploads || Refused(Load(s.index), version, channel).Some? || version in s.files then s
    else s.(uploads := s.uploads[id := Upload(version, channel)])
  }

  /**
   * Publish from the index `read`, under the next sequence, at the front. The link fails if the
   * path is taken; if the index cannot be saved the link is removed again.
   */
  function Publish(s: State, id: nat, u: Upload, read: seq<Release>, disk: Disk): State {
    if !disk.streamed || Refused(read, u.version, u.channel).Some? then s
    else
      var r := Release(NextSequence(read), u.version, u.channel, id, Rollout(false, 0));
      if !disk.linked || u.version in s.files || !disk.saved then s.(signings := s.signings + [Signing(r.sequence, false)])
      else
        s.(index := [r] + read, files := s.files[u.version := id], signings := s.signings + [Signing(r.sequence, true)])
  }

  /** The end of the stream: the index is read again. */
  function FinishStep(s: State, id: nat, disk: Disk): State {
    if id !in s.uploads then s
    else
      var s' := Publish(s, id, s.uploads[id], Load(s.index), disk);
      s'.(uploads := s'.uploads - {id})
  }

  function Without(s: seq<Release>, i: nat): (r: seq<Release>)
    requires i < |s|
    ensures |r| == |s| - 1 && forall k :: 0 <= k < |r| ==> r[k] == s[if k < i then k else k + 1]
  {
    s[..i] + s[i + 1..]
  }

  /** Only the newest release of a channel can be edited; it moves to the front under the next sequence. */
  function EditStep(s: State, version: Version, rollout: Rollout, saved: bool): State {
    var read := Load(s.index);
    match FindVersion(read, version)
    case None => s
    case Some(i) =>
      if Latest(read, read[i].channel).None? || read[Latest(read, read[i].channel).value].version != version then s
      else if read[i].rollout == rollout then s
      else
        var r := read[i].(sequence := NextSequence(read), rollout := rollout);
        s.(index := if saved then [r] + Without(read, i) else s.index, signings := s.signings + [Signing(r.sequence, saved)])
  }

  function Next(s: State, step: Step): State {
    match step
    case Begin(id, version, channel) => BeginStep(s, id, version, channel)
    case Finish(id, disk) => FinishStep(s, id, disk)
    case Edit(version, rollout, saved) => EditStep(s, version, rollout, saved)
  }

  function Run(s: State, steps: seq<Step>): State
    decreases |steps|
  {
    if steps == [] then s else Run(Next(s, steps[0]), steps[1..])
  }

  const START := State([], map[], map[], [])

  // ---------------------------------------------------------------- invariant

  /** Newest first: sequences fall strictly, versions are distinct, and within a channel versions fall too. */
  predicate Ordered(s: seq<Release>) {
    forall i, j :: 0 <= i < j < |s| ==> Above(s[i], s[j])
  }

  predicate Above(a: Release, b: Release) {
    a.sequence > b.sequence && a.version != b.version && (a.channel == b.channel ==> Newer(a.version, b.version))
  }

  predicate FilesMatch(s: seq<Release>, files: map<Version, nat>) {
    forall r :: r in s ==> r.version in files && files[r.version] == r.content
  }

  function SavedAmong(signings: seq<Signing>): nat { Count(signings, (x: Signing) => x.saved) }

  /** A signature takes the number after all saved ones, and the front of the index carries the last of those. */
  predicate SigningsOk(s: seq<Release>, signings: seq<Signing>) {
    && (forall k :: 0 <= k < |signings| ==> signings[k].sequence == SavedAmong(signings[..k]) + 1)
    && NextSequence(s) == SavedAmong(signings) + 1
  }

  /** One more signature, saved or not. */
  lemma SignKeeps(s: seq<Release>, signings: seq<Signing>, saved: bool, s': seq<Release>)
    requires SigningsOk(s, signings)
    requires if saved then |s'| > 0 && s'[0].sequence == NextSequence(s) else s' == s
    ensures SigningsOk(s', signings + [Signing(NextSequence(s), saved)])
  {
    var more := signings + [Signing(NextSequence(s), saved)];
    CountSnoc(signings, Signing(NextSequence(s), saved), (x: Signing) => x.saved);
    forall k | 0 <= k < |more| ensures more[k].sequence == SavedAmong(more[..k]) + 1 {
      assert more[..k] == signings[..k];
      assert signings[..|signings|] == signings;
    }
  }

  predicate Inv(s: State) {
    Ordered(s.index) && FilesMatch(s.index, s.files) && SigningsOk(s.index, s.signings)
  }

  /** A release no check refuses comes out above all others. */
  lemma PublishKeepsOrder(s: seq<Release>, r: Release)
    requires Ordered(s) && Refused(s, r.version, r.channel).None? && r.sequence == NextSequence(s)
    ensures Ordered([r] + s)
  {
    forall k | 0 <= k < |s| ensures Above(r, s[k]) {
      assert k > 0 ==> Above(s[0], s[k]);
      FirstIsNewest(s, k);
      CompareIsOrder(r.version, s[Latest(s, s[k].channel).value].version, s[k].version);
    }
    hide Above, Latest, FindVersion, Refused;
    var t := [r] + s;
    forall i, j | 0 <= i < j < |t| ensures Above(t[i], t[j]) {
      assert t[j] == s[j - 1] && (i > 0 ==> t[i] == s[i - 1]);
    }
  }

  lemma PublishKeepsInv(s: State, id: nat, u: Upload, disk: Disk)
    requires Inv(s)
    ensures Inv(Publish(s, id, u, s.index, disk))
  {
    hide Ordered, SigningsOk, Refused;
    var s' := Publish(s, id, u, s.index, disk);
    if s' != s {
      SignKeeps(s.index, s.signings, s'.signings[|s.signings|].saved, s'.index);
      if s'.index != s.index { PublishKeepsOrder(s.index, s'.index[0]); }
      UnusedVersion(s.index, u.version, u.channel);
    }
  }

  lemma UnusedVersion(s: seq<Release>, version: Version, channel: Channel)
    requires Refused(s, version, channel).None?
    ensures forall r :: r in s ==> r.version != version
  {
  }

  /** The edited release comes out above all others. */
  lemma EditedIsAbove(s: seq<Release>, i: nat, r: Release, q: nat)
    requires Ordered(s) && i < |s| && q < |s| && q != i && Latest(s, s[i].channel) == Some(i)
    requires r.version == s[i].version && r.channel == s[i].channel && r.sequence == NextSequence(s)
    ensures Above(r, s[q])
  {
    hide Newer;
    assert q > 0 ==> Above(s[0], s[q]);
    assert if q < i then Above(s[q], s[i]) else Above(s[i], s[q]);
  }

  lemma EditKeepsOrder(s: seq<Release>, i: nat, r: Release)
    requires Ordered(s) && i < |s| && Latest(s, s[i].channel) == Some(i)
    requires r.version == s[i].version && r.channel == s[i].channel && r.sequence == NextSequence(s)
    ensures Ordered([r] + Without(s, i))
  {
    var rest := Without(s, i);
    var t := [r] + rest;
    hide Above, Latest, NextSequence, Without;
    forall a, b | 0 <= a < b < |t| ensures Above(t[a], t[b]) {
      var q := if b - 1 < i then b - 1 else b;
      assert t[b] == rest[b - 1] == s[q];
      if a == 0 {
        EditedIsAbove(s, i, r, q);
      } else {
        assert t[a] == rest[a - 1];
      }
    }
  }

  /** Where an edit takes place, and what it writes. */
  lemma EditShape(s: State, version: Version, rollout: Rollout, saved: bool) returns (i: nat)
    requires Ordered(s.index) && EditStep(s, version, rollout, saved) != s
    ensures i < |s.index| && Latest(s.index, s.index[i].channel) == Some(i)
    ensures var r := s.index[i].(sequence := NextSequence(s.index), rollout := rollout);
            EditStep(s, version, rollout, saved) ==
            s.(index := if saved then [r] + Without(s.index, i) else s.index, signings := s.signings + [Signing(r.sequence, saved)])
  {
    LoadOrdered(s.index);
    i := FindVersion(s.index, version).value;
    var l := Latest(s.index, s.index[i].channel).value;
    assert l == i;
  }

  lemma EditKeepsInv(s: State, version: Version, rollout: Rollout, saved: bool)
    requires Inv(s)
    ensures Inv(EditStep(s, version, rollout, saved))
  {
    hide Ordered, Load, EditStep, SigningsOk;
    if EditStep(s, version, rollout, saved) != s {
      var i := EditShape(s, version, rollout, saved);
      var r := s.index[i].(sequence := NextSequence(s.index), rollout := rollout);
      EditKeepsOrder(s.index, i, r);
      var t := [r] + Without(s.index, i);
      SignKeeps(s.index, s.signings, saved, if saved then t else s.index);
      assert s.index[i] in s.index;
      forall x | x in t ensures x.version in s.files && s.files[x.version] == x.content {
        assert x == r || x in s.index;
      }
    }
  }

  lemma NextKeepsInv(s: State, step: Step)
    requires Inv(s)
    ensures Inv(Next(s, step))
  {
    LoadOrdered(s.index);
    match step {
      case Begin(_, _, _) =>
      case Finish(id, disk) => if id in s.uploads { PublishKeepsInv(s, id, s.uploads[id], disk); }
      case Edit(version, rollout, saved) => EditKeepsInv(s, version, rollout, saved);
    }
  }

  lemma {:induction false} RunKeepsInv(s: State, steps: seq<Step>)
    requires Inv(s)
    ensures Inv(Run(s, steps))
    decreases |steps|
  {
    if steps != [] {
      NextKeepsInv(s, steps[0]);
      RunKeepsInv(Next(s, steps[0]), steps[1..]);
    }
  }

  // ---------------------------------------------------------------- main results

  /** In every run versions are distinct, and in each channel a later sequence means a newer version, and back. */
  lemma SequenceOrderIsVersionOrder(steps: seq<Step>, a: Release, b: Release)
    requires a in Run(START, steps).index && b in Run(START, steps).index
    ensures a.version == b.version <==> a == b
    ensures a.sequence == b.sequence <==> a == b
    ensures a.channel == b.channel ==> (a.sequence > b.sequence <==> Newer(a.version, b.version))
  {
    RunKeepsInv(START, steps);
    var s := Run(START, steps).index;
    var i :| 0 <= i < |s| && s[i] == a;
    var j :| 0 <= j < |s| && s[j] == b;
    CompareIsOrder(a.version, b.version, a.version);
    assert i < j || i == j || j < i;
  }

  /** In an ordered index the first release of a channel is above all others of it. */
  lemma FirstIsNewest(s: seq<Release>, k: nat)
    requires Ordered(s) && k < |s|
    ensures var latest := Latest(s, s[k].channel);
            latest.Some? && (latest.value == k || Newer(s[latest.value].version, s[k].version))
  {
    hide Newer;
    var l := Latest(s, s[k].channel).value;
    assert l <= k;
    assert l < k ==> Above(s[l], s[k]);
  }

  /** In every run the release a channel offers first is the newest version of that channel. */
  lemma LatestIsHighest(steps: seq<Step>, channel: Channel, r: Release)
    requires r in Run(START, steps).index && r.channel == channel
    ensures var s := Load(Run(START, steps).index);
            var latest := Latest(s, channel);
            latest.Some? && (s[latest.value] == r || Newer(s[latest.value].version, r.version))
  {
    RunKeepsInv(START, steps);
    var s := Run(START, steps).index;
    hide Run, Latest, Newer, FilesMatch, SigningsOk;
    LoadOrdered(s);
    var k :| 0 <= k < |s| && s[k] == r;
    FirstIsNewest(s, k);
  }

  lemma {:induction false} SavedBetween(signings: seq<Signing>, i: nat, j: nat)
    requires i <= j <= |signings|
    ensures SavedAmong(signings[..i]) <= SavedAmong(signings[..j])
    ensures SavedAmong(signings[..i]) == SavedAmong(signings[..j]) <==> forall k :: i <= k < j ==> !signings[k].saved
    decreases j
  {
    if i < j {
      SavedBetween(signings, i, j - 1);
      assert signings[..j] == signings[..j - 1] + [signings[j - 1]];
      CountSnoc(signings[..j - 1], signings[j - 1], (x: Signing) => x.saved);
    }
  }

  /**
   * In every run, over uploads and edits alike, the numbers signed never fall, and a number is signed
   * again if and only if nothing signed since its first signature was saved.
   */
  lemma SignedTwiceExactly(steps: seq<Step>, i: nat, j: nat)
    requires i < j < |Run(START, steps).signings|
    ensures var signings := Run(START, steps).signings;
            && signings[i].sequence <= signings[j].sequence
            && (signings[i].sequence == signings[j].sequence <==> forall k :: i <= k < j ==> !signings[k].saved)
  {
    RunKeepsInv(START, steps);
    SavedBetween(Run(START, steps).signings, i, j);
  }

  /** In every run no number reaches the index twice: whatever is signed after a saved number is higher. */
  lemma SequencesNeverReused(steps: seq<Step>, i: nat, j: nat)
    requires i < j < |Run(START, steps).signings| && Run(START, steps).signings[i].saved
    ensures Run(START, steps).signings[i].sequence < Run(START, steps).signings[j].sequence
  {
    SignedTwiceExactly(steps, i, j);
    assert !forall k :: i <= k < j ==> !Run(START, steps).signings[k].saved;
  }

  /** A failed save is what lets a number be signed twice: the next upload gets the same one. */
  lemma FailedSaveRepeatsNumber() returns (steps: seq<Step>)
    ensures Run(START, steps).signings == [Signing(1, false), Signing(1, true)]
  {
    var a, b := Version(1, 0, 0), Version(1, 1, 0);
    var s1 := State([], map[], map[0 := Upload(a, Stable)], []);
    var s2 := State([], map[], map[], [Signing(1, false)]);
    var s3 := State([], map[], map[1 := Upload(b, Stable)], [Signing(1, false)]);
    steps := [Begin(0, a, Stable), Finish(0, Disk(true, true, false)), Begin(1, b, Stable), Finish(1, Disk(true, true, true))];
    assert Next(START, steps[0]) == s1;
    assert Next(s1, steps[1]) == s2;
    assert Next(s2, steps[2]) == s3;
    var t1, t2, t3 := steps[1..], steps[2..], steps[3..];
    assert t1[1..] == t2 && t2[1..] == t3 && t3[1..] == [];
    assert Run(START, steps) == Run(s1, t1) == Run(s2, t2) == Run(s3, t3) == Run(Next(s3, steps[3]), []);
  }

  /** No run forgets a signature. */
  lemma {:induction false} SigningsOnlyGrow(s: State, steps: seq<Step>)
    ensures |s.signings| <= |Run(s, steps).signings| && Run(s, steps).signings[..|s.signings|] == s.signings
    decreases |steps|
  {
    if steps != [] {
      var s' := Next(s, steps[0]);
      SigningsOnlyGrow(s', steps[1..]);
      var t := Run(s', steps[1..]).signings;
      assert t[..|s'.signings|][..|s.signings|] == t[..|s.signings|];
    }
  }

  /** In every run the installer at a release's path is the one its manifest signs, and once published it stays. */
  lemma {:induction false} ArtifactsAreImmutable(steps: seq<Step>, more: seq<Step>, r: Release)
    requires r in Run(START, steps).index
    ensures var s, t := Run(START, steps), Run(Run(START, steps), more);
            r.version in s.files && s.files[r.version] == r.content && r.version in t.files && t.files[r.version] == r.content
  {
    RunKeepsInv(START, steps);
    FilesStay(Run(START, steps), more, r.version);
  }

  lemma {:induction false} FilesStay(s: State, steps: seq<Step>, version: Version)
    requires version in s.files
    ensures version in Run(s, steps).files && Run(s, steps).files[version] == s.files[version]
    decreases |steps|
  {
    if steps != [] {
      FilesStay(Next(s, steps[0]), steps[1..], version);
    }
  }

  /** No release is lost: once published, a version stays in the index through every later step. */
  lemma {:induction false} VersionsStay(s: State, steps: seq<Step>, r: Release)
    requires Inv(s) && r in s.index
    ensures exists r' :: r' in Run(s, steps).index && r'.version == r.version && r'.channel == r.channel && r'.content == r.content
    decreases |steps|
  {
    if steps != [] {
      NextKeepsInv(s, steps[0]);
      var r' := VersionStays(s, steps[0], r);
      VersionsStay(Next(s, steps[0]), steps[1..], r');
    }
  }

  lemma VersionStays(s: State, step: Step, r: Release) returns (r': Release)
    requires Inv(s) && r in s.index
    ensures r' in Next(s, step).index && r'.version == r.version && r'.channel == r.channel && r'.content == r.content
  {
    hide EditStep, Load, FilesMatch, SigningsOk, Refused;
    LoadOrdered(s.index);
    r' := r;
    if step.Edit? && Next(s, step) != s {
      var i := EditShape(s, step.version, step.rollout, step.saved);
      if !step.saved { return; }
      var k :| 0 <= k < |s.index| && s.index[k] == r;
      if k == i {
        r' := Next(s, step).index[0];
      } else {
        assert Without(s.index, i)[if k < i then k else k - 1] == r;
      }
    }
  }

  /**
   * The second reading carries the result: two uploads that both publish from the index read before
   * their streams save the same sequence, and the second drops the first one's release.
   */
  lemma StaleReadBreaks()
    ensures var a, b := Upload(Version(1, 0, 0), Stable), Upload(Version(1, 1, 0), Stable);
            var disk := Disk(true, true, true);
            var s := Publish(Publish(START, 0, a, START.index, disk), 1, b, START.index, disk);
            s.signings == [Signing(1, true), Signing(1, true)] && forall r :: r in s.index ==> r.version != a.version
  {
    var a, b := Upload(Version(1, 0, 0), Stable), Upload(Version(1, 1, 0), Stable);
    var s1 := Publish(START, 0, a, [], Disk(true, true, true));
    var s2 := Publish(s1, 1, b, [], Disk(true, true, true));
    assert s2.signings == [Signing(1, true), Signing(1, true)];
  }

  // ---------------------------------------------------------------- the routes

  class ReleaseStore {
    var index: seq<Release>
    var files: map<Version, nat>
    var uploads: map<nat, Upload>
    ghost var signings: seq<Signing>

    constructor ()
      ensures View() == START
    {
      index, files, uploads, signings := [], map[], map[], [];
    }

    ghost function View(): State reads this { State(index, files, uploads, signings) }

    /** The checks before the stream; only an upload that passes them starts streaming. */
    method BeginUpload(id: nat, version: Version, channel: Channel) returns (r: Option<Refusal>)
      requires id !in uploads
      modifies this
      ensures View() == BeginStep(old(View()), id, version, channel)
      ensures r.None? <==> id in uploads
      ensures var refused := Refused(Load(old(index)), version, channel);
              r == if refused.Some? then refused else if version in old(files) then Some(ArtifactExists) else None
      ensures r == Some(VersionExists) <==> exists x :: x in Load(old(index)) && x.version == version
    {
      var read := Load(index);
      r := Refused(read, version, channel);
      assert FindVersion(read, version).Some? ==> read[FindVersion(read, version).value] in read;
      if r.None? && version in files { r := Some(ArtifactExists); }
      if r.None? { uploads := uploads[id := Upload(version, channel)]; }
    }

    /** The end of the stream: check again on a fresh reading, link the file, save the index. */
    method FinishUpload(id: nat, disk: Disk) returns (r: Option<Refusal>)
      requires id in uploads
      modifies this
      ensures View() == FinishStep(old(View()), id, disk)
      ensures r.Some? ==> index == old(index) && files == old(files)
      ensures var u, read := old(uploads)[id], Load(old(index));
              disk.streamed && Refused(read, u.version, u.channel).Some? ==> r == Refused(read, u.version, u.channel)
      ensures r.Some? && !(disk.streamed && Refused(Load(old(index)), old(uploads)[id].version, old(uploads)[id].channel).Some?) ==>
                r == Some(PublishFailed) && !(disk.streamed && disk.linked && disk.saved && old(uploads)[id].version !in old(files))
      ensures r.None? ==> |index| == |Load(old(index))| + 1 && index[0].version == old(uploads)[id].version
    {
      var u := uploads[id];
      uploads := uploads - {id};
      if !disk.streamed { return Some(PublishFailed); }
      var read := Load(index);
      r := Refused(read, u.version, u.channel);
      if r.Some? { return; }
      var release := Release(NextSequence(read), u.version, u.channel, id, Rollout(false, 0));
      if !disk.linked || u.version in files {
        signings := signings + [Signing(release.sequence, false)];
        return Some(PublishFailed);
      }
      var before := files;
      files := files[u.version := id];
      if !disk.saved {
        files := before;
        signings := signings + [Signing(release.sequence, false)];
        return Some(PublishFailed);
      }
      index := [release] + read;
      signings := signings + [Signing(release.sequence, true)];
    }

    /** Re-sign the newest release of a channel with another rollout. */
    method EditRollout(version: Version, rollout: Rollout, saved: bool) returns (r: Option<Refusal>)
      modifies this
      ensures View() == EditStep(old(View()), version, rollout, saved)
      ensures r.Some? ==> index == old(index) && files == old(files) && uploads == old(uploads)
      ensures var read := Load(old(index));
              var found := FindVersion(read, version);
              if found.None? then r == Some(NotFound)
              else
                var latest := Latest(read, read[found.value].channel);
                r == if latest.None? || read[latest.value].version != version then Some(NotLatest)
                     else if read[found.value].rollout == rollout then Some(Unchanged)
                     else if saved then None else Some(PublishFailed)
      ensures r.None? ==> |index| > 0 && index[0].version == version && index[0].rollout == rollout
    {
      var read := Load(index);
      var found := FindVersion(read, version);
      if found.None? { return Some(NotFound); }
      var i := found.value;
      var latest := Latest(read, read[i].channel);
      if latest.None? || read[latest.value].version != version { return Some(NotLatest); }
      if read[i].rollout == rollout { return Some(Unchanged); }
      var release := read[i].(sequence := NextSequence(read), rollout := rollout);
      signings := signings + [Signing(release.sequence, saved)];
      if !saved { return Some(PublishFailed); }
      index := [release] + (read[..i] + read[i + 1..]);
      r := None;
    }
  }
}
