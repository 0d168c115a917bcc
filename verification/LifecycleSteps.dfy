/**
 * One lifecycle operation, await by await: mutate the registry, replace the Core policy, replace the
 * gateway's agents, read back, notify; or undo what was tried. Every outside call can fail, and a
 * write that fails may still have taken effect.
 */
module LifecycleSteps {
  import opened Prelude
  import opened AgentRegistry
  import opened AgentLifecycle

  /** How an outside write went: whether it took effect, and whether the caller was told so. */
  datatype Write = Write(applied: bool, acknowledged: bool)

  /** An acknowledged write took effect; a failed one may have. */
  predicate Honest(w: Write) { w.acknowledged ==> w.applied }

  predicate Well(w: Write) { w.applied && w.acknowledged }

  /** How every outside call of one operation turns out, the registry's file writes and the workspace files included. */
  datatype Faults = Faults(
    read: bool, mutateWrites: nat -> bool, mutateFiles: bool, activateWrites: nat -> bool, activateFiles: nat -> bool,
    policy: Write, agents: Write, confirm: bool, notified: bool,
    undoRead: bool, undoAgents: Write, undoConfirm: bool, undoPolicy: Write, undoRegistry: bool)

  /** All registry and workspace files get written. */
  ghost predicate Local(f: Faults) {
    f.mutateFiles && (forall n :: f.mutateWrites(n)) && (forall n :: f.activateWrites(n)) && (forall n :: f.activateFiles(n))
  }

  /** Every call on the way back succeeds. */
  predicate Backward(f: Faults) {
    f.undoRead && Well(f.undoAgents) && f.undoConfirm && Well(f.undoPolicy) && f.undoRegistry
  }

  datatype Call = Call(m: Mutation, installed: seq<Pack>, faults: Faults)

  datatype Outcome = Done(ids: seq<string>) | Refused | RollbackFailed

  /** What composes agents and policy from profiles, and what constrains the policy; both given from outside. */
  datatype Env = Env(rules: Rules, plan: seq<Profile> -> Option<Plan>, constrain: Policy -> Policy)

  /** Registry, gateway and Core, and the two policies the coordinator remembers. */
  datatype World = World(
    reg: Reg, agents: seq<Agent>, defaultId: string, policy: Policy, bridge: Policy, source: Policy)

  function Effect<T>(w: Write, before: T, next: T): T { if w.applied then next else before }

  /** The read-back: the default agent is `main` and the ids are the expected ones. */
  predicate Confirms(w: World, agents: seq<Agent>, answers: bool) {
    answers && w.defaultId == "main" && Ids(w.agents) == Ids(agents)
  }

  // ---------------------------------------------------------------- the local part

  function RevokeTo(rules: Rules, r: Reg, packIds: seq<string>, writes: nat -> bool): (Reg, bool) {
    if |packIds| == 0 then (r, true)
    else
      var (r1, ok) := RevokeTo(rules, r, packIds[..|packIds| - 1], writes);
      if !ok then (r1, false) else SwitchTo(rules, r1, packIds[|packIds| - 1], false, writes(|packIds| - 1))
  }

  /** The closure each operation passes; it may stop half-way, after some of its commits. */
  function MutateTo(rules: Rules, r: Reg, m: Mutation, writes: nat -> bool, files: bool): (Reg, bool) {
    match m
    case Enable(pack) =>
      var (r1, e) := RegisterTo(rules, r, pack, Some(true), writes(0));
      (r1, e.Some? && files)
    case Disable(packId, active) =>
      if active.None? then (r, false)
      else if Unowned(r.entries, packId) then
        var (r1, e) := RegisterTo(rules, r, active.value, Some(false), writes(0));
        (r1, e.Some?)
      else SwitchTo(rules, r, packId, false, writes(0))
    case Revoke(packIds) => RevokeTo(rules, r, packIds, writes)
  }

  /** Activation: register every installed pack and collect those switched on. */
  function ActivateTo(rules: Rules, r: Reg, installed: seq<Pack>, writes: nat -> bool, files: nat -> bool): (Reg, Option<seq<Profile>>) {
    if |installed| == 0 then (r, Some([]))
    else
      var n := |installed| - 1;
      var (r1, profiles) := ActivateTo(rules, r, installed[..n], writes, files);
      if profiles.None? then (r1, None)
      else
        var (r2, e) := RegisterTo(rules, r1, installed[n], None, writes(n));
        if e.None? || (e.value.enabled && !files(n)) then (r2, None)
        else (r2, Some(profiles.value + if e.value.enabled then [Profile(e.value, installed[n])] else []))
  }

  function Prepared(env: Env, r: Reg, call: Call): (Reg, Option<Plan>) {
    var (r1, ok) := MutateTo(env.rules, r, call.m, call.faults.mutateWrites, call.faults.mutateFiles);
    if !ok then (r1, None)
    else
      var (r2, profiles) := ActivateTo(env.rules, r1, call.installed, call.faults.activateWrites, call.faults.activateFiles);
      (r2, if profiles.None? then None else env.plan(profiles.value))
  }

  lemma {:induction false} RevokeToMeans(rules: Rules, r: Reg, packIds: seq<string>, writes: nat -> bool)
    requires DistinctProfiles(r.entries)
    ensures var (r', ok) := RevokeTo(rules, r, packIds, writes);
            && DistinctProfiles(r'.entries) && r.revision <= r'.revision
            && (ok ==> RevokeAll(rules, r.entries, packIds) == Some(r'.entries))
            && (!ok && (forall n :: writes(n)) ==> RevokeAll(rules, r.entries, packIds).None?)
  {
    hide DistinctProfiles, SwitchTo, SwitchPack;
    if |packIds| > 0 {
      var front := packIds[..|packIds| - 1];
      RevokeToMeans(rules, r, front, writes);
      var (r1, ok) := RevokeTo(rules, r, front, writes);
      SwitchMeans(rules, r1, packIds[|packIds| - 1], false, writes(|packIds| - 1));
    }
  }

  lemma MutateToMeans(rules: Rules, r: Reg, m: Mutation, writes: nat -> bool, files: bool)
    requires DistinctProfiles(r.entries)
    ensures var (r', ok) := MutateTo(rules, r, m, writes, files);
            && DistinctProfiles(r'.entries) && r.revision <= r'.revision
            && (ok ==> Mutated(rules, r.entries, m) == Some(r'.entries))
            && (!ok && files && (forall n :: writes(n)) ==> Mutated(rules, r.entries, m).None?)
  {
    hide DistinctProfiles, SwitchTo, SwitchPack, RegisterTo, StoreWanted, RevokeTo, RevokeAll;
    match m {
      case Enable(pack) =>
        StoreMeans(rules, r, pack, true, writes);
        assert MutateTo(rules, r, m, writes, files).1 == (RegisterTo(rules, r, pack, Some(true), writes(0)).1.Some? && files);
      case Disable(packId, active) =>
        if active.Some? {
          StoreMeans(rules, r, active.value, false, writes);
          SwitchMeans(rules, r, packId, false, writes(0));
          assert (forall n :: writes(n)) ==> writes(0);
          assert MutateTo(rules, r, m, writes, files).1 ==
                 if Unowned(r.entries, packId) then RegisterTo(rules, r, active.value, Some(false), writes(0)).1.Some?
                 else SwitchTo(rules, r, packId, false, writes(0)).1;
        }
      case Revoke(packIds) => RevokeToMeans(rules, r, packIds, writes);
    }
  }

  /** The same said of the registration a mutation starts with. */
  lemma StoreMeans(rules: Rules, r: Reg, pack: Pack, enabled: bool, writes: nat -> bool)
    requires DistinctProfiles(r.entries)
    ensures var (r', e) := RegisterTo(rules, r, pack, Some(enabled), writes(0));
            && DistinctProfiles(r'.entries) && r.revision <= r'.revision
            && (e.Some? ==> StoreWanted(rules, r.entries, pack, Some(enabled)) == Some(r'.entries))
            && (e.None? && (forall n :: writes(n)) ==> StoreWanted(rules, r.entries, pack, Some(enabled)).None?)
  {
    hide DistinctProfiles, RegisterTo, Wanted, Stored;
    RegisterMeans(rules, r, pack, Some(enabled), writes(0));
  }

  lemma {:induction false} ActivateToMeans(rules: Rules, r: Reg, installed: seq<Pack>, writes: nat -> bool, files: nat -> bool)
    requires DistinctProfiles(r.entries) && DistinctPacks(installed)
    ensures var (r', profiles) := ActivateTo(rules, r, installed, writes, files);
            && DistinctProfiles(r'.entries) && r.revision <= r'.revision
            && (profiles.Some? ==> RegisterAll(rules, r.entries, installed) == Some(r'.entries))
            && (profiles.Some? ==> profiles.value == ActiveProfiles(r'.entries, installed))
            && (profiles.None? && (forall n :: writes(n)) && (forall n :: files(n)) ==> RegisterAll(rules, r.entries, installed).None?)
  {
    hide DistinctProfiles, RegisterTo, Wanted, Stored;
    if |installed| > 0 {
      var n := |installed| - 1;
      var front := installed[..n];
      ActivateToMeans(rules, r, front, writes, files);
      var (r1, profiles) := ActivateTo(rules, r, front, writes, files);
      RegisterMeans(rules, r1, installed[n], None, writes(n));
      if profiles.Some? && RegisterTo(rules, r1, installed[n], None, writes(n)).1.Some? {
        ProfilesGrow(rules, r.entries, installed, n);
        assert installed[..n + 1] == installed;
      }
    }
  }

  /** The plan an operation leads to. */
  function Planned(env: Env, before: seq<Entry>, m: Mutation, installed: seq<Pack>): Option<Plan> {
    match Target(env.rules, before, m, installed)
    case None => None
    case Some(t) => env.plan(ActiveProfiles(t, installed))
  }

  /** A prepared plan is the planned one, on the target registry; it is missing only for a failed file or for want of a plan. */
  lemma PreparedMeans(env: Env, r: Reg, call: Call)
    requires DistinctProfiles(r.entries) && DistinctPacks(call.installed)
    ensures var (r', next) := Prepared(env, r, call);
            && DistinctProfiles(r'.entries) && r.revision <= r'.revision
            && (next.Some? ==> Target(env.rules, r.entries, call.m, call.installed) == Some(r'.entries))
            && (next.Some? ==> next == env.plan(ActiveProfiles(r'.entries, call.installed)) == Planned(env, r.entries, call.m, call.installed))
            && (next.None? && Local(call.faults) ==> Planned(env, r.entries, call.m, call.installed).None?)
  {
    hide DistinctProfiles, DistinctPacks, MutateTo, ActivateTo, Mutated, RegisterAll, ActiveProfiles;
    var f := call.faults;
    MutateToMeans(env.rules, r, call.m, f.mutateWrites, f.mutateFiles);
    var (r1, ok) := MutateTo(env.rules, r, call.m, f.mutateWrites, f.mutateFiles);
    ActivateToMeans(env.rules, r1, call.installed, f.activateWrites, f.activateFiles);
    var (r2, profiles) := ActivateTo(env.rules, r1, call.installed, f.activateWrites, f.activateFiles);
    assert ok && profiles.Some? ==> Target(env.rules, r.entries, call.m, call.installed) == Some(r2.entries);
  }

  // ---------------------------------------------------------------- await by await

  /** What an operation remembers to go back to. */
  datatype Snap = Snap(entries: seq<Entry>, agents: seq<Agent>, policy: Policy, source: Policy)

  /**
   * Where an operation stands: queued, waiting for the gateway's configuration, for the policy write,
   * for the agents write, for the read-back; on the way back for the configuration, the agents write,
   * the read-back, the policy write; ended.
   */
  datatype Pc =
    | Queued
    | Reading(entries: seq<Entry>)
    | Policing(snap: Snap, next: Plan)
    | Writing(snap: Snap, next: Plan)
    | Confirming(snap: Snap, next: Plan)
    | UndoReading(snap: Snap)
    | UndoWriting(snap: Snap)
    | UndoConfirming(snap: Snap)
    | UndoPolicing(snap: Snap)
    | Ended(outcome: Outcome)

  function Rank(pc: Pc): nat {
    match pc
    case Queued => 9
    case Reading(_) => 8
    case Policing(_, _) => 7
    case Writing(_, _) => 6
    case Confirming(_, _) => 5
    case UndoReading(_) => 4
    case UndoWriting(_) => 3
    case UndoConfirming(_) => 2
    case UndoPolicing(_) => 1
    case Ended(_) => 0
  }

  /** The end of the way back: the remembered source policy, and the registry if it moved. */
  function PutBack(env: Env, w: World, snap: Snap, f: Faults): (Pc, World) {
    var w1 := w.(source := snap.source);
    if w1.reg.entries == snap.entries then (Ended(Refused), w1)
    else
      var (reg, ok) := RestoreTo(env.rules, w1.reg, snap.entries, f.undoRegistry);
      (Ended(if ok then Refused else RollbackFailed), w1.(reg := reg))
  }

  function UndoPolicy(w: World, snap: Snap, f: Faults): (Pc, World) {
    (UndoPolicing(snap), w.(policy := Effect(f.undoPolicy, w.policy, snap.policy)))
  }

  /** What an operation does between two awaits. */
  function Micro(env: Env, call: Call, pc: Pc, w: World): (r: (Pc, World))
    ensures !pc.Ended? ==> Rank(r.0) < Rank(pc)
  {
    var f := call.faults;
    match pc
    case Queued => (Reading(w.reg.entries), w)
    case Reading(entries) =>
      if !f.read then (Ended(Refused), w)
      else
        var snap := Snap(entries, w.agents, w.bridge, w.source);
        var (reg, next) := Prepared(env, w.reg, call);
        if next.None? then PutBack(env, w.(reg := reg), snap, f)
        else
          (Policing(snap, next.value), w.(reg := reg, policy := Effect(f.policy, w.policy, env.constrain(next.value.source))))
    case Policing(snap, next) =>
      if !f.policy.acknowledged then UndoPolicy(w, snap, f)
      else (Writing(snap, next), w.(agents := Effect(f.agents, w.agents, next.agents)))
    case Writing(snap, next) =>
      (if f.agents.acknowledged then Confirming(snap, next) else UndoReading(snap), w)
    case Confirming(snap, next) =>
      if !Confirms(w, next.agents, f.confirm) then (UndoReading(snap), w)
      else
        var w1 := w.(bridge := env.constrain(next.source), source := next.source);
        (if f.notified then Ended(Done(Ids(next.agents))) else UndoReading(snap), w1)
    case UndoReading(snap) =>
      if !f.undoRead then (Ended(RollbackFailed), w)
      else if w.agents == snap.agents then UndoPolicy(w, snap, f)
      else (UndoWriting(snap), w.(agents := Effect(f.undoAgents, w.agents, snap.agents)))
    case UndoWriting(snap) =>
      (if f.undoAgents.acknowledged then UndoConfirming(snap) else Ended(RollbackFailed), w)
    case UndoConfirming(snap) =>
      if Confirms(w, snap.agents, f.undoConfirm) then UndoPolicy(w, snap, f) else (Ended(RollbackFailed), w)
    case UndoPolicing(snap) =>
      if f.undoPolicy.acknowledged then PutBack(env, w, snap, f) else (Ended(RollbackFailed), w)
    case Ended(_) => (pc, w)
  }

  /** The rest of an operation, undisturbed. */
  function Rest(env: Env, call: Call, pc: Pc, w: World): (World, Outcome)
    decreases Rank(pc)
  {
    if pc.Ended? then (w, pc.outcome)
    else
      var (pc', w') := Micro(env, call, pc, w);
      Rest(env, call, pc', w')
  }

  /** A whole operation, undisturbed. */
  function Whole(env: Env, call: Call, w: World): (World, Outcome) { Rest(env, call, Queued, w) }

  /** A step leaves the rest of the operation what it was; an ended one has none. */
  lemma MicroKeepsRest(env: Env, call: Call, pc: Pc, w: World)
    ensures var (pc', w') := Micro(env, call, pc, w);
            && Rest(env, call, pc', w') == Rest(env, call, pc, w)
            && (pc'.Ended? ==> Rest(env, call, pc, w) == (w', pc'.outcome))
  {
  }
}
