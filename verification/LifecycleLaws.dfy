/** What one lifecycle operation guarantees, whatever fails on the way. */
module LifecycleLaws {
  import opened Prelude
  import opened AgentRegistry
  import opened AgentLifecycle
  import opened LifecycleSteps

  /**
   * The operation gets as far as the notification: the configuration is read, the local part yields a
   * plan, both writes are acknowledged, and the read-back finds the expected ids.
   */
  predicate Reaches(env: Env, call: Call, w: World) {
    var f, next := call.faults, Prepared(env, w.reg, call).1;
    && f.read && next.Some? && f.policy.acknowledged && f.agents.acknowledged
    && Confirms(w.(agents := Effect(f.agents, w.agents, next.value.agents)), next.value.agents, f.confirm)
  }

  /** The remembered policy after an operation that goes back. */
  function RememberedPolicy(env: Env, call: Call, w: World): Policy {
    if Reaches(env, call, w) then env.constrain(Prepared(env, w.reg, call).1.value.source) else w.bridge
  }

  /** Registry, gateway and Core are all where the mutation leads. */
  predicate Arrived(env: Env, call: Call, w: World, w': World) {
    var p := env.plan(ActiveProfiles(w'.reg.entries, call.installed));
    && Target(env.rules, w.reg.entries, call.m, call.installed) == Some(w'.reg.entries)
    && p.Some? && Ids(w'.agents) == Ids(p.value.agents) && w'.defaultId == "main"
    && (Honest(call.faults.agents) ==> w'.agents == p.value.agents)
    && w'.bridge == env.constrain(p.value.source) && w'.source == p.value.source
    && (Honest(call.faults.policy) ==> w'.policy == w'.bridge)
  }

  /** The agents are back: their ids in any case, all of them unless the undoing write was acknowledged in vain. */
  predicate AgentsBack(call: Call, w: World, w': World) {
    Ids(w'.agents) == Ids(w.agents) && (Honest(call.faults.undoAgents) ==> w'.agents == w.agents)
  }

  /** The operation gets as far as writing the Core policy. */
  predicate WritesPolicy(env: Env, call: Call, w: World) { call.faults.read && Prepared(env, w.reg, call).1.Some? }

  /** Core's policy after a refusal: never touched, or, honestly undone, the one the coordinator remembered. */
  predicate PolicyBack(env: Env, call: Call, w: World, w': World) {
    if WritesPolicy(env, call, w) then Honest(call.faults.undoPolicy) ==> w'.policy == w.bridge else w'.policy == w.policy
  }

  /** Registry, gateway and Core are all back where they were. */
  predicate Restored(env: Env, call: Call, w: World, w': World) {
    && multiset(w'.reg.entries) == multiset(w.reg.entries)
    && (Sorted(env.rules.rank, w.reg.entries) ==> w'.reg.entries == w.reg.entries)
    && AgentsBack(call, w, w') && w'.defaultId == w.defaultId && w'.source == w.source
    && PolicyBack(env, call, w, w') && w'.bridge == RememberedPolicy(env, call, w)
  }

  /** Why a rollback may fail. */
  predicate CannotGoBack(env: Env, call: Call, w: World) {
    !Backward(call.faults) || w.defaultId != "main" || !Restorable(env.rules, w.reg.entries)
  }

  // ---------------------------------------------------------------- what holds at each await

  predicate SnapOk(w: World, snap: Snap) {
    snap == Snap(w.reg.entries, w.agents, w.bridge, w.source)
  }

  /** On the way forward the registry is prepared and the plan is the planned one. */
  predicate Ahead(env: Env, call: Call, w: World, w': World, snap: Snap, next: Plan) {
    && SnapOk(w, snap) && call.faults.read && Prepared(env, w.reg, call) == (w'.reg, Some(next))
    && w'.policy == Effect(call.faults.policy, w.policy, env.constrain(next.source))
    && w'.bridge == w.bridge && w'.source == w.source
  }

  /** On the way back the remembered policy is settled, and the notification was not the end. */
  predicate Behind(env: Env, call: Call, w: World, w': World, snap: Snap) {
    SnapOk(w, snap) && w'.bridge == RememberedPolicy(env, call, w) && !(Reaches(env, call, w) && call.faults.notified)
  }

  predicate Stands(env: Env, call: Call, w: World, pc: Pc, w': World) {
    var f := call.faults;
    && DistinctProfiles(w'.reg.entries) && w.reg.revision <= w'.reg.revision && w'.defaultId == w.defaultId
    && match pc
       case Queued => w' == w
       case Reading(entries) => w' == w && entries == w.reg.entries
       case Policing(snap, next) => Ahead(env, call, w, w', snap, next) && w'.agents == w.agents
       case Writing(snap, next) =>
         Ahead(env, call, w, w', snap, next) && f.policy.acknowledged && w'.agents == Effect(f.agents, w.agents, next.agents)
       case Confirming(snap, next) =>
         && Ahead(env, call, w, w', snap, next) && f.policy.acknowledged && f.agents.acknowledged
         && w'.agents == Effect(f.agents, w.agents, next.agents)
       case UndoReading(snap) => Behind(env, call, w, w', snap) && WritesPolicy(env, call, w)
       case UndoWriting(snap) =>
         Behind(env, call, w, w', snap) && WritesPolicy(env, call, w) && (f.undoAgents.applied ==> w'.agents == w.agents)
       case UndoConfirming(snap) =>
         && Behind(env, call, w, w', snap) && WritesPolicy(env, call, w)
         && (Honest(f.undoAgents) ==> w'.agents == w.agents) && (f.undoAgents.applied ==> w'.agents == w.agents)
       case UndoPolicing(snap) =>
         && Behind(env, call, w, w', snap) && WritesPolicy(env, call, w) && AgentsBack(call, w, w')
         && (f.undoPolicy.applied ==> w'.policy == w.bridge)
       case Ended(Done(ids)) =>
         Reaches(env, call, w) && f.notified && Arrived(env, call, w, w') && ids == Ids(w'.agents)
       case Ended(Refused) => !(Reaches(env, call, w) && f.notified) && Restored(env, call, w, w')
       case Ended(RollbackFailed) => !(Reaches(env, call, w) && f.notified) && CannotGoBack(env, call, w)
  }

  lemma PutBackStands(env: Env, call: Call, w: World, w': World, snap: Snap)
    requires DistinctProfiles(w.reg.entries) && DistinctProfiles(w'.reg.entries)
    requires w.reg.revision <= w'.reg.revision && w'.defaultId == w.defaultId
    requires Behind(env, call, w, w', snap) && AgentsBack(call, w, w')
    requires PolicyBack(env, call, w, w')
    ensures var (pc, w'') := PutBack(env, w', snap, call.faults);
            Stands(env, call, w, pc, w'')
  {
    hide DistinctProfiles, DistinctAgents, Sorted, Sort, Reaches, RememberedPolicy, Ids, WritesPolicy;
    RestoreMeans(env.rules, w'.reg, snap.entries, call.faults.undoRegistry);
  }

  /** Every step keeps what holds at the awaits. */
  lemma MicroStands(env: Env, call: Call, w: World, pc: Pc, w': World)
    requires DistinctProfiles(w.reg.entries) && DistinctPacks(call.installed) && Stands(env, call, w, pc, w')
    ensures var (pc', w'') := Micro(env, call, pc, w');
            Stands(env, call, w, pc', w'')
  {
    hide DistinctProfiles, DistinctPacks, PutBack, Prepared, Target, ActiveProfiles, Ids, Restored;
    match pc {
      case Reading(_) =>
        PreparedMeans(env, w.reg, call);
        if call.faults.read && Prepared(env, w.reg, call).1.None? {
          PutBackStands(env, call, w, w.(reg := Prepared(env, w.reg, call).0), Snap(w.reg.entries, w.agents, w.bridge, w.source));
        } else if !call.faults.read {
          UnreadStands(env, call, w);
        }
      case Confirming(_, _) => PreparedMeans(env, w.reg, call);
      case UndoPolicing(snap) => if call.faults.undoPolicy.acknowledged { PutBackStands(env, call, w, w', snap); }
      case _ =>
    }
  }

  lemma UnreadStands(env: Env, call: Call, w: World)
    requires !call.faults.read
    ensures Restored(env, call, w, w) && !Reaches(env, call, w)
  {
  }

  lemma {:induction false} RestStands(env: Env, call: Call, w: World, pc: Pc, w': World)
    requires DistinctProfiles(w.reg.entries) && DistinctPacks(call.installed) && Stands(env, call, w, pc, w')
    ensures var (end, o) := Rest(env, call, pc, w');
            Stands(env, call, w, Ended(o), end)
    decreases Rank(pc)
  {
    hide Stands, Micro;
    if !pc.Ended? {
      MicroStands(env, call, w, pc, w');
      var (pc', w'') := Micro(env, call, pc, w');
      RestStands(env, call, w, pc', w'');
    }
  }

  // ---------------------------------------------------------------- main results

  /**
   * All new or all old, unless the rollback itself is reported as failed. An operation succeeds exactly
   * if it reaches the notification and the notification does not throw; a rollback fails only for a
   * cause; the registry's revision never goes back.
   */
  lemma OperationIsAtomic(env: Env, call: Call, w: World)
    requires DistinctProfiles(w.reg.entries) && DistinctPacks(call.installed)
    ensures var (w', o) := Whole(env, call, w);
            && DistinctProfiles(w'.reg.entries) && w.reg.revision <= w'.reg.revision
            && (o.Done? <==> Reaches(env, call, w) && call.faults.notified)
            && (o.Done? ==> Arrived(env, call, w, w') && o.ids == Ids(w'.agents))
            && (o.Refused? ==> Restored(env, call, w, w'))
            && (o.RollbackFailed? ==> CannotGoBack(env, call, w))
  {
    hide Reaches, Arrived, Restored, CannotGoBack, Rest;
    RestStands(env, call, w, Queued, w);
  }

  /**
   * After a refused operation the coordinator remembers the old policy, and, started in step with Core
   * and honestly undone, is in step with it again, if and only if the notification did not throw or
   * the plan's policy is the old one anyway.
   */
  lemma RefusalKeepsPolicy(env: Env, call: Call, w: World)
    requires DistinctProfiles(w.reg.entries) && DistinctPacks(call.installed) && Whole(env, call, w).1.Refused?
    ensures var w' := Whole(env, call, w).0;
            var kept := !Reaches(env, call, w) || env.constrain(Prepared(env, w.reg, call).1.value.source) == w.bridge;
            && (Reaches(env, call, w) ==> !call.faults.notified)
            && (w'.bridge == w.bridge <==> kept)
            && (w.bridge == w.policy && Honest(call.faults.undoPolicy) ==> (w'.bridge == w'.policy <==> kept))
  {
    hide Reaches, Arrived, CannotGoBack, Whole;
    OperationIsAtomic(env, call, w);
  }

  /** With every file written, an operation that has a plan prepares it. */
  lemma LocalPrepares(env: Env, call: Call, w: World)
    requires DistinctProfiles(w.reg.entries) && DistinctPacks(call.installed) && Local(call.faults)
    ensures Prepared(env, w.reg, call).1 == Planned(env, w.reg.entries, call.m, call.installed)
  {
    hide Prepared, Planned;
    PreparedMeans(env, w.reg, call);
  }

  const FINE := Write(true, true)

  /** Everything works except the notification. */
  const THROWING := Faults(true, n => true, true, n => true, n => true, FINE, FINE, true, false, true, FINE, true, FINE, true)

  const MAIN := Agent("main", "")
  const EDITOR := Agent("editor", "")
  const TOOLS := Policy(map["editor" := {"write"}])
  const NO_TOOLS := Policy(map[])

  /** Without profiles the main agent alone and no tools; with the editor's profile its agent and its tools. */
  function EditorPlan(profiles: seq<Profile>): Option<Plan> {
    Some(if profiles == [] then Plan([MAIN], NO_TOOLS) else Plan([MAIN, EDITOR], TOOLS))
  }

  /** Enabling the one installed pack, registered and off, leads to its profile alone. */
  lemma EnableOnly(off: Entry, pack: Pack)
    requires pack.valid && pack.profileId == off.profileId != "main" && pack.packId == off.packId
    requires pack.profileVersion == off.profileVersion && pack.packVersion == off.packVersion && !off.enabled
    ensures var on := off.(enabled := true);
            && Target(PLAIN_RULES, [off], Enable(pack), [pack]) == Some([on])
            && ActiveProfiles([on], [pack]) == [Profile(on, pack)]
  {
    var on := off.(enabled := true);
    var s, t := [off], [on];
    assert s[0] == off && t[0] == on && on in t;
    assert EntryOf(s, off.profileId) == Some(off) && EntryOf(t, off.profileId) == Some(on);
    assert on !in s && Place(s, on) == t;
    SortIsStable(PLAIN_RULES.rank, t);
    assert Wanted(PLAIN_RULES, t, pack, None) == Some(on);
    assert [pack][..0] == [];
    assert RegisterAll(PLAIN_RULES, t, []) == Some(t) && ActiveProfiles(t, []) == [];
  }

  /**
   * Enabling a pack whose notification throws: Core is back on the policy without tools, and the
   * coordinator remembers the one with the editor's.
   */
  lemma NotifierDesynchronises() returns (env: Env, call: Call, w: World)
    ensures call.m.Enable? && call.m.pack in call.installed && DistinctPacks(call.installed) && DistinctProfiles(w.reg.entries)
    ensures ActiveProfiles(w.reg.entries, call.installed) == []
    ensures env.plan([]) == Some(Plan(w.agents, w.policy)) && w.bridge == w.policy == w.source == NO_TOOLS
    ensures Whole(env, call, w).1 == Refused
    ensures Whole(env, call, w).0.policy == NO_TOOLS && Whole(env, call, w).0.bridge == TOOLS
  {
    var off := Entry("editor", "editor", "P", "1", "1", false);
    var pack := Pack("P", "1", "editor", "1", true);
    env := Env(PLAIN_RULES, EditorPlan, p => p);
    call := Call(Enable(pack), [pack], THROWING);
    w := World(Reg(0, [off]), [MAIN], "main", NO_TOOLS, NO_TOOLS, NO_TOOLS);
    assert [pack][..0] == [] && ActiveProfiles([off], []) == [];
    EnableOnly(off, pack);
    LocalPrepares(env, call, w);
    assert Prepared(env, w.reg, call).1 == Some(Plan([MAIN, EDITOR], TOOLS));
    hide Prepared, Target, ActiveProfiles;
    OperationIsAtomic(env, call, w);
  }
}
