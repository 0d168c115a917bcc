/**
 * The coordinator's promise queue: each operation is chained behind the current tail and starts once
 * its predecessor has settled, fulfilled or rejected. Operations arrive at any time, also while one
 * runs, and a step is what one of them does between two awaits.
 */
module LifecycleQueue {
  import opened Prelude
  import opened AgentRegistry
  import opened AgentLifecycle
  import opened LifecycleSteps
  import opened LifecycleLaws

  /** `prev` is the tail at the time of the call; None is the resolved promise the queue starts with. */
  datatype Op = Op(call: Call, prev: Option<nat>, pc: Pc)

  datatype System = System(world: World, ops: seq<Op>, tail: Option<nat>)

  datatype Step = Enqueue(call: Call) | Advance(i: nat)

  /** The promise an operation waits for has settled, whatever became of that operation. */
  predicate PrevSettled(ops: seq<Op>, prev: Option<nat>) {
    prev.None? || (prev.value < |ops| && ops[prev.value].pc.Ended?)
  }

  predicate CanAdvance(s: System, i: nat) {
    i < |s.ops| && !s.ops[i].pc.Ended? && (s.ops[i].pc.Queued? ==> PrevSettled(s.ops, s.ops[i].prev))
  }

  function Next(env: Env, s: System, step: Step): System {
    match step
    case Enqueue(call) => s.(ops := s.ops + [Op(call, s.tail, Queued)], tail := Some(|s.ops|))
    case Advance(i) =>
      if !CanAdvance(s, i) then s
      else
        var (pc, w) := Micro(env, s.ops[i].call, s.ops[i].pc, s.world);
        s.(world := w, ops := s.ops[i := s.ops[i].(pc := pc)])
  }

  function Run(env: Env, s: System, steps: seq<Step>): System
    decreases |steps|
  {
    if steps == [] then s else Run(env, Next(env, s, steps[0]), steps[1..])
  }

  function Start(w: World): System { System(w, [], None) }

  // ---------------------------------------------------------------- invariant

  /** Each operation waits for the one before it, and whoever has started came after all earlier ones had ended. */
  predicate Chained(s: System) {
    && s.tail == (if |s.ops| == 0 then None else Some(|s.ops| - 1))
    && (forall i :: 0 <= i < |s.ops| ==> s.ops[i].prev == if i == 0 then None else Some(i - 1))
    && (forall i, j :: 0 <= i < j < |s.ops| && !s.ops[j].pc.Queued? ==> s.ops[i].pc.Ended?)
  }

  lemma NextKeepsChain(env: Env, s: System, step: Step)
    requires Chained(s)
    ensures Chained(Next(env, s, step))
  {
    hide Micro;
  }

  function Calls(ops: seq<Op>): seq<Call> { seq(|ops|, i requires 0 <= i < |ops| => ops[i].call) }

  /** The operations one after the other, undisturbed. */
  function Sequential(env: Env, calls: seq<Call>, w: World): (r: (World, seq<Outcome>))
    ensures |r.1| == |calls|
  {
    if |calls| == 0 then (w, [])
    else
      var (w1, outs) := Sequential(env, calls[..|calls| - 1], w);
      var (w2, o) := Whole(env, calls[|calls| - 1], w1);
      (w2, outs + [o])
  }

  /** The first `n` operations have ended, and ended as they would one after the other; the next may be under way. */
  predicate Serial(env: Env, w0: World, s: System, n: nat) {
    && n <= |s.ops| && (n < |s.ops| ==> !s.ops[n].pc.Ended?)
    && var (w, outs) := Sequential(env, Calls(s.ops[..n]), w0);
       && (forall j :: 0 <= j < n ==> s.ops[j].pc == Ended(outs[j]))
       && (n == |s.ops| || s.ops[n].pc.Queued? ==> s.world == w)
       && (n < |s.ops| ==> Rest(env, s.ops[n].call, s.ops[n].pc, s.world) == Whole(env, s.ops[n].call, w))
  }

  lemma EnqueueSerial(env: Env, w0: World, s: System, n: nat, call: Call)
    requires Serial(env, w0, s, n)
    ensures Serial(env, w0, Next(env, s, Enqueue(call)), n)
  {
    var s' := Next(env, s, Enqueue(call));
    assert s'.ops[..n] == s.ops[..n];
    hide Rest, Sequential;
  }

  /** Only the first operation that has not ended can advance. */
  lemma AdvanceIsNext(s: System, env: Env, w0: World, n: nat, i: nat)
    requires Chained(s) && Serial(env, w0, s, n) && CanAdvance(s, i)
    ensures i == n
  {
    hide Rest, Sequential;
    assert i >= n;
  }

  lemma CallsSnoc(ops: seq<Op>, n: nat)
    requires n < |ops|
    ensures Calls(ops[..n + 1]) == Calls(ops[..n]) + [ops[n].call]
  {
  }

  lemma SequentialSnoc(env: Env, calls: seq<Call>, call: Call, w: World)
    ensures var (w1, outs) := Sequential(env, calls, w);
            var (w2, o) := Whole(env, call, w1);
            Sequential(env, calls + [call], w) == (w2, outs + [o])
  {
    assert (calls + [call])[..|calls|] == calls;
    hide Whole;
  }

  lemma AdvanceSerial(env: Env, w0: World, s: System, n: nat) returns (n': nat)
    requires Chained(s) && Serial(env, w0, s, n) && CanAdvance(s, n)
    ensures Serial(env, w0, Next(env, s, Advance(n)), n')
    ensures n' == n + if Next(env, s, Advance(n)).ops[n].pc.Ended? then 1 else 0
  {
    hide Rest, Micro, Sequential, Whole;
    var op, s' := s.ops[n], Next(env, s, Advance(n));
    var (w, outs) := Sequential(env, Calls(s.ops[..n]), w0);
    MicroKeepsRest(env, op.call, op.pc, s.world);
    assert s'.ops[..n] == s.ops[..n];
    n' := n;
    MicroLeavesQueue(env, op.call, op.pc, s.world);
    if s'.ops[n].pc.Ended? {
      n' := n + 1;
      CallsSnoc(s'.ops, n);
      SequentialSnoc(env, Calls(s.ops[..n]), op.call, w0);
      if n' < |s.ops| {
        assert s'.ops[n'].pc == Queued;
        QueuedRest(env, s'.ops[n'].call, s'.world);
      }
    }
  }

  lemma QueuedRest(env: Env, call: Call, w: World)
    ensures Rest(env, call, Queued, w) == Whole(env, call, w)
  {
  }

  /** A step takes a waiting operation out of the queue, and brings a running one closer to its end. */
  lemma MicroLeavesQueue(env: Env, call: Call, pc: Pc, w: World)
    requires !pc.Ended?
    ensures !Micro(env, call, pc, w).0.Queued? && Rank(Micro(env, call, pc, w).0) < Rank(pc)
  {
  }

  lemma NextKeepsInv(env: Env, w0: World, s: System, n: nat, step: Step) returns (n': nat)
    requires Chained(s) && Serial(env, w0, s, n)
    ensures Chained(Next(env, s, step)) && Serial(env, w0, Next(env, s, step), n')
  {
    hide Chained, Serial, Micro;
    NextKeepsChain(env, s, step);
    n' := n;
    match step {
      case Enqueue(call) => EnqueueSerial(env, w0, s, n, call);
      case Advance(i) =>
        if CanAdvance(s, i) {
          AdvanceIsNext(s, env, w0, n, i);
          n' := AdvanceSerial(env, w0, s, n);
        }
    }
  }

  lemma {:induction false} RunKeepsInv(env: Env, w0: World, s: System, n: nat, steps: seq<Step>) returns (n': nat)
    requires Chained(s) && Serial(env, w0, s, n)
    ensures Chained(Run(env, s, steps)) && Serial(env, w0, Run(env, s, steps), n')
    decreases |steps|
  {
    hide Chained, Serial, Next;
    n' := n;
    if steps != [] {
      n' := NextKeepsInv(env, w0, s, n, steps[0]);
      n' := RunKeepsInv(env, w0, Next(env, s, steps[0]), n', steps[1..]);
    }
  }

  lemma StartInv(env: Env, w: World)
    ensures Chained(Start(w)) && Serial(env, w, Start(w), 0)
  {
    assert Calls(Start(w).ops[..0]) == [];
  }

  // ---------------------------------------------------------------- main results

  predicate Running(op: Op) { !op.pc.Queued? && !op.pc.Ended? }

  /** In every run: never two operations under way, and whoever has started came after all earlier calls had ended. */
  lemma OneAtATimeInCallOrder(env: Env, w: World, steps: seq<Step>, i: nat, j: nat)
    requires i < |Run(env, Start(w), steps).ops| && j < |Run(env, Start(w), steps).ops|
    ensures var ops := Run(env, Start(w), steps).ops;
            && (Running(ops[i]) && Running(ops[j]) ==> i == j)
            && (i < j && !ops[j].pc.Queued? ==> ops[i].pc.Ended?)
  {
    hide Serial;
    StartInv(env, w);
    var n := RunKeepsInv(env, w, Start(w), 0, steps);
  }

  /** In every run the next call starts once its predecessor has ended, whether that succeeded, was refused or failed. */
  lemma RejectionLetsNextStart(env: Env, w: World, steps: seq<Step>, i: nat)
    requires i + 1 < |Run(env, Start(w), steps).ops|
    ensures var s := Run(env, Start(w), steps);
            s.ops[i].pc.Ended? && s.ops[i + 1].pc.Queued? ==> Running(Next(env, s, Advance(i + 1)).ops[i + 1])
  {
    hide Serial;
    StartInv(env, w);
    var n := RunKeepsInv(env, w, Start(w), 0, steps);
  }

  /**
   * In every run, however calls and awaits interleave, the operations that have ended have the outcomes
   * they would have one after the other in call order; with none under way, so has the world.
   */
  lemma RunIsSequential(env: Env, w: World, steps: seq<Step>) returns (n: nat)
    ensures var s := Run(env, Start(w), steps);
            && n <= |s.ops| && (forall j :: n <= j < |s.ops| ==> !s.ops[j].pc.Ended?)
            && var (w', outs) := Sequential(env, Calls(s.ops[..n]), w);
               && (forall j :: 0 <= j < n ==> s.ops[j].pc == Ended(outs[j]))
               && ((forall j :: 0 <= j < |s.ops| ==> !Running(s.ops[j])) ==> s.world == w')
  {
    hide Rest, Whole, Sequential;
    StartInv(env, w);
    n := RunKeepsInv(env, w, Start(w), 0, steps);
  }

  /** The first operation that has not ended can advance. */
  lemma FirstAdvances(env: Env, w0: World, s: System, n: nat)
    requires Chained(s) && Serial(env, w0, s, n) && n < |s.ops|
    ensures CanAdvance(s, n)
  {
    hide Rest, Sequential, Whole;
    assert n > 0 ==> s.ops[n - 1].pc.Ended?;
  }

  lemma {:induction false} Drain(env: Env, w0: World, s: System, n: nat) returns (more: seq<Step>)
    requires Chained(s) && Serial(env, w0, s, n)
    ensures Calls(Run(env, s, more).ops) == Calls(s.ops)
    ensures forall i :: 0 <= i < |Run(env, s, more).ops| ==> Run(env, s, more).ops[i].pc.Ended?
    decreases |s.ops| - n, if n < |s.ops| then Rank(s.ops[n].pc) else 0
  {
    hide Sequential, Whole, Rest, Micro;
    if n == |s.ops| {
      more := [];
    } else {
      FirstAdvances(env, w0, s, n);
      MicroLeavesQueue(env, s.ops[n].call, s.ops[n].pc, s.world);
      var n' := AdvanceSerial(env, w0, s, n);
      NextKeepsChain(env, s, Advance(n));
      var s' := Next(env, s, Advance(n));
      assert Calls(s'.ops) == Calls(s.ops);
      var rest := Drain(env, w0, s', n');
      more := [Advance(n)] + rest;
      assert more[0] == Advance(n) && more[1..] == rest;
    }
  }

  /**
   * No run gets stuck: a call joins the queue at its end, and from wherever a run has got to there are steps,
   * none of them a new call, after which every operation called has ended.
   */
  lemma EveryCallEnds(env: Env, w: World, steps: seq<Step>, call: Call) returns (more: seq<Step>)
    ensures var s := Run(env, Start(w), steps);
            && Calls(Next(env, s, Enqueue(call)).ops) == Calls(s.ops) + [call]
            && Next(env, s, Enqueue(call)).world == s.world
            && Calls(Run(env, s, more).ops) == Calls(s.ops)
            && forall i :: 0 <= i < |s.ops| ==> Run(env, s, more).ops[i].pc.Ended?
  {
    hide Serial, Chained, Run;
    StartInv(env, w);
    var n := RunKeepsInv(env, w, Start(w), 0, steps);
    var s := Run(env, Start(w), steps);
    more := Drain(env, w, s, n);
    assert |Calls(Run(env, s, more).ops)| == |Calls(s.ops)|;
  }

  // ---------------------------------------------------------------- what the operations leave behind

  /** Gateway and Core show what the registry says about the given installed packs. */
  predicate Consistent(env: Env, w: World, installed: seq<Pack>) {
    var p := env.plan(ActiveProfiles(w.reg.entries, installed));
    && p.Some? && w.agents == p.value.agents
    && w.policy == w.bridge == env.constrain(p.value.source) && w.source == p.value.source
  }

  /** No rollback failed, no notification threw, and what was acknowledged took effect. */
  predicate Clean(c: Call, o: Outcome) {
    && !o.RollbackFailed? && c.faults.notified && Honest(c.faults.policy) && Honest(c.faults.agents)
    && Honest(c.faults.undoPolicy) && Honest(c.faults.undoAgents)
  }

  /** The packs installed when the last successful operation ran. */
  function LastDone(calls: seq<Call>, outs: seq<Outcome>, start: seq<Pack>): seq<Pack>
    requires |calls| == |outs|
  {
    if |calls| == 0 then start
    else if outs[|outs| - 1].Done? then calls[|calls| - 1].installed
    else LastDone(calls[..|calls| - 1], outs[..|outs| - 1], start)
  }

  lemma WholeKeepsConsistent(env: Env, call: Call, w: World, last: seq<Pack>)
    requires DistinctProfiles(w.reg.entries) && Sorted(env.rules.rank, w.reg.entries) && DistinctPacks(call.installed)
    requires Consistent(env, w, last) && Clean(call, Whole(env, call, w).1)
    ensures var (w', o) := Whole(env, call, w);
            && DistinctProfiles(w'.reg.entries) && Sorted(env.rules.rank, w'.reg.entries)
            && Consistent(env, w', if o.Done? then call.installed else last)
  {
    hide Whole, DistinctProfiles, DistinctPacks, Sorted, Reaches, CannotGoBack, ActiveProfiles, Ids;
    OperationIsAtomic(env, call, w);
    if Whole(env, call, w).1.Done? {
      TargetKeeps(env.rules, w.reg.entries, call.m, call.installed);
    } else {
      NotReached(env, call, w);
    }
  }

  lemma NotReached(env: Env, call: Call, w: World)
    requires DistinctProfiles(w.reg.entries) && DistinctPacks(call.installed)
    requires call.faults.notified && !Whole(env, call, w).1.Done?
    ensures RememberedPolicy(env, call, w) == w.bridge
  {
    hide Whole, Arrived, Restored, CannotGoBack, Reaches;
    OperationIsAtomic(env, call, w);
  }

  lemma {:induction false} SequentialKeepsConsistent(env: Env, calls: seq<Call>, w: World, start: seq<Pack>)
    requires DistinctProfiles(w.reg.entries) && Sorted(env.rules.rank, w.reg.entries) && Consistent(env, w, start)
    requires forall i :: 0 <= i < |calls| ==> DistinctPacks(calls[i].installed) && Clean(calls[i], Sequential(env, calls, w).1[i])
    ensures var (w', outs) := Sequential(env, calls, w);
            && DistinctProfiles(w'.reg.entries) && Sorted(env.rules.rank, w'.reg.entries)
            && Consistent(env, w', LastDone(calls, outs, start))
  {
    hide Whole, DistinctProfiles, DistinctPacks, Sorted, Consistent, Clean;
    if |calls| > 0 {
      var front, last := calls[..|calls| - 1], calls[|calls| - 1];
      var (w1, outs1) := Sequential(env, front, w);
      var outs := Sequential(env, calls, w).1;
      assert outs[..|front|] == outs1;
      forall i | 0 <= i < |front| ensures DistinctPacks(front[i].installed) && Clean(front[i], outs1[i]) {
        assert front[i] == calls[i] && outs1[i] == outs[i];
        assert Clean(calls[i], outs[i]);
      }
      SequentialKeepsConsistent(env, front, w, start);
      assert Clean(last, outs[|front|]);
      WholeKeepsConsistent(env, last, w1, LastDone(front, outs1, start));
    }
  }

  /**
   * In every run of the queue, with no operation under way: as long as no rollback failed, no
   * notification threw and no write was acknowledged in vain, gateway and Core show what the registry
   * says, for the packs installed when the last operation that succeeded ran.
   */
  lemma ConsistentInEveryRun(env: Env, w: World, steps: seq<Step>, start: seq<Pack>)
    requires DistinctProfiles(w.reg.entries) && Sorted(env.rules.rank, w.reg.entries) && Consistent(env, w, start)
    requires var ops := Run(env, Start(w), steps).ops;
             forall i :: 0 <= i < |ops| ==>
               && !Running(ops[i]) && DistinctPacks(ops[i].call.installed)
               && (ops[i].pc.Ended? ==> Clean(ops[i].call, ops[i].pc.outcome))
    ensures var s := Run(env, Start(w), steps);
            exists n: nat, outs: seq<Outcome> ::
              && n == |outs| <= |s.ops| && (forall j :: 0 <= j < n ==> s.ops[j].pc == Ended(outs[j]))
              && (forall j :: n <= j < |s.ops| ==> s.ops[j].pc.Queued?)
              && Consistent(env, s.world, LastDone(Calls(s.ops[..n]), outs, start))
  {
    hide Whole, DistinctProfiles, DistinctPacks, Sorted, Consistent, Clean, Sequential, Run;
    var s := Run(env, Start(w), steps);
    var n := RunIsSequential(env, w, steps);
    var calls := Calls(s.ops[..n]);
    var outs := Sequential(env, calls, w).1;
    forall i | 0 <= i < |calls| ensures DistinctPacks(calls[i].installed) && Clean(calls[i], outs[i]) {
      assert s.ops[i].pc == Ended(outs[i]);
    }
    SequentialKeepsConsistent(env, calls, w, start);
    assert n == |outs|;
  }
}
