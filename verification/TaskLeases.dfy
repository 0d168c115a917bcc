/**
 * No lease is lost: under every interleaving of handlers, workers and cancellers an open reservation is
 * held by a handler still on its way or by a worker that has not finished.
 */
module TaskLeases {
  import opened Prelude
  import opened TaskProtocol
  import A = SkillAccess
  import X = SkillExecution
  import L = ExecutionLimits
  import T = CloudTasks
  import S = TaskSafety

  // ---------------------------------------------------------------- what a handler has in hand

  /** The task a handler has settled on, if any. */
  function TaskOf(pc: HandlerPc): Option<nat> {
    match pc
    case Gating(staged) => staged
    case Granted(staged, _, _) => staged
    case Staging(task, _, _) => Some(task)
    case Leased(task, _, _, _) => Some(task)
    case Admitting(task, _) => Some(task)
    case Rechecking(task, _, _) => Some(task)
    case Releasing(task, _, _) => Some(task)
    case Discarding(task) => Some(task)
    case _ => None
  }

  /** The reservation a handler holds, from the admission by the execution store until it is passed on or released. */
  function LeaseOf(pc: HandlerPc): Option<nat> {
    match pc
    case Leased(_, r, _, _) => Some(r)
    case Admitting(_, r) => Some(r)
    case Rechecking(_, r, _) => Some(r)
    case Releasing(_, r, _) => Some(r)
    case _ => None
  }

  /** A handler's task is issued, and while it exists it is staged for the same request or admitted. */
  predicate OnTask(s: T.State, h: Handler) {
    TaskOf(h.pc).Some? ==>
      var id := TaskOf(h.pc).value;
      id <= s.taskSeq && (id in s.tasks ==> s.tasks[id].input.Real? || s.tasks[id].input == T.Staged(PlaceholderOf(h.call)))
  }

  predicate Employed(workers: seq<Worker>, id: nat) { exists w :: 0 <= w < |workers| && workers[w].task == id }

  predicate HeldByHandler(handlers: seq<Handler>, r: nat) {
    exists h :: 0 <= h < |handlers| && LeaseOf(handlers[h].pc) == Some(r)
  }

  predicate HeldByWorker(workers: seq<Worker>, r: nat) {
    exists w :: 0 <= w < |workers| && workers[w].reservation == r && workers[w].pc != Done
  }

  predicate Held(s: System, r: nat) { HeldByHandler(s.handlers, r) || HeldByWorker(s.workers, r) }

  ghost predicate HandlersOnTask(s: T.State, handlers: seq<Handler>) {
    forall h :: 0 <= h < |handlers| ==> OnTask(s, handlers[h])
  }

  ghost predicate AdmittedEmployed(s: T.State, workers: seq<Worker>) {
    forall id :: id in s.tasks && s.tasks[id].input.Real? ==> Employed(workers, id)
  }

  ghost predicate NoneLost(s: System) {
    forall r :: 0 <= r < |s.exec.rows| && s.exec.rows[r].releasedAt.None? ==> Held(s, r)
  }

  ghost predicate Inv(s: System) {
    S.Inv(s) && HandlersOnTask(s.tasks, s.handlers) && AdmittedEmployed(s.tasks, s.workers) && NoneLost(s)
  }

  /** What the invariant says of one handler and of the tables. */
  lemma InvMeans(s: System)
    requires Inv(s)
    ensures S.Inv(s) && T.Valid(s.tasks) && HandlersOnTask(s.tasks, s.handlers) && AdmittedEmployed(s.tasks, s.workers) && NoneLost(s)
    ensures forall h :: 0 <= h < |s.handlers| ==> OnTask(s.tasks, s.handlers[h])
  {
  }

  /** What the invariant of the protocol says of one worker. */
  lemma WorkerIsOk(s: System, w: nat)
    requires Inv(s) && w < |s.workers|
    ensures S.WorkerOk(s.tasks, s.exec, s.workers[w])
  {
  }

  // ---------------------------------------------------------------- the task table

  /** No new task, and inputs stay or are admitted. */
  predicate InputsKept(s: T.State, s': T.State, admitted: Option<nat>) {
    && s'.taskSeq == s.taskSeq
    && (forall id :: id in s'.tasks ==> id in s.tasks && (s'.tasks[id].input == s.tasks[id].input || admitted == Some(id)))
    && (forall id :: id in s'.tasks && admitted == Some(id) ==> s'.tasks[id].input.Real?)
  }

  lemma InputsFrame(s: T.State, s': T.State, admitted: Option<nat>, handlers: seq<Handler>, workers: seq<Worker>)
    requires InputsKept(s, s', admitted) && HandlersOnTask(s, handlers) && AdmittedEmployed(s, workers)
    requires admitted.Some? ==> Employed(workers, admitted.value)
    ensures HandlersOnTask(s', handlers) && AdmittedEmployed(s', workers)
  {
    forall h | 0 <= h < |handlers| ensures OnTask(s', handlers[h]) {
      assert OnTask(s, handlers[h]);
    }
  }

  /** A handler moves within its task, or settles on one. */
  lemma HandlerMoves(s: T.State, handlers: seq<Handler>, h: nat, pc: HandlerPc)
    requires HandlersOnTask(s, handlers) && h < |handlers| && OnTask(s, handlers[h].(pc := pc))
    ensures HandlersOnTask(s, handlers[h := handlers[h].(pc := pc)])
  {
  }

  // ---------------------------------------------------------------- who holds what

  /** A handler that keeps or gains a lease leaves every held reservation held. */
  lemma StillHeld(handlers: seq<Handler>, h: nat, pc: HandlerPc, r: nat)
    requires h < |handlers| && HeldByHandler(handlers, r)
    requires LeaseOf(handlers[h].pc) == Some(r) ==> LeaseOf(pc) == Some(r)
    ensures HeldByHandler(handlers[h := handlers[h].(pc := pc)], r)
  {
    var g :| 0 <= g < |handlers| && LeaseOf(handlers[g].pc) == Some(r);
    assert LeaseOf(handlers[h := handlers[h].(pc := pc)][g].pc) == Some(r);
  }

  lemma WorkerStillHeld(workers: seq<Worker>, w: nat, k: Worker, r: nat)
    requires w < |workers| && HeldByWorker(workers, r) && k.reservation == workers[w].reservation
    requires workers[w].reservation == r && workers[w].pc != Done ==> k.pc != Done
    ensures HeldByWorker(workers[w := k], r)
  {
    var g :| 0 <= g < |workers| && workers[g].reservation == r && workers[g].pc != Done;
    assert workers[w := k][g].reservation == r && workers[w := k][g].pc != Done;
  }

  lemma WorkersGrow(workers: seq<Worker>, k: Worker, r: nat)
    requires HeldByWorker(workers, r)
    ensures HeldByWorker(workers + [k], r)
  {
    var g :| 0 <= g < |workers| && workers[g].reservation == r && workers[g].pc != Done;
    assert (workers + [k])[g] == workers[g];
  }

  /** Rows that are open afterwards were open before, apart from one that `r` names. */
  predicate OpenOnly(x: X.State, x': X.State, r: Option<nat>) {
    forall i :: 0 <= i < |x'.rows| && x'.rows[i].releasedAt.None? ==>
      (i < |x.rows| && x.rows[i].releasedAt.None?) || r == Some(i)
  }

  lemma HistoryOpens(x: X.State, x': X.State)
    requires L.HistoryKept(x.rows, x'.rows) && |x'.rows| == |x.rows|
    ensures OpenOnly(x, x', None)
  {
  }

  // ---------------------------------------------------------------- handler steps

  lemma ReserveOpens(x: X.State, q: X.Request)
    requires L.Indexed(x)
    ensures var (x', o) := X.Reserve(x, q);
            OpenOnly(x, x', if o.Admitted? && o.id < |x'.rows| then Some(o.id) else None)
  {
    hide X.Refusal, X.ChosenSubscription, X.SameBinding, X.NewRow, X.WellFormed;
  }

  /** The step leaves every reservation but `gone` with its holders. */
  lemma HandlerKeepsLeases(s: System, s': System, h: nat, pc: HandlerPc, gone: Option<nat>)
    requires NoneLost(s) && h < |s.handlers| && s'.handlers == s.handlers[h := s.handlers[h].(pc := pc)] && s'.workers == s.workers
    requires OpenOnly(s.exec, s'.exec, LeaseOf(pc))
    requires LeaseOf(s.handlers[h].pc) == None || LeaseOf(pc) == LeaseOf(s.handlers[h].pc) || gone == LeaseOf(s.handlers[h].pc)
    requires gone.Some? ==> HeldByWorker(s.workers, gone.value) || (gone.value < |s'.exec.rows| && s'.exec.rows[gone.value].releasedAt.Some?)
    ensures NoneLost(s')
  {
    forall r | 0 <= r < |s'.exec.rows| && s'.exec.rows[r].releasedAt.None? ensures Held(s', r) {
      if LeaseOf(pc) == Some(r) {
        assert LeaseOf(s'.handlers[h].pc) == Some(r);
      } else if HeldByHandler(s.handlers, r) && LeaseOf(s.handlers[h].pc) != Some(r) {
        StillHeld(s.handlers, h, pc, r);
      } else {
        assert Held(s, r);
      }
    }
  }

  /** A handler that finds its task admitted leaves the lease to that task's worker: it is the same reservation. */
  lemma WorkerHasIt(s: System, h: nat)
    requires Inv(s) && h < |s.handlers| && s.handlers[h].pc.Rechecking?
    requires var id := s.handlers[h].pc.task; id in s.tasks.tasks && s.tasks.tasks[id].input.Real?
    ensures var r := s.handlers[h].pc.reservation;
            r < |s.exec.rows| && (HeldByWorker(s.workers, r) || s.exec.rows[r].releasedAt.Some?)
  {
    var id, r := s.handlers[h].pc.task, s.handlers[h].pc.reservation;
    assert S.HandlerOk(s.exec, s.handlers[h]);
    assert Employed(s.workers, id);
    var w :| 0 <= w < |s.workers| && s.workers[w].task == id;
    assert S.WorkerOk(s.tasks, s.exec, s.workers[w]);
    L.OneRowPerTask(s.exec, r, s.workers[w].reservation);
  }

  /** A handler that releases its reservation leaves it released. */
  lemma ReleasingReleases(s: System, h: nat, now: int)
    requires S.Inv(s) && h < |s.handlers| && s.handlers[h].pc.Releasing?
    ensures var r, s' := s.handlers[h].pc.reservation, HandleStep(s, h, now, false, {});
            && OpenOnly(s.exec, s'.exec, None) && r < |s'.exec.rows| && s'.exec.rows[r].releasedAt.Some?
  {
    var c, pc := s.handlers[h].call, s.handlers[h].pc;
    var q := HandlerRelease(c, pc.task, pc.reservation, now);
    assert S.HandlerOk(s.exec, s.handlers[h]);
    S.ReleaseTakesEffect(s.exec, q);
    L.StepKeepsHistory(s.exec, L.ReleaseOp(q));
    HistoryOpens(s.exec, X.Release(s.exec, q).0);
  }

  lemma StagingKeeps(s: System, h: nat, now: int)
    requires Inv(s) && h < |s.handlers| && s.handlers[h].pc.Staging?
    ensures var s' := HandleStep(s, h, now, false, {});
            HandlersOnTask(s'.tasks, s'.handlers) && AdmittedEmployed(s'.tasks, s'.workers) && NoneLost(s')
  {
    var c, pc := s.handlers[h].call, s.handlers[h].pc;
    var s' := HandleStep(s, h, now, false, {});
    assert L.Indexed(s.exec);
    hide S.Inv, L.Indexed, X.Reserve, NoneLost;
    assert OnTask(s.tasks, s.handlers[h]);
    HandlerMoves(s.tasks, s.handlers, h, s'.handlers[h].pc);
    ReserveOpens(s.exec, ReserveRequest(c, pc.task, pc.planId, pc.subscriptionId, now));
    HandlerKeepsLeases(s, s', h, s'.handlers[h].pc, None);
  }

  /** Staging a task adds it behind all issued numbers. */
  lemma CreationKeeps(s: System, h: nat, now: int)
    requires Inv(s) && h < |s.handlers| && s.handlers[h].pc.Granted? && s.handlers[h].pc.staged.None?
    ensures var s' := HandleStep(s, h, now, false, {});
            HandlersOnTask(s'.tasks, s'.handlers) && AdmittedEmployed(s'.tasks, s'.workers) && NoneLost(s')
  {
    hide Inv, S.Inv, T.Valid, T.Create, NoneLost, HandlersOnTask, AdmittedEmployed;
    InvMeans(s);
    var c := s.handlers[h].call;
    var (tasks, created) := T.Create(s.tasks, c.key, "skill.execute", T.Staged(PlaceholderOf(c)), Some(c.fingerprint), now);
    CreatedFits(s.tasks, s.handlers, s.workers, c, now);
    var s' := HandleStep(s, h, now, false, {});
    assert s'.exec == s.exec && OpenOnly(s.exec, s.exec, None) by { SameExec(s.exec); }
    HandlerMoves(tasks, s.handlers, h, s'.handlers[h].pc);
    HandlerKeepsLeases(s, s', h, s'.handlers[h].pc, None);
  }

  lemma CreatedFits(s: T.State, handlers: seq<Handler>, workers: seq<Worker>, c: Call, now: int)
    requires T.Valid(s) && HandlersOnTask(s, handlers) && AdmittedEmployed(s, workers)
    ensures var (s', created) := T.Create(s, c.key, "skill.execute", T.Staged(PlaceholderOf(c)), Some(c.fingerprint), now);
            && HandlersOnTask(s', handlers) && AdmittedEmployed(s', workers)
            && (created.Fresh? ==> created.id == s'.taskSeq && created.id in s'.tasks && s'.tasks[created.id].input == T.Staged(PlaceholderOf(c)))
            && (created.Existing? ==> created.id in s'.tasks && created.id <= s'.taskSeq)
  {
    var (s', created) := T.Create(s, c.key, "skill.execute", T.Staged(PlaceholderOf(c)), Some(c.fingerprint), now);
    assert forall id :: id in s.tasks ==> id <= s.taskSeq;
    forall h | 0 <= h < |handlers| ensures OnTask(s', handlers[h]) {
      assert OnTask(s, handlers[h]);
    }
  }

  /** The winner hands its reservation to the new worker. */
  lemma HandedOver(s: System, s': System, h: nat, k: Worker)
    requires NoneLost(s) && h < |s.handlers| && s.handlers[h].pc.Admitting? && s'.exec == s.exec
    requires s'.handlers == s.handlers[h := s.handlers[h].(pc := Replied)] && s'.workers == s.workers + [k]
    requires k.reservation == s.handlers[h].pc.reservation && k.pc == Claiming
    ensures NoneLost(s')
  {
    forall r | 0 <= r < |s'.exec.rows| && s'.exec.rows[r].releasedAt.None? ensures Held(s', r) {
      assert Held(s, r);
      if r == k.reservation {
        assert s'.workers[|s.workers|].reservation == r;
      } else if HeldByHandler(s.handlers, r) {
        StillHeld(s.handlers, h, Replied, r);
      } else {
        WorkersGrow(s.workers, k, r);
      }
    }
  }

  lemma EmployedGrows(s: T.State, workers: seq<Worker>, k: Worker)
    requires AdmittedEmployed(s, workers)
    ensures AdmittedEmployed(s, workers + [k]) && Employed(workers + [k], k.task)
  {
    assert (workers + [k])[|workers|] == k;
    forall id | Employed(workers, id) ensures Employed(workers + [k], id) {
      var w :| 0 <= w < |workers| && workers[w].task == id;
      assert (workers + [k])[w] == workers[w];
    }
  }

  lemma AdmittedInputs(s: T.State, id: nat, p: T.Placeholder, text: string, now: int)
    ensures InputsKept(s, T.Admit(s, id, p, text, now), Some(id)) || !T.AwaitsAdmission(s, id, p)
  {
  }

  lemma AdmissionKeeps(s: System, h: nat, now: int)
    requires Inv(s) && h < |s.handlers| && s.handlers[h].pc.Admitting?
    requires T.AwaitsAdmission(s.tasks, s.handlers[h].pc.task, PlaceholderOf(s.handlers[h].call))
    ensures var s' := HandleStep(s, h, now, false, {});
            HandlersOnTask(s'.tasks, s'.handlers) && AdmittedEmployed(s'.tasks, s'.workers) && NoneLost(s')
  {
    hide Inv, S.Inv, T.Valid, NoneLost, AdmittedEmployed, InputsKept, T.AwaitsAdmission, T.Admit, HandlersOnTask;
    InvMeans(s);
    var c, pc := s.handlers[h].call, s.handlers[h].pc;
    var s' := HandleStep(s, h, now, false, {});
    var k := s'.workers[|s.workers|];
    AdmittedInputs(s.tasks, pc.task, PlaceholderOf(c), c.input, now);
    EmployedGrows(s.tasks, s.workers, k);
    HandlerMoves(s.tasks, s.handlers, h, Replied);
    InputsFrame(s.tasks, s'.tasks, Some(pc.task), s'.handlers, s'.workers);
    HandedOver(s, s', h, k);
  }

  /** Steps in which a handler only reads. */
  lemma ReadingKeeps(s: System, h: nat, pc: HandlerPc)
    requires Inv(s) && h < |s.handlers| && OnTask(s.tasks, s.handlers[h].(pc := pc))
    requires LeaseOf(pc) == LeaseOf(s.handlers[h].pc)
    ensures var s' := SetPc(s, h, pc);
            HandlersOnTask(s'.tasks, s'.handlers) && AdmittedEmployed(s'.tasks, s'.workers) && NoneLost(s')
  {
    hide S.Inv;
    HandlerMoves(s.tasks, s.handlers, h, pc);
    assert OpenOnly(s.exec, s.exec, LeaseOf(pc));
    hide NoneLost;
    HandlerKeepsLeases(s, SetPc(s, h, pc), h, pc, None);
  }

  lemma RecheckKeeps(s: System, h: nat, now: int)
    requires Inv(s) && h < |s.handlers| && s.handlers[h].pc.Rechecking?
    ensures var s' := HandleStep(s, h, now, false, {});
            HandlersOnTask(s'.tasks, s'.handlers) && AdmittedEmployed(s'.tasks, s'.workers) && NoneLost(s')
  {
    var pc, s' := s.handlers[h].pc, HandleStep(s, h, now, false, {});
    assert OnTask(s.tasks, s.handlers[h]);
    if s'.handlers[h].pc == Replied {
      WorkerHasIt(s, h);
      hide S.Inv;
      HandlerMoves(s.tasks, s.handlers, h, Replied);
      assert OpenOnly(s.exec, s.exec, None);
      hide NoneLost;
      HandlerKeepsLeases(s, s', h, Replied, Some(pc.reservation));
    } else {
      ReadingKeeps(s, h, s'.handlers[h].pc);
    }
  }

  lemma ReleasingKeeps(s: System, h: nat, now: int)
    requires Inv(s) && h < |s.handlers| && s.handlers[h].pc.Releasing?
    ensures var s' := HandleStep(s, h, now, false, {});
            HandlersOnTask(s'.tasks, s'.handlers) && AdmittedEmployed(s'.tasks, s'.workers) && NoneLost(s')
  {
    var pc, s' := s.handlers[h].pc, HandleStep(s, h, now, false, {});
    assert OnTask(s.tasks, s.handlers[h]);
    ReleasingReleases(s, h, now);
    hide S.Inv, NoneLost, X.Release;
    HandlerMoves(s.tasks, s.handlers, h, s'.handlers[h].pc);
    HandlerKeepsLeases(s, s', h, s'.handlers[h].pc, Some(pc.reservation));
  }

  lemma DiscardKeeps(s: System, h: nat, now: int)
    requires Inv(s) && h < |s.handlers| && s.handlers[h].pc.Discarding?
    ensures var s' := HandleStep(s, h, now, false, {});
            HandlersOnTask(s'.tasks, s'.handlers) && AdmittedEmployed(s'.tasks, s'.workers) && NoneLost(s')
  {
    var s' := HandleStep(s, h, now, false, {});
    ReadingKeeps(s, h, Replied);
    hide S.Inv;
    assert InputsKept(s.tasks, s'.tasks, None);
    hide T.Discard;
    InputsFrame(s.tasks, s'.tasks, None, s'.handlers, s.workers);
    assert forall r :: Held(SetPc(s, h, Replied), r) == Held(s', r);
  }

  lemma TasksNumbered(s: T.State)
    requires T.Valid(s)
    ensures T.Numbered(s.tasks, s.fingerprints, s.taskSeq)
  {
  }

  lemma HandleKeeps(s: System, h: nat, now: int, refuse: bool, allowed: set<string>)
    requires Inv(s) && h < |s.handlers|
    ensures var s' := HandleStep(s, h, now, refuse, allowed);
            HandlersOnTask(s'.tasks, s'.handlers) && AdmittedEmployed(s'.tasks, s'.workers) && NoneLost(s')
  {
    hide Inv, S.Inv, T.Valid, HandlersOnTask, AdmittedEmployed, NoneLost, X.Reserve, X.Release, T.Create, T.Admit, T.Discard, A.Resolve;
    InvMeans(s);
    TasksNumbered(s.tasks);
    var s' := HandleStep(s, h, now, refuse, allowed);
    match s.handlers[h].pc {
      case Granted(None, _, _) => CreationKeeps(s, h, now);
      case Staging(_, _, _) => StagingKeeps(s, h, now);
      case Admitting(task, reservation) =>
        if T.AwaitsAdmission(s.tasks, task, PlaceholderOf(s.handlers[h].call)) { AdmissionKeeps(s, h, now); }
        else { ReadingKeeps(s, h, s'.handlers[h].pc); }
      case Rechecking(_, _, _) => RecheckKeeps(s, h, now);
      case Releasing(_, _, _) => ReleasingKeeps(s, h, now);
      case Discarding(_) => DiscardKeeps(s, h, now);
      case Replied =>
      case _ => ReadingKeeps(s, h, s'.handlers[h].pc);
    }
  }

  // ---------------------------------------------------------------- workers and cancellers

  /** A worker's step that keeps its reservation, or has released it. */
  lemma WorkerKeeps(s: System, s': System, w: nat, k: Worker)
    requires Inv(s) && w < |s.workers| && s'.workers == s.workers[w := k] && s'.handlers == s.handlers
    requires k.task == s.workers[w].task && k.reservation == s.workers[w].reservation
    requires InputsKept(s.tasks, s'.tasks, None) && OpenOnly(s.exec, s'.exec, None)
    requires k.pc == Done ==> k.reservation < |s'.exec.rows| && s'.exec.rows[k.reservation].releasedAt.Some?
    ensures HandlersOnTask(s'.tasks, s'.handlers) && AdmittedEmployed(s'.tasks, s'.workers) && NoneLost(s')
  {
    hide S.Inv;
    forall id | Employed(s.workers, id) ensures Employed(s'.workers, id) {
      var g :| 0 <= g < |s.workers| && s.workers[g].task == id;
      assert s'.workers[g].task == id;
    }
    assert AdmittedEmployed(s.tasks, s'.workers);
    InputsFrame(s.tasks, s'.tasks, None, s'.handlers, s'.workers);
    forall r | 0 <= r < |s'.exec.rows| && s'.exec.rows[r].releasedAt.None? ensures Held(s', r) {
      assert Held(s, r);
      if HeldByWorker(s.workers, r) {
        WorkerStillHeld(s.workers, w, k, r);
      }
    }
  }

  /** Claims and transitions leave every input alone. */
  lemma InputsAfter(s: T.State, id: nat, expected: set<T.Status>, status: T.Status, patch: T.Patch, now: int)
    ensures InputsKept(s, s, None)
    ensures InputsKept(s, T.Claim(s, id, now), None)
    ensures InputsKept(s, T.TransitionIf(s, id, expected, status, patch, now), None)
  {
    hide InputsKept, T.Claim, T.TransitionIf;
    SameInputs(s);
    ClaimInputs(s, id, now);
    TransitionInputs(s, id, expected, status, patch, now);
  }

  lemma SameInputs(s: T.State)
    ensures InputsKept(s, s, None)
  {
  }

  lemma ClaimInputs(s: T.State, id: nat, now: int)
    ensures InputsKept(s, T.Claim(s, id, now), None)
  {
  }

  lemma TransitionInputs(s: T.State, id: nat, expected: set<T.Status>, status: T.Status, patch: T.Patch, now: int)
    ensures InputsKept(s, T.TransitionIf(s, id, expected, status, patch, now), None)
  {
  }

  lemma SameExec(x: X.State)
    ensures OpenOnly(x, x, None)
  {
  }

  lemma ReleaseKeepsLength(x: X.State, q: X.ReleaseRequest)
    ensures |X.Release(x, q).0.rows| == |x.rows|
  {
  }

  lemma QuitKeeps(s: System, w: nat, now: int)
    requires Inv(s) && w < |s.workers|
    ensures var s' := QuitStep(s, w, now);
            HandlersOnTask(s'.tasks, s'.handlers) && AdmittedEmployed(s'.tasks, s'.workers) && NoneLost(s')
  {
    hide Inv, X.Release, TaskName, HandlersOnTask, AdmittedEmployed, NoneLost, InputsKept, OpenOnly;
    InvMeans(s);
    var k, s' := s.workers[w], QuitStep(s, w, now);
    if k.pc == Quitting {
      var q := X.ReleaseRequest(Some(k.reservation), Some(TaskName(k.task)), Some(k.userId), Some(k.tenantId), Some(now));
      WorkerIsOk(s, w);
      hide S.Inv;
      S.ReleaseTakesEffect(s.exec, q);
      L.StepKeepsHistory(s.exec, L.ReleaseOp(q));
      ReleaseKeepsLength(s.exec, q);
      HistoryOpens(s.exec, s'.exec);
      SameInputs(s.tasks);
      WorkerKeeps(s, s', w, k.(pc := Done));
    }
  }

  lemma WorkKeeps(s: System, step: Step)
    requires Inv(s) && (step.Look? || step.Claim? || step.Finish?)
    ensures var s' := Next(s, step);
            HandlersOnTask(s'.tasks, s'.handlers) && AdmittedEmployed(s'.tasks, s'.workers) && NoneLost(s')
  {
    hide S.Inv, HandlersOnTask, AdmittedEmployed, NoneLost, T.Claim, T.TransitionIf, InputsKept, OpenOnly;
    var s', w := Next(s, step), step.worker;
    if s' != s {
      var id := s.workers[w].task;
      if step.Claim? { InputsAfter(s.tasks, id, {}, T.Running, T.Patch(None, None), step.now); }
      if step.Finish? { InputsAfter(s.tasks, id, {T.Running}, EndStatus(step.ending), EndPatch(step.ending), step.now); }
      InputsAfter(s.tasks, id, {}, T.Running, T.Patch(None, None), 0);
      SameExec(s.exec);
      WorkerKeeps(s, s', w, s'.workers[w]);
    }
  }

  lemma FreeingOpens(x: X.State, q: X.ReleaseRequest)
    ensures OpenOnly(x, X.Release(x, q).0, None)
  {
    L.StepKeepsHistory(x, L.ReleaseOp(q));
    HistoryOpens(x, X.Release(x, q).0);
  }

  lemma StillOpen(x: X.State, x': X.State, r: nat)
    requires OpenOnly(x, x', None) && r < |x'.rows| && x'.rows[r].releasedAt.None?
    ensures r < |x.rows| && x.rows[r].releasedAt.None?
  {
  }

  lemma CancelKeeps(s: System, c: nat, now: int)
    requires Inv(s) && c < |s.cancellers|
    ensures var s' := CancelStep(s, c, now);
            HandlersOnTask(s'.tasks, s'.handlers) && AdmittedEmployed(s'.tasks, s'.workers) && NoneLost(s')
  {
    hide S.Inv, T.TransitionIf, X.Release, InputsKept, OpenOnly, HandlersOnTask;
    var k, s' := s.cancellers[c], CancelStep(s, c, now);
    InputsAfter(s.tasks, k.task, {T.Pending, T.Running}, T.Cancelled, T.Patch(None, None), now);
    SameExec(s.exec);
    FreeingOpens(s.exec, X.ReleaseRequest(None, Some(TaskName(k.task)), k.userId, Some(k.tenantId), Some(now)));
    assert |s'.workers| == |s.workers| && forall i :: 0 <= i < |s.workers| ==>
             s'.workers[i].task == s.workers[i].task && s'.workers[i].reservation == s.workers[i].reservation && s'.workers[i].pc == s.workers[i].pc;
    forall id | Employed(s.workers, id) ensures Employed(s'.workers, id) {
      var g :| 0 <= g < |s.workers| && s.workers[g].task == id;
      assert s'.workers[g].task == id;
    }
    assert AdmittedEmployed(s.tasks, s'.workers);
    InputsFrame(s.tasks, s'.tasks, None, s'.handlers, s'.workers);
    forall r | 0 <= r < |s'.exec.rows| && s'.exec.rows[r].releasedAt.None? ensures Held(s', r) {
      StillOpen(s.exec, s'.exec, r);
      assert Held(s, r);
      if HeldByWorker(s.workers, r) {
        var g :| 0 <= g < |s.workers| && s.workers[g].reservation == r && s.workers[g].pc != Done;
        assert s'.workers[g].reservation == r && s'.workers[g].pc != Done;
      }
    }
  }

  lemma ArrivalKeeps(s: System, h: Handler)
    requires Inv(s) && h.pc == Arrived
    ensures var s' := s.(handlers := s.handlers + [h]);
            HandlersOnTask(s'.tasks, s'.handlers) && AdmittedEmployed(s'.tasks, s'.workers) && NoneLost(s')
  {
    hide S.Inv;
    var s' := s.(handlers := s.handlers + [h]);
    forall r: nat | Held(s, r) ensures Held(s', r) {
      if HeldByHandler(s.handlers, r) {
        var g :| 0 <= g < |s.handlers| && LeaseOf(s.handlers[g].pc) == Some(r);
        assert LeaseOf(s'.handlers[g].pc) == Some(r);
      }
    }
  }

  lemma NextKeepsInv(s: System, step: Step)
    requires Inv(s)
    ensures Inv(Next(s, step))
  {
    S.NextKeepsInv(s, step);
    hide S.Inv, HandlersOnTask, AdmittedEmployed, HandleStep, LookStep, ClaimStep, FinishStep, QuitStep, CancelStep;
    match step {
      case Handle(h, now, refuse, allowed) => if h < |s.handlers| { HandleKeeps(s, h, now, refuse, allowed); }
      case Quit(w, now) => if w < |s.workers| { QuitKeeps(s, w, now); }
      case StepCancel(c, now) => if c < |s.cancellers| { CancelKeeps(s, c, now); }
      case Arrive(call) => ArrivalKeeps(s, Handler(call, Arrived));
      case AskCancel(_, _, _) => assert forall r :: Held(Next(s, step), r) == Held(s, r);
      case ChangeAccess(_) => assert forall r :: Held(Next(s, step), r) == Held(s, r);
      case _ => WorkKeeps(s, step);
    }
  }

  lemma {:induction false} RunKeepsInv(s: System, steps: seq<Step>)
    requires Inv(s)
    ensures Inv(Run(s, steps))
    decreases |steps|
  {
    hide Inv, Next;
    if steps != [] {
      NextKeepsInv(s, steps[0]);
      RunKeepsInv(Next(s, steps[0]), steps[1..]);
    }
  }

  // ---------------------------------------------------------------- main result

  /**
   * In every reachable state an open reservation is held by a handler still on its way or by a worker that has
   * not finished; so once every handler has replied and every worker is done, every reservation is released.
   */
  lemma NoLeaseIsLost(access: A.State, steps: seq<Step>, r: nat)
    requires r < |Run(Start(access), steps).exec.rows| && Run(Start(access), steps).exec.rows[r].releasedAt.None?
    ensures var s := Run(Start(access), steps);
            || (exists h :: 0 <= h < |s.handlers| && LeaseOf(s.handlers[h].pc) == Some(r))
            || (exists w :: 0 <= w < |s.workers| && s.workers[w].reservation == r && s.workers[w].pc != Done)
  {
    S.StartInv(access);
    RunKeepsInv(Start(access), steps);
    assert Held(Run(Start(access), steps), r);
  }

  /** In every reachable state an admitted task has a worker, so no admission is forgotten. */
  lemma AdmittedHasWorker(access: A.State, steps: seq<Step>, id: nat)
    requires var t := Run(Start(access), steps).tasks.tasks; id in t && t[id].input.Real?
    ensures exists w :: 0 <= w < |Run(Start(access), steps).workers| && Run(Start(access), steps).workers[w].task == id
  {
    S.StartInv(access);
    RunKeepsInv(Start(access), steps);
    assert Employed(Run(Start(access), steps).workers, id);
  }
}
