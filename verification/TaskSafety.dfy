/** Safety of the task protocol over every interleaving. */
module TaskSafety {
  import opened Prelude
  import opened TaskProtocol
  import A = SkillAccess
  import X = SkillExecution
  import L = ExecutionLimits
  import T = CloudTasks

  // ---------------------------------------------------------------- what one store step keeps

  /** A terminal task and its log are frozen. */
  predicate Frozen(s: T.State, s': T.State, id: nat) {
    id in s.tasks && id in s.events && T.Terminal(s.tasks[id].status) ==>
      id in s'.tasks && id in s'.events && s'.tasks[id] == s.tasks[id] && s'.events[id] == s.events[id]
  }

  /** An admitted task keeps its place and its input. */
  predicate Admitted(s: T.State, id: nat) {
    id in s.tasks && s.tasks[id].input.Real?
  }

  predicate StaysAdmitted(s: T.State, s': T.State, id: nat) {
    Admitted(s, id) ==> id in s'.tasks && s'.tasks[id].input == s.tasks[id].input
  }

  /** The task's status is unchanged or has become terminal. */
  predicate Settles(s: T.State, s': T.State, id: nat) {
    Admitted(s, id) ==>
      && StaysAdmitted(s, s', id)
      && (s'.tasks[id].status == s.tasks[id].status || T.Terminal(s'.tasks[id].status))
  }

  ghost predicate Calm(s: T.State, s': T.State) {
    forall id: nat :: Frozen(s, s', id) && Settles(s, s', id)
  }

  lemma CreateCalm(s: T.State, key: T.Key, kind: string, input: T.Input, fingerprint: Option<string>, now: int)
    requires T.Valid(s)
    ensures Calm(s, T.Create(s, key, kind, input, fingerprint, now).0)
  {
  }

  lemma DiscardCalm(s: T.State, task: nat, p: T.Placeholder)
    ensures Calm(s, T.Discard(s, task, p))
  {
  }

  lemma AdmitCalm(s: T.State, task: nat, p: T.Placeholder, text: string, now: int)
    ensures Calm(s, T.Admit(s, task, p, text, now))
  {
  }

  lemma CancelCalm(s: T.State, task: nat, now: int)
    ensures Calm(s, T.Cancel(s, task, now))
  {
  }

  lemma CompleteCalm(s: T.State, task: nat, status: T.Status, patch: T.Patch, now: int)
    requires status in {T.Succeeded, T.Failed, T.TimedOut}
    ensures Calm(s, T.Complete(s, task, status, patch, now))
  {
  }

  /** A claim is calm for every task but the one claimed, which goes from pending to running. */
  lemma ClaimEffect(s: T.State, task: nat, now: int)
    ensures forall id: nat :: Frozen(s, T.Claim(s, task, now), id) && StaysAdmitted(s, T.Claim(s, task, now), id)
    ensures forall id: nat :: id != task ==> Settles(s, T.Claim(s, task, now), id)
  {
  }

  // ---------------------------------------------------------------- invariant

  predicate Matches(x: X.State, reservation: nat, task: nat, userId: string, tenantId: string) {
    && reservation < |x.rows|
    && x.rows[reservation].taskId == TaskName(task)
    && x.rows[reservation].userId == userId && x.rows[reservation].tenantId == tenantId
  }

  predicate Stopped(s: T.State, task: nat) {
    task in s.tasks && T.Terminal(s.tasks[task].status)
  }

  predicate WorkerOk(s: T.State, x: X.State, w: Worker) {
    && Admitted(s, w.task)
    && Matches(x, w.reservation, w.task, w.userId, w.tenantId)
    && (w.pc == Claiming ==> s.tasks[w.task].status == T.Pending || Stopped(s, w.task))
    && (w.pc == Working ==> s.tasks[w.task].status == T.Running || Stopped(s, w.task))
    && (w.pc == Quitting || w.pc == Done || w.aborted ==> Stopped(s, w.task))
    && (w.pc == Done ==> x.rows[w.reservation].releasedAt.Some?)
  }

  predicate HandlerOk(x: X.State, h: Handler) {
    match h.pc
    case Leased(task, reservation, _, _) => Matches(x, reservation, task, h.call.userId, h.call.key.owner.tenantId)
    case Admitting(task, reservation) => Matches(x, reservation, task, h.call.userId, h.call.key.owner.tenantId)
    case Rechecking(task, reservation, _) => Matches(x, reservation, task, h.call.userId, h.call.key.owner.tenantId)
    case Releasing(task, reservation, _) => Matches(x, reservation, task, h.call.userId, h.call.key.owner.tenantId)
    case _ => true
  }

  predicate CancellerOk(s: T.State, c: Canceller) {
    c.pc == Aborting ==> Stopped(s, c.task)
  }

  ghost predicate WorkersOk(s: T.State, x: X.State, workers: seq<Worker>) {
    && (forall i :: 0 <= i < |workers| ==> WorkerOk(s, x, workers[i]))
    && (forall i, j :: 0 <= i < j < |workers| ==> workers[i].task != workers[j].task)
  }

  ghost predicate HandlersOk(x: X.State, handlers: seq<Handler>) {
    forall i :: 0 <= i < |handlers| ==> HandlerOk(x, handlers[i])
  }

  ghost predicate CancellersOk(s: T.State, cancellers: seq<Canceller>) {
    forall i :: 0 <= i < |cancellers| ==> CancellerOk(s, cancellers[i])
  }

  ghost predicate Inv(s: System) {
    && T.Valid(s.tasks)
    && L.Indexed(s.exec)
    && WorkersOk(s.tasks, s.exec, s.workers)
    && HandlersOk(s.exec, s.handlers)
    && CancellersOk(s.tasks, s.cancellers)
  }

  // ---------------------------------------------------------------- frames

  lemma WorkersFrame(s: T.State, x: X.State, s': T.State, x': X.State, workers: seq<Worker>)
    requires WorkersOk(s, x, workers) && Calm(s, s') && L.HistoryKept(x.rows, x'.rows)
    ensures WorkersOk(s', x', workers)
  {
    forall i | 0 <= i < |workers| ensures WorkerOk(s', x', workers[i]) {
      var w := workers[i];
      assert WorkerOk(s, x, w);
      assert Settles(s, s', w.task) && Frozen(s, s', w.task);
      MatchesFrame(x, x', w.reservation, w.task, w.userId, w.tenantId);
    }
  }

  lemma MatchesFrame(x: X.State, x': X.State, reservation: nat, task: nat, userId: string, tenantId: string)
    requires Matches(x, reservation, task, userId, tenantId) && L.HistoryKept(x.rows, x'.rows)
    ensures Matches(x', reservation, task, userId, tenantId)
    ensures x.rows[reservation].releasedAt.Some? ==> x'.rows[reservation].releasedAt.Some?
  {
    assert x'.rows[reservation].(releasedAt := x.rows[reservation].releasedAt) == x.rows[reservation];
  }

  lemma HandlersFrame(x: X.State, x': X.State, handlers: seq<Handler>)
    requires HandlersOk(x, handlers) && L.HistoryKept(x.rows, x'.rows)
    ensures HandlersOk(x', handlers)
  {
    forall i | 0 <= i < |handlers| ensures HandlerOk(x', handlers[i]) {
      var h := handlers[i];
      assert HandlerOk(x, h);
      if h.pc.Leased? || h.pc.Admitting? || h.pc.Rechecking? || h.pc.Releasing? {
        MatchesFrame(x, x', h.pc.reservation, h.pc.task, h.call.userId, h.call.key.owner.tenantId);
      }
    }
  }

  lemma CancellersFrame(s: T.State, s': T.State, cancellers: seq<Canceller>)
    requires CancellersOk(s, cancellers) && forall id: nat :: Frozen(s, s', id)
    requires T.Valid(s)
    ensures CancellersOk(s', cancellers)
  {
    forall i | 0 <= i < |cancellers| ensures CancellerOk(s', cancellers[i]) {
      assert CancellerOk(s, cancellers[i]);
      assert Frozen(s, s', cancellers[i].task);
    }
  }

  // ---------------------------------------------------------------- each party keeps the invariant

  lemma HandlerMoves(x: X.State, handlers: seq<Handler>, h: nat, pc: HandlerPc)
    requires HandlersOk(x, handlers) && h < |handlers| && HandlerOk(x, handlers[h].(pc := pc))
    ensures HandlersOk(x, handlers[h := handlers[h].(pc := pc)])
  {
  }

  /** A handler changed only its own position and the task table, calmly. */
  lemma TaskMove(s: System, s': System, h: nat, pc: HandlerPc)
    requires Inv(s) && h < |s.handlers| && HandlerOk(s.exec, s.handlers[h].(pc := pc))
    requires T.Valid(s'.tasks) && Calm(s.tasks, s'.tasks)
    requires s' == SetPc(s, h, pc).(tasks := s'.tasks)
    ensures Inv(s')
  {
    HandlerMoves(s.exec, s.handlers, h, pc);
    WorkersFrame(s.tasks, s.exec, s'.tasks, s.exec, s.workers);
    CancellersFrame(s.tasks, s'.tasks, s.cancellers);
  }

  /** A handler changed only its own position and the execution store. */
  lemma ExecMove(s: System, s': System, h: nat, pc: HandlerPc)
    requires Inv(s) && h < |s.handlers| && HandlerOk(s'.exec, s.handlers[h].(pc := pc))
    requires L.Indexed(s'.exec) && L.HistoryKept(s.exec.rows, s'.exec.rows)
    requires s' == SetPc(s, h, pc).(exec := s'.exec)
    ensures Inv(s')
  {
    HandlersFrame(s.exec, s'.exec, s.handlers);
    HandlerMoves(s'.exec, s.handlers, h, pc);
    assert Calm(s.tasks, s.tasks);
    WorkersFrame(s.tasks, s.exec, s.tasks, s'.exec, s.workers);
  }

  /** The winner of the placeholder compare-and-set starts the only worker of that task. */
  lemma AdmissionKeepsInv(s: System, h: nat, now: int)
    requires Inv(s) && h < |s.handlers| && s.handlers[h].pc.Admitting?
    requires T.AwaitsAdmission(s.tasks, s.handlers[h].pc.task, PlaceholderOf(s.handlers[h].call))
    ensures Inv(HandleStep(s, h, now, false, {}))
  {
    hide T.Valid, L.Indexed;
    var c, pc := s.handlers[h].call, s.handlers[h].pc;
    var s' := HandleStep(s, h, now, false, {});
    T.AdmitKeepsValid(s.tasks, pc.task, PlaceholderOf(c), c.input, now);
    AdmitCalm(s.tasks, pc.task, PlaceholderOf(c), c.input, now);
    HandlerMoves(s.exec, s.handlers, h, Replied);
    WorkersFrame(s.tasks, s.exec, s'.tasks, s.exec, s.workers);
    CancellersFrame(s.tasks, s'.tasks, s.cancellers);
    var w := s'.workers[|s.workers|];
    assert HandlerOk(s.exec, s.handlers[h]);
    assert WorkerOk(s'.tasks, s'.exec, w);
    forall i | 0 <= i < |s.workers| ensures s.workers[i].task != w.task {
      assert WorkerOk(s.tasks, s.exec, s.workers[i]);
    }
  }

  lemma StagingKeepsInv(s: System, h: nat, now: int)
    requires Inv(s) && h < |s.handlers| && s.handlers[h].pc.Staging?
    ensures Inv(HandleStep(s, h, now, false, {}))
  {
    var c, pc := s.handlers[h].call, s.handlers[h].pc;
    var s' := HandleStep(s, h, now, false, {});
    var q := ReserveRequest(c, pc.task, pc.planId, pc.subscriptionId, now);
    L.ReserveKeepsIndex(s.exec, q);
    L.StepKeepsHistory(s.exec, L.ReserveOp(q));
    ExecMove(s, s', h, s'.handlers[h].pc);
  }

  lemma CreationKeepsInv(s: System, h: nat, now: int)
    requires Inv(s) && h < |s.handlers| && s.handlers[h].pc.Granted? && s.handlers[h].pc.staged.None?
    ensures Inv(HandleStep(s, h, now, false, {}))
  {
    hide T.Valid, T.Create, L.Indexed, WorkersOk, CancellersOk;
    var c := s.handlers[h].call;
    var s' := HandleStep(s, h, now, false, {});
    T.CreateKeepsValid(s.tasks, c.key, "skill.execute", T.Staged(PlaceholderOf(c)), Some(c.fingerprint), now);
    CreateCalm(s.tasks, c.key, "skill.execute", T.Staged(PlaceholderOf(c)), Some(c.fingerprint), now);
    TaskMove(s, s', h, s'.handlers[h].pc);
  }

  lemma HandleKeepsInv(s: System, h: nat, now: int, refuse: bool, allowed: set<string>)
    requires Inv(s) && h < |s.handlers|
    ensures Inv(HandleStep(s, h, now, refuse, allowed))
  {
    hide T.Valid, T.Create, T.Admit, T.Discard, X.Reserve, X.Release, A.Resolve, L.Indexed;
    var c := s.handlers[h].call;
    var s' := HandleStep(s, h, now, refuse, allowed);
    assert HandlerOk(s.exec, s.handlers[h]);
    match s.handlers[h].pc {
      case Granted(None, _, _) => CreationKeepsInv(s, h, now);
      case Staging(_, _, _) => StagingKeepsInv(s, h, now);
      case Admitting(task, reservation) =>
        if T.AwaitsAdmission(s.tasks, task, PlaceholderOf(c)) {
          AdmissionKeepsInv(s, h, now);
        } else {
          HandlerMoves(s.exec, s.handlers, h, s'.handlers[h].pc);
        }
      case Releasing(task, reservation, _) =>
        L.ReleaseKeepsIndex(s.exec, HandlerRelease(c, task, reservation, now));
        L.StepKeepsHistory(s.exec, L.ReleaseOp(HandlerRelease(c, task, reservation, now)));
        ExecMove(s, s', h, s'.handlers[h].pc);
      case Discarding(task) =>
        T.DiscardKeepsValid(s.tasks, task, PlaceholderOf(c));
        DiscardCalm(s.tasks, task, PlaceholderOf(c));
        TaskMove(s, s', h, Replied);
      case _ => HandlerMoves(s.exec, s.handlers, h, s'.handlers[h].pc);
    }
  }

  lemma WorkerMoves(s: T.State, x: X.State, workers: seq<Worker>, w: nat, k: Worker)
    requires w < |workers| && workers[w].task == k.task
    requires forall i :: 0 <= i < |workers| && i != w ==> WorkerOk(s, x, workers[i])
    requires forall i, j :: 0 <= i < j < |workers| ==> workers[i].task != workers[j].task
    requires WorkerOk(s, x, k)
    ensures WorkersOk(s, x, workers[w := k])
  {
  }

  lemma ClaimKeepsInv(s: System, w: nat, now: int)
    requires Inv(s) && w < |s.workers|
    ensures Inv(ClaimStep(s, w, now))
  {
    hide T.Valid;
    var s' := ClaimStep(s, w, now);
    var k := s.workers[w];
    assert WorkerOk(s.tasks, s.exec, k);
    if k.pc == Claiming {
      if HasStatus(s.tasks, k.task, T.Pending) {
        T.ClaimKeepsValid(s.tasks, k.task, now);
        ClaimEffect(s.tasks, k.task, now);
        assert L.HistoryKept(s.exec.rows, s.exec.rows);
        forall i | 0 <= i < |s.workers| && i != w ensures WorkerOk(s'.tasks, s.exec, s.workers[i]) {
          assert WorkerOk(s.tasks, s.exec, s.workers[i]);
          assert Settles(s.tasks, s'.tasks, s.workers[i].task) && Frozen(s.tasks, s'.tasks, s.workers[i].task);
        }
        CancellersFrame(s.tasks, s'.tasks, s.cancellers);
      }
      WorkerMoves(s'.tasks, s.exec, s.workers, w, s'.workers[w]);
    }
  }

  lemma LookKeepsInv(s: System, w: nat)
    requires Inv(s) && w < |s.workers|
    ensures Inv(LookStep(s, w))
  {
    var s' := LookStep(s, w);
    assert WorkerOk(s.tasks, s.exec, s.workers[w]);
    if s' != s {
      WorkerMoves(s.tasks, s.exec, s.workers, w, s'.workers[w]);
    }
  }

  lemma FinishKeepsInv(s: System, w: nat, ending: Ending, now: int)
    requires Inv(s) && w < |s.workers|
    ensures Inv(FinishStep(s, w, ending, now))
  {
    var s' := FinishStep(s, w, ending, now);
    var k := s.workers[w];
    assert WorkerOk(s.tasks, s.exec, k);
    if k.pc == Working {
      T.CompleteKeepsValid(s.tasks, k.task, EndStatus(ending), EndPatch(ending), now);
      CompleteCalm(s.tasks, k.task, EndStatus(ending), EndPatch(ending), now);
      assert L.HistoryKept(s.exec.rows, s.exec.rows);
      WorkersFrame(s.tasks, s.exec, s'.tasks, s.exec, s.workers);
      CancellersFrame(s.tasks, s'.tasks, s.cancellers);
      assert WorkerOk(s'.tasks, s.exec, k);
      WorkerMoves(s'.tasks, s.exec, s.workers, w, s'.workers[w]);
    }
  }

  /** A release that names the row correctly leaves it released, by whichever release came first. */
  lemma ReleaseTakesEffect(x: X.State, q: X.ReleaseRequest)
    requires q.now.Some? && q.reservation.Some? && q.reservation.value < |x.rows|
    requires X.Names(x.rows[q.reservation.value], q)
    ensures X.Release(x, q).0.rows[q.reservation.value].releasedAt.Some?
  {
  }

  lemma QuitKeepsInv(s: System, w: nat, now: int)
    requires Inv(s) && w < |s.workers|
    ensures Inv(QuitStep(s, w, now))
  {
    var s' := QuitStep(s, w, now);
    var k := s.workers[w];
    assert WorkerOk(s.tasks, s.exec, k);
    if k.pc == Quitting {
      var q := X.ReleaseRequest(Some(k.reservation), Some(TaskName(k.task)), Some(k.userId), Some(k.tenantId), Some(now));
      L.ReleaseKeepsIndex(s.exec, q);
      L.StepKeepsHistory(s.exec, L.ReleaseOp(q));
      ReleaseTakesEffect(s.exec, q);
      assert Calm(s.tasks, s.tasks);
      WorkersFrame(s.tasks, s.exec, s.tasks, s'.exec, s.workers);
      HandlersFrame(s.exec, s'.exec, s.handlers);
      assert WorkerOk(s.tasks, s'.exec, k);
      WorkerMoves(s.tasks, s'.exec, s.workers, w, s'.workers[w]);
    }
  }

  lemma DecideKeepsInv(s: System, c: nat, now: int)
    requires Inv(s) && c < |s.cancellers| && s.cancellers[c].pc == Deciding
    ensures Inv(CancelStep(s, c, now))
  {
    hide T.Valid, L.Indexed, WorkersOk;
    var s' := CancelStep(s, c, now);
    var k := s.cancellers[c];
    T.CancelKeepsValid(s.tasks, k.task, now);
    CancelCalm(s.tasks, k.task, now);
    assert L.HistoryKept(s.exec.rows, s.exec.rows);
    WorkersFrame(s.tasks, s.exec, T.Cancel(s.tasks, k.task, now), s.exec, s.workers);
    CancellersFrame(s.tasks, T.Cancel(s.tasks, k.task, now), s.cancellers);
  }

  /** A canceller that frees the reservation changes only the execution store. */
  lemma FreeKeepsInv(s: System, c: nat, now: int)
    requires Inv(s) && c < |s.cancellers| && s.cancellers[c].pc == Freeing
    ensures Inv(CancelStep(s, c, now))
  {
    var s' := CancelStep(s, c, now);
    var k := s.cancellers[c];
    var q := X.ReleaseRequest(None, Some(TaskName(k.task)), k.userId, Some(k.tenantId), Some(now));
    L.ReleaseKeepsIndex(s.exec, q);
    L.StepKeepsHistory(s.exec, L.ReleaseOp(q));
    assert Calm(s.tasks, s.tasks);
    WorkersFrame(s.tasks, s.exec, s.tasks, s'.exec, s.workers);
    HandlersFrame(s.exec, s'.exec, s.handlers);
  }

  lemma AbortKeepsInv(s: System, c: nat, now: int)
    requires Inv(s) && c < |s.cancellers| && s.cancellers[c].pc == Aborting
    ensures Inv(CancelStep(s, c, now))
  {
    var s' := CancelStep(s, c, now);
    assert CancellerOk(s.tasks, s.cancellers[c]);
    forall i | 0 <= i < |s.workers| ensures WorkerOk(s.tasks, s.exec, s'.workers[i]) {
      assert WorkerOk(s.tasks, s.exec, s.workers[i]);
    }
  }

  lemma CancelKeepsInv(s: System, c: nat, now: int)
    requires Inv(s) && c < |s.cancellers|
    ensures Inv(CancelStep(s, c, now))
  {
    match s.cancellers[c].pc {
      case Deciding => DecideKeepsInv(s, c, now);
      case Aborting => AbortKeepsInv(s, c, now);
      case Freeing => FreeKeepsInv(s, c, now);
      case Finished =>
    }
  }

  lemma ArrivalKeepsInv(s: System, call: Call)
    requires Inv(s)
    ensures Inv(s.(handlers := s.handlers + [Handler(call, Arrived)]))
  {
    hide T.Valid, WorkersOk, CancellersOk, L.Indexed;
  }

  lemma AskKeepsInv(s: System, c: Canceller)
    requires Inv(s) && c.pc == Deciding
    ensures Inv(s.(cancellers := s.cancellers + [c]))
  {
    hide T.Valid, WorkersOk, HandlersOk, L.Indexed;
  }

  lemma AccessKeepsInv(s: System, next: A.State)
    requires Inv(s)
    ensures Inv(s.(exec := s.exec.(access := next)))
  {
    hide T.Valid, WorkersOk, HandlersOk, CancellersOk;
    var exec := s.exec.(access := next);
    assert Calm(s.tasks, s.tasks);
    WorkersFrame(s.tasks, s.exec, s.tasks, exec, s.workers);
    HandlersFrame(s.exec, exec, s.handlers);
  }

  lemma NextKeepsInv(s: System, step: Step)
    requires Inv(s)
    ensures Inv(Next(s, step))
  {
    hide Inv, HandleStep, LookStep, ClaimStep, FinishStep, QuitStep, CancelStep;
    match step {
      case Handle(h, now, refuse, allowed) => if h < |s.handlers| { HandleKeepsInv(s, h, now, refuse, allowed); }
      case Look(w) => if w < |s.workers| { LookKeepsInv(s, w); }
      case Claim(w, now) => if w < |s.workers| { ClaimKeepsInv(s, w, now); }
      case Finish(w, ending, now) => if w < |s.workers| { FinishKeepsInv(s, w, ending, now); }
      case Quit(w, now) => if w < |s.workers| { QuitKeepsInv(s, w, now); }
      case StepCancel(c, now) => if c < |s.cancellers| { CancelKeepsInv(s, c, now); }
      case Arrive(call) => ArrivalKeepsInv(s, call);
      case AskCancel(task, tenantId, userId) => AskKeepsInv(s, Canceller(task, tenantId, userId, Deciding));
      case ChangeAccess(next) => AccessKeepsInv(s, next);
    }
  }

  lemma {:induction false} RunKeepsInv(s: System, steps: seq<Step>)
    requires Inv(s)
    ensures Inv(Run(s, steps))
    decreases |steps|
  {
    if steps != [] {
      NextKeepsInv(s, steps[0]);
      RunKeepsInv(Next(s, steps[0]), steps[1..]);
    }
  }

  lemma StartInv(access: A.State)
    ensures Inv(Start(access))
  {
  }

  // ---------------------------------------------------------------- main results

  /** Every step leaves terminal tasks frozen and admitted tasks in place. */
  ghost predicate Steady(s: T.State, s': T.State) {
    forall id: nat :: Frozen(s, s', id) && StaysAdmitted(s, s', id)
  }

  lemma CalmIsSteady(s: T.State, s': T.State)
    requires Calm(s, s') || s' == s
    ensures Steady(s, s')
  {
    forall id: nat ensures Frozen(s, s', id) && StaysAdmitted(s, s', id) {
      assert s' == s || Settles(s, s', id);
    }
  }

  lemma NextSteady(s: System, step: Step)
    requires T.Valid(s.tasks)
    ensures Steady(s.tasks, Next(s, step).tasks)
  {
    hide T.Valid, T.Claim, T.Complete, T.Cancel, X.Release, HandleStep;
    match step {
      case Handle(h, now, refuse, allowed) => if h < |s.handlers| { HandleSteady(s, h, now, refuse, allowed); }
      case Claim(w, now) => if w < |s.workers| { ClaimEffect(s.tasks, s.workers[w].task, now); }
      case Finish(w, e, now) =>
        if w < |s.workers| { CompleteCalm(s.tasks, s.workers[w].task, EndStatus(e), EndPatch(e), now); }
        CalmIsSteady(s.tasks, Next(s, step).tasks);
      case StepCancel(c, now) =>
        if c < |s.cancellers| { CancelCalm(s.tasks, s.cancellers[c].task, now); }
        CalmIsSteady(s.tasks, Next(s, step).tasks);
      case _ =>
    }
  }

  lemma HandleSteady(s: System, h: nat, now: int, refuse: bool, allowed: set<string>)
    requires T.Valid(s.tasks) && h < |s.handlers|
    ensures Steady(s.tasks, HandleStep(s, h, now, refuse, allowed).tasks)
  {
    hide T.Valid, T.Create, T.Admit, T.Discard, X.Reserve, X.Release, A.Resolve;
    var c := s.handlers[h].call;
    match s.handlers[h].pc {
      case Granted(None, _, _) =>
        CreateCalm(s.tasks, c.key, "skill.execute", T.Staged(PlaceholderOf(c)), Some(c.fingerprint), now);
      case Admitting(task, _) => AdmitCalm(s.tasks, task, PlaceholderOf(c), c.input, now);
      case Discarding(task) => DiscardCalm(s.tasks, task, PlaceholderOf(c));
      case _ =>
    }
    CalmIsSteady(s.tasks, HandleStep(s, h, now, refuse, allowed).tasks);
  }

  /**
   * Over every run: an admitted task is never discarded and keeps its input, and once a task is
   * terminal its status, output, error and event log never change again.
   */
  lemma {:induction false} TasksSteadyInEveryRun(s: System, steps: seq<Step>)
    requires Inv(s)
    ensures Steady(s.tasks, Run(s, steps).tasks)
    decreases |steps|
  {
    if steps != [] {
      var s1 := Next(s, steps[0]);
      NextKeepsInv(s, steps[0]);
      NextSteady(s, steps[0]);
      TasksSteadyInEveryRun(s1, steps[1..]);
      var end := Run(s1, steps[1..]).tasks;
      forall id: nat ensures Frozen(s.tasks, end, id) && StaysAdmitted(s.tasks, end, id) {
        assert Frozen(s.tasks, s1.tasks, id) && StaysAdmitted(s.tasks, s1.tasks, id);
        assert Frozen(s1.tasks, end, id) && StaysAdmitted(s1.tasks, end, id);
      }
    }
  }

  /** The same between any two points of a run from the start. */
  lemma ReachableTasksStaySteady(access: A.State, before: seq<Step>, after: seq<Step>)
    ensures Steady(Run(Start(access), before).tasks, Run(Run(Start(access), before), after).tasks)
  {
    StartInv(access);
    RunKeepsInv(Start(access), before);
    TasksSteadyInEveryRun(Run(Start(access), before), after);
  }

  /** A worker appears exactly when some handler wins the placeholder compare-and-set of its task. */
  lemma WorkerMeansWin(s: System, step: Step)
    ensures |Next(s, step).workers| == |s.workers| || |Next(s, step).workers| == |s.workers| + 1
    ensures |Next(s, step).workers| == |s.workers| + 1 <==>
            && step.Handle? && step.handler < |s.handlers| && s.handlers[step.handler].pc.Admitting?
            && T.AwaitsAdmission(s.tasks, s.handlers[step.handler].pc.task, PlaceholderOf(s.handlers[step.handler].call))
    ensures |Next(s, step).workers| == |s.workers| + 1 ==>
            Next(s, step).workers[|s.workers|].task == s.handlers[step.handler].pc.task
  {
  }

  /**
   * In every reachable state: no two workers were ever started for one task, so one caller at most
   * won its admission; the log shows at most one start; and a worker that exited left its task
   * terminal and its reservation released.
   */
  lemma ExecutionIsExclusive(access: A.State, steps: seq<Step>, i: nat, j: nat)
    requires i < |Run(Start(access), steps).workers| && j < |Run(Start(access), steps).workers|
    ensures var s := Run(Start(access), steps);
            var w := s.workers[i];
            && (w.task == s.workers[j].task ==> i == j)
            && w.task in s.tasks.tasks && s.tasks.tasks[w.task].input.Real?
            && w.task in s.tasks.events && Count(s.tasks.events[w.task], (e: T.Event) => e.status == T.Running) <= 1
            && (w.pc == Done ==>
                  && T.Terminal(s.tasks.tasks[w.task].status)
                  && w.reservation < |s.exec.rows|
                  && s.exec.rows[w.reservation].taskId == TaskName(w.task)
                  && s.exec.rows[w.reservation].releasedAt.Some?)
  {
    StartInv(access);
    RunKeepsInv(Start(access), steps);
    var s := Run(Start(access), steps);
    assert WorkerOk(s.tasks, s.exec, s.workers[i]) && WorkerOk(s.tasks, s.exec, s.workers[j]);
    T.LogTellsStatus(s.tasks, s.workers[i].task);
  }

  /** In every reachable state the four task tables agree and every log tells its task's status. */
  lemma TablesAgreeInEveryRun(access: A.State, steps: seq<Step>)
    ensures T.Valid(Run(Start(access), steps).tasks)
  {
    StartInv(access);
    RunKeepsInv(Start(access), steps);
  }
}
