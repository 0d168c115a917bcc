/**
 * Concurrent admission and execution of cloud tasks: any number of request handlers (exact
 * retries included), workers and cancellers interleave over the task store and the execution
 * store. One step is what one party does between two awaits.
 */
module TaskProtocol {
  import opened Prelude
  import A = SkillAccess
  import X = SkillExecution
  import L = ExecutionLimits
  import T = CloudTasks

  /** A normalised call of an authenticated device; the fingerprint binds the whole request. */
  datatype Call = Call(
    key: T.Key, fingerprint: string, inputDigest: string, input: string, userId: string, skillId: string)

  function PlaceholderOf(c: Call): T.Placeholder { T.Placeholder(c.fingerprint, c.inputDigest) }

  function Digits(n: nat): string {
    if n < 10 then [('0' as int + n) as char] else Digits(n / 10) + [('0' as int + n % 10) as char]
  }

  /** The identifier under which the execution store knows a task. */
  function TaskName(id: nat): string { "ct-" + Digits(id) }

  /**
   * Where a handler of `POST /v1/tasks` stands. Leased holds the copy of the reservation that
   * the store returned; Replied is the end.
   */
  datatype HandlerPc =
    | Arrived
    | Gating(staged: Option<nat>)
    | Granted(staged: Option<nat>, planId: string, subscriptionId: nat)
    | Staging(task: nat, planId: string, subscriptionId: nat)
    | Leased(task: nat, reservation: nat, released: bool, leaseExpiresAt: int)
    | Admitting(task: nat, reservation: nat)
    | Rechecking(task: nat, reservation: nat, discard: bool)
    | Releasing(task: nat, reservation: nat, discard: bool)
    | Discarding(task: nat)
    | Replied

  datatype Handler = Handler(call: Call, pc: HandlerPc)

  datatype WorkerPc = Claiming | Working | Quitting | Done

  datatype Worker = Worker(task: nat, reservation: nat, userId: string, tenantId: string, pc: WorkerPc, aborted: bool)

  datatype CancelPc = Deciding | Aborting | Freeing | Finished

  datatype Canceller = Canceller(task: nat, tenantId: string, userId: Option<string>, pc: CancelPc)

  datatype System = System(
    tasks: T.State, exec: X.State, handlers: seq<Handler>, workers: seq<Worker>, cancellers: seq<Canceller>)

  // ---------------------------------------------------------------- steps

  /** How an execution ends when it is not cut short: executor result, executor failure or timeout. */
  datatype Ending = Succeeds(output: string) | Fails(code: string) | TimesOut(code: string)

  function EndStatus(e: Ending): T.Status {
    match e
    case Succeeds(_) => T.Succeeded
    case Fails(_) => T.Failed
    case TimesOut(_) => T.TimedOut
  }

  function EndPatch(e: Ending): T.Patch {
    if e.Succeeds? then T.Patch(Some(e.output), None) else T.Patch(None, Some(e.code))
  }

  /** `refuse` is a gate outside this model saying no; `allowed` are the plans the request may use. */
  datatype Step =
    | Arrive(call: Call)
    | Handle(handler: nat, now: int, refuse: bool, allowed: set<string>)
    | Look(worker: nat)
    | Claim(worker: nat, now: int)
    | Finish(worker: nat, ending: Ending, now: int)
    | Quit(worker: nat, now: int)
    | AskCancel(task: nat, tenantId: string, userId: Option<string>)
    | StepCancel(canceller: nat, now: int)
    | ChangeAccess(next: A.State)

  function ReserveRequest(c: Call, task: nat, planId: string, sub: nat, now: int): X.Request {
    var o := c.key.owner;
    X.Request(TaskName(task), c.userId, o.tenantId, o.deviceId, o.agentId, c.skillId, planId, Some(X.Id(sub)),
              Some(c.inputDigest), Some(now), None)
  }

  function HandlerRelease(c: Call, task: nat, reservation: nat, now: int): X.ReleaseRequest {
    X.ReleaseRequest(Some(reservation), Some(TaskName(task)), Some(c.userId), Some(c.key.owner.tenantId), Some(now))
  }

  function SetPc(s: System, h: nat, pc: HandlerPc): System
    requires h < |s.handlers|
  {
    s.(handlers := s.handlers[h := s.handlers[h].(pc := pc)])
  }

  /** An existing task answers the request unless it still waits for this request's admission. */
  predicate Answers(s: T.State, task: nat, c: Call) {
    task in s.tasks && (s.tasks[task].status != T.Pending || s.tasks[task].input != T.Staged(PlaceholderOf(c)))
  }

  function HandleStep(s: System, h: nat, now: int, refuse: bool, allowed: set<string>): System
    requires h < |s.handlers|
  {
    var c := s.handlers[h].call;
    match s.handlers[h].pc
    case Arrived =>
      var found := T.Find(s.tasks, c.key);
      if found.None? then SetPc(s, h, Gating(None))
      else if s.tasks.fingerprints[found.value] != c.fingerprint || Answers(s.tasks, found.value, c) then SetPc(s, h, Replied)
      else SetPc(s, h, Gating(found))
    case Gating(staged) =>
      var grant := A.Resolve(s.exec.access, A.Query(c.userId, c.key.owner.tenantId, c.skillId, Some(allowed), now));
      if refuse || grant.None? then SetPc(s, h, Replied)
      else
        var e := s.exec.access.entitlements[grant.value];
        SetPc(s, h, Granted(staged, e.planId, e.subscriptionId))
    case Granted(Some(task), planId, sub) =>
      SetPc(s, h, Staging(task, planId, sub))
    case Granted(None, planId, sub) =>
      var (tasks, created) := T.Create(s.tasks, c.key, "skill.execute", T.Staged(PlaceholderOf(c)), Some(c.fingerprint), now);
      var s1 := s.(tasks := tasks);
      (match created
       case Fresh(id) => SetPc(s1, h, Staging(id, planId, sub))
       case Existing(id) => SetPc(s1, h, if Answers(tasks, id, c) then Replied else Staging(id, planId, sub))
       case Conflict => SetPc(s1, h, Replied))
    case Staging(task, planId, sub) =>
      var (exec, outcome) := X.Reserve(s.exec, ReserveRequest(c, task, planId, sub, now));
      var s1 := s.(exec := exec);
      if outcome.Rejected? || outcome.id >= |exec.rows| then SetPc(s1, h, Discarding(task))
      else
        var row := exec.rows[outcome.id];
        SetPc(s1, h, Leased(task, outcome.id, row.releasedAt.Some?, row.leaseExpiresAt))
    case Leased(task, reservation, released, leaseExpiresAt) =>
      SetPc(s, h, if released || leaseExpiresAt <= now then Rechecking(task, reservation, true) else Admitting(task, reservation))
    case Admitting(task, reservation) =>
      if T.AwaitsAdmission(s.tasks, task, PlaceholderOf(c)) then
        SetPc(s, h, Replied).(
          tasks := T.Admit(s.tasks, task, PlaceholderOf(c), c.input, now),
          workers := s.workers + [Worker(task, reservation, c.userId, c.key.owner.tenantId, Claiming, false)])
      else SetPc(s, h, Rechecking(task, reservation, false))
    case Rechecking(task, reservation, discard) =>
      if task in s.tasks.tasks && s.tasks.tasks[task].input != T.Staged(PlaceholderOf(c)) then SetPc(s, h, Replied)
      else SetPc(s, h, Releasing(task, reservation, discard))
    case Releasing(task, reservation, discard) =>
      SetPc(s, h, if discard then Discarding(task) else Replied).(
        exec := X.Release(s.exec, HandlerRelease(c, task, reservation, now)).0)
    case Discarding(task) =>
      SetPc(s, h, Replied).(tasks := T.Discard(s.tasks, task, PlaceholderOf(c)))
    case Replied => s
  }

  function SetWorker(s: System, w: nat, pc: WorkerPc): System
    requires w < |s.workers|
  {
    s.(workers := s.workers[w := s.workers[w].(pc := pc)])
  }

  predicate HasStatus(s: T.State, task: nat, status: T.Status) {
    task in s.tasks && s.tasks[task].status == status
  }

  /** The pending-to-running claim that opens `runTask`. */
  function ClaimStep(s: System, w: nat, now: int): System
    requires w < |s.workers|
  {
    var task := s.workers[w].task;
    if s.workers[w].pc != Claiming then s
    else if HasStatus(s.tasks, task, T.Pending) then SetWorker(s, w, Working).(tasks := T.Claim(s.tasks, task, now))
    else SetWorker(s, w, Quitting)
  }

  /** `stopIfNotRunning`: go on, or stop because of an abort or because the task is not running any more. */
  function LookStep(s: System, w: nat): System
    requires w < |s.workers|
  {
    if s.workers[w].pc == Working && (s.workers[w].aborted || !HasStatus(s.tasks, s.workers[w].task, T.Running))
    then SetWorker(s, w, Quitting)
    else s
  }

  function FinishStep(s: System, w: nat, ending: Ending, now: int): System
    requires w < |s.workers|
  {
    if s.workers[w].pc != Working then s
    else
      SetWorker(s, w, Quitting).(
        tasks := T.Complete(s.tasks, s.workers[w].task, EndStatus(ending), EndPatch(ending), now))
  }

  function QuitStep(s: System, w: nat, now: int): System
    requires w < |s.workers|
  {
    var k := s.workers[w];
    if k.pc != Quitting then s
    else
      SetWorker(s, w, Done).(
        exec := X.Release(s.exec,
          X.ReleaseRequest(Some(k.reservation), Some(TaskName(k.task)), Some(k.userId), Some(k.tenantId), Some(now))).0)
  }

  /** Abort the controllers registered for a task. */
  function AbortWorkers(workers: seq<Worker>, task: nat): (r: seq<Worker>)
    ensures |r| == |workers|
    ensures forall i :: 0 <= i < |workers| ==>
              r[i] == if workers[i].task == task && workers[i].pc == Working then workers[i].(aborted := true) else workers[i]
  {
    seq(|workers|, i requires 0 <= i < |workers| =>
      if workers[i].task == task && workers[i].pc == Working then workers[i].(aborted := true) else workers[i])
  }

  function CancelStep(s: System, c: nat, now: int): System
    requires c < |s.cancellers|
  {
    var k := s.cancellers[c];
    match k.pc
    case Deciding =>
      if HasStatus(s.tasks, k.task, T.Pending) || HasStatus(s.tasks, k.task, T.Running) then
        s.(tasks := T.Cancel(s.tasks, k.task, now), cancellers := s.cancellers[c := k.(pc := Aborting)])
      else s.(cancellers := s.cancellers[c := k.(pc := Finished)])
    case Aborting =>
      s.(workers := AbortWorkers(s.workers, k.task), cancellers := s.cancellers[c := k.(pc := Freeing)])
    case Freeing =>
      s.(exec := X.Release(s.exec, X.ReleaseRequest(None, Some(TaskName(k.task)), k.userId, Some(k.tenantId), Some(now))).0,
         cancellers := s.cancellers[c := k.(pc := Finished)])
    case Finished => s
  }

  function Next(s: System, step: Step): System {
    match step
    case Arrive(call) => s.(handlers := s.handlers + [Handler(call, Arrived)])
    case Handle(h, now, refuse, allowed) => if h < |s.handlers| then HandleStep(s, h, now, refuse, allowed) else s
    case Look(w) => if w < |s.workers| then LookStep(s, w) else s
    case Claim(w, now) => if w < |s.workers| then ClaimStep(s, w, now) else s
    case Finish(w, ending, now) => if w < |s.workers| then FinishStep(s, w, ending, now) else s
    case Quit(w, now) => if w < |s.workers| then QuitStep(s, w, now) else s
    case AskCancel(task, tenantId, userId) => s.(cancellers := s.cancellers + [Canceller(task, tenantId, userId, Deciding)])
    case StepCancel(c, now) => if c < |s.cancellers| then CancelStep(s, c, now) else s
    case ChangeAccess(next) => s.(exec := s.exec.(access := next))
  }

  function Run(s: System, steps: seq<Step>): System
    decreases |steps|
  {
    if steps == [] then s else Run(Next(s, steps[0]), steps[1..])
  }

  function Start(access: A.State): System {
    System(T.EMPTY, X.State(access, [], map[]), [], [], [])
  }
}
