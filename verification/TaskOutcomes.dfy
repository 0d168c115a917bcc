/**
 * What the steps of the task protocol write, in the fields of the task: how a task ends, what a retry
 * finds, and that a request nobody disturbs runs to its end.
 */
module TaskOutcomes {
  import opened Prelude
  import opened TaskProtocol
  import A = SkillAccess
  import X = SkillExecution
  import L = ExecutionLimits
  import N = AdmissionOutcomes
  import T = CloudTasks
  import S = TaskSafety

  // ---------------------------------------------------------------- how a task ends

  /** One task replaced, its log continued by one event, every other task and table left alone. */
  predicate Moved(s: T.State, s': T.State, id: nat, t: T.Task) {
    && id in s.tasks && id in s.events
    && s' == T.State(s.tasks[id := t], s.events[id := s.events[id] + [T.Event(s.eventSeq + 1, t.status)]],
                     s.idempotency, s.fingerprints, s.taskSeq, s.eventSeq + 1)
  }

  /** The task as a worker's ending leaves it: a result is its output, a failure and a timeout their error code. */
  function Concluded(t: T.Task, ending: Ending, now: int): T.Task {
    match ending
    case Succeeds(o) => T.Task(t.owner, t.kind, T.Succeeded, t.input, Some(o), t.error, t.createdAt, now)
    case Fails(code) => T.Task(t.owner, t.kind, T.Failed, t.input, t.output, Some(code), t.createdAt, now)
    case TimesOut(code) => T.Task(t.owner, t.kind, T.TimedOut, t.input, t.output, Some(code), t.createdAt, now)
  }

  /** A worker's task is in the tables. */
  lemma WorkersTask(s: System, w: nat)
    requires S.Inv(s) && w < |s.workers|
    ensures s.workers[w].task in s.tasks.tasks && s.workers[w].task in s.tasks.events
  {
    assert S.WorkerOk(s.tasks, s.exec, s.workers[w]);
  }

  /** A working worker ends its task as its execution ended, if the task is still running, and goes on to release. */
  lemma FinishMeans(s: System, w: nat, ending: Ending, now: int)
    requires S.Inv(s) && w < |s.workers| && s.workers[w].pc == Working
    ensures var s', id := Next(s, Finish(w, ending, now)), s.workers[w].task;
            && id in s.tasks.tasks && s'.workers == s.workers[w := s.workers[w].(pc := Quitting)] && s'.exec == s.exec
            && if s.tasks.tasks[id].status == T.Running then Moved(s.tasks, s'.tasks, id, Concluded(s.tasks.tasks[id], ending, now))
               else s'.tasks == s.tasks
  {
    hide S.Inv;
    WorkersTask(s, w);
  }

  /** A cancel ends a pending or running task without an output or error of its own, and changes no other. */
  lemma CancelMeans(s: System, c: nat, now: int)
    requires T.Valid(s.tasks) && c < |s.cancellers| && s.cancellers[c].pc == Deciding
    ensures var s', id := Next(s, StepCancel(c, now)), s.cancellers[c].task;
            && s'.exec == s.exec && s'.workers == s.workers
            && if id in s.tasks.tasks && (s.tasks.tasks[id].status == T.Pending || s.tasks.tasks[id].status == T.Running) then
                 var t := s.tasks.tasks[id];
                 && s'.cancellers[c].pc == Aborting
                 && Moved(s.tasks, s'.tasks, id, T.Task(t.owner, t.kind, T.Cancelled, t.input, t.output, t.error, t.createdAt, now))
               else s'.tasks == s.tasks && s'.cancellers[c].pc == Finished
  {
    hide T.Valid, X.Release, AbortWorkers;
    var id := s.cancellers[c].task;
    if id in s.tasks.tasks { LoggedTask(s.tasks, id); }
  }

  lemma LoggedTask(s: T.State, id: nat)
    requires T.Valid(s) && id in s.tasks
    ensures id in s.events
  {
  }

  /** A worker starts exactly a pending task; of any other it keeps off and only releases. */
  lemma ClaimMeans(s: System, w: nat, now: int)
    requires S.Inv(s) && w < |s.workers| && s.workers[w].pc == Claiming
    ensures var s', id := Next(s, Claim(w, now)), s.workers[w].task;
            && id in s.tasks.tasks && s'.exec == s.exec
            && if s.tasks.tasks[id].status == T.Pending then
                 var t := s.tasks.tasks[id];
                 && s'.workers == s.workers[w := s.workers[w].(pc := Working)]
                 && Moved(s.tasks, s'.tasks, id, T.Task(t.owner, t.kind, T.Running, t.input, t.output, t.error, t.createdAt, now))
               else s'.tasks == s.tasks && s'.workers == s.workers[w := s.workers[w].(pc := Quitting)]
  {
    hide S.Inv;
    WorkersTask(s, w);
  }

  /** A worker looks up exactly when its task was taken from it or it was aborted. */
  lemma LookMeans(s: System, w: nat)
    requires S.Inv(s) && w < |s.workers| && s.workers[w].pc == Working
    ensures var s', id := Next(s, Look(w)), s.workers[w].task;
            && id in s.tasks.tasks && s'.tasks == s.tasks && s'.exec == s.exec
            && s'.workers[w].pc == if s.workers[w].aborted || s.tasks.tasks[id].status != T.Running then Quitting else Working
  {
    hide S.Inv;
    WorkersTask(s, w);
  }

  /** A cancel that took effect then aborts exactly the workers at work on the task. */
  lemma AbortMeans(s: System, c: nat, now: int)
    requires c < |s.cancellers| && s.cancellers[c].pc == Aborting
    ensures var s', k := Next(s, StepCancel(c, now)), s.cancellers[c];
            && s'.tasks == s.tasks && s'.exec == s.exec && s'.handlers == s.handlers && |s'.workers| == |s.workers|
            && s'.cancellers == s.cancellers[c := Canceller(k.task, k.tenantId, k.userId, Freeing)]
            && forall w :: 0 <= w < |s.workers| ==>
                 var x := s.workers[w];
                 s'.workers[w] == Worker(x.task, x.reservation, x.userId, x.tenantId, x.pc, x.aborted || (x.task == k.task && x.pc == Working))
  {
    hide X.Release, T.Cancel;
  }

  /** And last it ends the reservation of the task, if that is the tenant's and its lease still runs. */
  lemma FreeMeans(s: System, c: nat, now: int, r: nat)
    requires L.Indexed(s.exec) && c < |s.cancellers| && s.cancellers[c].pc == Freeing && r < |s.exec.rows|
    requires s.exec.rows[r].taskId == TaskName(s.cancellers[c].task) && s.exec.rows[r].tenantId == s.cancellers[c].tenantId
    requires s.cancellers[c].userId.Some? ==> s.exec.rows[r].userId == s.cancellers[c].userId.value
    ensures var s', k := Next(s, StepCancel(c, now)), s.cancellers[c];
            && s'.tasks == s.tasks && s'.workers == s.workers && s'.handlers == s.handlers
            && s'.cancellers == s.cancellers[c := Canceller(k.task, k.tenantId, k.userId, Finished)]
            && |s'.exec.rows| == |s.exec.rows| && s'.exec.rows[r].releasedAt.Some?
            && (s.exec.rows[r].releasedAt.None? ==> s'.exec.rows[r].releasedAt == Some(now))
  {
    var k := s.cancellers[c];
    var q := X.ReleaseRequest(None, Some(TaskName(k.task)), k.userId, Some(k.tenantId), Some(now));
    TaskNamed(k.task);
    N.ReleaseExactly(s.exec, q, r);
    hide X.Release, T.Cancel, AbortWorkers, TaskName;
  }

  lemma TaskNamed(id: nat)
    ensures TaskName(id) != ""
  {
    assert |TaskName(id)| >= 3;
  }

  /** The task is pending and still holds the placeholder of this very request. */
  predicate WaitsFor(s: T.State, id: nat, c: Call) {
    && id in s.tasks && s.tasks[id].status == T.Pending
    && s.tasks[id].input == T.Staged(T.Placeholder(c.fingerprint, c.inputDigest))
  }

  /**
   * A handler whose key is unused, or bound to a task that still waits for this request, asks for access; any
   * other is answered from the task or refused. It goes on exactly with a grant, under that grant's plan and
   * subscription. Neither changes anything else.
   */
  lemma GateMeans(s: System, h: nat, now: int, refuse: bool, allowed: set<string>)
    requires T.Valid(s.tasks) && h < |s.handlers| && (s.handlers[h].pc == Arrived || s.handlers[h].pc.Gating?)
    ensures var s', c := Next(s, Handle(h, now, refuse, allowed)), s.handlers[h].call;
            && s' == s.(handlers := s.handlers[h := Handler(c, s'.handlers[h].pc)])
            && match s.handlers[h].pc
               case Gating(staged) =>
                 var e := A.Resolve(s.exec.access, A.Query(c.userId, c.key.owner.tenantId, c.skillId, Some(allowed), now));
                 s'.handlers[h].pc ==
                 if refuse || e.None? then Replied
                 else Granted(staged, s.exec.access.entitlements[e.value].planId, s.exec.access.entitlements[e.value].subscriptionId)
               case _ =>
                 s'.handlers[h].pc ==
                 if c.key !in s.tasks.idempotency then Gating(None)
                 else
                   var id := s.tasks.idempotency[c.key];
                   if id in s.tasks.fingerprints && s.tasks.fingerprints[id] == c.fingerprint && WaitsFor(s.tasks, id, c) then Gating(Some(id))
                   else Replied
  {
    hide A.Resolve, T.Create, X.Reserve, X.Release;
    var c := s.handlers[h].call;
    if c.key in s.tasks.idempotency { BoundTask(s.tasks, c.key); }
    hide T.Valid;
  }

  lemma BoundTask(s: T.State, key: T.Key)
    requires T.Valid(s) && key in s.idempotency
    ensures s.idempotency[key] in s.tasks && s.idempotency[key] in s.fingerprints
  {
  }

  /**
   * A handler with a lease wins its task exactly if it still waits for this request: the input becomes the
   * real one and a worker gets the reservation. If another won, it goes on to see whether to release.
   */
  lemma AdmitMeans(s: System, h: nat, c: Call, task: nat, r: nat, now: int, allowed: set<string>)
    requires h < |s.handlers| && s.handlers[h] == Handler(c, Admitting(task, r)) && Versioned(c.fingerprint) && HexDigits(c.inputDigest)
    ensures var s' := Next(s, Handle(h, now, false, allowed));
            if WaitsFor(s.tasks, task, c) then
              var t := s.tasks.tasks[task];
              && s'.tasks == s.tasks.(tasks := s.tasks.tasks[task := T.Task(t.owner, t.kind, T.Pending, T.Real(c.input), t.output, t.error, t.createdAt, now)])
              && s'.workers == s.workers + [Worker(task, r, c.userId, c.key.owner.tenantId, Claiming, false)]
              && s'.handlers == s.handlers[h := Handler(c, Replied)] && s'.exec == s.exec && s'.cancellers == s.cancellers
            else s' == s.(handlers := s.handlers[h := Handler(c, Rechecking(task, r, false))])
  {
    hide A.Resolve, T.Create, X.Reserve, X.Release;
    assert T.IsPlaceholder(PlaceholderOf(c)) by { assert Versioned(c.fingerprint) && HexDigits(c.inputDigest); }
    hide T.IsPlaceholder, Versioned, HexDigits;
  }

  /** Two turns of a handler. */
  function Twice(s: System, h: nat, now: int, later: int, allowed: set<string>): System {
    Next(Next(s, Handle(h, now, false, allowed)), Handle(h, later, false, allowed))
  }

  /** The task is gone from all tables, and nothing else is. */
  ghost predicate TaskGone(s: T.State, s': T.State, id: nat) {
    && s'.tasks == s.tasks - {id} && s'.events == s.events - {id} && s'.fingerprints == s.fingerprints - {id}
    && (forall k :: k in s'.idempotency <==> k in s.idempotency && s.idempotency[k] != id)
    && (forall k :: k in s'.idempotency ==> s'.idempotency[k] == s.idempotency[k])
    && s'.taskSeq == s.taskSeq && s'.eventSeq == s.eventSeq
  }

  /** A request the execution store refuses leaves no task and no reservation behind, and its key free. */
  lemma RefusedLeavesNothing(s: System, h: nat, c: Call, task: nat, planId: string, sub: nat, now: int, later: int, allowed: set<string>)
    requires h < |s.handlers| && s.handlers[h] == Handler(c, Staging(task, planId, sub))
    requires T.AwaitsAdmission(s.tasks, task, PlaceholderOf(c))
    requires X.Reserve(s.exec, ReserveRequest(c, task, planId, sub, now)).1.Rejected?
    ensures var t := Twice(s, h, now, later, allowed);
            && t.handlers == s.handlers[h := Handler(c, Replied)] && t.workers == s.workers
            && TaskGone(s.tasks, t.tasks, task) && |t.exec.rows| == |s.exec.rows|
  {
    hide A.Resolve, T.Create, X.Release, T.AwaitsAdmission, TaskName;
    RejectedAddsNoRow(s.exec, ReserveRequest(c, task, planId, sub, now));
    hide X.Reserve;
    var s1 := Next(s, Handle(h, now, false, allowed));
    assert s1.tasks == s.tasks && s1.handlers == s.handlers[h := Handler(c, Discarding(task))];
  }

  lemma RejectedAddsNoRow(x: X.State, q: X.Request)
    requires X.Reserve(x, q).1.Rejected?
    ensures |X.Reserve(x, q).0.rows| == |x.rows|
  {
    hide X.Refusal, X.SameBinding;
  }

  /** A lease that is over when the handler looks at it is given back and its task discarded. */
  lemma LapsedLeavesNothing(s: System, h: nat, c: Call, task: nat, r: nat, released: bool, expires: int, now: int, later: int, allowed: set<string>)
    requires h < |s.handlers| && s.handlers[h] == Handler(c, Leased(task, r, released, expires)) && (released || expires <= now)
    requires T.AwaitsAdmission(s.tasks, task, PlaceholderOf(c)) && r < |s.exec.rows| && s.exec.rows[r].releasedAt.None?
    requires s.exec.rows[r].taskId == TaskName(task) && s.exec.rows[r].userId == c.userId && s.exec.rows[r].tenantId == c.key.owner.tenantId
    ensures var t := Twice(Twice(s, h, now, now, allowed), h, later, later, allowed);
            && t.handlers == s.handlers[h := Handler(c, Replied)] && t.workers == s.workers
            && TaskGone(s.tasks, t.tasks, task) && |t.exec.rows| == |s.exec.rows| && t.exec.rows[r].releasedAt == Some(later)
  {
    hide A.Resolve, T.Create, X.Reserve, TaskName, X.Release;
    var s2 := Twice(s, h, now, now, allowed);
    assert s2 == s.(handlers := s.handlers[h := Handler(c, Releasing(task, r, true))]) by {
      assert Next(s, Handle(h, now, false, allowed)) == s.(handlers := s.handlers[h := Handler(c, Rechecking(task, r, true))]);
    }
    ReleasedNow(s.exec, r, TaskName(task), c.userId, c.key.owner.tenantId, later);
    hide T.AwaitsAdmission;
    var s3 := Next(s2, Handle(h, later, false, allowed));
    assert s3.handlers == s.handlers[h := Handler(c, Discarding(task))] && s3.tasks == s.tasks;
  }

  // ---------------------------------------------------------------- status and result agree

  /** Only a success has an output, and only a failure or a timeout has an error. */
  predicate ResultOk(t: T.Task) {
    && (t.output.Some? <==> t.status == T.Succeeded)
    && (t.error.Some? <==> t.status == T.Failed || t.status == T.TimedOut)
  }

  ghost predicate ResultsOk(s: T.State) { forall id :: id in s.tasks ==> ResultOk(s.tasks[id]) }

  lemma HandleKeepsResults(s: System, h: nat, now: int, refuse: bool, allowed: set<string>)
    requires ResultsOk(s.tasks) && h < |s.handlers|
    ensures ResultsOk(HandleStep(s, h, now, refuse, allowed).tasks)
  {
    hide X.Reserve, X.Release, A.Resolve;
  }

  lemma NextKeepsResults(s: System, step: Step)
    requires ResultsOk(s.tasks)
    ensures ResultsOk(Next(s, step).tasks)
  {
    hide X.Release, HandleStep;
    match step {
      case Handle(h, now, refuse, allowed) => if h < |s.handlers| { HandleKeepsResults(s, h, now, refuse, allowed); }
      case _ =>
    }
  }

  lemma {:induction false} RunKeepsResults(s: System, steps: seq<Step>)
    requires ResultsOk(s.tasks)
    ensures ResultsOk(Run(s, steps).tasks)
    decreases |steps|
  {
    hide ResultsOk, Next;
    if steps != [] {
      NextKeepsResults(s, steps[0]);
      RunKeepsResults(Next(s, steps[0]), steps[1..]);
    }
  }

  /** In every run a task has an output exactly if it succeeded, and an error exactly if it failed or timed out. */
  lemma ResultMatchesStatus(access: A.State, steps: seq<Step>, id: nat)
    requires id in Run(Start(access), steps).tasks.tasks
    ensures ResultOk(Run(Start(access), steps).tasks.tasks[id])
  {
    RunKeepsResults(Start(access), steps);
  }

  // ---------------------------------------------------------------- creation and retries

  predicate HexDigits(s: string) {
    |s| == 64 && forall i :: 0 <= i < 64 ==> '0' <= s[i] <= '9' || 'a' <= s[i] <= 'f'
  }

  /** A fingerprint is the version mark and a digest. */
  predicate Versioned(f: string) { |f| == 67 && f[..3] == "v1:" && HexDigits(f[3..]) }

  /**
   * A request finds the task its key is bound to if the fingerprints agree, and conflicts with it if they do
   * not or the old one is unbound; an unused key gets a new pending task and its first event.
   */
  lemma CreateMeans(s: T.State, key: T.Key, kind: string, input: T.Input, f: string, now: int)
    requires T.Valid(s) && Versioned(f)
    ensures var (s', created) := T.Create(s, key, kind, input, Some(f), now);
            if key in s.idempotency then
              var id := s.idempotency[key];
              && id in s.fingerprints && s' == s
              && created == if s.fingerprints[id] == f then T.Existing(id) else T.Conflict
            else
              var id := s.taskSeq + 1;
              && created == T.Fresh(id) && id !in s.tasks
              && s'.tasks == s.tasks[id := T.Task(key.owner, kind, T.Pending, input, None, None, now, now)]
              && s'.events == s.events[id := [T.Event(s.eventSeq + 1, T.Pending)]]
              && s'.idempotency == s.idempotency[key := id] && s'.fingerprints == s.fingerprints[id := f]
              && s'.taskSeq == id && s'.eventSeq == s.eventSeq + 1
  {
    assert f != T.LEGACY_UNBOUND by {
      assert |T.LEGACY_UNBOUND| != 67;
    }
  }

  /** A fingerprint of another shape is refused, and a task without one is never found again. */
  lemma UnversionedConflicts(s: T.State, key: T.Key, kind: string, input: T.Input, f: Option<string>, now: int)
    requires T.Valid(s)
    ensures f.Some? && f.value != "legacy-unbound" && !Versioned(f.value) ==>
              T.Create(s, key, kind, input, f, now) == (s, T.Conflict)
    ensures key in s.idempotency && s.fingerprints[s.idempotency[key]] == "legacy-unbound" ==>
              T.Create(s, key, kind, input, f, now) == (s, T.Conflict)
  {
  }

  /** The key names an admitted task with this fingerprint. */
  predicate Bound(s: T.State, key: T.Key, f: string, id: nat) {
    && key in s.idempotency && s.idempotency[key] == id && id in s.fingerprints && s.fingerprints[id] == f
    && S.Admitted(s, id)
  }

  lemma CreateKeepsBound(s: T.State, key: T.Key, f: string, id: nat, k: T.Key, kind: string, input: T.Input, g: Option<string>, now: int)
    requires T.Valid(s) && Bound(s, key, f, id)
    ensures Bound(T.Create(s, k, kind, input, g, now).0, key, f, id)
  {
  }

  lemma HandleKeepsBound(s: System, h: nat, now: int, refuse: bool, allowed: set<string>, key: T.Key, f: string, id: nat)
    requires T.Valid(s.tasks) && Bound(s.tasks, key, f, id) && h < |s.handlers|
    ensures Bound(HandleStep(s, h, now, refuse, allowed).tasks, key, f, id)
  {
    hide X.Reserve, X.Release, A.Resolve, T.Valid, T.Create;
    var c := s.handlers[h].call;
    if s.handlers[h].pc.Granted? && s.handlers[h].pc.staged.None? {
      CreateKeepsBound(s.tasks, key, f, id, c.key, "skill.execute", T.Staged(PlaceholderOf(c)), Some(c.fingerprint), now);
    }
  }

  lemma {:induction false} RunKeepsBound(s: System, steps: seq<Step>, key: T.Key, f: string, id: nat)
    requires S.Inv(s) && Bound(s.tasks, key, f, id)
    ensures Bound(Run(s, steps).tasks, key, f, id)
    decreases |steps|
  {
    hide S.Inv, Bound, Next;
    if steps != [] {
      NextKeepsBound(s, steps[0], key, f, id);
      S.NextKeepsInv(s, steps[0]);
      RunKeepsBound(Next(s, steps[0]), steps[1..], key, f, id);
    }
  }

  lemma InvIsValid(s: System)
    requires S.Inv(s)
    ensures T.Valid(s.tasks)
  {
  }

  lemma NextKeepsBound(s: System, step: Step, key: T.Key, f: string, id: nat)
    requires S.Inv(s) && Bound(s.tasks, key, f, id)
    ensures Bound(Next(s, step).tasks, key, f, id)
  {
    hide HandleStep, X.Release, S.Inv, T.Valid, AbortWorkers;
    InvIsValid(s);
    if step.Handle? && step.handler < |s.handlers| {
      HandleKeepsBound(s, step.handler, step.now, step.refuse, step.allowed, key, f, id);
    }
  }

  /**
   * Once a request is admitted its key stays bound: after any run the same request finds the same task, and
   * another request under that key conflicts, whatever became of the task.
   */
  lemma RetryFindsTask(s: System, steps: seq<Step>, key: T.Key, f: string, id: nat, kind: string, input: T.Input, g: string, now: int)
    requires S.Inv(s) && Bound(s.tasks, key, f, id) && Versioned(g)
    ensures var t := Run(s, steps).tasks;
            && id in t.tasks && t.tasks[id].input == s.tasks.tasks[id].input
            && T.Create(t, key, kind, input, Some(g), now) == (t, if g == f then T.Existing(id) else T.Conflict)
  {
    RunKeepsBound(s, steps, key, f, id);
    S.RunKeepsInv(s, steps);
    S.TasksSteadyInEveryRun(s, steps);
    CreateMeans(Run(s, steps).tasks, key, kind, input, g, now);
    hide S.Inv, Run;
    assert S.StaysAdmitted(s.tasks, Run(s, steps).tasks, id);
  }

  // ---------------------------------------------------------------- an undisturbed request

  /** The request of a new key, granted and with room in the store under the task number it will get. */
  ghost predicate Clear(s: System, h: nat, c: Call, clock: int, now: int, allowed: set<string>, e: nat) {
    && S.Inv(s) && L.Inv(s.exec, clock) && clock <= now && h < |s.handlers| && s.handlers[h] == Handler(c, Arrived)
    && c.key !in s.tasks.idempotency && Versioned(c.fingerprint) && HexDigits(c.inputDigest)
    && A.Resolve(s.exec.access, A.Query(c.userId, c.key.owner.tenantId, c.skillId, Some(allowed), now)) == Some(e)
    && var q := RequestOf(s, c, e, now);
       X.WellFormed(q) && q.taskId !in s.exec.byTask && N.Picks(s.exec.access, q, q.subscription.value.id)
       && N.Verdict(s.exec, q, q.subscription.value.id, now).None?
  }

  /** What the handler asks the execution store for. */
  function RequestOf(s: System, c: Call, e: nat, now: int): X.Request
    requires e < |s.exec.access.entitlements|
  {
    var o, grant := c.key.owner, s.exec.access.entitlements[e];
    X.Request("ct-" + Digits(s.tasks.taskSeq + 1), c.userId, o.tenantId, o.deviceId, o.agentId, c.skillId, grant.planId,
              Some(X.Id(grant.subscriptionId)), Some(c.inputDigest), Some(now), None)
  }

  lemma Gated(s: System, h: nat, c: Call, now: int, allowed: set<string>, e: nat)
    requires h < |s.handlers| && s.handlers[h] == Handler(c, Arrived) && c.key !in s.tasks.idempotency
    requires A.Resolve(s.exec.access, A.Query(c.userId, c.key.owner.tenantId, c.skillId, Some(allowed), now)) == Some(e)
    ensures var step, grant := Handle(h, now, false, allowed), s.exec.access.entitlements[e];
            Next(Next(s, step), step) ==
            s.(handlers := s.handlers[h := Handler(c, Granted(None, grant.planId, grant.subscriptionId))])
  {
    hide A.Resolve, T.Create, X.Reserve, X.Release;
    assert Next(s, Handle(h, now, false, allowed)) == s.(handlers := s.handlers[h := Handler(c, Gating(None))]);
  }

  lemma Staged(s: System, h: nat, c: Call, planId: string, sub: nat, now: int, allowed: set<string>, tasks: T.State, id: nat)
    requires h < |s.handlers| && s.handlers[h] == Handler(c, Granted(None, planId, sub))
    requires T.Create(s.tasks, c.key, "skill.execute", T.Staged(PlaceholderOf(c)), Some(c.fingerprint), now) == (tasks, T.Fresh(id))
    ensures Next(s, Handle(h, now, false, allowed)) ==
            s.(tasks := tasks, handlers := s.handlers[h := Handler(c, Staging(id, planId, sub))])
  {
    hide A.Resolve, T.Create, X.Reserve, X.Release;
  }

  lemma Reserved(s: System, h: nat, c: Call, id: nat, planId: string, sub: nat, now: int, allowed: set<string>, exec: X.State, r: nat)
    requires h < |s.handlers| && s.handlers[h] == Handler(c, Staging(id, planId, sub))
    requires X.Reserve(s.exec, ReserveRequest(c, id, planId, sub, now)) == (exec, X.Admitted(r)) && r < |exec.rows|
    ensures Next(s, Handle(h, now, false, allowed)) ==
            s.(exec := exec,
               handlers := s.handlers[h := Handler(c, Leased(id, r, exec.rows[r].releasedAt.Some?, exec.rows[r].leaseExpiresAt))])
  {
    hide A.Resolve, T.Create, X.Reserve, X.Release;
  }

  /** Four turns of a handler: look the key up, ask for access, stage the task, reserve. */
  function StageAndReserve(s: System, h: nat, now: int, allowed: set<string>): System {
    var step := Handle(h, now, false, allowed);
    Next(Next(Next(Next(s, step), step), step), step)
  }

  /** The system once the task of a clear request is staged and its usage reserved, for five minutes. */
  predicate Ready(s: System, t: System, h: nat, c: Call, now: int) {
    var id, r := s.tasks.taskSeq + 1, |s.exec.rows|;
    && h < |s.handlers| && t.handlers == s.handlers[h := Handler(c, Leased(id, r, false, now + 300_000))]
    && t.workers == s.workers && |t.exec.rows| == r + 1
    && t.exec.rows[r].taskId == TaskName(id) && t.exec.rows[r].userId == c.userId
    && t.exec.rows[r].tenantId == c.key.owner.tenantId && t.exec.rows[r].releasedAt.None?
    && id in t.tasks.tasks
    && t.tasks.tasks[id] == T.Task(c.key.owner, "skill.execute", T.Pending, T.Staged(PlaceholderOf(c)), None, None, now, now)
  }

  /** What the reservation of a clear request yields. */
  lemma RoomIsTaken(x: X.State, clock: int, q: X.Request, sub: nat)
    requires L.Inv(x, clock) && X.WellFormed(q) && clock <= q.now.value && q.taskId !in x.byTask && q.leaseTtlMs.None?
    requires N.Picks(x.access, q, sub) && N.Verdict(x, q, sub, q.now.value).None?
    ensures var (x', o) := X.Reserve(x, q);
            && o == X.Admitted(|x.rows|) && |x'.rows| == |x.rows| + 1
            && var r := x'.rows[|x.rows|];
               && r.taskId == q.taskId && r.userId == q.userId && r.tenantId == q.tenantId && r.releasedAt.None?
               && r.leaseExpiresAt == q.now.value + 300_000
  {
    hide L.Inv, X.Reserve, N.Verdict, N.SweptTo;
    N.OutcomeExactly(x, clock, q, sub);
    N.FreshRowMeans(x, q, X.Reserve(x, q).1.id);
  }

  /** What creating the task of a clear request yields. */
  lemma TaskIsStaged(s: T.State, c: Call, now: int)
    requires T.Valid(s) && Versioned(c.fingerprint) && c.key !in s.idempotency
    ensures var (s', created) := T.Create(s, c.key, "skill.execute", T.Staged(PlaceholderOf(c)), Some(c.fingerprint), now);
            var id := s.taskSeq + 1;
            && created == T.Fresh(id) && id in s'.tasks
            && s'.tasks[id] == T.Task(c.key.owner, "skill.execute", T.Pending, T.Staged(PlaceholderOf(c)), None, None, now, now)
  {
    hide T.Create, T.Valid;
    CreateMeans(s, c.key, "skill.execute", T.Staged(PlaceholderOf(c)), c.fingerprint, now);
  }

  /** What both will answer to a clear request. */
  lemma ClearMeans(s: System, h: nat, c: Call, clock: int, now: int, allowed: set<string>, e: nat)
    requires Clear(s, h, c, clock, now, allowed, e)
    ensures h < |s.handlers| && s.handlers[h] == Handler(c, Arrived) && c.key !in s.tasks.idempotency
    ensures A.Resolve(s.exec.access, A.Query(c.userId, c.key.owner.tenantId, c.skillId, Some(allowed), now)) == Some(e)
    ensures var q, id := RequestOf(s, c, e, now), s.tasks.taskSeq + 1;
            var (exec, outcome) := X.Reserve(s.exec, q);
            var (tasks, created) := T.Create(s.tasks, c.key, "skill.execute", T.Staged(PlaceholderOf(c)), Some(c.fingerprint), now);
            && outcome == X.Admitted(|s.exec.rows|) && |exec.rows| == |s.exec.rows| + 1
            && exec.rows[|s.exec.rows|].taskId == TaskName(id) && exec.rows[|s.exec.rows|].userId == c.userId
            && exec.rows[|s.exec.rows|].tenantId == c.key.owner.tenantId && exec.rows[|s.exec.rows|].releasedAt.None?
            && exec.rows[|s.exec.rows|].leaseExpiresAt == now + 300_000
            && created == T.Fresh(id) && id in tasks.tasks
            && tasks.tasks[id] == T.Task(c.key.owner, "skill.execute", T.Pending, T.Staged(PlaceholderOf(c)), None, None, now, now)
            && ReserveRequest(c, id, s.exec.access.entitlements[e].planId, s.exec.access.entitlements[e].subscriptionId, now) == q
  {
    InvIsValid(s);
    hide S.Inv, L.Inv, N.Verdict, N.Picks, X.Reserve, T.Create, A.Resolve, X.WellFormed, Versioned, HexDigits, T.Valid;
    RoomIsTaken(s.exec, clock, RequestOf(s, c, e, now), s.exec.access.entitlements[e].subscriptionId);
    TaskIsStaged(s.tasks, c, now);
  }

  lemma StagedAndReserved(s: System, h: nat, c: Call, clock: int, now: int, allowed: set<string>, e: nat)
    requires Clear(s, h, c, clock, now, allowed, e)
    ensures Ready(s, StageAndReserve(s, h, now, allowed), h, c, now)
  {
    hide Clear, X.Reserve, T.Create, A.Resolve, Next, TaskName;
    ClearMeans(s, h, c, clock, now, allowed, e);
    var grant, q := s.exec.access.entitlements[e], RequestOf(s, c, e, now);
    var id, sub, step := s.tasks.taskSeq + 1, grant.subscriptionId, Handle(h, now, false, allowed);
    var (exec, outcome) := X.Reserve(s.exec, q);
    var (tasks, created) := T.Create(s.tasks, c.key, "skill.execute", T.Staged(PlaceholderOf(c)), Some(c.fingerprint), now);
    Gated(s, h, c, now, allowed, e);
    var s2 := Next(Next(s, step), step);
    Staged(s2, h, c, grant.planId, sub, now, allowed, tasks, id);
    var s3 := Next(s2, step);
    Reserved(s3, h, c, id, grant.planId, sub, now, allowed, exec, outcome.id);
  }

  /** Two more turns: check the lease, admit. */
  lemma Admitted(s: System, h: nat, c: Call, id: nat, r: nat, expires: int, now: int, allowed: set<string>)
    requires h < |s.handlers| && s.handlers[h] == Handler(c, Leased(id, r, false, expires)) && now < expires
    requires T.AwaitsAdmission(s.tasks, id, PlaceholderOf(c))
    ensures var step := Handle(h, now, false, allowed);
            Next(Next(s, step), step) ==
            s.(tasks := T.Admit(s.tasks, id, PlaceholderOf(c), c.input, now), handlers := s.handlers[h := Handler(c, Replied)],
               workers := s.workers + [Worker(id, r, c.userId, c.key.owner.tenantId, Claiming, false)])
  {
    hide A.Resolve, T.Create, T.Admit, T.AwaitsAdmission, X.Reserve, X.Release;
    assert Next(s, Handle(h, now, false, allowed)) == s.(handlers := s.handlers[h := Handler(c, Admitting(id, r))]);
  }

  /** The worker's turns: claim the task, look, end it, release. */
  function ExecuteAndRelease(s: System, w: nat, ending: Ending, now: int): System {
    Next(Next(Next(Next(s, Claim(w, now)), Look(w)), Finish(w, ending, now)), Quit(w, now))
  }

  lemma Executed(s: System, w: nat, ending: Ending, now: int)
    requires w < |s.workers| && s.workers[w].pc == Claiming && !s.workers[w].aborted
    requires s.workers[w].task in s.tasks.tasks && s.tasks.tasks[s.workers[w].task].status == T.Pending
    requires var k := s.workers[w];
             && k.reservation < |s.exec.rows| && s.exec.rows[k.reservation].releasedAt.None?
             && s.exec.rows[k.reservation].taskId == TaskName(k.task) && s.exec.rows[k.reservation].userId == k.userId
             && s.exec.rows[k.reservation].tenantId == k.tenantId
    ensures var t, k := ExecuteAndRelease(s, w, ending, now), s.workers[w];
            && t.handlers == s.handlers && t.workers == s.workers[w := k.(pc := Done)]
            && k.task in t.tasks.tasks
            && t.tasks.tasks[k.task] == Concluded(s.tasks.tasks[k.task].(status := T.Running), ending, now)
            && |t.exec.rows| == |s.exec.rows| && t.exec.rows[k.reservation].taskId == TaskName(k.task)
            && t.exec.rows[k.reservation].releasedAt == Some(now)
  {
    hide X.Release, TaskName;
    var k := s.workers[w];
    var s1 := Next(s, Claim(w, now));
    assert s1.workers == s.workers[w := k.(pc := Working)] && s1.exec == s.exec && s1.handlers == s.handlers;
    assert s1.tasks.tasks[k.task] == s.tasks.tasks[k.task].(status := T.Running, updatedAt := now);
    assert Next(s1, Look(w)) == s1;
    var s2 := Next(s1, Finish(w, ending, now));
    assert s2.workers == s.workers[w := k.(pc := Quitting)] && s2.exec == s.exec && s2.handlers == s.handlers;
    ReleasedNow(s.exec, k.reservation, TaskName(k.task), k.userId, k.tenantId, now);
  }

  lemma ClearIsPlaced(s: System, h: nat, c: Call, clock: int, now: int, allowed: set<string>, e: nat)
    requires Clear(s, h, c, clock, now, allowed, e)
    ensures T.IsPlaceholder(PlaceholderOf(c))
  {
    assert Versioned(c.fingerprint) && HexDigits(c.inputDigest);
  }

  /**
   * A request with a new key, a grant and room under the limits, which nobody disturbs, is staged, reserved,
   * admitted, executed and released: its task ends as the execution ended, its reservation is released.
   */
  lemma UndisturbedRequestEnds(s: System, h: nat, c: Call, clock: int, now: int, allowed: set<string>, e: nat, ending: Ending)
    requires Clear(s, h, c, clock, now, allowed, e)
    ensures var id, r, w, step := s.tasks.taskSeq + 1, |s.exec.rows|, |s.workers|, Handle(h, now, false, allowed);
            var t := ExecuteAndRelease(Next(Next(StageAndReserve(s, h, now, allowed), step), step), w, ending, now);
            && t.handlers == s.handlers[h := Handler(c, Replied)]
            && t.workers == s.workers + [Worker(id, r, c.userId, c.key.owner.tenantId, Done, false)]
            && id in t.tasks.tasks
            && t.tasks.tasks[id] == Concluded(T.Task(c.key.owner, "skill.execute", T.Running, T.Real(c.input), None, None, now, now), ending, now)
            && |t.exec.rows| == r + 1 && t.exec.rows[r].taskId == TaskName(id) && t.exec.rows[r].releasedAt == Some(now)
  {
    var id, r, w, step := s.tasks.taskSeq + 1, |s.exec.rows|, |s.workers|, Handle(h, now, false, allowed);
    hide Clear, T.IsPlaceholder, StageAndReserve, Next, ExecuteAndRelease, Concluded, TaskName;
    ClearIsPlaced(s, h, c, clock, now, allowed, e);
    StagedAndReserved(s, h, c, clock, now, allowed, e);
    var s4 := StageAndReserve(s, h, now, allowed);
    Admitted(s4, h, c, id, r, now + 300_000, now, allowed);
    var s6 := Next(Next(s4, step), step);
    assert s6.workers[w] == Worker(id, r, c.userId, c.key.owner.tenantId, Claiming, false);
    Executed(s6, w, ending, now);
  }

  lemma ReleasedNow(x: X.State, r: nat, taskId: string, userId: string, tenantId: string, now: int)
    requires r < |x.rows| && x.rows[r].taskId == taskId && x.rows[r].userId == userId && x.rows[r].tenantId == tenantId
    requires x.rows[r].releasedAt.None?
    ensures var x' := X.Release(x, X.ReleaseRequest(Some(r), Some(taskId), Some(userId), Some(tenantId), Some(now))).0;
            && |x'.rows| == |x.rows| && x'.rows[r].taskId == taskId && x'.rows[r].releasedAt == Some(now)
  {
  }
}
