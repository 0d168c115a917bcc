/**
 * The execution limits over the task protocol: in every timed run of handlers, workers and cancellers
 * the execution store keeps its limits, so the workers stay within them too.
 */
module TaskLimits {
  import opened Prelude
  import opened TaskProtocol
  import A = SkillAccess
  import X = SkillExecution
  import L = ExecutionLimits
  import T = CloudTasks
  import S = TaskSafety

  // ---------------------------------------------------------------- timed runs

  function StepTime(step: Step): Option<int> {
    match step
    case Handle(_, now, _, _) => Some(now)
    case Claim(_, now) => Some(now)
    case Finish(_, _, now) => Some(now)
    case Quit(_, now) => Some(now)
    case StepCancel(_, now) => Some(now)
    case _ => None
  }

  function Tick(clock: int, step: Step): int { if StepTime(step).Some? then StepTime(step).value else clock }

  /** The clock keeps its direction and access evolves without lowering limits. */
  ghost predicate Timed(s: System, clock: int, step: Step) {
    clock <= Tick(clock, step) && (step.ChangeAccess? ==> L.Evolves(s.exec.access, step.next))
  }

  ghost predicate TimedRun(s: System, clock: int, steps: seq<Step>)
    decreases |steps|
  {
    steps == [] || (Timed(s, clock, steps[0]) && TimedRun(Next(s, steps[0]), Tick(clock, steps[0]), steps[1..]))
  }

  function FinalClock(clock: int, steps: seq<Step>): int
    decreases |steps|
  {
    if steps == [] then clock else FinalClock(Tick(clock, steps[0]), steps[1..])
  }

  // ---------------------------------------------------------------- the execution store inside the protocol

  /** A step leaves the execution store alone or is one operation on it, at the step's own time. */
  lemma ExecStep(s: System, step: Step) returns (op: Option<L.Op>)
    ensures op.None? ==> Next(s, step).exec == s.exec
    ensures op.Some? ==> Next(s, step).exec == L.Apply(s.exec, op.value)
    ensures op.Some? ==> L.OpTime(op.value) == StepTime(step)
    ensures op.Some? && op.value.ChangeOp? ==> step.ChangeAccess? && op.value.next == step.next
  {
    hide X.Reserve, X.Release, T.Create, T.Admit, T.Discard, T.Claim, T.Complete, T.Cancel, A.Resolve;
    op := None;
    match step {
      case Handle(h, now, _, _) =>
        if h < |s.handlers| {
          var c := s.handlers[h].call;
          match s.handlers[h].pc {
            case Staging(task, planId, sub) => op := Some(L.ReserveOp(ReserveRequest(c, task, planId, sub, now)));
            case Releasing(task, reservation, _) => op := Some(L.ReleaseOp(HandlerRelease(c, task, reservation, now)));
            case _ =>
          }
        }
      case Quit(w, now) =>
        if w < |s.workers| && s.workers[w].pc == Quitting {
          var k := s.workers[w];
          op := Some(L.ReleaseOp(X.ReleaseRequest(Some(k.reservation), Some(TaskName(k.task)), Some(k.userId), Some(k.tenantId), Some(now))));
        }
      case StepCancel(c, now) =>
        if c < |s.cancellers| && s.cancellers[c].pc == Freeing {
          var k := s.cancellers[c];
          op := Some(L.ReleaseOp(X.ReleaseRequest(None, Some(TaskName(k.task)), k.userId, Some(k.tenantId), Some(now))));
        }
      case ChangeAccess(next) => op := Some(L.ChangeOp(next));
      case _ =>
    }
  }

  lemma LaterKeepsInv(x: X.State, clock: int, later: int)
    requires L.Inv(x, clock) && clock <= later
    ensures L.Inv(x, later)
  {
    L.MarkingKeepsInv(x, x.rows, clock, later);
    assert x.(rows := x.rows) == x;
  }

  lemma NextKeepsLimits(s: System, clock: int, step: Step)
    requires L.Inv(s.exec, clock) && Timed(s, clock, step)
    ensures L.Inv(Next(s, step).exec, Tick(clock, step))
  {
    hide L.Inv, L.Apply, Next, L.Evolves;
    var op := ExecStep(s, step);
    if op.None? {
      LaterKeepsInv(s.exec, clock, Tick(clock, step));
    } else {
      L.StepKeepsInv(s.exec, clock, op.value);
    }
  }

  lemma {:induction false} RunKeepsLimits(s: System, clock: int, steps: seq<Step>)
    requires L.Inv(s.exec, clock) && TimedRun(s, clock, steps)
    ensures L.Inv(Run(s, steps).exec, FinalClock(clock, steps))
    decreases |steps|
  {
    hide L.Inv, Next, Timed;
    if steps != [] {
      NextKeepsLimits(s, clock, steps[0]);
      RunKeepsLimits(Next(s, steps[0]), Tick(clock, steps[0]), steps[1..]);
    }
  }

  // ---------------------------------------------------------------- workers and rows

  lemma {:induction false} DigitsInjective(m: nat, n: nat)
    requires Digits(m) == Digits(n)
    ensures m == n
  {
    assert |Digits(m)| >= 1 && (m >= 10 ==> |Digits(m / 10)| >= 1 && |Digits(m)| >= 2);
    assert |Digits(n)| >= 1 && (n >= 10 ==> |Digits(n / 10)| >= 1 && |Digits(n)| >= 2);
    if m >= 10 {
      var a, b := Digits(m), Digits(n);
      assert a[|a| - 1] == b[|b| - 1] && a[..|a| - 1] == b[..|b| - 1];
      assert Digits(m / 10) == a[..|a| - 1] && Digits(n / 10) == b[..|b| - 1];
      DigitsInjective(m / 10, n / 10);
    }
  }

  lemma TaskNameInjective(m: nat, n: nat)
    requires TaskName(m) == TaskName(n)
    ensures m == n
  {
    assert TaskName(m)[3..] == Digits(m) && TaskName(n)[3..] == Digits(n);
    DigitsInjective(m, n);
  }

  /** Two workers never share a reservation. */
  lemma OwnReservations(s: System, i: nat, j: nat)
    requires S.Inv(s) && i < j < |s.workers|
    ensures s.workers[i].reservation != s.workers[j].reservation
  {
    assert S.WorkerOk(s.tasks, s.exec, s.workers[i]) && S.WorkerOk(s.tasks, s.exec, s.workers[j]);
    if s.workers[i].reservation == s.workers[j].reservation {
      TaskNameInjective(s.workers[i].task, s.workers[j].task);
    }
  }

  /** The worker executes this Skill under this subscription. */
  predicate Executes(x: X.State, w: Worker, sub: nat, skillId: string) {
    w.reservation < |x.rows| && X.IsSkillCall(x.rows[w.reservation], sub, skillId)
  }

  /** The worker works under a lease of this caller that is neither released nor expired. */
  predicate WorksLeased(x: X.State, w: Worker, c: X.Caller, now: int) {
    w.pc == Working && w.reservation < |x.rows| && X.Holds(x.rows[w.reservation], c, now)
  }

  lemma WorkersInject(s: System, p: Worker -> bool, q: X.Reservation -> bool)
    requires S.Inv(s)
    requires forall w :: p(w) ==> w.reservation < |s.exec.rows| && q(s.exec.rows[w.reservation])
    ensures Count(s.workers, p) <= Count(s.exec.rows, q)
  {
    forall i, j | 0 <= i < j < |s.workers| ensures s.workers[i].reservation != s.workers[j].reservation {
      OwnReservations(s, i, j);
    }
    hide S.Inv;
    CountInjection(s.workers, p, (w: Worker) => w.reservation, s.exec.rows, q);
  }

  // ---------------------------------------------------------------- main result

  /**
   * In every timed run: the workers ever started for a Skill under a subscription stay within its
   * included calls, and the workers of a caller at work under an unexpired lease stay within its
   * concurrency limit, now and later.
   */
  lemma WorkersWithinLimits(access: A.State, clock: int, steps: seq<Step>, skillId: string, c: X.Caller, later: int)
    requires L.PlansValid(access) && TimedRun(Start(access), clock, steps) && FinalClock(clock, steps) <= later
    requires L.HasPlan(Run(Start(access), steps).exec.access, c.subscriptionId)
    ensures var s := Run(Start(access), steps);
            var plan := L.PlanOf(s.exec.access, c.subscriptionId);
            && Count(s.workers, (w: Worker) => Executes(s.exec, w, c.subscriptionId, skillId)) <= plan.includedCalls
            && Count(s.workers, (w: Worker) => WorksLeased(s.exec, w, c, later)) <= plan.maxConcurrency
  {
    var s := Run(Start(access), steps);
    S.StartInv(access);
    S.RunKeepsInv(Start(access), steps);
    L.EmptyInv(access, clock);
    RunKeepsLimits(Start(access), clock, steps);
    LaterKeepsInv(s.exec, FinalClock(clock, steps), later);
    hide S.Inv, Run, TimedRun;
    WorkersInject(s, (w: Worker) => Executes(s.exec, w, c.subscriptionId, skillId),
                  (r: X.Reservation) => X.IsSkillCall(r, c.subscriptionId, skillId));
    WorkersInject(s, (w: Worker) => WorksLeased(s.exec, w, c, later), (r: X.Reservation) => X.Holds(r, c, later));
    assert L.SkillCalls(s.exec.rows, c.subscriptionId, skillId) <= L.PlanOf(s.exec.access, c.subscriptionId).includedCalls;
    assert X.LiveLeases(s.exec.rows, c, later) <= L.PlanOf(s.exec.access, c.subscriptionId).maxConcurrency;
  }
}
