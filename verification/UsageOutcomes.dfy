/**
 * What the admission of model requests decides, in terms of the requests themselves: who enters the
 * lock, who is admitted, and what leaves a slot, over every run from the start.
 */
module UsageOutcomes {
  import opened Prelude
  import opened ModelUsage

  ghost predicate Reachable(s: State, config: Config, clock: int) {
    exists steps: seq<Step> :: s == Run(Start(config, clock), steps)
  }

  lemma ReachableOk(s: State, config: Config, clock: int)
    requires Reachable(s, config, clock)
    ensures ChainOk(s) && BooksOk(s) && s.config == config
  {
    hide ChainOk, BooksOk, Start, Run;
    var steps :| s == Run(Start(config, clock), steps);
    StartInv(config, clock);
    RunKeepsInv(Start(config, clock), steps);
    StartConfig(config, clock);
  }

  lemma StartConfig(config: Config, clock: int)
    ensures Start(config, clock).config == config
  {
  }

  lemma {:induction false} RunSnoc(s: State, steps: seq<Step>, step: Step)
    ensures Run(s, steps + [step]) == Next(Run(s, steps), step)
    decreases |steps|
  {
    hide Next;
    var more := steps + [step];
    if steps == [] {
      assert more[1..] == [] && Run(Next(s, step), []) == Next(s, step);
    } else {
      assert more[0] == steps[0] && more[1..] == steps[1..] + [step];
      RunSnoc(Next(s, steps[0]), steps[1..], step);
    }
  }

  lemma NextReachable(s: State, config: Config, clock: int, step: Step)
    requires Reachable(s, config, clock)
    ensures Reachable(Next(s, step), config, clock)
  {
    hide Next, Run, Start;
    var steps :| s == Run(Start(config, clock), steps);
    RunSnoc(Start(config, clock), steps, step);
  }

  // ---------------------------------------------------------------- the lock

  /** Every earlier request of the device has left the lock for good. */
  predicate TurnHasCome(requests: seq<Request>, id: nat)
    requires id < |requests|
  {
    forall j :: 0 <= j < id && requests[j].device == requests[id].device ==>
      requests[j].pc in {Cleared, Leased, Released, Gone}
  }

  lemma TurnIsPredecessors(s: State, id: nat)
    requires ChainOk(s) && id < |s.requests|
    ensures PrevResolved(s, s.requests[id]) <==> TurnHasCome(s.requests, id)
  {
    assert Chained(s.requests, id);
    if PrevResolved(s, s.requests[id]) {
      PrevImpliesAll(s, id);
    }
  }

  /** The request waits for the last arrival of its device, or for nobody if everyone has left. */
  predicate AfterTheLast(requests: seq<Request>, id: nat)
    requires id < |requests|
  {
    match requests[id].prev
    case None => TurnHasCome(requests, id)
    case Some(p) =>
      && p < id && requests[p].device == requests[id].device && !TurnHasCome(requests, id)
      && forall j :: p < j < id ==> requests[j].device != requests[id].device
  }

  /**
   * An arrival not before the clock joins the queue behind everyone of its device who has not left: it
   * waits for the last of them, or for nobody if all have left. An earlier stamp is refused.
   */
  lemma ArriveMeans(s: State, config: Config, clock: int, device: string, now: int)
    requires Reachable(s, config, clock)
    ensures var s' := Next(s, Arrive(device, now));
            if now < s.clock then s' == s
            else
              && |s'.requests| == |s.requests| + 1 && s'.requests[..|s.requests|] == s.requests
              && s'.requests[|s.requests|] == Request(device, now, s'.requests[|s.requests|].prev, Waiting, false)
              && AfterTheLast(s'.requests, |s.requests|)
              && s'.clock == now && s'.config == s.config
              && s'.concurrency == s.concurrency && s'.minuteRequests == s.minuteRequests
  {
    ReachableOk(s, config, clock);
    hide BooksOk, Reachable;
    if now >= s.clock {
      ArriveKeepsChain(s, device, now);
      TurnIsPredecessors(ArriveStep(s, device, now), |s.requests|);
    }
  }

  function Moved(r: Request, pc: Pc): Request { Request(r.device, r.now, r.prev, pc, r.aborted) }

  /** Nothing but the position of one request has changed. */
  predicate OnlyMoved(s: State, s': State, id: nat, pc: Pc) {
    && id < |s.requests| && s'.requests == s.requests[id := Moved(s.requests[id], pc)]
    && s'.config == s.config && s'.clock == s.clock
    && s'.concurrency == s.concurrency && s'.minuteRequests == s.minuteRequests
  }

  /** A waiting request enters the lock exactly when it is not aborted and its turn has come. */
  lemma AcquireExactly(s: State, config: Config, clock: int, id: nat)
    requires Reachable(s, config, clock) && id < |s.requests|
    ensures var r, s' := s.requests[id], Next(s, Acquire(id));
            if r.pc == Waiting && !r.aborted && TurnHasCome(s.requests, id) then OnlyMoved(s, s', id, Acting) && s'.locks == s.locks
            else s' == s
  {
    ReachableOk(s, config, clock);
    hide BooksOk, Reachable;
    TurnIsPredecessors(s, id);
  }

  /** The lock table names, per device, the last arrival that somebody may still have to wait for. */
  lemma TableIsExact(s: State, config: Config, clock: int, device: string)
    requires Reachable(s, config, clock)
    ensures device in s.locks <==>
            exists id: nat :: id < |s.requests| && s.requests[id].device == device && !(s.requests[id].pc in {Cleared, Leased, Released, Gone})
    ensures device in s.locks ==>
              && s.locks[device] < |s.requests| && s.requests[s.locks[device]].device == device
              && forall j :: s.locks[device] < j < |s.requests| ==> s.requests[j].device != device
  {
    ReachableOk(s, config, clock);
    hide BooksOk, Reachable;
  }

  /** An aborted waiter steps aside at once, and hands its place on only when its turn has come. */
  lemma LeaveExactly(s: State, config: Config, clock: int, id: nat)
    requires Reachable(s, config, clock) && id < |s.requests|
    ensures var r, s' := s.requests[id], Next(s, Leave(id));
            if r.pc == Waiting && r.aborted then OnlyMoved(s, s', id, Leaving)
            else if r.pc == Leaving && TurnHasCome(s.requests, id) then OnlyMoved(s, s', id, Gone)
            else s' == s
  {
    ReachableOk(s, config, clock);
    hide BooksOk, Reachable;
    TurnIsPredecessors(s, id);
  }

  // ---------------------------------------------------------------- the decision

  /** There is room: fewer admissions in the last minute and fewer slots held than the limits allow. */
  predicate HasRoom(s: State, r: Request) {
    && AdmittedAfter(s.requests, r.device, r.now - 60_000) < s.config.requestsPerMinute
    && Slots(s.requests, r.device) < s.config.maxConcurrency
  }

  /** The request counts as an admission of its time, and holds a slot. */
  ghost predicate Entered(s: State, s': State, r: Request) {
    && Slots(s'.requests, r.device) == Slots(s.requests, r.device) + 1
    && forall after :: AdmittedAfter(s'.requests, r.device, after) ==
                       AdmittedAfter(s.requests, r.device, after) + if after < r.now then 1 else 0
  }

  /**
   * In every run a request inside the lock is admitted exactly if it is not aborted, its tokens are not
   * used up, and there is room; and then it takes one slot and counts in the next sixty seconds. A
   * refused one leaves no trace.
   */
  lemma DecideExactly(s: State, config: Config, clock: int, id: nat, quotaLeft: bool)
    requires Reachable(s, config, clock) && id < |s.requests|
    ensures var r, s' := s.requests[id], Next(s, Decide(id, quotaLeft));
            if r.pc != Acting then s' == s
            else
              var admitted := !r.aborted && quotaLeft && HasRoom(s, r);
              && s'.requests == s.requests[id := Moved(r, Settling(admitted))]
              && s'.locks == s.locks && s'.clock == s.clock && s'.config == s.config
              && (admitted ==> Entered(s, s', r))
              && (!admitted ==> s'.concurrency == s.concurrency && s'.minuteRequests == s.minuteRequests)
  {
    ReachableOk(s, config, clock);
    var r := s.requests[id];
    if r.pc == Acting {
      RoomIsExact(s, id, quotaLeft);
      hide ChainOk, BooksOk, Reachable, Admits, HasRoom, AdmittedAfter;
      if !r.aborted && quotaLeft && HasRoom(s, r) {
        AdmitCounts(s.requests, id, Moved(r, Settling(true)), r.device);
        CountUpdate(s.requests, id, Moved(r, Settling(true)), (q: Request) => HoldsSlot(q, r.device));
      }
    }
  }

  lemma RoomIsExact(s: State, id: nat, quotaLeft: bool)
    requires ChainOk(s) && BooksOk(s) && id < |s.requests| && s.requests[id].pc == Acting
    ensures Admits(s, s.requests[id].device, s.requests[id].now, quotaLeft) <==> quotaLeft && HasRoom(s, s.requests[id])
  {
    PrunedListIsFaithful(s, id);
    assert CounterOk(s, s.requests[id].device);
    hide ChainOk, BooksOk, Recent, AdmittedAfter;
  }

  // ---------------------------------------------------------------- after the decision

  /** One slot of the request's device is free again, and no other device is touched. */
  ghost predicate SlotGivenBack(s: State, s': State, id: nat, aborted: bool) {
    && id < |s.requests|
    && var r := s.requests[id];
       && s'.requests == s.requests[id := Request(r.device, r.now, r.prev, Released, aborted)]
       && Slots(s'.requests, r.device) == Slots(s.requests, r.device) - 1
       && (forall d :: Active(s'.concurrency, d) == Active(s.concurrency, d) - if d == r.device then 1 else 0)
       && s'.locks == s.locks && s'.minuteRequests == s.minuteRequests && s'.clock == s.clock && s'.config == s.config
  }

  lemma GiveBackMeans(s: State, id: nat, aborted: bool)
    requires BooksOk(s) && id < |s.requests| && HoldsSlot(s.requests[id], s.requests[id].device)
    ensures SlotGivenBack(s, GiveBack(Put(s, id, s.requests[id].(aborted := aborted)), id), id, aborted)
  {
    var r := s.requests[id];
    assert CounterOk(s, r.device);
    hide BooksOk;
    CountUpdate(s.requests, id, Request(r.device, r.now, r.prev, Released, aborted), (q: Request) => HoldsSlot(q, r.device));
    assert s.requests[id := r.(aborted := aborted)][id := Request(r.device, r.now, r.prev, Released, aborted)] ==
           s.requests[id := Request(r.device, r.now, r.prev, Released, aborted)];
  }

  /**
   * In every run an admitted request gets its lease once it has left the lock, or gives its slot back if
   * it was aborted meanwhile; a lease gives the slot back on release and at once on abort; and a refused
   * request is gone.
   */
  lemma LeaseMeans(s: State, config: Config, clock: int, id: nat)
    requires Reachable(s, config, clock) && id < |s.requests|
    ensures var r, s' := s.requests[id], Next(s, Unlock(id));
            if r.pc.Settling? then OnlyMoved(s, s', id, if r.pc.admitted then Cleared else Gone) else s' == s
    ensures var r, s' := s.requests[id], Next(s, Build(id));
            if r.pc != Cleared then s' == s
            else if r.aborted then SlotGivenBack(s, s', id, true)
            else OnlyMoved(s, s', id, Leased) && s'.locks == s.locks
    ensures var s' := Next(s, Release(id));
            if s.requests[id].pc == Leased then SlotGivenBack(s, s', id, s.requests[id].aborted) else s' == s
    ensures var r, s' := s.requests[id], Next(s, Abort(id));
            if r.pc == Leased then SlotGivenBack(s, s', id, true)
            else s' == s.(requests := s.requests[id := Request(r.device, r.now, r.prev, r.pc, true)])
  {
    ReachableOk(s, config, clock);
    hide ChainOk, BooksOk, Reachable, SlotGivenBack, FreeSlot;
    var r := s.requests[id];
    assert Put(s, id, r.(aborted := r.aborted)) == s;
    if r.pc == Leased || r.pc == Cleared {
      GiveBackMeans(s, id, r.aborted);
      GiveBackMeans(s, id, true);
    }
  }

  // ---------------------------------------------------------------- a request on its own

  /** Everyone of the device has left the lock. */
  predicate Idle(requests: seq<Request>, device: string) {
    forall j :: 0 <= j < |requests| && requests[j].device == device ==> requests[j].pc in {Cleared, Leased, Released, Gone}
  }

  function RoomFor(s: State, device: string, now: int): bool {
    && AdmittedAfter(s.requests, device, now - 60_000) < s.config.requestsPerMinute
    && Slots(s.requests, device) < s.config.maxConcurrency
  }

  lemma ArrivalKeepsRoom(s: State, s': State, r: Request)
    requires s'.requests == s.requests + [r] && r.pc in {Waiting, Acting} && s'.config == s.config
    ensures HasRoom(s', r) <==> RoomFor(s, r.device, r.now)
  {
    CountSnoc(s.requests, r, (q: Request) => HoldsSlot(q, r.device));
    CountSnoc(s.requests, r, (q: Request) => WasAdmitted(q, r.device) && r.now - 60_000 < q.now);
  }

  /**
   * Wherever a run has got to, a request that arrives at an idle device, is not aborted and has tokens left
   * ends with a lease exactly if at its arrival there was room, and is otherwise turned away.
   */
  lemma UndisturbedRequestEnds(s: State, config: Config, clock: int, device: string, now: int)
    requires Reachable(s, config, clock) && s.clock <= now && Idle(s.requests, device)
    ensures var id := |s.requests|;
            var end := Run(s, [Arrive(device, now), Acquire(id), Decide(id, true), Unlock(id), Build(id)]);
            && |end.requests| == id + 1
            && end.requests[id].pc == if RoomFor(s, device, now) then Leased else Gone
  {
    hide Reachable, Next, Idle, RoomFor, HasRoom;
    var id := |s.requests|;
    var s1 := Next(s, Arrive(device, now));
    ArriveMeans(s, config, clock, device, now);
    NextReachable(s, config, clock, Arrive(device, now));
    assert s1.requests == s.requests + [s1.requests[id]];
    assert TurnHasCome(s1.requests, id) by { IdleMeansTurn(s, s1, device); }
    var s2 := Next(s1, Acquire(id));
    AcquireExactly(s1, config, clock, id);
    NextReachable(s1, config, clock, Acquire(id));
    assert s2.requests == s.requests + [s2.requests[id]];
    ArrivalKeepsRoom(s, s2, s2.requests[id]);
    var s3 := Next(s2, Decide(id, true));
    DecideExactly(s2, config, clock, id, true);
    NextReachable(s2, config, clock, Decide(id, true));
    var s4 := Next(s3, Unlock(id));
    LeaseMeans(s3, config, clock, id);
    NextReachable(s3, config, clock, Unlock(id));
    LeaseMeans(s4, config, clock, id);
    FiveSteps(s, Arrive(device, now), Acquire(id), Decide(id, true), Unlock(id), Build(id));
  }

  lemma IdleMeansTurn(s: State, s1: State, device: string)
    requires Idle(s.requests, device) && |s1.requests| == |s.requests| + 1 && s1.requests[..|s.requests|] == s.requests
    requires s1.requests[|s.requests|].device == device
    ensures TurnHasCome(s1.requests, |s.requests|)
  {
    assert forall j :: 0 <= j < |s.requests| ==> s1.requests[j] == s.requests[j];
  }

  lemma FiveSteps(s: State, a: Step, b: Step, c: Step, d: Step, e: Step)
    ensures Run(s, [a, b, c, d, e]) == Next(Next(Next(Next(Next(s, a), b), c), d), e)
  {
    hide Next;
    RunSnoc(s, [a, b, c, d], e);
    RunSnoc(s, [a, b, c], d);
    RunSnoc(s, [a, b], c);
    RunSnoc(s, [a], b);
    RunSnoc(s, [], a);
    assert [a, b, c, d] + [e] == [a, b, c, d, e] && [a, b, c] + [d] == [a, b, c, d] && [a, b] + [c] == [a, b, c];
    assert [a] + [b] == [a, b] && [] + [a] == [a];
  }
}
