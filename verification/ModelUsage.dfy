/**
 * Admission of model requests per device: a promise-chain lock that survives aborted waiters, a
 * pruned sliding window of admission times, and a counter of concurrent leases. Requests are
 * numbered in arrival order and a step is what happens between two awaits.
 */
module ModelUsage {
  import opened Prelude

  const WINDOW_MS := 60_000

  datatype Config = Config(requestsPerMinute: nat, maxConcurrency: nat)

  /**
   * Waiting for the predecessor's promise; Leaving after an abort, with the unlock chained to the
   * predecessor; Acting inside the lock; Settling once the action is over, admitted or not; Cleared
   * once unlocked with an admission but no lease yet; Leased; Released; Gone without an admission.
   */
  datatype Pc = Waiting | Leaving | Acting | Settling(admitted: bool) | Cleared | Leased | Released | Gone

  /** `prev` is the request whose promise this one awaits; None is an already resolved promise. */
  datatype Request = Request(device: string, now: int, prev: Option<nat>, pc: Pc, aborted: bool)

  datatype State = State(
    config: Config, requests: seq<Request>, locks: map<string, nat>, minuteRequests: map<string, seq<int>>,
    concurrency: map<string, nat>, clock: int)

  // ---------------------------------------------------------------- the admission decision

  function Recent(times: seq<int>, after: int): (r: seq<int>) {
    if |times| == 0 then []
    else
      var last := times[|times| - 1];
      Recent(times[..|times| - 1], after) + if last > after then [last] else []
  }

  function Times(m: map<string, seq<int>>, device: string): seq<int> {
    if device in m then m[device] else []
  }

  function Active(c: map<string, nat>, device: string): nat {
    if device in c then c[device] else 0
  }

  /** The rate and concurrency gates; `quotaLeft` says whether the daily and monthly token quotas allow it. */
  predicate Admits(s: State, device: string, now: int, quotaLeft: bool) {
    && |Recent(Times(s.minuteRequests, device), now - WINDOW_MS)| < s.config.requestsPerMinute
    && Active(s.concurrency, device) < s.config.maxConcurrency
    && quotaLeft
  }

  function FreeSlot(c: map<string, nat>, device: string): map<string, nat> {
    var current := if device in c then c[device] else 1;
    if current <= 1 then c - {device} else c[device := current - 1]
  }

  // ---------------------------------------------------------------- steps

  datatype Step =
    | Arrive(device: string, now: int)
    | Abort(id: nat)
    | Leave(id: nat)
    | Acquire(id: nat)
    | Decide(id: nat, quotaLeft: bool)
    | Unlock(id: nat)
    | Build(id: nat)
    | Release(id: nat)

  /** The promise of a request is resolved once its lock section is over. */
  predicate Resolved(r: Request) {
    r.pc.Cleared? || r.pc.Leased? || r.pc.Released? || r.pc.Gone?
  }

  predicate PrevResolved(s: State, r: Request) {
    r.prev.None? || (r.prev.value < |s.requests| && Resolved(s.requests[r.prev.value]))
  }

  function Put(s: State, id: nat, r: Request): State
    requires id < |s.requests|
  {
    s.(requests := s.requests[id := r])
  }

  /** `finish`: resolve the own promise, and drop the lock entry if it is still the own one. */
  function Finish(s: State, id: nat, pc: Pc): State
    requires id < |s.requests|
  {
    var r := s.requests[id];
    var locks := if r.device in s.locks && s.locks[r.device] == id then s.locks - {r.device} else s.locks;
    Put(s, id, r.(pc := pc)).(locks := locks)
  }

  function GiveBack(s: State, id: nat): State
    requires id < |s.requests|
  {
    var r := s.requests[id];
    Put(s, id, r.(pc := Released)).(concurrency := FreeSlot(s.concurrency, r.device))
  }

  /** A request arriving after the clock takes the tail of its device's chain. */
  function ArriveStep(s: State, device: string, now: int): State {
    if now < s.clock then s
    else
      var prev := if device in s.locks then Some(s.locks[device]) else None;
      s.(requests := s.requests + [Request(device, now, prev, Waiting, false)],
         locks := s.locks[device := |s.requests|], clock := now)
  }

  function DecideStep(s: State, id: nat, quotaLeft: bool): State
    requires id < |s.requests|
  {
    var r := s.requests[id];
    if r.aborted || !Admits(s, r.device, r.now, quotaLeft) then Put(s, id, r.(pc := Settling(false)))
    else
      Put(s, id, r.(pc := Settling(true))).(
        minuteRequests := s.minuteRequests[r.device := Recent(Times(s.minuteRequests, r.device), r.now - WINDOW_MS) + [r.now]],
        concurrency := s.concurrency[r.device := Active(s.concurrency, r.device) + 1])
  }

  /** An abort fires the listener of a built lease, which gives the slot back at once. */
  function AbortStep(s: State, id: nat): State
    requires id < |s.requests|
  {
    var r := s.requests[id];
    var s1 := Put(s, id, r.(aborted := true));
    if r.pc == Leased then GiveBack(s1, id) else s1
  }

  function Next(s: State, step: Step): State {
    if step.Arrive? then ArriveStep(s, step.device, step.now)
    else if step.id >= |s.requests| then s
    else
      var id, r := step.id, s.requests[step.id];
      match step
      case Abort(_) => AbortStep(s, id)
      case Leave(_) =>
        if r.pc == Waiting && r.aborted then Put(s, id, r.(pc := Leaving))
        else if r.pc == Leaving && PrevResolved(s, r) then Finish(s, id, Gone)
        else s
      case Acquire(_) =>
        if r.pc == Waiting && !r.aborted && PrevResolved(s, r) then Put(s, id, r.(pc := Acting)) else s
      case Decide(_, quotaLeft) => if r.pc == Acting then DecideStep(s, id, quotaLeft) else s
      case Unlock(_) => if r.pc.Settling? then Finish(s, id, if r.pc.admitted then Cleared else Gone) else s
      case Build(_) => if r.pc != Cleared then s else if r.aborted then GiveBack(s, id) else Put(s, id, r.(pc := Leased))
      case Release(_) => if r.pc == Leased then GiveBack(s, id) else s
      case Arrive(_, _) => s
  }

  function Run(s: State, steps: seq<Step>): State
    decreases |steps|
  {
    if steps == [] then s else Run(Next(s, steps[0]), steps[1..])
  }

  function Start(config: Config, clock: int): State {
    State(config, [], map[], map[], map[], clock)
  }

  // ---------------------------------------------------------------- invariant: the lock chain

  /** Every earlier request of the same device is over with the lock. */
  predicate AllBefore(requests: seq<Request>, id: nat)
    requires id < |requests|
  {
    forall j :: 0 <= j < id && requests[j].device == requests[id].device ==> Resolved(requests[j])
  }

  predicate InLock(r: Request) { r.pc.Acting? || r.pc.Settling? }

  /** Whoever holds or has left the lock came after all earlier requests had left it. */
  predicate Ordered(requests: seq<Request>, id: nat)
    requires id < |requests|
  {
    Resolved(requests[id]) || InLock(requests[id]) ==> AllBefore(requests, id)
  }

  /** The awaited promise is that of the immediate predecessor, or there is nobody left to wait for. */
  predicate Chained(requests: seq<Request>, id: nat)
    requires id < |requests|
  {
    var r := requests[id];
    match r.prev
    case None => AllBefore(requests, id)
    case Some(p) =>
      && p < id && requests[p].device == r.device
      && forall j :: p < j < id ==> requests[j].device != r.device
  }

  /** The lock entry is the last request of its device and unfinished; without an entry all are finished. */
  predicate LocksOk(requests: seq<Request>, locks: map<string, nat>) {
    && (forall d :: d in locks ==>
          && locks[d] < |requests| && requests[locks[d]].device == d && !Resolved(requests[locks[d]])
          && forall j :: locks[d] < j < |requests| ==> requests[j].device != d)
    && (forall j :: 0 <= j < |requests| && requests[j].device !in locks ==> Resolved(requests[j]))
  }

  ghost predicate ChainOk(s: State) {
    && (forall id :: 0 <= id < |s.requests| ==> Ordered(s.requests, id) && Chained(s.requests, id))
    && LocksOk(s.requests, s.locks)
  }

  lemma PrevImpliesAll(s: State, id: nat)
    requires ChainOk(s) && id < |s.requests| && PrevResolved(s, s.requests[id])
    ensures AllBefore(s.requests, id)
  {
    assert Chained(s.requests, id);
    var r := s.requests[id];
    if r.prev.Some? {
      var p := r.prev.value;
      assert Ordered(s.requests, p);
      forall j | 0 <= j < id && s.requests[j].device == r.device ensures Resolved(s.requests[j]) {
        assert j <= p;
      }
    }
  }

  /** Moving one request forward keeps the chain, if it respects the order and the lock table. */
  lemma PutKeepsChain(s: State, id: nat, r: Request)
    requires ChainOk(s) && id < |s.requests|
    requires r.device == s.requests[id].device && r.prev == s.requests[id].prev
    requires Resolved(s.requests[id]) == Resolved(r)
    requires InLock(r) ==> InLock(s.requests[id]) || PrevResolved(s, s.requests[id])
    ensures ChainOk(Put(s, id, r))
  {
    var rs, rs' := s.requests, s.requests[id := r];
    if InLock(r) && !InLock(rs[id]) {
      PrevImpliesAll(s, id);
    }
    forall k | 0 <= k < |rs'| ensures Ordered(rs', k) && Chained(rs', k) {
      assert Ordered(rs, k) && Chained(rs, k);
    }
  }

  /** Leaving the lock, or leaving the queue behind a finished predecessor, keeps the chain. */
  lemma FinishKeepsChain(s: State, id: nat, pc: Pc)
    requires ChainOk(s) && id < |s.requests| && !Resolved(s.requests[id]) && Resolved(s.requests[id].(pc := pc))
    requires InLock(s.requests[id]) || PrevResolved(s, s.requests[id])
    ensures ChainOk(Finish(s, id, pc))
  {
    var rs, rs' := s.requests, s.requests[id := s.requests[id].(pc := pc)];
    assert AllBefore(rs, id) by {
      assert Ordered(rs, id);
      if PrevResolved(s, rs[id]) { PrevImpliesAll(s, id); }
    }
    forall k | 0 <= k < |rs'| ensures Ordered(rs', k) && Chained(rs', k) {
      assert Ordered(rs, k) && Chained(rs, k);
      hide ChainOk, LocksOk;
    }
    assert LocksOk(rs', Finish(s, id, pc).locks) by {
      FinishKeepsLocks(rs, s.locks, id, rs'[id]);
    }
  }

  /** Finishing the tail drops its entry, and then everyone of the device is finished. */
  lemma FinishKeepsLocks(rs: seq<Request>, locks: map<string, nat>, id: nat, r: Request)
    requires LocksOk(rs, locks) && id < |rs| && AllBefore(rs, id) && !Resolved(rs[id])
    requires r.device == rs[id].device && Resolved(r)
    ensures LocksOk(rs[id := r], if r.device in locks && locks[r.device] == id then locks - {r.device} else locks)
  {
    var t := locks[r.device];
    if t != id {
      assert id < t;
    }
  }

  lemma ArriveKeepsChain(s: State, device: string, now: int)
    requires ChainOk(s)
    ensures ChainOk(ArriveStep(s, device, now))
  {
    var s' := ArriveStep(s, device, now);
    if s' != s {
      var rs, rs' := s.requests, s'.requests;
      forall k | 0 <= k < |rs'| ensures Ordered(rs', k) && Chained(rs', k) {
        if k < |rs| {
          assert Ordered(rs, k) && Chained(rs, k);
        }
      }
    }
  }

  // ---------------------------------------------------------------- invariant: leases and window

  /** The request holds a concurrency slot. */
  predicate HoldsSlot(r: Request, device: string) {
    r.device == device && (r.pc == Settling(true) || r.pc == Cleared || r.pc == Leased)
  }

  function Slots(requests: seq<Request>, device: string): nat {
    Count(requests, (r: Request) => HoldsSlot(r, device))
  }

  /** The request was admitted, whatever became of its lease. */
  predicate WasAdmitted(r: Request, device: string) {
    r.device == device && (r.pc == Settling(true) || r.pc == Cleared || r.pc == Leased || r.pc == Released)
  }

  /** Admissions of a device in the sixty seconds up to and including `x`. */
  function AdmittedInWindow(requests: seq<Request>, device: string, x: int): nat {
    Count(requests, (r: Request) => WasAdmitted(r, device) && x - WINDOW_MS < r.now <= x)
  }

  function AdmittedAfter(requests: seq<Request>, device: string, after: int): nat {
    Count(requests, (r: Request) => WasAdmitted(r, device) && after < r.now)
  }

  /** The counter is the number of granted, unreleased leases; absent means zero; it respects the limit. */
  predicate CounterOk(s: State, device: string) {
    && Active(s.concurrency, device) == Slots(s.requests, device) <= s.config.maxConcurrency
    && (device in s.concurrency ==> s.concurrency[device] > 0)
  }

  /** From the last pruning on, the pruned list counts exactly like the full admission history. */
  ghost predicate ListOk(s: State, device: string) {
    var times := Times(s.minuteRequests, device);
    && (times == [] ==> NeverAdmitted(s.requests, device))
    && (times != [] ==> forall after :: after >= times[|times| - 1] - WINDOW_MS ==>
          |Recent(times, after)| == AdmittedAfter(s.requests, device, after))
    && (times != [] ==> LastAdmission(s.requests, device, times[|times| - 1]))
  }

  predicate NeverAdmitted(requests: seq<Request>, device: string) {
    forall i :: 0 <= i < |requests| ==> !WasAdmitted(requests[i], device)
  }

  /** `t` is the time of an admission, and no admission is later. */
  predicate LastAdmission(requests: seq<Request>, device: string, t: int) {
    && (exists i :: 0 <= i < |requests| && WasAdmitted(requests[i], device) && requests[i].now == t)
    && (forall i :: 0 <= i < |requests| && WasAdmitted(requests[i], device) ==> requests[i].now <= t)
  }

  ghost predicate WindowOk(s: State, device: string) {
    forall x: int :: AdmittedInWindow(s.requests, device, x) <= s.config.requestsPerMinute
  }

  predicate TimesOrdered(s: State) {
    && (forall i, j :: 0 <= i < j < |s.requests| ==> s.requests[i].now <= s.requests[j].now)
    && (forall i :: 0 <= i < |s.requests| ==> s.requests[i].now <= s.clock)
  }

  // ---------------------------------------------------------------- every step keeps the invariant

  /** The two views of one request that the books depend on. */
  predicate SameEntry(r: Request, r': Request) {
    && r'.device == r.device && r'.now == r.now
    && (HoldsSlot(r, r.device) <==> HoldsSlot(r', r.device))
    && (WasAdmitted(r, r.device) <==> WasAdmitted(r', r.device))
  }

  ghost predicate BooksOk(s: State) {
    && TimesOrdered(s)
    && (forall d: string :: CounterOk(s, d))
    && (forall d: string :: ListOk(s, d))
    && (forall d: string :: WindowOk(s, d))
  }

  /** A step that changes no entry, no list and no counter keeps the books. */
  lemma QuietKeepsBooks(s: State, s': State, id: nat)
    requires BooksOk(s) && id < |s.requests| == |s'.requests|
    requires s'.requests == s.requests[id := s'.requests[id]] && SameEntry(s.requests[id], s'.requests[id])
    requires s'.config == s.config && s'.minuteRequests == s.minuteRequests && s'.concurrency == s.concurrency
    requires s'.clock == s.clock
    ensures BooksOk(s')
  {
    forall d: string ensures CounterOk(s', d) && ListOk(s', d) && WindowOk(s', d) {
      assert CounterOk(s, d) && ListOk(s, d) && WindowOk(s, d);
      CountUpdate(s.requests, id, s'.requests[id], (r: Request) => HoldsSlot(r, d));
      SameAdmissions(s, s', id, d);
    }
  }

  lemma ArriveKeepsBooks(s: State, device: string, now: int)
    requires BooksOk(s)
    ensures BooksOk(ArriveStep(s, device, now))
  {
    var s' := ArriveStep(s, device, now);
    if s' != s {
      var rs, r := s.requests, s'.requests[|s.requests|];
      forall d: string ensures CounterOk(s', d) && ListOk(s', d) && WindowOk(s', d) {
        assert CounterOk(s, d) && ListOk(s, d) && WindowOk(s, d);
        CountSnoc(rs, r, (r: Request) => HoldsSlot(r, d));
        forall after ensures AdmittedAfter(s'.requests, d, after) == AdmittedAfter(rs, d, after) {
          CountSnoc(rs, r, (r: Request) => WasAdmitted(r, d) && after < r.now);
        }
        forall x ensures AdmittedInWindow(s'.requests, d, x) == AdmittedInWindow(rs, d, x) {
          CountSnoc(rs, r, (r: Request) => WasAdmitted(r, d) && x - WINDOW_MS < r.now <= x);
        }
        LastSurvives(rs, s'.requests, d);
      }
    }
  }

  /** Appending a request that is not admitted leaves the last admission where it was. */
  lemma LastSurvives(rs: seq<Request>, rs': seq<Request>, d: string)
    requires |rs'| == |rs| + 1 && rs'[..|rs|] == rs && !WasAdmitted(rs'[|rs|], d)
    ensures forall t :: LastAdmission(rs, d, t) ==> LastAdmission(rs', d, t)
  {
    assert forall i :: 0 <= i < |rs| ==> rs'[i] == rs[i];
    forall t | LastAdmission(rs, d, t) ensures LastAdmission(rs', d, t) {
      var i :| 0 <= i < |rs| && WasAdmitted(rs[i], d) && rs[i].now == t;
      assert WasAdmitted(rs'[i], d) && rs'[i].now == t;
    }
  }

  /** The counter after a slot is given back. */
  lemma GiveBackKeepsCounter(s: State, id: nat)
    requires id < |s.requests| && HoldsSlot(s.requests[id], s.requests[id].device) && CounterOk(s, s.requests[id].device)
    ensures CounterOk(GiveBack(s, id), s.requests[id].device)
  {
    var d, r := s.requests[id].device, s.requests[id].(pc := Released);
    CountUpdate(s.requests, id, r, (r: Request) => HoldsSlot(r, d));
  }

  /** A change that keeps a device's admissions and its list keeps the list's and the window's books. */
  lemma SameAdmissions(s: State, s': State, id: nat, d: string)
    requires ListOk(s, d) && WindowOk(s, d) && id < |s.requests| == |s'.requests|
    requires s'.requests == s.requests[id := s'.requests[id]] && s'.requests[id].now == s.requests[id].now
    requires WasAdmitted(s'.requests[id], d) == WasAdmitted(s.requests[id], d)
    requires s'.config == s.config && s'.minuteRequests == s.minuteRequests
    ensures ListOk(s', d) && WindowOk(s', d)
  {
    var rs, r := s.requests, s'.requests[id];
    hide WasAdmitted;
    forall after ensures AdmittedAfter(rs[id := r], d, after) == AdmittedAfter(rs, d, after) {
      CountUpdate(rs, id, r, (q: Request) => WasAdmitted(q, d) && after < q.now);
    }
    forall x: int ensures AdmittedInWindow(s'.requests, d, x) <= s.config.requestsPerMinute {
      CountUpdate(rs, id, r, (q: Request) => WasAdmitted(q, d) && x - WINDOW_MS < q.now <= x);
      assert AdmittedInWindow(rs, d, x) <= s.config.requestsPerMinute;
    }
    forall t | LastAdmission(rs, d, t) ensures LastAdmission(rs[id := r], d, t) {
      var i :| 0 <= i < |rs| && WasAdmitted(rs[i], d) && rs[i].now == t;
      assert WasAdmitted(rs[id := r][i], d) && rs[id := r][i].now == t;
    }
  }

  lemma GiveBackKeepsBooks(s: State, id: nat)
    requires BooksOk(s) && id < |s.requests| && HoldsSlot(s.requests[id], s.requests[id].device)
    ensures BooksOk(GiveBack(s, id))
  {
    var s', rs, r := GiveBack(s, id), s.requests, s.requests[id].(pc := Released);
    assert CounterOk(s, r.device);
    GiveBackKeepsCounter(s, id);
    forall d: string ensures CounterOk(s', d) && ListOk(s', d) && WindowOk(s', d) {
      assert CounterOk(s, d) && ListOk(s, d) && WindowOk(s, d);
      SameAdmissions(s, s', id, d);
      CountUpdate(rs, id, r, (r: Request) => HoldsSlot(r, d));
    }
  }

  lemma {:induction false} RecentAgain(times: seq<int>, a: int, b: int)
    requires a <= b
    ensures Recent(Recent(times, a), b) == Recent(times, b)
  {
    if |times| > 0 {
      var front, last := times[..|times| - 1], times[|times| - 1];
      RecentAgain(front, a, b);
      if last > a {
        RecentSnoc(Recent(front, a), last, b);
      } else {
        assert Recent(front, a) + [] == Recent(front, a);
        assert Recent(front, b) + [] == Recent(front, b);
      }
    }
  }

  lemma RecentSnoc(times: seq<int>, t: int, after: int)
    ensures Recent(times + [t], after) == Recent(times, after) + if t > after then [t] else []
  {
    assert (times + [t])[..|times|] == times;
  }

  /** Whoever is admitted so far arrived, and was stamped, no later than the request inside the lock. */
  lemma AdmittedEarlier(s: State, id: nat)
    requires ChainOk(s) && TimesOrdered(s) && id < |s.requests| && InLock(s.requests[id])
    ensures forall k :: 0 <= k < |s.requests| && WasAdmitted(s.requests[k], s.requests[id].device) ==>
              s.requests[k].now <= s.requests[id].now
  {
    forall k | 0 <= k < |s.requests| && WasAdmitted(s.requests[k], s.requests[id].device)
      ensures s.requests[k].now <= s.requests[id].now
    {
      assert Ordered(s.requests, k);
    }
  }

  /** Inside the lock, the pruned list counts the last minute exactly as the full history does. */
  lemma PrunedListIsFaithful(s: State, id: nat)
    requires ChainOk(s) && BooksOk(s) && id < |s.requests| && InLock(s.requests[id])
    ensures var r := s.requests[id];
            forall after :: after >= r.now - WINDOW_MS ==>
              |Recent(Times(s.minuteRequests, r.device), after)| == AdmittedAfter(s.requests, r.device, after)
  {
    var r := s.requests[id];
    var times := Times(s.minuteRequests, r.device);
    assert ListOk(s, r.device);
    AdmittedEarlier(s, id);
    if times == [] {
      forall after ensures AdmittedAfter(s.requests, r.device, after) == 0 {
        CountZero(s.requests, (q: Request) => WasAdmitted(q, r.device) && after < q.now);
      }
    }
  }

  /** Pruning and pushing an admission at `now` counts one more from any later instant. */
  lemma PushedCount(times: seq<int>, now: int, rs: seq<Request>, rs': seq<Request>, d: string)
    requires forall after :: after >= now - WINDOW_MS ==> |Recent(times, after)| == AdmittedAfter(rs, d, after)
    requires forall after :: AdmittedAfter(rs', d, after) == AdmittedAfter(rs, d, after) + if after < now then 1 else 0
    ensures var pushed := Recent(times, now - WINDOW_MS) + [now];
            forall after :: after >= now - WINDOW_MS ==> |Recent(pushed, after)| == AdmittedAfter(rs', d, after)
  {
    hide AdmittedAfter;
    var pruned := Recent(times, now - WINDOW_MS);
    forall after | after >= now - WINDOW_MS ensures |Recent(pruned + [now], after)| == AdmittedAfter(rs', d, after) {
      RecentAgain(times, now - WINDOW_MS, after);
      RecentSnoc(pruned, now, after);
      assert |Recent(times, after)| == AdmittedAfter(rs, d, after);
    }
  }

  /** An admission adds one to every count whose window holds it. */
  lemma AdmitCounts(rs: seq<Request>, id: nat, r: Request, d: string)
    requires id < |rs| && !WasAdmitted(rs[id], d) && WasAdmitted(r, d)
    ensures forall after :: AdmittedAfter(rs[id := r], d, after) == AdmittedAfter(rs, d, after) + if after < r.now then 1 else 0
    ensures forall x :: AdmittedInWindow(rs[id := r], d, x) ==
                        AdmittedInWindow(rs, d, x) + if x - WINDOW_MS < r.now <= x then 1 else 0
  {
    hide WasAdmitted;
    forall after
      ensures AdmittedAfter(rs[id := r], d, after) == AdmittedAfter(rs, d, after) + if after < r.now then 1 else 0
    {
      CountUpdate(rs, id, r, (q: Request) => WasAdmitted(q, d) && after < q.now);
    }
    forall x
      ensures AdmittedInWindow(rs[id := r], d, x) == AdmittedInWindow(rs, d, x) + if x - WINDOW_MS < r.now <= x then 1 else 0
    {
      CountUpdate(rs, id, r, (q: Request) => WasAdmitted(q, d) && x - WINDOW_MS < q.now <= x);
    }
  }

  /** An admission is the last one of its device. */
  lemma AdmissionIsLast(s: State, id: nat)
    requires ChainOk(s) && BooksOk(s) && id < |s.requests| && s.requests[id].pc == Acting
    ensures var r := s.requests[id];
            LastAdmission(s.requests[id := r.(pc := Settling(true))], r.device, r.now)
  {
    var r := s.requests[id];
    var rs' := s.requests[id := r.(pc := Settling(true))];
    AdmittedEarlier(s, id);
    hide ChainOk, BooksOk;
    assert WasAdmitted(rs'[id], r.device) && rs'[id].now == r.now;
  }

  /** The list after an admission. */
  lemma AdmissionKeepsList(s: State, id: nat)
    requires ChainOk(s) && BooksOk(s) && id < |s.requests| && s.requests[id].pc == Acting
    requires !s.requests[id].aborted && Admits(s, s.requests[id].device, s.requests[id].now, true)
    ensures ListOk(DecideStep(s, id, true), s.requests[id].device)
  {
    var r, s' := s.requests[id], DecideStep(s, id, true);
    var d, rs' := r.device, s'.requests;
    hide ChainOk, BooksOk, LastAdmission, Recent, AdmittedAfter, AdmittedInWindow, Admits;
    assert Times(s'.minuteRequests, d) == Recent(Times(s.minuteRequests, d), r.now - WINDOW_MS) + [r.now];
    AdmissionIsLast(s, id);
    PrunedListIsFaithful(s, id);
    AdmitCounts(s.requests, id, rs'[id], d);
    PushedCount(Times(s.minuteRequests, d), r.now, s.requests, rs', d);
  }

  /** The last minute's admissions bound those of any window that holds `now`. */
  lemma WindowWithin(rs: seq<Request>, d: string, now: int, x: int)
    requires now <= x
    ensures AdmittedInWindow(rs, d, x) <= AdmittedAfter(rs, d, now - WINDOW_MS)
  {
    hide WasAdmitted;
    CountLe(rs, (q: Request) => WasAdmitted(q, d) && x - WINDOW_MS < q.now <= x,
            rs, (q: Request) => WasAdmitted(q, d) && now - WINDOW_MS < q.now);
  }

  /** The window after an admission: the list was shorter than the limit, so no window exceeds it. */
  lemma AdmissionKeepsWindow(s: State, id: nat)
    requires ChainOk(s) && BooksOk(s) && id < |s.requests| && s.requests[id].pc == Acting
    requires !s.requests[id].aborted && Admits(s, s.requests[id].device, s.requests[id].now, true)
    ensures WindowOk(DecideStep(s, id, true), s.requests[id].device)
  {
    var r, s' := s.requests[id], DecideStep(s, id, true);
    var d, rs, rs' := r.device, s.requests, s'.requests;
    assert WindowOk(s, d);
    PrunedListIsFaithful(s, id);
    AdmitCounts(rs, id, rs'[id], d);
    hide ChainOk, BooksOk, Recent, AdmittedAfter, AdmittedInWindow;
    forall x: int ensures AdmittedInWindow(rs', d, x) <= s.config.requestsPerMinute {
      assert AdmittedInWindow(rs, d, x) <= s.config.requestsPerMinute;
      if x - WINDOW_MS < r.now <= x {
        WindowWithin(rs, d, r.now, x);
      }
    }
  }

  /** The counter after an admission. */
  lemma AdmissionKeepsCounter(s: State, id: nat)
    requires id < |s.requests| && s.requests[id].pc == Acting && CounterOk(s, s.requests[id].device)
    requires !s.requests[id].aborted && Admits(s, s.requests[id].device, s.requests[id].now, true)
    ensures CounterOk(DecideStep(s, id, true), s.requests[id].device)
  {
    var d := s.requests[id].device;
    CountUpdate(s.requests, id, DecideStep(s, id, true).requests[id], (q: Request) => HoldsSlot(q, d));
  }

  lemma AdmissionKeepsBooks(s: State, id: nat)
    requires ChainOk(s) && BooksOk(s) && id < |s.requests| && s.requests[id].pc == Acting
    requires !s.requests[id].aborted && Admits(s, s.requests[id].device, s.requests[id].now, true)
    ensures BooksOk(DecideStep(s, id, true))
  {
    var r, s' := s.requests[id], DecideStep(s, id, true);
    assert CounterOk(s, r.device);
    AdmissionKeepsCounter(s, id);
    AdmissionKeepsList(s, id);
    AdmissionKeepsWindow(s, id);
    forall d: string ensures CounterOk(s', d) && ListOk(s', d) && WindowOk(s', d) {
      if d != r.device {
        assert CounterOk(s, d) && ListOk(s, d) && WindowOk(s, d);
        OtherDevice(s, s', id, d);
      }
    }
  }

  /** A request of another device does not enter a device's books. */
  lemma OtherDevice(s: State, s': State, id: nat, d: string)
    requires CounterOk(s, d) && ListOk(s, d) && WindowOk(s, d)
    requires id < |s.requests| == |s'.requests| && s'.requests == s.requests[id := s'.requests[id]]
    requires s.requests[id].device == s'.requests[id].device != d
    requires s'.config == s.config && Times(s'.minuteRequests, d) == Times(s.minuteRequests, d)
    requires (d in s'.concurrency <==> d in s.concurrency) && Active(s'.concurrency, d) == Active(s.concurrency, d)
    ensures CounterOk(s', d) && ListOk(s', d) && WindowOk(s', d)
  {
    var rs, r := s.requests, s'.requests[id];
    CountUpdate(rs, id, r, (q: Request) => HoldsSlot(q, d));
    forall after ensures AdmittedAfter(rs[id := r], d, after) == AdmittedAfter(rs, d, after) {
      CountUpdate(rs, id, r, (q: Request) => WasAdmitted(q, d) && after < q.now);
    }
    forall x: int ensures AdmittedInWindow(s'.requests, d, x) <= s.config.requestsPerMinute {
      CountUpdate(rs, id, r, (q: Request) => WasAdmitted(q, d) && x - WINDOW_MS < q.now <= x);
      assert AdmittedInWindow(rs, d, x) <= s.config.requestsPerMinute;
    }
    forall t | LastAdmission(rs, d, t) ensures LastAdmission(rs[id := r], d, t) {
      var i :| 0 <= i < |rs| && WasAdmitted(rs[i], d) && rs[i].now == t;
      assert WasAdmitted(rs[id := r][i], d) && rs[id := r][i].now == t;
    }
  }

  lemma NextKeepsInv(s: State, step: Step)
    requires ChainOk(s) && BooksOk(s)
    ensures ChainOk(Next(s, step)) && BooksOk(Next(s, step))
  {
    hide ChainOk, BooksOk, Admits, FreeSlot;
    var s' := Next(s, step);
    if step.Arrive? {
      ArriveKeepsChain(s, step.device, step.now);
      ArriveKeepsBooks(s, step.device, step.now);
    } else if step.id < |s.requests| && s' != s {
      var id, r := step.id, s.requests[step.id];
      match step {
        case Abort(_) => AbortKeepsInv(s, id);
        case Leave(_) =>
          if r.pc == Waiting { PutKeepsChain(s, id, r.(pc := Leaving)); } else { FinishKeepsChain(s, id, Gone); }
          QuietKeepsBooks(s, s', id);
        case Acquire(_) =>
          PutKeepsChain(s, id, r.(pc := Acting));
          QuietKeepsBooks(s, s', id);
        case Decide(_, quotaLeft) => DecideKeepsInv(s, id, quotaLeft);
        case Unlock(_) =>
          FinishKeepsChain(s, id, if r.pc.admitted then Cleared else Gone);
          QuietKeepsBooks(s, s', id);
        case Build(_) =>
          if r.aborted { GiveBackKeepsInv(s, id); } else {
            PutKeepsChain(s, id, r.(pc := Leased));
            QuietKeepsBooks(s, s', id);
          }
        case Release(_) => GiveBackKeepsInv(s, id);
      }
    }
  }

  lemma GiveBackKeepsInv(s: State, id: nat)
    requires ChainOk(s) && BooksOk(s) && id < |s.requests| && (s.requests[id].pc == Cleared || s.requests[id].pc == Leased)
    ensures ChainOk(GiveBack(s, id)) && BooksOk(GiveBack(s, id))
  {
    PutKeepsChain(s, id, s.requests[id].(pc := Released));
    GiveBackKeepsBooks(s, id);
  }

  lemma AbortKeepsInv(s: State, id: nat)
    requires ChainOk(s) && BooksOk(s) && id < |s.requests|
    ensures ChainOk(AbortStep(s, id)) && BooksOk(AbortStep(s, id))
  {
    hide ChainOk, BooksOk;
    var r := s.requests[id].(aborted := true);
    PutKeepsChain(s, id, r);
    QuietKeepsBooks(s, Put(s, id, r), id);
    if r.pc == Leased {
      GiveBackKeepsInv(Put(s, id, r), id);
    }
  }

  lemma DecideKeepsInv(s: State, id: nat, quotaLeft: bool)
    requires ChainOk(s) && BooksOk(s) && id < |s.requests| && s.requests[id].pc == Acting
    ensures ChainOk(DecideStep(s, id, quotaLeft)) && BooksOk(DecideStep(s, id, quotaLeft))
  {
    hide BooksOk;
    var r, s' := s.requests[id], DecideStep(s, id, quotaLeft);
    PutKeepsChain(s, id, s'.requests[id]);
    if !r.aborted && Admits(s, r.device, r.now, quotaLeft) {
      assert s' == DecideStep(s, id, true);
      AdmissionKeepsBooks(s, id);
    } else {
      QuietKeepsBooks(s, s', id);
    }
  }

  lemma {:induction false} RunKeepsInv(s: State, steps: seq<Step>)
    requires ChainOk(s) && BooksOk(s)
    ensures ChainOk(Run(s, steps)) && BooksOk(Run(s, steps)) && Run(s, steps).config == s.config
    decreases |steps|
  {
    hide ChainOk, BooksOk;
    if steps != [] {
      NextKeepsInv(s, steps[0]);
      RunKeepsInv(Next(s, steps[0]), steps[1..]);
    }
  }

  lemma StartInv(config: Config, clock: int)
    ensures ChainOk(Start(config, clock)) && BooksOk(Start(config, clock))
  {
  }

  // ---------------------------------------------------------------- main results

  /**
   * In every run: two requests of one device are never inside the lock together; whoever is inside,
   * or has been, came after every earlier arrival of its device had finished, aborted waiters
   * included; and without a lock entry every request of the device has finished.
   */
  lemma LockIsFifo(config: Config, clock: int, steps: seq<Step>, i: nat, j: nat)
    requires i < |Run(Start(config, clock), steps).requests| && j < |Run(Start(config, clock), steps).requests|
    requires Run(Start(config, clock), steps).requests[i].device == Run(Start(config, clock), steps).requests[j].device
    ensures var s := Run(Start(config, clock), steps);
            && (InLock(s.requests[i]) && InLock(s.requests[j]) ==> i == j)
            && (i < j && (InLock(s.requests[j]) || Resolved(s.requests[j])) ==> Resolved(s.requests[i]))
            && (s.requests[i].device !in s.locks ==> Resolved(s.requests[i]))
  {
    hide BooksOk;
    StartInv(config, clock);
    RunKeepsInv(Start(config, clock), steps);
    var s := Run(Start(config, clock), steps);
    assert Ordered(s.requests, i) && Ordered(s.requests, j);
  }

  /** In every run the counter is the number of granted, unreleased leases and respects the limit. */
  lemma CounterIsExact(config: Config, clock: int, steps: seq<Step>, device: string)
    ensures var s := Run(Start(config, clock), steps);
            && Active(s.concurrency, device) == Slots(s.requests, device) <= config.maxConcurrency
            && (device in s.concurrency ==> s.concurrency[device] > 0)
  {
    hide ChainOk;
    StartInv(config, clock);
    RunKeepsInv(Start(config, clock), steps);
    assert CounterOk(Run(Start(config, clock), steps), device);
  }

  /**
   * In every run the rate gate decides on the pruned list exactly as it would on the full history of
   * admissions, and no sixty seconds hold more admissions of a device than the rate allows.
   */
  lemma WindowIsExact(config: Config, clock: int, steps: seq<Step>, id: nat, device: string, x: int)
    requires id < |Run(Start(config, clock), steps).requests|
    ensures var s := Run(Start(config, clock), steps);
            var r := s.requests[id];
            && (r.pc == Acting ==>
                  (|Recent(Times(s.minuteRequests, r.device), r.now - WINDOW_MS)| < config.requestsPerMinute <==>
                   AdmittedAfter(s.requests, r.device, r.now - WINDOW_MS) < config.requestsPerMinute))
            && AdmittedInWindow(s.requests, device, x) <= config.requestsPerMinute
  {
    StartInv(config, clock);
    RunKeepsInv(Start(config, clock), steps);
    var s := Run(Start(config, clock), steps);
    assert WindowOk(s, device);
    if s.requests[id].pc == Acting {
      PrunedListIsFaithful(s, id);
    }
  }

  /** Releasing again, by call or by abort, changes nothing but the abort mark. */
  lemma ReleaseIsIdempotent(s: State, id: nat)
    requires id < |s.requests|
    ensures Next(Next(s, Release(id)), Release(id)) == Next(s, Release(id))
    ensures s.requests[id].pc == Released ==> Next(s, Abort(id)).concurrency == s.concurrency
  {
  }

  // ---------------------------------------------------------------- the module's maps

  class UsageMaps {
    var minuteRequests: map<string, seq<int>>
    var concurrency: map<string, nat>
    var admissionLocks: map<string, nat>

    constructor ()
      ensures minuteRequests == map[] && concurrency == map[] && admissionLocks == map[]
    {
      minuteRequests, concurrency, admissionLocks := map[], map[], map[];
    }

    /** Take the tail of the device's chain. */
    method Join(device: string, id: nat) returns (prev: Option<nat>)
      modifies this`admissionLocks
      ensures prev == if device in old(admissionLocks) then Some(old(admissionLocks)[device]) else None
      ensures admissionLocks == old(admissionLocks)[device := id]
    {
      prev := if device in admissionLocks then Some(admissionLocks[device]) else None;
      admissionLocks := admissionLocks[device := id];
    }

    /** Drop the entry, but only if it is still the own one. */
    method Finished(device: string, id: nat)
      modifies this`admissionLocks
      ensures admissionLocks == if device in old(admissionLocks) && old(admissionLocks)[device] == id
                                then old(admissionLocks) - {device} else old(admissionLocks)
    {
      if device in admissionLocks && admissionLocks[device] == id {
        admissionLocks := admissionLocks - {device};
      }
    }

    method PruneBefore(device: string, after: int) returns (recent: seq<int>)
      ensures recent == Recent(Times(minuteRequests, device), after)
    {
      var times := if device in minuteRequests then minuteRequests[device] else [];
      recent := [];
      var i := 0;
      while i < |times|
        invariant i <= |times|
        invariant recent == Recent(times[..i], after)
      {
        assert times[..i + 1][..i] == times[..i];
        recent := recent + if times[i] > after then [times[i]] else [];
        i := i + 1;
      }
      assert times[..i] == times;
    }

    /** The synchronous part of an admission: both gates, then both maps. */
    method TryAdmit(config: Config, device: string, now: int, quotaLeft: bool) returns (admitted: bool)
      modifies this`minuteRequests, this`concurrency
      ensures admitted == Admits(State(config, [], map[], old(minuteRequests), old(concurrency), now), device, now, quotaLeft)
      ensures !admitted ==> minuteRequests == old(minuteRequests) && concurrency == old(concurrency)
      ensures admitted ==>
                && minuteRequests == old(minuteRequests)[device := Recent(Times(old(minuteRequests), device), now - WINDOW_MS) + [now]]
                && concurrency == old(concurrency)[device := Active(old(concurrency), device) + 1]
    {
      var recent := PruneBefore(device, now - WINDOW_MS);
      var active := if device in concurrency then concurrency[device] else 0;
      if |recent| >= config.requestsPerMinute || active >= config.maxConcurrency || !quotaLeft {
        return false;
      }
      minuteRequests := minuteRequests[device := recent + [now]];
      concurrency := concurrency[device := active + 1];
      admitted := true;
    }

    /** Give a slot back: one less for the device, no other device touched, and no entry left at zero. */
    method FreeOne(device: string)
      modifies this`concurrency
      ensures concurrency == FreeSlot(old(concurrency), device)
      ensures Active(old(concurrency), device) > 0 ==> Active(concurrency, device) == Active(old(concurrency), device) - 1
      ensures forall d :: d != device ==> (d in concurrency <==> d in old(concurrency)) && Active(concurrency, d) == Active(old(concurrency), d)
      ensures (forall d :: d in old(concurrency) ==> old(concurrency)[d] > 0) ==> forall d :: d in concurrency ==> concurrency[d] > 0
    {
      var current := if device in concurrency then concurrency[device] else 1;
      if current <= 1 {
        concurrency := concurrency - {device};
      } else {
        concurrency := concurrency[device := current - 1];
      }
    }
  }
}
