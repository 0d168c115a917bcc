/**
 * What the outbox and its worker answer, in the fields of the rows: which rows a claim takes and how it
 * leaves them, that a lease lasts as long as was asked for, and that a worker which keeps within its
 * lease gets every verdict it should.
 */
module OutboxOutcomes {
  import opened Prelude
  import opened BillingOutbox
  import opened OutboxWorker

  // ---------------------------------------------------------------- a claim

  function AskedLimit(limit: Option<int>): int { if limit.Some? then limit.value else 25 }

  function AskedLease(lease: Option<int>): int { if lease.Some? then lease.value else 30_000 }

  predicate ClaimWellFormed(limit: Option<int>, lease: Option<int>, now: Option<int>) {
    1 <= AskedLimit(limit) <= 100 && 1_000 <= AskedLease(lease) <= 300_000 && now.Some?
  }

  /** One more attempt, the new token, the lease, and no last error; the other fields stay. */
  function TakenRow(r: Row, token: nat, until: int): Row {
    Row(r.uid, r.settlement, r.attempts + 1, r.availableAt, Some(until), Some(token),
        r.publishedAt, r.deadLetteredAt, None, r.createdAt)
  }

  /** The named rows are taken and every other row is as before. */
  predicate OnlyTaken(rows: seq<Row>, rows': seq<Row>, ids: seq<nat>, token: nat, until: int) {
    && |rows'| == |rows|
    && forall i :: 0 <= i < |rows| ==> rows'[i] == if i in ids then TakenRow(rows[i], token, until) else rows[i]
  }

  lemma LocksOnlyTaken(rows: seq<Row>, ids: seq<nat>, token: nat, until: int)
    ensures OnlyTaken(rows, LockAll(rows, ids, token, until), ids, token, until)
  {
  }

  /**
   * A claim issues one token, and every row it returns carries that token until `now` plus the lease;
   * every other row is as before. A malformed claim changes nothing.
   */
  lemma ClaimMeans(s: State, limit: Option<int>, lease: Option<int>, now: Option<int>)
    ensures var (s', ids) := Claim(s, limit, lease, now);
            if ClaimWellFormed(limit, lease, now) then
              && s'.nextToken == s.nextToken + 1 && Within(s.rows, ids)
              && OnlyTaken(s.rows, s'.rows, ids, s.nextToken, now.value + AskedLease(lease))
            else s' == s && ids == []
  {
    hide Queue, LockAll, OnlyTaken;
    if ClaimWellFormed(limit, lease, now) {
      var q := Queue(s.rows, now.value, |s.rows|);
      var ids := Take(q, AskedLimit(limit));
      assert Within(s.rows, ids);
      LocksOnlyTaken(s.rows, ids, s.nextToken, now.value + AskedLease(lease));
    }
  }

  lemma TakenAt(rows: seq<Row>, rows': seq<Row>, ids: seq<nat>, token: nat, until: int, id: nat)
    requires OnlyTaken(rows, rows', ids, token, until) && Within(rows, ids) && id in ids
    ensures id < |rows| == |rows'| && rows'[id] == TakenRow(rows[id], token, until)
  {
  }

  predicate Due(r: Row, now: int) {
    && !(r.publishedAt.Some? || r.deadLetteredAt.Some?)
    && !(r.availableAt > now)
    && !(r.lockedUntil.Some? && r.lockedUntil.value > now)
  }

  predicate Earlier(a: Row, b: Row) {
    if a.availableAt != b.availableAt then a.availableAt < b.availableAt
    else if a.createdAt != b.createdAt then a.createdAt < b.createdAt
    else a.uid < b.uid
  }

  predicate Distinct(ids: seq<nat>) { forall a, b :: 0 <= a < b < |ids| ==> ids[a] != ids[b] }

  lemma {:induction false} InsertDistinct(rows: seq<Row>, ids: seq<nat>, i: nat)
    requires Within(rows, ids) && i < |rows| && i !in ids
    requires Distinct(ids)
    ensures Distinct(Insert(rows, ids, i))
  {
    if ids != [] && !Before(rows[i], rows[ids[0]]) {
      InsertDistinct(rows, ids[1..], i);
      var rest := Insert(rows, ids[1..], i);
      assert ids[0] !in ids[1..];
      forall b | 0 <= b < |rest| ensures rest[b] != ids[0] {
        assert rest[b] in rest;
      }
    }
  }

  lemma NothingDistinct()
    ensures Distinct([])
  {
  }

  lemma {:induction false} QueueDistinct(rows: seq<Row>, now: int, n: nat)
    requires n <= |rows|
    ensures Distinct(Queue(rows, now, n))
  {
    hide Insert, Claimable, Distinct;
    assert Distinct([]) by { NothingDistinct(); }
    if n > 0 {
      QueueDistinct(rows, now, n - 1);
      if Claimable(rows[n - 1], now) {
        InsertDistinct(rows, Queue(rows, now, n - 1), n - 1);
      }
    }
  }

  /** No row is claimed twice by one claim. */
  lemma ClaimedOnce(s: State, limit: Option<int>, lease: Option<int>, now: Option<int>)
    ensures Distinct(Claim(s, limit, lease, now).1)
  {
    hide Queue, LockAll;
    if now.Some? {
      QueueDistinct(s.rows, now.value, |s.rows|);
    }
  }

  lemma SortedIsEarlier(rows: seq<Row>, ids: seq<nat>)
    requires Within(rows, ids) && Sorted(rows, ids)
    ensures forall a, b :: 0 <= a < b < |ids| ==> Earlier(rows[ids[a]], rows[ids[b]])
  {
    forall a, b | 0 <= a < b < |ids| ensures Earlier(rows[ids[a]], rows[ids[b]]) {
      assert Before(rows[ids[a]], rows[ids[b]]);
    }
  }

  lemma PassedOver(rows: seq<Row>, q: seq<nat>, n: nat, i: nat)
    requires Within(rows, q) && i in q && i !in Take(q, n)
    requires forall a, b :: 0 <= a < b < |q| ==> Earlier(rows[q[a]], rows[q[b]])
    ensures Within(rows, Take(q, n)) && |Take(q, n)| == n && i < |rows| && forall x <- Take(q, n) :: Earlier(rows[x], rows[i])
  {
    hide Earlier;
    var ids := Take(q, n);
    var p :| 0 <= p < |q| && q[p] == i;
    assert |ids| < |q| && ids == q[..n];
    forall x <- ids ensures Earlier(rows[x], rows[i]) {
      var a :| 0 <= a < |ids| && ids[a] == x;
      assert ids[a] == q[a] && a < p;
    }
  }

  lemma QueueHoldsDue(rows: seq<Row>, now: int, i: nat)
    requires i < |rows|
    ensures i in Queue(rows, now, |rows|) <==> Due(rows[i], now)
  {
    hide Queue;
  }

  lemma ClaimIsHead(s: State, limit: Option<int>, lease: Option<int>, now: int)
    requires ClaimWellFormed(limit, lease, Some(now))
    ensures Claim(s, limit, lease, Some(now)).1 == Take(Queue(s.rows, now, |s.rows|), AskedLimit(limit))
  {
    hide Queue, LockAll, Take;
  }

  /**
   * A well-formed claim takes only due rows, at most as many as asked for, earliest first; a due row is
   * passed over only when the claim is full of rows that come before it.
   */
  lemma ClaimChooses(s: State, limit: Option<int>, lease: Option<int>, now: int)
    requires DistinctIds(s.rows) && ClaimWellFormed(limit, lease, Some(now))
    ensures var ids := Claim(s, limit, lease, Some(now)).1;
            && Within(s.rows, ids) && |ids| <= AskedLimit(limit)
            && (forall i <- ids :: Due(s.rows[i], now))
            && (forall a, b :: 0 <= a < b < |ids| ==> Earlier(s.rows[ids[a]], s.rows[ids[b]]))
            && (forall i: nat :: i < |s.rows| && Due(s.rows[i], now) && i !in ids ==>
                  |ids| == AskedLimit(limit) && forall x <- ids :: Earlier(s.rows[x], s.rows[i]))
  {
    hide Claim, Queue, Earlier, Due, Sorted, Before, Claimable, DistinctIds;
    var q := Queue(s.rows, now, |s.rows|);
    var ids := Take(q, AskedLimit(limit));
    ClaimIsHead(s, limit, lease, now);
    QueueSorted(s.rows, now, |s.rows|);
    SortedIsEarlier(s.rows, q);
    forall i <- ids ensures Due(s.rows[i], now) {
      TakenIsQueued(q, AskedLimit(limit), i);
      QueueHoldsDue(s.rows, now, i);
    }
    forall i: nat | i < |s.rows| && Due(s.rows[i], now) && i !in ids
      ensures |ids| == AskedLimit(limit) && forall x <- ids :: Earlier(s.rows[x], s.rows[i])
    {
      QueueHoldsDue(s.rows, now, i);
      PassedOver(s.rows, q, AskedLimit(limit), i);
    }
  }

  // ---------------------------------------------------------------- the lease

  predicate CodeOk(c: string) {
    && 1 <= |c| <= 64 && 'A' <= c[0] <= 'Z'
    && forall i :: 0 <= i < |c| ==> 'A' <= c[i] <= 'Z' || '0' <= c[i] <= '9' || c[i] == '_'
  }

  predicate ReportOk(f: Failure) {
    f.failedAt.Some? && f.retryAt.Some? && (f.dead.Some? ==> f.dead.value.Some?) && CodeOk(f.code)
  }

  /** Published, and nothing else of the row but the lock and the last error gone. */
  function PublishedRow(r: Row, at: int): Row {
    Row(r.uid, r.settlement, r.attempts, r.availableAt, None, None, Some(at), None, None, r.createdAt)
  }

  /** Given back: due at the reported time, with the reported error, dead if that was reported. */
  function FailedRow(r: Row, retryAt: int, code: string, dead: Option<int>): Row {
    Row(r.uid, r.settlement, r.attempts, retryAt, None, None, None, dead, Some(code), r.createdAt)
  }

  function ReportedDeath(f: Failure): Option<int> { if f.dead.Some? then f.dead.value else None }

  /** In every reachable state the holder's word counts exactly before the lease is over. */
  lemma HolderDecides(s: State, id: nat, token: nat, at: Option<int>, f: Failure)
    requires Valid(s) && f.id == id && f.token == token
    ensures var (s', ok) := Complete(s, id, token, at);
            && (ok <==> at.Some? && id < |s.rows| && s.rows[id].lockToken == Some(token) &&
                        s.rows[id].lockedUntil.value > at.value)
            && s' == (if ok then s.(rows := s.rows[id := PublishedRow(s.rows[id], at.value)]) else s)
    ensures var (s', ok) := Fail(s, f);
            && (ok <==> ReportOk(f) && id < |s.rows| && s.rows[id].lockToken == Some(token) &&
                        s.rows[id].lockedUntil.value > f.failedAt.value)
            && s' == (if ok then s.(rows := s.rows[id := FailedRow(s.rows[id], f.retryAt.value, f.code, ReportedDeath(f))]) else s)
  {
    assert ErrorCode(f.code) == CodeOk(f.code);
    hide ErrorCode, CodeOk;
    if id < |s.rows| {
      assert RowOk(s.rows[id], s.nextToken);
    }
  }

  /** Until the lease is over the row stays as the claim left it. */
  lemma LeaseLasts(s: State, limit: Option<int>, lease: Option<int>, now: int, ops: seq<Op>, id: nat)
    requires Valid(s)
    requires forall k :: 0 <= k < |ops| ==> Foreign(ops[k], id, s.nextToken, now + AskedLease(lease))
    ensures var (s1, ids) := Claim(s, limit, lease, Some(now));
            id in ids ==>
              && Valid(Run(s1, ops)) && id < |s.rows| && id < |Run(s1, ops).rows|
              && Run(s1, ops).rows[id] == TakenRow(s.rows[id], s.nextToken, now + AskedLease(lease))
  {
    hide Claim, Queue, LockAll, Valid, Run, Foreign, OnlyTaken;
    ClaimMeans(s, limit, lease, Some(now));
    ClaimKeepsValid(s, limit, lease, now);
    var (s1, ids) := Claim(s, limit, lease, Some(now));
    if id in ids {
      TakenAt(s.rows, s1.rows, ids, s.nextToken, now + AskedLease(lease), id);
      LeaseProtects(s1, ops, id, s.nextToken, now + AskedLease(lease));
      RunKeepsValid(s1, ops);
    }
  }

  lemma ClaimKeepsValid(s: State, limit: Option<int>, lease: Option<int>, now: int)
    requires Valid(s)
    ensures Valid(Claim(s, limit, lease, Some(now)).0)
  {
    hide Valid, Claim;
    ApplyKeepsValid(s, ClaimOp(limit, lease, Some(now)));
  }

  /**
   * From a claim to the word of its holder: whatever others do in between, before `now` plus the lease the
   * holder finds the row as the claim left it and its completion or well-formed failure takes effect; from
   * that instant on neither does.
   */
  lemma LeaseRoundTrip(s: State, limit: Option<int>, lease: Option<int>, now: int, ops: seq<Op>, id: nat, at: int, f: Failure)
    requires Valid(s) && f.id == id && f.token == s.nextToken
    requires forall k :: 0 <= k < |ops| ==> Foreign(ops[k], id, s.nextToken, now + AskedLease(lease))
    ensures id in Claim(s, limit, lease, Some(now)).1 ==>
              var until := now + AskedLease(lease);
              var end := Run(Claim(s, limit, lease, Some(now)).0, ops);
              && id < |s.rows| && id < |end.rows|
              && var taken := TakenRow(s.rows[id], s.nextToken, until);
                 && end.rows[id] == taken
                 && Complete(end, id, s.nextToken, Some(at)) ==
                      (if at < until then (end.(rows := end.rows[id := PublishedRow(taken, at)]), true) else (end, false))
                 && Fail(end, f) ==
                      (if ReportOk(f) && f.failedAt.value < until
                       then (end.(rows := end.rows[id := FailedRow(taken, f.retryAt.value, f.code, ReportedDeath(f))]), true)
                       else (end, false))
  {
    hide Claim, Complete, Fail, ReportOk, Valid, Run, Foreign;
    if id in Claim(s, limit, lease, Some(now)).1 {
      LeaseLasts(s, limit, lease, now, ops, id);
      HolderDecides(Run(Claim(s, limit, lease, Some(now)).0, ops), id, s.nextToken, Some(at), f);
    }
  }

  /** The classes of the operator's summary, row by row. */
  lemma ClassMeans(s: State, i: nat, now: int)
    requires Valid(s) && i < |s.rows|
    ensures var r, c := s.rows[i], Classify(s.rows[i], now);
            && (c == Published <==> r.publishedAt.Some?)
            && (c == DeadLettered <==> r.deadLetteredAt.Some?)
            && (c == InFlight <==> exists token: nat :: r.lockToken == Some(token) && Complete(s, i, token, Some(now)).1)
            && (c == RetryWaiting || c == Pending ==> (c == RetryWaiting <==> r.availableAt > now))
            && (c == Pending <==> Due(r, now))
  {
    var r := s.rows[i];
    assert RowOk(r, s.nextToken);
    if r.lockToken.Some? {
      var token := r.lockToken.value;
      assert r.lockToken == Some(token) && (Classify(r, now) == InFlight ==> Complete(s, i, token, Some(now)).1);
    }
  }

  // ---------------------------------------------------------------- backoff

  /**
   * The delay is the base after the first attempt and doubles with every further one up to the maximum;
   * after thirty-one attempts it no longer changes.
   */
  lemma DelayDoubles(attempts: nat, baseMs: int, maximumMs: int)
    requires 0 <= baseMs <= maximumMs
    ensures RetryDelay(0, baseMs, maximumMs) == RetryDelay(1, baseMs, maximumMs) == baseMs
    ensures 1 <= attempts <= 30 ==>
              RetryDelay(attempts + 1, baseMs, maximumMs) ==
              var twice := 2 * RetryDelay(attempts, baseMs, maximumMs);
              if twice < maximumMs then twice else maximumMs
    ensures attempts >= 31 ==> RetryDelay(attempts, baseMs, maximumMs) == RetryDelay(31, baseMs, maximumMs)
  {
    if 1 <= attempts <= 30 {
      var half := baseMs * Pow2(attempts - 1);
      assert baseMs * Pow2(attempts) == 2 * half by {
        assert Pow2(attempts) == 2 * Pow2(attempts - 1);
      }
    }
  }

  // ---------------------------------------------------------------- the worker

  /** The token of a batch: locked until `until`, whatever else the row says. */
  predicate LockedBy(r: Row, token: nat, until: int) { r.lockToken == Some(token) && r.lockedUntil == Some(until) }

  /** The step of another presents another token, and if it claims then before the instant `until`. */
  predicate Outsider(o: Other, token: nat, until: int) {
    match o
    case OtherClaim(_, _, now) => now.Some? ==> now.value < until
    case OtherComplete(_, t, _) => t != token
    case OtherFail(f) => f.token != token
    case _ => true
  }

  lemma LeaseSurvives(s: State, op: Op, id: nat, token: nat, until: int)
    requires Valid(s) && id < |s.rows| && LockedBy(s.rows[id], token, until) && Foreign(op, id, token, until)
    ensures id < |Apply(s, op).rows| && Apply(s, op).rows[id] == s.rows[id]
  {
    hide Apply, Valid;
    var ops := [op];
    LeaseProtects(s, ops, id, token, until);
    assert ops[1..] == [] && Run(Apply(s, op), []) == Apply(s, op);
    assert Run(s, ops) == Run(Apply(s, ops[0]), ops[1..]);
  }

  lemma OutsiderSpares(w: World, o: Other, least: int, id: nat, token: nat, until: int)
    requires WorldOk(w, least) && id < |w.outbox.rows| && LockedBy(w.outbox.rows[id], token, until)
    requires Outsider(o, token, until)
    ensures var s := Meddle(w, o, least).outbox; id < |s.rows| && s.rows[id] == w.outbox.rows[id]
  {
    hide Complete, Fail, Claim;
    var s := w.outbox;
    match o {
      case OtherClaim(limit, lease, now) => LeaseSurvives(s, ClaimOp(limit, lease, now), id, token, until);
      case OtherComplete(i, t, at) => LeaseSurvives(s, CompleteOp(i, t, at), id, token, until);
      case OtherFail(f) => LeaseSurvives(s, FailOp(f), id, token, until);
      case OtherAppend(uid, settlement, at) => LeaseSurvives(s, AppendOp(uid, settlement, at), id, token, until);
      case OtherPublish(_) =>
    }
  }

  lemma {:induction false} OutsidersSpare(w: World, os: seq<Other>, least: int, id: nat, token: nat, until: int)
    requires WorldOk(w, least) && id < |w.outbox.rows| && LockedBy(w.outbox.rows[id], token, until)
    requires forall o <- os :: Outsider(o, token, until)
    ensures var s := MeddleAll(w, os, least).outbox; id < |s.rows| && s.rows[id] == w.outbox.rows[id]
    decreases |os|
  {
    hide Meddle, WorldOk;
    if os != [] {
      assert os[0] in os && forall o <- os[1..] :: o in os;
      OutsiderSpares(w, os[0], least, id, token, until);
      MeddleKeeps(w, os[0], least);
      OutsidersSpare(Meddle(w, os[0], least), os[1..], least, id, token, until);
    }
  }

  /** Where a record's row is after its turn, if its lease held. */
  function TurnedRow(record: Row, turn: Turn, o: Options): Row {
    if turn.ok then PublishedRow(record, turn.now)
    else FailedRow(record, turn.now + RetryDelay(record.attempts, o.retryBaseMs, o.retryMaxMs), "PUBLISH_FAILED",
                   if record.attempts >= o.maxAttempts then Some(turn.now) else None)
  }

  /** Its verdict. */
  function TurnedVerdict(record: Row, turn: Turn, o: Options): Verdict {
    if turn.ok then WasPublished else if record.attempts >= o.maxAttempts then WasDeadLettered else WasRetried
  }

  /**
   * A record processed within its lease gets the verdict of its publication: published, dead-lettered once
   * its attempts are used up, or due again after the delay. No other locked row of the batch is touched.
   */
  lemma TurnWithinLease(w: World, id: nat, record: Row, turn: Turn, o: Options, least: int, token: nat, until: int, other: nat)
    requires WorldOk(w, least) && id < |w.outbox.rows| && w.outbox.rows[id] == record && LockedBy(record, token, until)
    requires turn.now < until && forall x <- turn.others :: Outsider(x, token, until)
    ensures var (w', v) := Processed(w, id, record, turn, o, least);
            && v == TurnedVerdict(record, turn, o)
            && id < |w'.outbox.rows| && w'.outbox.rows[id] == TurnedRow(record, turn, o)
            && (turn.ok || turn.landed ==> id in w'.delivered)
            && (other < |w.outbox.rows| && other != id && LockedBy(w.outbox.rows[other], token, until) ==>
                  other < |w'.outbox.rows| && w'.outbox.rows[other] == w.outbox.rows[other])
  {
    var w0 := if turn.ok || turn.landed then w.(delivered := w.delivered + {id}) else w;
    assert WorldOk(w0, least) by {
      MeddleKeeps(w, OtherPublish(id), least);
    }
    var w1 := MeddleAll(w0, turn.others, least);
    MeddleAllKeeps(w0, turn.others, least);
    OutsidersSpare(w0, turn.others, least, id, token, until);
    if other < |w.outbox.rows| && LockedBy(w.outbox.rows[other], token, until) {
      OutsidersSpare(w0, turn.others, least, other, token, until);
    }
    assert Valid(w1.outbox);
    assert CodeOk("PUBLISH_FAILED");
    hide MeddleAll, Complete, Fail, WorldOk, RetryDelay, Valid, CodeOk;
    HolderDecides(w1.outbox, id, token, Some(turn.now), GiveBackFailure(id, record, turn.now, o));
  }

  /** How many of the first `n` publications succeed. */
  ghost function Delivered(turns: nat -> Turn, n: nat): nat {
    if n == 0 then 0 else Delivered(turns, n - 1) + if turns(n - 1).ok then 1 else 0
  }

  /** How many of the first `n` fail for the last time. */
  ghost function WornOut(turns: nat -> Turn, records: seq<Row>, o: Options, n: nat): nat
    requires n <= |records|
  {
    if n == 0 then 0
    else WornOut(turns, records, o, n - 1) + if !turns(n - 1).ok && records[n - 1].attempts >= o.maxAttempts then 1 else 0
  }

  predicate TurnsWithin(turns: nat -> Turn, n: nat, token: nat, until: int) {
    forall k: nat :: k < n ==> turns(k).now < until && forall x <- turns(k).others :: Outsider(x, token, until)
  }

  /** The rows from the `k`th on are as the claim left them. */
  predicate StillLocked(s: State, ids: seq<nat>, records: seq<Row>, k: nat, token: nat, until: int) {
    && |ids| == |records|
    && forall j :: k <= j < |ids| ==> ids[j] < |s.rows| && s.rows[ids[j]] == records[j] && LockedBy(records[j], token, until)
  }

  ghost predicate TalliedSoFar(r: RunResult, turns: nat -> Turn, records: seq<Row>, o: Options, k: nat)
    requires k <= |records|
  {
    && r.leaseLost == 0 && r.published == Delivered(turns, k) && r.deadLettered == WornOut(turns, records, o, k)
    && r.published + r.retried + r.deadLettered == k
  }

  lemma OneTurn(w: World, ids: seq<nat>, records: seq<Row>, k: nat, turns: nat -> Turn, o: Options, least: int,
                token: nat, until: int)
    requires WorldOk(w, least) && least <= o.maxAttempts && k < |ids| && StillLocked(w.outbox, ids, records, k, token, until)
    requires token < w.outbox.nextToken && TurnsWithin(turns, |ids|, token, until)
    requires Distinct(ids)
    ensures records[k].lockToken.Some?
    ensures var (w', v) := Processed(w, ids[k], records[k], turns(k), o, least);
            && WorldOk(w', least) && Evolves(w.outbox, w'.outbox) && w.delivered <= w'.delivered
            && StillLocked(w'.outbox, ids, records, k + 1, token, until)
            && v == TurnedVerdict(records[k], turns(k), o)
            && ids[k] < |w'.outbox.rows| && w'.outbox.rows[ids[k]] == TurnedRow(records[k], turns(k), o)
            && (turns(k).ok ==> ids[k] in w'.delivered)
  {
    hide Processed, WorldOk, TurnedRow, TurnedVerdict;
    var id, record, turn := ids[k], records[k], turns(k);
    OwnStepsAreOthers(w, id, record, turn, o, least);
    MeddleAllKeeps(w, OwnFirst(id, turn) + turn.others + [OwnLast(id, record, turn, o)], least);
    TurnWithinLease(w, id, record, turn, o, least, token, until, id);
    forall j | k + 1 <= j < |ids|
      ensures var s := Processed(w, id, record, turn, o, least).0.outbox; ids[j] < |s.rows| && s.rows[ids[j]] == records[j]
    {
      TurnWithinLease(w, id, record, turn, o, least, token, until, ids[j]);
    }
  }

  lemma {:induction false} BatchFrom(w: World, ids: seq<nat>, records: seq<Row>, k: nat, r: RunResult, turns: nat -> Turn,
                                     o: Options, least: int, token: nat, until: int)
    requires WorldOk(w, least) && least <= o.maxAttempts && k <= |ids| && StillLocked(w.outbox, ids, records, k, token, until)
    requires token < w.outbox.nextToken && TurnsWithin(turns, |ids|, token, until)
    requires Distinct(ids)
    requires forall j :: 0 <= j < |records| ==> records[j].lockToken.Some?
    requires TalliedSoFar(r, turns, records, o, k)
    ensures var (end, r') := ProcessedFrom(w, ids, records, k, r, turns, o, least);
            && Evolves(w.outbox, end.outbox) && w.delivered <= end.delivered
            && TalliedSoFar(r', turns, records, o, |ids|) && r'.claimed == r.claimed
            && forall j: nat :: k <= j < |ids| && turns(j).ok ==>
                 ids[j] < |end.outbox.rows| && end.outbox.rows[ids[j]].publishedAt == Some(turns(j).now) && ids[j] in end.delivered
    decreases |ids| - k
  {
    hide Processed, WorldOk;
    if k == |ids| {
      assert Evolves(w.outbox, w.outbox);
    } else {
      OneTurn(w, ids, records, k, turns, o, least, token, until);
      var (w', v) := Processed(w, ids[k], records[k], turns(k), o, least);
      BatchFrom(w', ids, records, k + 1, Tally(r, v), turns, o, least, token, until);
      var end := ProcessedFrom(w', ids, records, k + 1, Tally(r, v), turns, o, least).0;
      WorldIsValid(w, least);
      EvolvesTransitive(w.outbox, w'.outbox, end.outbox);
      if turns(k).ok {
        assert RowStep(w'.outbox.rows[ids[k]], end.outbox.rows[ids[k]], w'.outbox.nextToken);
      }
    }
  }

  /**
   * A worker that stays within the lease of its claim loses nothing: every claimed row whose publication
   * succeeds is published and counted so, every other one is dead-lettered or put back, and if all
   * succeed then everything claimed is published.
   */
  lemma BatchWithinLease(w: World, claimAt: int, turns: nat -> Turn, o: Options, least: int, records: seq<Row>)
    requires WorldOk(w, least) && OptionsOk(o) && least <= o.maxAttempts
    ensures var (s, ids) := Claim(w.outbox, Some(o.batchSize), Some(o.leaseMs), Some(claimAt));
            Claimed(s, ids, records) && TurnsWithin(turns, |ids|, w.outbox.nextToken, claimAt + o.leaseMs) ==>
            var (end, r) := ProcessedFrom(World(s, w.delivered), ids, records, 0, RunResult(|ids|, 0, 0, 0, 0), turns, o, least);
            && r.claimed == |ids| == r.published + r.retried + r.deadLettered && r.leaseLost == 0
            && r.published == Delivered(turns, |ids|) && r.deadLettered == WornOut(turns, records, o, |ids|)
            && forall j: nat :: j < |ids| && turns(j).ok ==>
                 ids[j] < |end.outbox.rows| && end.outbox.rows[ids[j]].publishedAt == Some(turns(j).now) && ids[j] in end.delivered
  {
    hide Claim, Queue, LockAll;
    var (s, ids) := Claim(w.outbox, Some(o.batchSize), Some(o.leaseMs), Some(claimAt));
    var token, until := w.outbox.nextToken, claimAt + o.leaseMs;
    if Claimed(s, ids, records) && TurnsWithin(turns, |ids|, token, until) {
      hide WorldOk, ProcessedFrom, StillLocked, Distinct, TurnsWithin;
      BatchStarts(w, claimAt, o, least, records);
      BatchFrom(World(s, w.delivered), ids, records, 0, RunResult(|ids|, 0, 0, 0, 0), turns, o, least, token, until);
    }
  }

  lemma BatchStarts(w: World, claimAt: int, o: Options, least: int, records: seq<Row>)
    requires WorldOk(w, least) && OptionsOk(o) && least <= o.maxAttempts
    ensures var (s, ids) := Claim(w.outbox, Some(o.batchSize), Some(o.leaseMs), Some(claimAt));
            Claimed(s, ids, records) ==>
            && WorldOk(World(s, w.delivered), least) && Distinct(ids) && w.outbox.nextToken < s.nextToken
            && StillLocked(s, ids, records, 0, w.outbox.nextToken, claimAt + o.leaseMs)
  {
    hide Claim, Queue, LockAll;
    var (s, ids) := Claim(w.outbox, Some(o.batchSize), Some(o.leaseMs), Some(claimAt));
    ClaimMeans(w.outbox, Some(o.batchSize), Some(o.leaseMs), Some(claimAt));
    ClaimedOnce(w.outbox, Some(o.batchSize), Some(o.leaseMs), Some(claimAt));
    MeddleKeeps(w, OtherClaim(Some(o.batchSize), Some(o.leaseMs), Some(claimAt)), least);
    hide WorldOk, OnlyTaken, Distinct;
    if Claimed(s, ids, records) {
      forall j | 0 <= j < |ids| ensures LockedBy(records[j], w.outbox.nextToken, claimAt + o.leaseMs) {
        TakenAt(w.outbox.rows, s.rows, ids, w.outbox.nextToken, claimAt + o.leaseMs, ids[j]);
      }
    }
  }
}
