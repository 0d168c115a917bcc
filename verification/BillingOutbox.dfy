/**
 * The billing outbox: rows waiting to be published, claimed under a lease with a fencing token,
 * completed, or failed and retried. Rows are never removed, so a row is named by its position;
 * `uid` stands for the text identifier that only serves as the last sort key.
 */
module BillingOutbox {
  import opened Prelude

  datatype Row = Row(
    uid: int, settlement: nat, attempts: nat, availableAt: int, lockedUntil: Option<int>, lockToken: Option<nat>,
    publishedAt: Option<int>, deadLetteredAt: Option<int>, lastError: Option<string>, createdAt: int)

  datatype State = State(rows: seq<Row>, nextToken: nat)

  const DEFAULT_LIMIT := 25
  const MAX_LIMIT := 100
  const DEFAULT_LEASE_MS := 30_000
  const MIN_LEASE_MS := 1_000
  const MAX_LEASE_MS := 300_000

  // ---------------------------------------------------------------- claim order

  predicate Claimable(r: Row, now: int) {
    && r.publishedAt.None? && r.deadLetteredAt.None?
    && r.availableAt <= now
    && (r.lockedUntil.None? || r.lockedUntil.value <= now)
  }

  /** Oldest availability first, then oldest creation, then identifier. */
  predicate Before(a: Row, b: Row) {
    || a.availableAt < b.availableAt
    || (a.availableAt == b.availableAt && a.createdAt < b.createdAt)
    || (a.availableAt == b.availableAt && a.createdAt == b.createdAt && a.uid < b.uid)
  }

  predicate DistinctIds(rows: seq<Row>) {
    forall i, j :: 0 <= i < j < |rows| ==> rows[i].uid != rows[j].uid
  }

  predicate Within(rows: seq<Row>, ids: seq<nat>) {
    forall k :: 0 <= k < |ids| ==> ids[k] < |rows|
  }

  predicate Sorted(rows: seq<Row>, ids: seq<nat>)
    requires Within(rows, ids)
  {
    forall a, b :: 0 <= a < b < |ids| ==> Before(rows[ids[a]], rows[ids[b]])
  }

  function Insert(rows: seq<Row>, ids: seq<nat>, i: nat): (r: seq<nat>)
    requires Within(rows, ids) && i < |rows|
    ensures Within(rows, r) && |r| == |ids| + 1
    ensures forall x: nat :: x in r <==> x in ids || x == i
  {
    if ids == [] then [i]
    else if Before(rows[i], rows[ids[0]]) then [i] + ids
    else [ids[0]] + Insert(rows, ids[1..], i)
  }

  /** The claimable rows among the first `n`, in claim order. */
  function Queue(rows: seq<Row>, now: int, n: nat): (r: seq<nat>)
    requires n <= |rows|
    ensures Within(rows, r)
    ensures forall x: nat :: x in r <==> x < n && Claimable(rows[x], now)
  {
    if n == 0 then []
    else
      var r := Queue(rows, now, n - 1);
      if Claimable(rows[n - 1], now) then Insert(rows, r, n - 1) else r
  }

  function Take<T>(s: seq<T>, n: nat): seq<T> {
    if n <= |s| then s[..n] else s
  }

  function NormalLimit(limit: Option<int>): Option<nat> {
    match limit
    case None => Some(DEFAULT_LIMIT)
    case Some(v) => if 1 <= v <= MAX_LIMIT then Some(v) else None
  }

  function NormalLease(lease: Option<int>): Option<int> {
    match lease
    case None => Some(DEFAULT_LEASE_MS)
    case Some(v) => if MIN_LEASE_MS <= v <= MAX_LEASE_MS then Some(v) else None
  }

  // ---------------------------------------------------------------- steps

  function Locked(r: Row, token: nat, until: int): Row {
    r.(attempts := r.attempts + 1, lockToken := Some(token), lockedUntil := Some(until), lastError := None)
  }

  function LockAll(rows: seq<Row>, ids: seq<nat>, token: nat, until: int): (r: seq<Row>)
    ensures |r| == |rows|
    ensures forall i :: 0 <= i < |rows| ==> r[i] == if i in ids then Locked(rows[i], token, until) else rows[i]
  {
    seq(|rows|, i requires 0 <= i < |rows| => if i in ids then Locked(rows[i], token, until) else rows[i])
  }

  /** `claimBillingOutbox`; malformed parameters claim nothing. `now` of None does not parse. */
  function Claim(s: State, limit: Option<int>, lease: Option<int>, now: Option<int>): (State, seq<nat>) {
    if NormalLimit(limit).None? || NormalLease(lease).None? || now.None? then (s, [])
    else
      var ids := Take(Queue(s.rows, now.value, |s.rows|), NormalLimit(limit).value);
      (State(LockAll(s.rows, ids, s.nextToken, now.value + NormalLease(lease).value), s.nextToken + 1), ids)
  }

  /** The token still fences the row at `now`. */
  predicate Holds(s: State, id: nat, token: nat, now: int) {
    && id < |s.rows|
    && var r := s.rows[id];
       && r.lockToken == Some(token) && r.publishedAt.None? && r.deadLetteredAt.None?
       && r.lockedUntil.Some? && r.lockedUntil.value > now
  }

  /** `completeBillingOutbox`. */
  function Complete(s: State, id: nat, token: nat, at: Option<int>): (State, bool) {
    if at.None? || !Holds(s, id, token, at.value) then (s, false)
    else
      (s.(rows := s.rows[id := s.rows[id].(publishedAt := at, lockToken := None, lockedUntil := None, lastError := None)]),
       true)
  }

  predicate ErrorCode(c: string) {
    && 1 <= |c| <= 64
    && 'A' <= c[0] <= 'Z'
    && forall i :: 0 <= i < |c| ==> 'A' <= c[i] <= 'Z' || '0' <= c[i] <= '9' || c[i] == '_'
  }

  /** `dead` of Some(None) is a dead-letter time that does not parse. */
  datatype Failure = Failure(id: nat, token: nat, failedAt: Option<int>, retryAt: Option<int>, code: string,
                             dead: Option<Option<int>>)

  predicate FailureOk(s: State, f: Failure) {
    && f.failedAt.Some? && f.retryAt.Some? && f.dead != Some(None) && ErrorCode(f.code)
    && Holds(s, f.id, f.token, f.failedAt.value)
  }

  /** `failBillingOutbox`. */
  function Fail(s: State, f: Failure): (State, bool) {
    if !FailureOk(s, f) then (s, false)
    else
      var r := s.rows[f.id].(availableAt := f.retryAt.value, lockToken := None, lockedUntil := None, lastError := Some(f.code));
      (s.(rows := s.rows[f.id := if f.dead.Some? then r.(deadLetteredAt := f.dead.value) else r]), true)
  }

  /** A settlement adds its row, available at once. */
  function Append(s: State, uid: int, settlement: nat, at: int): State {
    s.(rows := s.rows + [Row(uid, settlement, 0, at, None, None, None, None, None, at)])
  }

  // ---------------------------------------------------------------- claim takes the head of the queue

  lemma {:induction false} InsertSorted(rows: seq<Row>, ids: seq<nat>, i: nat)
    requires Within(rows, ids) && i < |rows| && Sorted(rows, ids)
    requires forall k :: 0 <= k < |ids| ==> rows[ids[k]].uid != rows[i].uid
    ensures Sorted(rows, Insert(rows, ids, i))
  {
    if ids != [] && !Before(rows[i], rows[ids[0]]) {
      InsertSorted(rows, ids[1..], i);
      var rest := Insert(rows, ids[1..], i);
      forall b | 0 <= b < |rest| ensures Before(rows[ids[0]], rows[rest[b]]) {
        assert rest[b] in rest;
      }
    }
  }

  lemma NothingSorted(rows: seq<Row>)
    ensures Sorted(rows, [])
  {
  }

  lemma {:induction false} QueueSorted(rows: seq<Row>, now: int, n: nat)
    requires n <= |rows| && DistinctIds(rows)
    ensures Sorted(rows, Queue(rows, now, n))
  {
    hide Sorted, Before, Claimable, Insert;
    if n == 0 {
      NothingSorted(rows);
    } else {
      QueueSorted(rows, now, n - 1);
      var q := Queue(rows, now, n - 1);
      if Claimable(rows[n - 1], now) {
        forall k | 0 <= k < |q| ensures rows[q[k]].uid != rows[n - 1].uid {
          assert q[k] in q;
        }
        InsertSorted(rows, q, n - 1);
      }
    }
  }

  /** The claimable rows that come before row `i`. */
  function Ahead(rows: seq<Row>, now: int, i: nat): set<nat>
    requires i < |rows|
  {
    set j: nat | j < |rows| && Claimable(rows[j], now) && Before(rows[j], rows[i])
  }

  function Elements(ids: seq<nat>): set<nat> { set x | x in ids }

  lemma {:induction false} DistinctElements(rows: seq<Row>, ids: seq<nat>)
    requires Within(rows, ids) && Sorted(rows, ids)
    ensures |Elements(ids)| == |ids|
  {
    if ids != [] {
      var last := |ids| - 1;
      DistinctElements(rows, ids[..last]);
      assert ids[last] !in ids[..last];
      assert Elements(ids) == Elements(ids[..last]) + {ids[last]};
    }
  }

  /** The position of a row in the queue is the number of claimable rows before it. */
  lemma PositionIsRank(rows: seq<Row>, now: int, k: nat)
    requires DistinctIds(rows) && k < |Queue(rows, now, |rows|)|
    ensures |Ahead(rows, now, Queue(rows, now, |rows|)[k])| == k
  {
    var q := Queue(rows, now, |rows|);
    QueueSorted(rows, now, |rows|);
    assert Sorted(rows, q[..k]);
    DistinctElements(rows, q[..k]);
    forall j: nat ensures j in Ahead(rows, now, q[k]) <==> j in Elements(q[..k]) {
      if j in Ahead(rows, now, q[k]) {
        assert j in q;
        var p :| 0 <= p < |q| && q[p] == j;
        assert p < k;
        assert q[..k][p] == j;
      }
      if j in Elements(q[..k]) {
        var p :| 0 <= p < k && q[..k][p] == j;
        assert j in q;
      }
    }
    assert Ahead(rows, now, q[k]) == Elements(q[..k]);
  }

  /** What the operator's summary calls a row. */
  datatype Class = Pending | RetryWaiting | InFlight | Published | DeadLettered

  function Classify(r: Row, now: int): Class {
    if r.publishedAt.Some? then Published
    else if r.deadLetteredAt.Some? then DeadLettered
    else if r.lockedUntil.Some? && r.lockedUntil.value > now then InFlight
    else if r.availableAt > now then RetryWaiting
    else Pending
  }

  /**
   * A claim takes exactly the rows the operator's summary classes as pending at that instant which
   * have fewer than `limit` pending rows before them.
   */
  lemma ClaimTakesHead(s: State, limit: Option<int>, lease: Option<int>, now: int, i: nat)
    requires DistinctIds(s.rows) && NormalLimit(limit).Some? && NormalLease(lease).Some? && i < |s.rows|
    ensures i in Claim(s, limit, lease, Some(now)).1 <==>
            Classify(s.rows[i], now) == Pending && |Ahead(s.rows, now, i)| < NormalLimit(limit).value
  {
    var q := Queue(s.rows, now, |s.rows|);
    var n := NormalLimit(limit).value;
    if i in q {
      var k :| 0 <= k < |q| && q[k] == i;
      PositionIsRank(s.rows, now, k);
      if k < n {
        assert Take(q, n)[k] == i;
      } else if i in Take(q, n) {
        var p :| 0 <= p < n && q[p] == i;
        PositionIsRank(s.rows, now, p);
      }
    }
  }

  // ---------------------------------------------------------------- fencing over runs

  datatype Op =
    | ClaimOp(limit: Option<int>, lease: Option<int>, claimAt: Option<int>)
    | CompleteOp(id: nat, token: nat, completeAt: Option<int>)
    | FailOp(failure: Failure)
    | AppendOp(uid: int, settlement: nat, createdAt: int)

  function Apply(s: State, op: Op): State {
    match op
    case ClaimOp(limit, lease, now) => Claim(s, limit, lease, now).0
    case CompleteOp(id, token, at) => Complete(s, id, token, at).0
    case FailOp(f) => Fail(s, f).0
    case AppendOp(uid, settlement, at) => Append(s, uid, settlement, at)
  }

  function Run(s: State, ops: seq<Op>): State
    decreases |ops|
  {
    if ops == [] then s else Run(Apply(s, ops[0]), ops[1..])
  }

  /** Only issued tokens are in use, a token comes with a lease, and no row is both published and dead. */
  predicate RowOk(r: Row, nextToken: nat) {
    && (r.lockToken.Some? ==> r.lockToken.value < nextToken)
    && (r.lockToken.Some? <==> r.lockedUntil.Some?)
    && (r.publishedAt.None? || r.deadLetteredAt.None?)
    && (r.publishedAt.Some? || r.deadLetteredAt.Some? ==> r.lockToken.None?)
  }

  ghost predicate Valid(s: State) {
    forall i :: 0 <= i < |s.rows| ==> RowOk(s.rows[i], s.nextToken)
  }

  predicate Finished(r: Row) { r.publishedAt.Some? || r.deadLetteredAt.Some? }

  /**
   * What one step does to one row: a finished row is frozen, a token that does not hold the row
   * never comes back, attempts are counted once per token, and the settlement never changes.
   */
  predicate RowStep(r: Row, r': Row, nextToken: nat) {
    && r'.uid == r.uid && r'.settlement == r.settlement && r'.createdAt == r.createdAt
    && r.attempts <= r'.attempts
    && (Finished(r) ==> r' == r)
    && (r'.lockToken.Some? && r'.lockToken != r.lockToken ==> r'.lockToken.value >= nextToken)
    && (r'.lockToken.Some? && r'.lockToken == r.lockToken ==> r'.attempts == r.attempts)
  }

  ghost predicate Evolves(s: State, s': State) {
    && |s.rows| <= |s'.rows| && s.nextToken <= s'.nextToken
    && forall i :: 0 <= i < |s.rows| ==> RowStep(s.rows[i], s'.rows[i], s.nextToken)
  }

  lemma ApplyKeepsValid(s: State, op: Op)
    requires Valid(s)
    ensures Valid(Apply(s, op)) && Evolves(s, Apply(s, op))
  {
    match op {
      case ClaimOp(limit, lease, now) =>
        var (s', ids) := Claim(s, limit, lease, now);
        forall i | 0 <= i < |s.rows|
          ensures RowOk(s'.rows[i], s'.nextToken) && RowStep(s.rows[i], s'.rows[i], s.nextToken)
        {
          assert RowOk(s.rows[i], s.nextToken);
          if s' != s && i in ids {
            TakenIsQueued(Queue(s.rows, now.value, |s.rows|), NormalLimit(limit).value, i);
          }
        }
      case _ =>
    }
  }

  lemma TakenIsQueued(q: seq<nat>, n: nat, i: nat)
    requires i in Take(q, n)
    ensures i in q
  {
  }

  lemma {:induction false} RunKeepsValid(s: State, ops: seq<Op>)
    requires Valid(s)
    ensures Valid(Run(s, ops)) && Evolves(s, Run(s, ops))
    decreases |ops|
  {
    if ops != [] {
      var s1 := Apply(s, ops[0]);
      ApplyKeepsValid(s, ops[0]);
      RunKeepsValid(s1, ops[1..]);
      var end := Run(s1, ops[1..]);
      forall i | 0 <= i < |s.rows| ensures RowStep(s.rows[i], end.rows[i], s.nextToken) {
        assert RowOk(s.rows[i], s.nextToken);
        assert RowStep(s.rows[i], s1.rows[i], s.nextToken) && RowStep(s1.rows[i], end.rows[i], s1.nextToken);
      }
    }
  }

  /**
   * A token that has been issued but does not hold a row, because the lease was given up or taken
   * over, is inert for ever: after any further run its completion and its failure change nothing.
   */
  lemma StaleTokenInert(s: State, ops: seq<Op>, id: nat, token: nat, at: Option<int>, f: Failure)
    requires Valid(s) && id < |s.rows| && token < s.nextToken && s.rows[id].lockToken != Some(token)
    requires f.id == id && f.token == token
    ensures var end := Run(s, ops);
            Complete(end, id, token, at) == (end, false) && Fail(end, f) == (end, false)
  {
    RunKeepsValid(s, ops);
    assert RowStep(s.rows[id], Run(s, ops).rows[id], s.nextToken);
  }

  /** Published and dead-lettered exclude each other and are final. */
  lemma FinishedIsFinal(s: State, ops: seq<Op>, id: nat)
    requires Valid(s) && id < |s.rows| && Finished(s.rows[id])
    ensures id < |Run(s, ops).rows| && Run(s, ops).rows[id] == s.rows[id]
    ensures s.rows[id].publishedAt.None? || s.rows[id].deadLetteredAt.None?
  {
    RunKeepsValid(s, ops);
    assert RowStep(s.rows[id], Run(s, ops).rows[id], s.nextToken) && RowOk(s.rows[id], s.nextToken);
  }

  /** The operation does not present this token for this row, and happens before the instant `until`. */
  predicate Foreign(op: Op, id: nat, token: nat, until: int) {
    match op
    case ClaimOp(_, _, now) => now.Some? ==> now.value < until
    case CompleteOp(i, t, _) => i != id || t != token
    case FailOp(f) => f.id != id || f.token != token
    case AppendOp(_, _, _) => true
  }

  /**
   * While a lease is unexpired nobody without its token can touch the row: over any run of others
   * the row stays exactly as the holder left it.
   */
  lemma {:induction false} LeaseProtects(s: State, ops: seq<Op>, id: nat, token: nat, until: int)
    requires Valid(s) && id < |s.rows| && s.rows[id].lockToken == Some(token) && s.rows[id].lockedUntil == Some(until)
    requires forall k :: 0 <= k < |ops| ==> Foreign(ops[k], id, token, until)
    ensures id < |Run(s, ops).rows| && Run(s, ops).rows[id] == s.rows[id]
    decreases |ops|
  {
    if ops != [] {
      assert Foreign(ops[0], id, token, until);
      ApplyKeepsValid(s, ops[0]);
      if ops[0].ClaimOp? && NormalLimit(ops[0].limit).Some? && ops[0].claimAt.Some? {
        var q := Queue(s.rows, ops[0].claimAt.value, |s.rows|);
        if id in Take(q, NormalLimit(ops[0].limit).value) {
          TakenIsQueued(q, NormalLimit(ops[0].limit).value, id);
        }
      }
      assert Apply(s, ops[0]).rows[id] == s.rows[id];
      LeaseProtects(Apply(s, ops[0]), ops[1..], id, token, until);
    }
  }

  predicate ClaimsBefore(op: Op, due: int) { op.ClaimOp? && op.claimAt.Some? ==> op.claimAt.value < due }

  /**
   * A row put back for later waits: nobody holds a token for it, so over any run whose claims come
   * before it is due it stays exactly as it is.
   */
  lemma {:induction false} WaitingRowStays(s: State, ops: seq<Op>, id: nat)
    requires Valid(s) && id < |s.rows| && s.rows[id].lockToken.None?
    requires forall k :: 0 <= k < |ops| ==> ClaimsBefore(ops[k], s.rows[id].availableAt)
    ensures id < |Run(s, ops).rows| && Run(s, ops).rows[id] == s.rows[id]
    decreases |ops|
  {
    if ops != [] {
      assert ClaimsBefore(ops[0], s.rows[id].availableAt);
      ApplyKeepsValid(s, ops[0]);
      if ops[0].ClaimOp? && NormalLimit(ops[0].limit).Some? && ops[0].claimAt.Some? {
        var q := Queue(s.rows, ops[0].claimAt.value, |s.rows|);
        if id in Take(q, NormalLimit(ops[0].limit).value) {
          TakenIsQueued(q, NormalLimit(ops[0].limit).value, id);
        }
      }
      assert Apply(s, ops[0]).rows[id] == s.rows[id];
      WaitingRowStays(Apply(s, ops[0]), ops[1..], id);
    }
  }

  // ---------------------------------------------------------------- the store

  class OutboxStore {
    var rows: seq<Row>
    var nextToken: nat

    ghost function View(): State
      reads this
    {
      State(rows, nextToken)
    }

    constructor ()
      ensures View() == State([], 0)
    {
      rows, nextToken := [], 0;
    }

    /** The claimable rows in claim order. */
    method ClaimableRows(now: int) returns (ids: seq<nat>)
      ensures ids == Queue(rows, now, |rows|)
    {
      ids := [];
      var i := 0;
      while i < |rows|
        invariant i <= |rows|
        invariant ids == Queue(rows, now, i)
      {
        if Claimable(rows[i], now) {
          ids := Insert(rows, ids, i);
        }
        i := i + 1;
      }
    }

    method LockRows(ids: seq<nat>, until: int)
      requires Within(rows, ids)
      modifies this`rows
      ensures rows == LockAll(old(rows), ids, nextToken, until)
    {
      var k := 0;
      while k < |ids|
        invariant k <= |ids| && |rows| == |old(rows)|
        invariant rows == LockAll(old(rows), ids[..k], nextToken, until)
      {
        var id := ids[k];
        assert ids[..k + 1] == ids[..k] + [id];
        if id !in ids[..k] {
          rows := rows[id := Locked(rows[id], nextToken, until)];
        }
        k := k + 1;
      }
      assert ids[..k] == ids;
    }

    method ClaimRows(limit: Option<int>, lease: Option<int>, now: Option<int>) returns (claimed: seq<nat>)
      modifies this
      ensures (View(), claimed) == Claim(old(View()), limit, lease, now)
    {
      hide Queue, LockAll, Claimable;
      var n, leaseMs := NormalLimit(limit), NormalLease(lease);
      if n.None? || leaseMs.None? || now.None? {
        return [];
      }
      claimed := ClaimableRows(now.value);
      if n.value <= |claimed| {
        claimed := claimed[..n.value];
      }
      LockRows(claimed, now.value + leaseMs.value);
      nextToken := nextToken + 1;
    }

    method CompleteRow(id: nat, token: nat, at: Option<int>) returns (ok: bool)
      modifies this
      ensures (View(), ok) == Complete(old(View()), id, token, at)
    {
      ok := at.Some? && id < |rows| && rows[id].lockToken == Some(token) && rows[id].publishedAt.None? &&
        rows[id].deadLetteredAt.None? && rows[id].lockedUntil.Some? && rows[id].lockedUntil.value > at.value;
      if ok {
        rows := rows[id := rows[id].(publishedAt := at, lockToken := None, lockedUntil := None, lastError := None)];
      }
    }

    method FailRow(f: Failure) returns (ok: bool)
      modifies this
      ensures (View(), ok) == Fail(old(View()), f)
    {
      ok := f.failedAt.Some? && f.retryAt.Some? && f.dead != Some(None) && ErrorCode(f.code) && f.id < |rows| &&
        rows[f.id].lockToken == Some(f.token) && rows[f.id].publishedAt.None? && rows[f.id].deadLetteredAt.None? &&
        rows[f.id].lockedUntil.Some? && rows[f.id].lockedUntil.value > f.failedAt.value;
      if ok {
        var r := rows[f.id].(availableAt := f.retryAt.value, lockToken := None, lockedUntil := None, lastError := Some(f.code));
        if f.dead.Some? {
          r := r.(deadLetteredAt := f.dead.value);
        }
        rows := rows[f.id := r];
      }
    }
  }

  datatype Summary = Summary(pending: nat, retryWaiting: nat, inFlight: nat, published: nat, deadLettered: nat)

  /** The operator's summary: every row falls in exactly one class. */
  method Summarize(rows: seq<Row>, now: int) returns (r: Summary)
    ensures r.pending == Count(rows, (x: Row) => Classify(x, now) == Pending)
    ensures r.retryWaiting == Count(rows, (x: Row) => Classify(x, now) == RetryWaiting)
    ensures r.inFlight == Count(rows, (x: Row) => Classify(x, now) == InFlight)
    ensures r.published == Count(rows, (x: Row) => Classify(x, now) == Published)
    ensures r.deadLettered == Count(rows, (x: Row) => Classify(x, now) == DeadLettered)
    ensures r.pending + r.retryWaiting + r.inFlight + r.published + r.deadLettered == |rows|
  {
    r := Summary(0, 0, 0, 0, 0);
    var i := 0;
    while i < |rows|
      invariant i <= |rows|
      invariant r.pending == Count(rows[..i], (x: Row) => Classify(x, now) == Pending)
      invariant r.retryWaiting == Count(rows[..i], (x: Row) => Classify(x, now) == RetryWaiting)
      invariant r.inFlight == Count(rows[..i], (x: Row) => Classify(x, now) == InFlight)
      invariant r.published == Count(rows[..i], (x: Row) => Classify(x, now) == Published)
      invariant r.deadLettered == Count(rows[..i], (x: Row) => Classify(x, now) == DeadLettered)
      invariant r.pending + r.retryWaiting + r.inFlight + r.published + r.deadLettered == i
    {
      var row := rows[i];
      assert rows[..i + 1][..i] == rows[..i];
      if row.publishedAt.Some? { r := r.(published := r.published + 1); }
      else if row.deadLetteredAt.Some? { r := r.(deadLettered := r.deadLettered + 1); }
      else if row.lockedUntil.Some? && row.lockedUntil.value > now { r := r.(inFlight := r.inFlight + 1); }
      else if row.availableAt > now { r := r.(retryWaiting := r.retryWaiting + 1); }
      else { r := r.(pending := r.pending + 1); }
      i := i + 1;
    }
    assert rows[..i] == rows;
  }
}
