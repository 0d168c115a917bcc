/**
 * The worker that drains the billing outbox, running against a store that other workers use at
 * the same time and a publisher that may fail in any way.
 */
module OutboxWorker {
  import opened Prelude
  import opened BillingOutbox

  // ---------------------------------------------------------------- backoff

  function Pow2(n: nat): nat { if n == 0 then 1 else 2 * Pow2(n - 1) }

  function RetryDelay(attempts: nat, baseMs: int, maximumMs: int): int {
    var exponent := if attempts == 0 then 0 else if attempts - 1 > 30 then 30 else attempts - 1;
    var delay := baseMs * Pow2(exponent);
    if maximumMs < delay then maximumMs else delay
  }

  lemma {:induction false} Pow2Grows(m: nat, n: nat)
    requires m <= n
    ensures 1 <= Pow2(m) <= Pow2(n)
  {
    if m < n {
      Pow2Grows(m, n - 1);
    } else if m > 0 {
      Pow2Grows(m - 1, n - 1);
    }
  }

  /** The delay lies between the base and the maximum and never decreases with attempts. */
  lemma RetryDelayBounds(attempts: nat, more: nat, baseMs: int, maximumMs: int)
    requires 0 <= baseMs <= maximumMs && attempts <= more
    ensures baseMs <= RetryDelay(attempts, baseMs, maximumMs) <= maximumMs
    ensures RetryDelay(attempts, baseMs, maximumMs) <= RetryDelay(more, baseMs, maximumMs)
  {
    var e := if attempts == 0 then 0 else if attempts - 1 > 30 then 30 else attempts - 1;
    var f := if more == 0 then 0 else if more - 1 > 30 then 30 else more - 1;
    Pow2Grows(e, f);
    MulGrows(baseMs, 1, Pow2(e));
    MulGrows(baseMs, Pow2(e), Pow2(f));
  }

  lemma MulGrows(x: int, y: int, z: int)
    requires 0 <= x && y <= z
    ensures x * y <= x * z
  {
    assert x * z - x * y == x * (z - y);
  }

  // ---------------------------------------------------------------- the others

  datatype Options = Options(batchSize: int, leaseMs: int, maxAttempts: int, retryBaseMs: int, retryMaxMs: int)

  predicate OptionsOk(o: Options) {
    && 1 <= o.batchSize <= 100 && 1_000 <= o.leaseMs <= 300_000 && 1 <= o.maxAttempts <= 100
    && 100 <= o.retryBaseMs <= o.retryMaxMs <= 86_400_000
  }

  /** The outbox together with the set of rows the outside world has received. */
  datatype World = World(outbox: State, delivered: set<nat>)

  /**
   * What others may do in between; they publish before they complete, and give up only worn-out rows.
   * Every worker has its own maximum of attempts; `least` is the smallest of them.
   */
  datatype Other =
    | OtherClaim(limit: Option<int>, lease: Option<int>, claimAt: Option<int>)
    | OtherPublish(publishId: nat)
    | OtherComplete(id: nat, token: nat, completeAt: Option<int>)
    | OtherFail(failure: Failure)
    | OtherAppend(uid: int, settlement: nat, createdAt: int)

  function Meddle(w: World, o: Other, least: int): World {
    match o
    case OtherClaim(limit, lease, now) => w.(outbox := Apply(w.outbox, ClaimOp(limit, lease, now)))
    case OtherPublish(id) => w.(delivered := w.delivered + {id})
    case OtherComplete(id, token, at) =>
      if id in w.delivered then w.(outbox := Apply(w.outbox, CompleteOp(id, token, at))) else w
    case OtherFail(f) =>
      if f.dead.Some? && f.id < |w.outbox.rows| && w.outbox.rows[f.id].attempts < least then w
      else w.(outbox := Apply(w.outbox, FailOp(f)))
    case OtherAppend(uid, settlement, at) => w.(outbox := Apply(w.outbox, AppendOp(uid, settlement, at)))
  }

  function MeddleAll(w: World, os: seq<Other>, least: int): World
    decreases |os|
  {
    if os == [] then w else MeddleAll(Meddle(w, os[0], least), os[1..], least)
  }

  /** A row counts as published only if it was delivered, and as dead only after enough attempts. */
  predicate Honest(r: Row, id: nat, delivered: set<nat>, least: int) {
    && (r.publishedAt.Some? ==> id in delivered)
    && (r.deadLetteredAt.Some? ==> r.attempts >= least)
  }

  ghost predicate WorldOk(w: World, least: int) {
    && Valid(w.outbox)
    && forall i :: 0 <= i < |w.outbox.rows| ==> Honest(w.outbox.rows[i], i, w.delivered, least)
  }

  lemma MeddleKeeps(w: World, o: Other, least: int)
    requires WorldOk(w, least)
    ensures WorldOk(Meddle(w, o, least), least) && Evolves(w.outbox, Meddle(w, o, least).outbox)
    ensures w.delivered <= Meddle(w, o, least).delivered
  {
    var w' := Meddle(w, o, least);
    match o {
      case OtherClaim(limit, lease, now) => ApplyKeepsValid(w.outbox, ClaimOp(limit, lease, now));
      case OtherPublish(_) => assert Evolves(w.outbox, w.outbox);
      case OtherComplete(id, token, at) =>
        assert Evolves(w.outbox, w.outbox);
        ApplyKeepsValid(w.outbox, CompleteOp(id, token, at));
      case OtherFail(f) =>
        assert Evolves(w.outbox, w.outbox);
        ApplyKeepsValid(w.outbox, FailOp(f));
      case OtherAppend(uid, settlement, at) => ApplyKeepsValid(w.outbox, AppendOp(uid, settlement, at));
    }
    forall i | 0 <= i < |w'.outbox.rows| ensures Honest(w'.outbox.rows[i], i, w'.delivered, least) {
      if i < |w.outbox.rows| {
        assert Honest(w.outbox.rows[i], i, w.delivered, least);
        assert RowStep(w.outbox.rows[i], w'.outbox.rows[i], w.outbox.nextToken);
      }
    }
  }

  lemma EvolvesTransitive(s: State, s1: State, s2: State)
    requires Valid(s) && Evolves(s, s1) && Evolves(s1, s2)
    ensures Evolves(s, s2)
  {
    forall i | 0 <= i < |s.rows| ensures RowStep(s.rows[i], s2.rows[i], s.nextToken) {
      assert RowOk(s.rows[i], s.nextToken);
      assert RowStep(s.rows[i], s1.rows[i], s.nextToken) && RowStep(s1.rows[i], s2.rows[i], s1.nextToken);
    }
  }

  lemma {:induction false} MeddleAllKeeps(w: World, os: seq<Other>, least: int)
    requires WorldOk(w, least)
    ensures WorldOk(MeddleAll(w, os, least), least)
    ensures Evolves(w.outbox, MeddleAll(w, os, least).outbox)
    ensures w.delivered <= MeddleAll(w, os, least).delivered
    decreases |os|
  {
    if os == [] {
      assert Evolves(w.outbox, w.outbox);
    } else {
      var w1 := Meddle(w, os[0], least);
      MeddleKeeps(w, os[0], least);
      MeddleAllKeeps(w1, os[1..], least);
      EvolvesTransitive(w.outbox, w1.outbox, MeddleAll(w1, os[1..], least).outbox);
    }
  }

  // ---------------------------------------------------------------- the worker

  datatype RunResult = RunResult(claimed: nat, published: nat, retried: nat, deadLettered: nat, leaseLost: nat)

  datatype Verdict = WasPublished | WasRetried | WasDeadLettered | WasLost

  /** A claimed row as the worker remembers it: if its token still holds the row, nothing was counted since. */
  predicate Fresh(s: State, id: nat, record: Row) {
    && id < |s.rows|
    && record.lockToken.Some? && record.lockToken.value < s.nextToken
    && (s.rows[id].lockToken == record.lockToken ==> s.rows[id].attempts == record.attempts)
  }

  lemma FreshStays(s: State, s': State, id: nat, record: Row)
    requires Valid(s) && Evolves(s, s') && Fresh(s, id, record)
    ensures Fresh(s', id, record)
  {
    assert RowStep(s.rows[id], s'.rows[id], s.nextToken);
  }

  /** The failure report for a record: dead once its attempts are used up, otherwise due after the backoff. */
  function GiveBackFailure(id: nat, record: Row, now: int, o: Options): Failure
    requires record.lockToken.Some?
  {
    Failure(id, record.lockToken.value, Some(now), Some(now + RetryDelay(record.attempts, o.retryBaseMs, o.retryMaxMs)),
            "PUBLISH_FAILED", if record.attempts >= o.maxAttempts then Some(Some(now)) else None)
  }

  /** What giving a record back does: to the row if the token still holds it, otherwise nothing. */
  function GiveBack(s: State, id: nat, record: Row, now: int, o: Options): (State, Verdict)
    requires record.lockToken.Some?
  {
    var (s', failed) := Fail(s, GiveBackFailure(id, record, now, o));
    (s', if !failed then WasLost else if record.attempts >= o.maxAttempts then WasDeadLettered else WasRetried)
  }

  /** One turn of the publisher, the others and the clock. */
  datatype Turn = Turn(ok: bool, landed: bool, others: seq<Other>, now: int)

  /** One record from its publication to its verdict, the others running in between. */
  function Processed(w: World, id: nat, record: Row, turn: Turn, o: Options, least: int): (World, Verdict)
    requires record.lockToken.Some?
  {
    var w0 := if turn.ok || turn.landed then w.(delivered := w.delivered + {id}) else w;
    var w1 := MeddleAll(w0, turn.others, least);
    if turn.ok then
      var (s, completed) := Complete(w1.outbox, id, record.lockToken.value, Some(turn.now));
      (w1.(outbox := s), if completed then WasPublished else WasLost)
    else
      var (s, v) := GiveBack(w1.outbox, id, record, turn.now, o);
      (w1.(outbox := s), v)
  }

  /** The records the worker remembers are the rows as its claim left them, each with its token. */
  predicate Claimed(s: State, ids: seq<nat>, records: seq<Row>) {
    && |ids| == |records|
    && forall j :: 0 <= j < |ids| ==> ids[j] < |s.rows| && records[j] == s.rows[ids[j]] && records[j].lockToken.Some?
  }

  function Tally(r: RunResult, v: Verdict): RunResult {
    match v
    case WasPublished => r.(published := r.published + 1)
    case WasRetried => r.(retried := r.retried + 1)
    case WasDeadLettered => r.(deadLettered := r.deadLettered + 1)
    case WasLost => r.(leaseLost := r.leaseLost + 1)
  }

  /** The rest of a batch, record by record in claim order. */
  function ProcessedFrom(w: World, ids: seq<nat>, records: seq<Row>, k: nat, r: RunResult, turns: nat -> Turn,
                         o: Options, least: int): (World, RunResult)
    requires k <= |ids| == |records| && forall j :: 0 <= j < |records| ==> records[j].lockToken.Some?
    decreases |ids| - k
  {
    if k == |ids| then (w, r)
    else
      var (w', v) := Processed(w, ids[k], records[k], turns(k), o, least);
      ProcessedFrom(w', ids, records, k + 1, Tally(r, v), turns, o, least)
  }

  /** A completion succeeds exactly for the holder, and otherwise changes nothing. */
  lemma CompleteNeedsToken(s: State, id: nat, token: nat, now: int)
    ensures Complete(s, id, token, Some(now)).1 <==> Holds(s, id, token, now)
    ensures !Holds(s, id, token, now) ==> Complete(s, id, token, Some(now)).0 == s
  {
    hide Holds;
  }

  /** So does giving back. */
  lemma GiveBackNeedsToken(s: State, id: nat, record: Row, now: int, o: Options)
    requires record.lockToken.Some?
    ensures var (s', v) := GiveBack(s, id, record, now, o);
            && (v == WasLost <==> !Holds(s, id, record.lockToken.value, now)) && (v == WasLost ==> s' == s)
            && (v == WasDeadLettered ==> record.attempts >= o.maxAttempts)
            && (v == WasRetried ==> record.attempts < o.maxAttempts)
            && v != WasPublished
  {
    assert ErrorCode("PUBLISH_FAILED");
    hide Holds, ErrorCode, RetryDelay;
  }

  /** Without the token, the verdict is a lost lease and the outbox is as the others left it. */
  lemma LostExactlyWithoutToken(w: World, id: nat, record: Row, turn: Turn, o: Options, least: int)
    requires record.lockToken.Some?
    ensures var w0 := if turn.ok || turn.landed then w.(delivered := w.delivered + {id}) else w;
            var s := MeddleAll(w0, turn.others, least).outbox;
            var (w', v) := Processed(w, id, record, turn, o, least);
            && (v == WasLost <==> !Holds(s, id, record.lockToken.value, turn.now))
            && (v == WasLost ==> w'.outbox == s)
            && (v == WasPublished ==> turn.ok)
            && (v == WasDeadLettered ==> !turn.ok && record.attempts >= o.maxAttempts)
            && (v == WasRetried ==> !turn.ok && record.attempts < o.maxAttempts)
  {
    hide MeddleAll, Complete, GiveBack, Holds;
    var w0 := if turn.ok || turn.landed then w.(delivered := w.delivered + {id}) else w;
    var s := MeddleAll(w0, turn.others, least).outbox;
    CompleteNeedsToken(s, id, record.lockToken.value, turn.now);
    GiveBackNeedsToken(s, id, record, turn.now, o);
  }

  lemma {:induction false} MeddleAllConcat(w: World, a: seq<Other>, b: seq<Other>, least: int)
    ensures MeddleAll(w, a + b, least) == MeddleAll(MeddleAll(w, a, least), b, least)
    decreases |a|
  {
    hide Meddle;
    if a == [] {
      assert a + b == b;
    } else {
      assert (a + b)[0] == a[0] && (a + b)[1..] == a[1..] + b;
      MeddleAllConcat(Meddle(w, a[0], least), a[1..], b, least);
    }
  }

  /** What a worker does itself, in the vocabulary of the others: publish first, complete or fail last. */
  function OwnFirst(id: nat, turn: Turn): seq<Other> { if turn.ok || turn.landed then [OtherPublish(id)] else [] }

  function OwnLast(id: nat, record: Row, turn: Turn, o: Options): Other
    requires record.lockToken.Some?
  {
    if turn.ok then OtherComplete(id, record.lockToken.value, Some(turn.now))
    else OtherFail(GiveBackFailure(id, record, turn.now, o))
  }

  /**
   * A worker's own steps are among the steps it reckons with from others, so any number of workers can
   * run against each other.
   */
  lemma OwnStepsAreOthers(w: World, id: nat, record: Row, turn: Turn, o: Options, least: int)
    requires WorldOk(w, least) && Fresh(w.outbox, id, record) && least <= o.maxAttempts
    ensures Processed(w, id, record, turn, o, least).0 ==
            MeddleAll(w, OwnFirst(id, turn) + turn.others + [OwnLast(id, record, turn, o)], least)
  {
    var first, last := OwnFirst(id, turn), OwnLast(id, record, turn, o);
    var w0 := if turn.ok || turn.landed then w.(delivered := w.delivered + {id}) else w;
    assert MeddleAll(w, first, least) == w0 by {
      assert first != [] ==> first[1..] == [];
      assert MeddleAll(w0, [], least) == w0;
    }
    MeddleAllKeeps(w, first, least);
    var w1 := MeddleAll(w0, turn.others, least);
    MeddleAllKeeps(w0, turn.others, least);
    MeddleAllConcat(w, first, turn.others, least);
    MeddleAllConcat(w, first + turn.others, [last], least);
    assert MeddleAll(w1, [last], least) == Meddle(w1, last, least) by {
      assert [last][1..] == [] && MeddleAll(Meddle(w1, last, least), [], least) == Meddle(w1, last, least);
    }
    FreshStays(w.outbox, w0.outbox, id, record);
    FreshStays(w0.outbox, w1.outbox, id, record);
    hide MeddleAll, WorldOk;
    LastIsOther(w1, id, record, turn, o, least);
  }

  lemma LastIsOther(w: World, id: nat, record: Row, turn: Turn, o: Options, least: int)
    requires Fresh(w.outbox, id, record) && least <= o.maxAttempts && (turn.ok ==> id in w.delivered)
    ensures Meddle(w, OwnLast(id, record, turn, o), least) ==
            w.(outbox := if turn.ok then Complete(w.outbox, id, record.lockToken.value, Some(turn.now)).0
                         else GiveBack(w.outbox, id, record, turn.now, o).0)
  {
  }

  class Worker {
    const store: OutboxStore
    const options: Options
    const least: int
    var delivered: set<nat>

    ghost function View(): World
      reads this, store
    {
      World(store.View(), delivered)
    }

    constructor (store: OutboxStore, options: Options, least: int)
      requires OptionsOk(options) && least <= options.maxAttempts
      ensures this.store == store && this.options == options && this.least == least && delivered == {}
    {
      this.store := store;
      this.options, this.least := options, least;
      delivered := {};
    }

    method YieldTo(o: Other)
      modifies this, store
      ensures View() == Meddle(old(View()), o, least)
    {
      hide Claim, Complete, Fail;
      match o {
        case OtherClaim(limit, lease, now) => var _ := store.ClaimRows(limit, lease, now);
        case OtherPublish(id) => delivered := delivered + {id};
        case OtherComplete(id, token, at) =>
          if id in delivered { var _ := store.CompleteRow(id, token, at); }
        case OtherFail(f) =>
          if !(f.dead.Some? && f.id < |store.rows| && store.rows[f.id].attempts < least) {
            var _ := store.FailRow(f);
          }
        case OtherAppend(uid, settlement, at) =>
          store.rows := store.rows + [Row(uid, settlement, 0, at, None, None, None, None, None, at)];
      }
    }

    /** Let the others run. */
    method Yield(os: seq<Other>)
      modifies this, store
      ensures View() == MeddleAll(old(View()), os, least)
    {
      hide Meddle;
      var rest := os;
      while rest != []
        invariant MeddleAll(View(), rest, least) == MeddleAll(old(View()), os, least)
        decreases |rest|
      {
        YieldTo(rest[0]);
        rest := rest[1..];
      }
    }

    /**
     * One record: publish it, then complete it, or fail it with a backoff. `turn.ok` is whether the
     * publisher succeeds, `turn.landed` whether a failed publication arrived all the same.
     */
    method Process(id: nat, record: Row, turn: Turn) returns (v: Verdict)
      requires OptionsOk(options) && least <= options.maxAttempts && WorldOk(View(), least) && Fresh(store.View(), id, record)
      modifies this, store
      ensures (View(), v) == Processed(old(View()), id, record, turn, options, least)
      ensures WorldOk(View(), least) && Evolves(old(store.View()), store.View())
      ensures old(delivered) <= delivered
      ensures v == WasPublished ==> store.rows[id].publishedAt.Some? && id in delivered
      ensures v == WasRetried ==> record.attempts < options.maxAttempts && store.rows[id].lockToken.None?
      ensures v == WasRetried ==>
                store.rows[id].availableAt == turn.now + RetryDelay(record.attempts, options.retryBaseMs, options.retryMaxMs)
      ensures v == WasRetried ==> forall t :: t < turn.now + options.retryBaseMs ==> !Claimable(store.rows[id], t)
      ensures v == WasDeadLettered ==> store.rows[id].deadLetteredAt.Some? && store.rows[id].attempts >= options.maxAttempts
    {
      hide MeddleAll, Complete, Fail, RetryDelay;
      var token := record.lockToken.value;
      if turn.ok || turn.landed {
        delivered := delivered + {id};
      }
      ghost var w0 := View();
      assert WorldOk(w0, least) by {
        MeddleKeeps(old(View()), OtherPublish(id), least);
        assert w0 == old(View()) || w0 == Meddle(old(View()), OtherPublish(id), least);
      }
      Yield(turn.others);
      ghost var w1 := View();
      MeddleAllKeeps(w0, turn.others, least);
      FreshStays(w0.outbox, w1.outbox, id, record);
      if turn.ok {
        v := CompleteOrLose(id, token, turn.now);
      } else {
        v := GiveUpOrRetry(id, record, turn.now);
      }
      EvolvesTransitive(w0.outbox, w1.outbox, store.View());
    }

    /** The publisher succeeded: the row is published, unless the lease is gone. */
    method CompleteOrLose(id: nat, token: nat, now: int) returns (v: Verdict)
      requires WorldOk(View(), least) && id in delivered && id < |store.rows|
      modifies store
      ensures var (s, completed) := Complete(old(store.View()), id, token, Some(now));
              store.View() == s && v == if completed then WasPublished else WasLost
      ensures WorldOk(View(), least) && Evolves(old(store.View()), store.View())
      ensures v == WasPublished ==> store.rows[id].publishedAt.Some?
    {
      ghost var w := View();
      var completed := store.CompleteRow(id, token, Some(now));
      MeddleKeeps(w, OtherComplete(id, token, Some(now)), least);
      v := if completed then WasPublished else WasLost;
    }

    /** The publisher failed: dead-letter the row if its attempts are used up, else put it back for later. */
    method GiveUpOrRetry(id: nat, record: Row, now: int) returns (v: Verdict)
      requires OptionsOk(options) && least <= options.maxAttempts && WorldOk(View(), least) && Fresh(store.View(), id, record)
      modifies store
      ensures (store.View(), v) == GiveBack(old(store.View()), id, record, now, options)
      ensures WorldOk(View(), least) && Evolves(old(store.View()), store.View())
      ensures v == WasLost || v == WasDeadLettered || v == WasRetried
      ensures v == WasRetried ==> record.attempts < options.maxAttempts && store.rows[id].lockToken.None?
      ensures v == WasRetried ==>
                store.rows[id].availableAt == now + RetryDelay(record.attempts, options.retryBaseMs, options.retryMaxMs)
      ensures v == WasRetried ==> forall t :: t < now + options.retryBaseMs ==> !Claimable(store.rows[id], t)
      ensures v == WasDeadLettered ==> store.rows[id].deadLetteredAt.Some? && store.rows[id].attempts >= options.maxAttempts
    {
      ghost var w := View();
      var dead := record.attempts >= options.maxAttempts;
      var retryAt := now + RetryDelay(record.attempts, options.retryBaseMs, options.retryMaxMs);
      var f := Failure(id, record.lockToken.value, Some(now), Some(retryAt), "PUBLISH_FAILED",
                       if dead then Some(Some(now)) else None);
      var failed := store.FailRow(f);
      ApplyKeepsValid(w.outbox, FailOp(f));
      RetryDelayBounds(record.attempts, record.attempts, options.retryBaseMs, options.retryMaxMs);
      FailKeepsHonest(w, f, least);
      v := if !failed then WasLost else if dead then WasDeadLettered else WasRetried;
    }

    /** Claim a batch and remember the claimed rows. */
    method ClaimBatch(now: int) returns (ids: seq<nat>, records: seq<Row>)
      requires OptionsOk(options) && least <= options.maxAttempts && WorldOk(View(), least)
      modifies store
      ensures WorldOk(View(), least) && Evolves(old(store.View()), store.View())
      ensures (store.View(), ids) == Claim(old(store.View()), Some(options.batchSize), Some(options.leaseMs), Some(now))
      ensures |ids| == |records| <= options.batchSize && forall j :: 0 <= j < |ids| ==> ids[j] < |store.rows|
      ensures forall j :: 0 <= j < |ids| ==> records[j] == store.rows[ids[j]]
      ensures forall j :: 0 <= j < |ids| ==> Fresh(store.View(), ids[j], records[j])
    {
      hide Queue, LockAll;
      ghost var w := View();
      ids := store.ClaimRows(Some(options.batchSize), Some(options.leaseMs), Some(now));
      MeddleKeeps(w, OtherClaim(Some(options.batchSize), Some(options.leaseMs), Some(now)), least);
      ClaimedAreFresh(w.outbox, options.batchSize, options.leaseMs, now);
      records := [];
      while |records| < |ids|
        invariant |records| <= |ids|
        invariant forall j :: 0 <= j < |records| ==> records[j] == store.rows[ids[j]]
      {
        records := records + [store.rows[ids[|records|]]];
      }
    }

    /** `runOnce`: claim a batch and process it, whatever the publisher, the clock and the others do. */
    method RunOnce(claimAt: int, turns: nat -> Turn) returns (r: RunResult)
      requires OptionsOk(options) && least <= options.maxAttempts && WorldOk(View(), least)
      modifies this, store
      ensures WorldOk(View(), least) && Evolves(old(store.View()), store.View())
      ensures r.claimed == r.published + r.retried + r.deadLettered + r.leaseLost <= options.batchSize
      ensures var (s, ids) := Claim(old(store.View()), Some(options.batchSize), Some(options.leaseMs), Some(claimAt));
              && r.claimed == |ids|
              && exists records: seq<Row> :: Claimed(s, ids, records) &&
                   (View(), r) == ProcessedFrom(World(s, old(delivered)), ids, records, 0, RunResult(|ids|, 0, 0, 0, 0), turns, options, least)
    {
      hide WorldOk, Evolves, Valid, Processed, Claim;
      ghost var s0 := store.View();
      var ids, records := ClaimBatch(claimAt);
      r := RunResult(|ids|, 0, 0, 0, 0);
      ghost var w0, r0 := View(), r;
      assert Valid(s0) by { WorldIsValid(old(View()), least); }
      var k := 0;
      while k < |ids|
        invariant k <= |ids| == |records|
        invariant WorldOk(View(), least) && Evolves(s0, store.View())
        invariant forall j :: k <= j < |ids| ==> Fresh(store.View(), ids[j], records[j])
        invariant ProcessedFrom(View(), ids, records, k, r, turns, options, least) == ProcessedFrom(w0, ids, records, 0, r0, turns, options, least)
        invariant r.claimed == |ids| && r.published + r.retried + r.deadLettered + r.leaseLost == k
      {
        ghost var s := store.View();
        WorldIsValid(View(), least);
        var v := Process(ids[k], records[k], turns(k));
        r := Tally(r, v);
        EvolvesTransitive(s0, s, store.View());
        forall j | k + 1 <= j < |ids| ensures Fresh(store.View(), ids[j], records[j]) {
          FreshStays(s, store.View(), ids[j], records[j]);
        }
        k := k + 1;
      }
    }
  }

  lemma WorldIsValid(w: World, least: int)
    requires WorldOk(w, least)
    ensures Valid(w.outbox)
  {
  }

  /** Every row a claim returns is locked by the token the claim issued. */
  lemma ClaimedAreFresh(s: State, limit: int, lease: int, now: int)
    requires Valid(s) && 1 <= limit <= MAX_LIMIT && MIN_LEASE_MS <= lease <= MAX_LEASE_MS
    ensures var (s', ids) := Claim(s, Some(limit), Some(lease), Some(now));
            && |ids| <= limit
            && forall j :: 0 <= j < |ids| ==> ids[j] < |s'.rows| && Fresh(s', ids[j], s'.rows[ids[j]])
  {
    var (s', ids) := Claim(s, Some(limit), Some(lease), Some(now));
    forall j | 0 <= j < |ids| ensures ids[j] < |s'.rows| && Fresh(s', ids[j], s'.rows[ids[j]]) {
      assert ids[j] in ids;
      TakenIsQueued(Queue(s.rows, now, |s.rows|), limit, ids[j]);
    }
  }

  /** Failing a row keeps the books honest when it is given up only after enough attempts. */
  lemma FailKeepsHonest(w: World, f: Failure, least: int)
    requires WorldOk(w, least)
    requires f.dead.Some? && f.id < |w.outbox.rows| && w.outbox.rows[f.id].lockToken == Some(f.token) ==>
               w.outbox.rows[f.id].attempts >= least
    ensures WorldOk(w.(outbox := Fail(w.outbox, f).0), least)
  {
    ApplyKeepsValid(w.outbox, FailOp(f));
    var s' := Fail(w.outbox, f).0;
    forall i | 0 <= i < |s'.rows| ensures Honest(s'.rows[i], i, w.delivered, least) {
      assert Honest(w.outbox.rows[i], i, w.delivered, least);
    }
  }
}
