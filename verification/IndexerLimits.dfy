/**
 Where the indexer's guarantees end. For each hypothesis of IndexerRuns: the exact condition under
 which successful polls still end with the right table without it. IndexerExamples has an input that
 misses it.
 */
module IndexerLimits {
  import opened Domain
  import opened Chains
  import opened Store
  import opened Indexer
  import opened Batches
  import opened IndexerRuns

  // ---- The size of a batch ----

  /** The batch starting at next is not empty exactly when the sum does not wrap to below next. */
  lemma {:induction false} BatchNotEmptyIff(next: nat, batchSize: nat, head: nat)
    requires next <= head < 18_446_744_073_709_551_616 && batchSize < 18_446_744_073_709_551_616
    ensures next <= BatchEnd(next, batchSize, head) <==>
            (batchSize >= 1 && next + batchSize <= 18_446_744_073_709_551_616) || (batchSize == 0 && next == 0)
  {
  }

  predicate Wraps(cfg: WorkerConfig, start: nat) {
    if cfg.batchSize == 0 then start > 0 else start + cfg.batchSize > UINT64
  }

  /**
   A poll whose sum wraps, or whose batch size is 0, upserts nothing and sets checkpoint and position to a
   block at or before its start. Its table is exact up to there if and only if it had no row above.
   */
  lemma {:induction false} WrappedPollIff(cfg: WorkerConfig, w: World, hands: seq<HandOver>, k: nat, w': World)
    requires PollStep(cfg, w, hands, k, true, w') && UniqueEvents(w.chain)
    requires ReconcilePlan(cfg, w.chain, w.d.state) == Plan([], true)
    requires ScanFrom(cfg, w) < |w.chain| <= UINT64 && cfg.batchSize < UINT64 && Wraps(cfg, ScanFrom(cfg, w))
    requires Sound(w.d.certs, w.chain, cfg.chainID, cfg.startBlock, |w.chain|)
    requires Complete(w.d.certs, w.chain, cfg.chainID, cfg.startBlock, ScanFrom(cfg, w))
    ensures var start := ScanFrom(cfg, w);
            var n := BatchEnd(start, cfg.batchSize, |w.chain| - 1) + 1;
            && n <= start && w'.next == n == Checkpointed(cfg, w'.d) && w'.d.certs == w.d.certs
            && (TableExact(cfg, w') <==> forall t :: t in w.d.certs ==> w.d.certs[t].blockNumber < n)
  {
    hide UniqueEvents, ReconcilePlan, Sound, Complete, Projection, Stopped, BatchEnd, ScanPlan;
    var c, start := w.chain, ScanFrom(cfg, w);
    var n := BatchEnd(start, cfg.batchSize, |c| - 1) + 1;
    BatchNotEmptyIff(start, cfg.batchSize, |c| - 1);
    GoodPollTable(cfg, c, w.d, w.next, hands, k, w'.d, w'.next);
    ReconciledIs(cfg, c, w.d);
    CompleteLess(w.d.certs, c, cfg.chainID, cfg.startBlock, n, start);
    ExactIff(w.d.certs, c, cfg.chainID, cfg.startBlock, n, |c|);
  }

  lemma {:induction false} CompleteLess(certs: map<nat, Certificate>, c: Chain, chainID: int, lo: nat, n: nat, hi: nat)
    requires Complete(certs, c, chainID, lo, hi) && n <= hi <= |c|
    ensures Complete(certs, c, chainID, lo, n)
  {
  }

  // ---- Certificates that Validate rejects ----

  /** A batch can be completed exactly when Validate accepts its certificates and no unique key refuses a row. */
  lemma {:induction false} ScanCompletesIff(cfg: WorkerConfig, c: Chain, start: nat, hands: seq<HandOver>, d: Durable)
    requires UniqueEvents(c) && start < |c|
    ensures var plan, rows := ScanPlan(cfg, c, start, hands), BatchRows(cfg, c, start);
            && (plan.completes <==> AllValid(rows))
            && (plan.completes && Applicable(cfg, d, plan.effects) <==> AllValid(rows) && !Clash(d.certs, rows))
  {
    ScanTable(cfg, c, start, hands, d);
  }

  /** One rejected certificate in the next batch stops the worker for good: polls fail and the checkpoint stays. */
  lemma {:induction false} RejectedCertificateStalls(cfg: WorkerConfig, c: Chain, d: Durable, next: nat,
                                                     hands: seq<HandOver>,
                                  k: nat, ok: bool, d': Durable, next': nat, r: Certificate)
    requires UniqueEvents(c) && PollStops(cfg, c, d, next, hands, k, ok, d', next')
    requires ReconcilePlan(cfg, c, d.state) == Plan([], true)
    requires var start := Resume(cfg, d.state, next);
             && start < |c| && !r.Valid()
             && IsRow(c, cfg.chainID, start, BatchEnd(start, cfg.batchSize, |c| - 1) + 1, r)
    ensures !ok && d'.state == d.state && Resume(cfg, d'.state, next') == Resume(cfg, d.state, next)
  {
    hide Fetch, Fetchable, UniqueEvents, Rows, IssuedLogs, IsRow, ApplyAll, Applicable;
    var start := Resume(cfg, d.state, next);
    ScanCompletesIff(cfg, c, start, hands, d);
    RowsMembers(c, cfg.chainID, start, BatchEnd(start, cfg.batchSize, |c| - 1) + 1);
    assert r in BatchRows(cfg, c, start);
    var logs := IssuedLogs(c, start, BatchEnd(start, cfg.batchSize, |c| - 1) + 1);
    var n := Fetchable(cfg, c, logs);
    var es := LogEffects(cfg, c, logs, hands, n);
    LogEffectsSaveNothing(cfg, c, logs, hands, n);
    assert [] + es == es;
    assert forall e :: e in es[..k] ==> e in es;
    NoSaveKeepsState(cfg, d, es[..k]);
  }

  lemma {:induction false} LogEffectsSaveNothing(cfg: WorkerConfig, c: Chain, logs: seq<IssuedLog>,
                                                 hands: seq<HandOver>, n: nat)
    requires n <= Fetchable(cfg, c, logs)
    ensures forall e :: e in LogEffects(cfg, c, logs, hands, n) ==> !e.Save?
  {
    if n > 0 {
      LogEffectsSaveNothing(cfg, c, logs, hands, n - 1);
    }
  }

  lemma {:induction false} NoSaveKeepsState(cfg: WorkerConfig, d: Durable, es: seq<Effect>)
    requires forall e :: e in es ==> !e.Save?
    ensures ApplyAll(cfg, d, es).state == d.state
  {
    if es != [] {
      NoSaveKeepsState(cfg, d, es[..|es| - 1]);
    }
  }

  // ---- The table after any number of successful polls, whatever it was before ----

  /** A run of successful polls on a chain that holds still; nothing is assumed of the state it starts in. */
  ghost predicate Polled(cfg: WorkerConfig, ws: seq<World>) {
    && GoodPolls(cfg, ws) && |ws| >= 2
    && cfg.batchSize >= 1 && ws[0].chain != [] && |ws[0].chain| + cfg.batchSize <= UINT64
    && UniqueEvents(ws[0].chain)
  }

  /** Where n polls that start at from leave the position. */
  function PolledTo(cfg: WorkerConfig, c: Chain, from: nat, n: nat): nat {
    if from < |c| then Min(from + n * cfg.batchSize, |c|) else from
  }

  lemma {:induction false} RowsSplit(c: Chain, chainID: int, from: nat, mid: nat, hi: nat)
    requires from <= mid <= hi <= |c|
    ensures Rows(c, chainID, from, hi) == Rows(c, chainID, from, mid) + Rows(c, chainID, mid, hi)
  {
    if mid < hi {
      RowsSplit(c, chainID, from, mid, hi - 1);
    }
  }

  /** n polls upserted the rows of one interval into d1, the state that reconcile left. */
  ghost predicate IsPolled(cfg: WorkerConfig, c: Chain, from: nat, d1: Durable, n: nat, w: World) {
    var hi := PolledTo(cfg, c, from, n);
    && w.chain == c && w.next == hi > 0
    && ReconcilePlan(cfg, c, w.d.state) == Plan([], true)
    && (from < |c| ==> hi <= |c| && w.d.certs == Upserts(d1.certs, Rows(c, cfg.chainID, from, hi))
                       && w.d.state == Some(IndexerState(cfg.chainID, hi - 1, c[hi - 1].hash)))
    && (from >= |c| ==> w.d == d1)
  }

  lemma {:induction false} PollsTable(cfg: WorkerConfig, ws: seq<World>)
    requires Polled(cfg, ws)
    ensures var c, w := ws[0].chain, ws[0];
            IsPolled(cfg, c, ScanFrom(cfg, w), Reconciled(cfg, c, w.d), |ws| - 1, ws[|ws| - 1])
  {
    hide *;
    PolledParts(cfg, ws);
    var c, n := ws[0].chain, |ws| - 1;
    if n == 1 {
      FirstPoll(cfg, ws[0], ws[1]);
    } else {
      PollsTable(cfg, ws[..n]);
      assert ws[..n][0] == ws[0] && ws[..n][n - 1] == ws[n - 1];
      NextPoll(cfg, c, ScanFrom(cfg, ws[0]), n, Reconciled(cfg, c, ws[0].d), ws[n - 1], ws[n]);
    }
  }

  lemma {:induction false} PolledParts(cfg: WorkerConfig, ws: seq<World>)
    requires Polled(cfg, ws)
    ensures |ws| >= 2
    ensures var n := |ws| - 1;
            && cfg.batchSize >= 1 && ws[0].chain != [] && |ws[0].chain| + cfg.batchSize <= UINT64
            && UniqueEvents(ws[0].chain)
            && GoodPoll(cfg, ws[n - 1], ws[n]) && (n > 1 ==> Polled(cfg, ws[..n]))
  {
    hide GoodPoll, UniqueEvents;
  }

  lemma {:induction false} FirstPoll(cfg: WorkerConfig, w: World, w': World)
    requires GoodPoll(cfg, w, w') && UniqueEvents(w.chain) && w.chain != []
    requires cfg.batchSize >= 1 && |w.chain| + cfg.batchSize <= UINT64
    ensures IsPolled(cfg, w.chain, ScanFrom(cfg, w), Reconciled(cfg, w.chain, w.d), 1, w')
  {
    hide *;
    var c, from, d1 := w.chain, ScanFrom(cfg, w), Reconciled(cfg, w.chain, w.d);
    var hands, k := GoodPollStops(cfg, w, w');
    StartIsScanFrom(cfg, w);
    GoodPollTable(cfg, c, w.d, w.next, hands, k, w'.d, w'.next);
    if from < |c| {
      BatchEndPlain(from, cfg.batchSize, |c| - 1);
      CheckpointInOrder(c, cfg, w'.next - 1);
      BatchPolled(cfg, c, from, d1, w');
    } else {
      ReconciledInOrder(cfg, c, w.d);
      IdlePolled(cfg, c, from, d1, w');
    }
  }

  lemma {:induction false} GoodPollStops(cfg: WorkerConfig, w: World, w': World) returns (hands: seq<HandOver>, k: nat)
    requires GoodPoll(cfg, w, w')
    ensures PollStops(cfg, w.chain, w.d, w.next, hands, k, true, w'.d, w'.next) && w'.chain == w.chain
  {
    hide PollStops;
    var ok: bool;
    hands, k, ok :| PollStep(cfg, w, hands, k, ok, w') && ok;
  }

  lemma {:induction false} StartIsScanFrom(cfg: WorkerConfig, w: World)
    ensures PollStart(cfg, w.chain, w.d, w.next) == ScanFrom(cfg, w)
  {
  }

  lemma {:induction false} CheckpointInOrder(c: Chain, cfg: WorkerConfig, n: nat)
    requires n < |c|
    ensures ReconcilePlan(cfg, c, Some(IndexerState(cfg.chainID, n, c[n].hash))) == Plan([], true)
  {
  }

  lemma {:induction false} ReconciledInOrder(cfg: WorkerConfig, c: Chain, d: Durable)
    requires ReconcilePlan(cfg, c, d.state).completes
    ensures ReconcilePlan(cfg, c, Reconciled(cfg, c, d).state) == Plan([], true)
  {
    hide DeletedFrom, RewindTo;
    ReconciledIs(cfg, c, d);
  }

  lemma {:induction false} BatchPolled(cfg: WorkerConfig, c: Chain, from: nat, d1: Durable, w: World)
    requires from < |c| && w.chain == c && 0 < w.next == BatchEnd(from, cfg.batchSize, |c| - 1) + 1 <= |c|
    requires w.next == Min(from + cfg.batchSize, |c|)
    requires w.d.certs == Upserts(d1.certs, BatchRows(cfg, c, from))
    requires w.d.state == Some(IndexerState(cfg.chainID, w.next - 1, c[w.next - 1].hash))
    requires ReconcilePlan(cfg, c, w.d.state) == Plan([], true)
    ensures IsPolled(cfg, c, from, d1, 1, w)
  {
    hide ReconcilePlan, Rows, Upserts, BatchEnd;
  }

  lemma {:induction false} IdlePolled(cfg: WorkerConfig, c: Chain, from: nat, d1: Durable, w: World)
    requires from >= |c| > 0 && w.chain == c && w.next == from && w.d == d1
    requires ReconcilePlan(cfg, c, w.d.state) == Plan([], true)
    ensures IsPolled(cfg, c, from, d1, 1, w)
  {
    hide ReconcilePlan;
  }

  /** A later poll finds its checkpoint in order and adds the next batch. */
  lemma {:induction false} NextPoll(cfg: WorkerConfig, c: Chain, from: nat, n: nat, d1: Durable, w: World, w': World)
    requires n >= 2 && GoodPoll(cfg, w, w') && UniqueEvents(c) && c != []
    requires cfg.batchSize >= 1 && |c| + cfg.batchSize <= UINT64
    requires IsPolled(cfg, c, from, d1, n - 1, w)
    ensures IsPolled(cfg, c, from, d1, n, w')
  {
    hide UniqueEvents, GoodPoll, Rows, Upserts, ReconcilePlan, PolledTo, ScanFrom, Reconciled;
    FirstPoll(cfg, w, w');
    LaterStart(cfg, c, w);
    PolledSum(cfg, c, from, n);
    if from < |c| {
      var mid, hi := w.next, PolledTo(cfg, c, from, n);
      if mid < |c| {
        RowsSplit(c, cfg.chainID, from, mid, hi);
        UpsertsAppend(d1.certs, Rows(c, cfg.chainID, from, mid), Rows(c, cfg.chainID, mid, hi));
      }
    }
  }

  lemma {:induction false} LaterStart(cfg: WorkerConfig, c: Chain, w: World)
    requires w.chain == c && w.next > 0 && ReconcilePlan(cfg, c, w.d.state) == Plan([], true)
    ensures ScanFrom(cfg, w) == w.next && Reconciled(cfg, c, w.d) == w.d
  {
  }

  lemma {:induction false} PolledSum(cfg: WorkerConfig, c: Chain, from: nat, n: nat)
    requires n >= 2 && cfg.batchSize >= 1
    ensures var mid, hi := PolledTo(cfg, c, from, n - 1), PolledTo(cfg, c, from, n);
            && hi == PolledTo(cfg, c, mid, 1) && mid <= hi
            && (from < |c| ==> from <= mid && hi <= |c|) && (from >= |c| ==> mid == hi == from)
            && (mid >= |c| ==> hi == mid)
  {
    assert n * cfg.batchSize == (n - 1) * cfg.batchSize + cfg.batchSize;
    assert (n - 1) * cfg.batchSize >= 0;
  }

  /**
   The general theorem: after any number of successful polls, the table is the projection of the chain
   up to the checkpoint exactly if the scanned interval mends the table that reconcile left.
   */
  lemma {:induction false} PollsExactIff(cfg: WorkerConfig, ws: seq<World>)
    requires Polled(cfg, ws)
    requires var from, d1 := ScanFrom(cfg, ws[0]), Reconciled(cfg, ws[0].chain, ws[0].d);
             && KeyedByToken(d1.certs) && cfg.startBlock <= from <= |ws[0].chain|
             && (from == |ws[0].chain| ==> Checkpointed(cfg, d1) == from)
    ensures var c, from := ws[0].chain, ScanFrom(cfg, ws[0]);
            TableExact(cfg, ws[|ws| - 1]) <==>
            Mended(Reconciled(cfg, c, ws[0].d).certs, c, cfg.chainID, cfg.startBlock, from,
                   PolledTo(cfg, c, from, |ws| - 1))
  {
    hide GoodPolls, ScanFrom, UniqueEvents, Projection, Upserts, Mended, Reconciled, ReconcilePlan, KeyedByToken, Rows;
    var c, from, d1 := ws[0].chain, ScanFrom(cfg, ws[0]), Reconciled(cfg, ws[0].chain, ws[0].d);
    var hi := PolledTo(cfg, c, from, |ws| - 1);
    PollsTable(cfg, ws);
    PolledFar(cfg, c, from, |ws| - 1, 0);
    BatchExactIff(d1.certs, c, cfg.chainID, cfg.startBlock, from, hi);
    if from == |c| {
      NoRows(d1.certs, c, cfg.chainID, from);
    }
  }

  lemma {:induction false} NoRows(certs: map<nat, Certificate>, c: Chain, chainID: int, from: nat)
    requires from <= |c|
    ensures Upserts(certs, Rows(c, chainID, from, from)) == certs
  {
  }

  /** Polls pass every block m within one batch of their start. */
  lemma {:induction false} PolledFar(cfg: WorkerConfig, c: Chain, from: nat, n: nat, m: nat)
    requires n >= 1 && cfg.batchSize >= 1
    ensures var hi := PolledTo(cfg, c, from, n);
            && from <= hi && (from <= |c| ==> hi <= |c|) && (from >= |c| ==> hi == from)
            && (from <= |c| && m <= |c| && m <= from + cfg.batchSize ==> m <= hi)
  {
    assert n * cfg.batchSize >= cfg.batchSize;
  }

  lemma {:induction false} PolledIdle(cfg: WorkerConfig, c: Chain, from: nat, d1: Durable, n: nat, w: World)
    requires IsPolled(cfg, c, from, d1, n, w) && from >= |c|
    ensures w.chain == c && w.d == d1
  {
  }

  // ---- Blocks that a failed batch read and a reorganisation replaced ----

  /** The checkpoint is canonical; blocks above it that a failed batch read may have been replaced. */
  ghost predicate Diverged(cfg: WorkerConfig, w: World) {
    && StateInv(cfg, w) && !w.torn && TableInv(cfg, w)
    && (w.d.state.Some? ==> Keeps(w.chain, w.seen, w.d.state.value.lastBlock + 1))
  }

  /**
   Polls that succeed after such a replacement end with the exact table if and only if every token
   with a row above the checkpoint is issued again in the blocks they scan. PollCanSucceedIff says
   when they can succeed.
   */
  lemma {:induction false} StaleRowsIff(cfg: WorkerConfig, ws: seq<World>)
    requires Polled(cfg, ws) && Diverged(cfg, ws[0])
    ensures var w, c, from := ws[0], ws[0].chain, ScanFrom(cfg, ws[0]);
            TableExact(cfg, ws[|ws| - 1]) <==>
            forall t :: t in w.d.certs && w.d.certs[t].blockNumber >= Checkpointed(cfg, w.d) ==>
              Reissued(c, cfg.chainID, from, PolledTo(cfg, c, from, |ws| - 1), t)
  {
    hide *;
    PolledParts(cfg, ws);
    var w, c, from := ws[0], ws[0].chain, ScanFrom(cfg, ws[0]);
    var hi := PolledTo(cfg, c, from, |ws| - 1);
    DivergedPlan(cfg, w);
    PolledFar(cfg, c, from, |ws| - 1, Checkpointed(cfg, w.d));
    DivergedTable(cfg, w);
    SoundIsKeyed(w.d.certs, w.seen, cfg.chainID, cfg.startBlock, |w.seen|);
    if from <= |c| {
      PollsExactIff(cfg, ws);
      MendedStale(w.d.certs, c, w.seen, cfg.chainID, cfg.startBlock, from, Checkpointed(cfg, w.d), hi);
    } else {
      PollsTable(cfg, ws);
      PolledIdle(cfg, c, from, w.d, |ws| - 1, ws[|ws| - 1]);
      NothingReissued(cfg, w, from, ws[|ws| - 1]);
    }
  }

  lemma {:induction false} DivergedPlan(cfg: WorkerConfig, w: World)
    requires Diverged(cfg, w) && cfg.batchSize >= 1
    ensures ReconcilePlan(cfg, w.chain, w.d.state) == Plan([], true) && Reconciled(cfg, w.chain, w.d) == w.d
    ensures var from, n := ScanFrom(cfg, w), Checkpointed(cfg, w.d);
            && cfg.startBlock <= from <= n <= from + cfg.batchSize
            && (w.d.state.None? ==> from == n == cfg.startBlock)
            && (w.d.state.Some? ==> n <= |w.chain| && Keeps(w.chain, w.seen, n))
  {
    hide TableInv;
    if w.d.state.Some? {
      var last := w.d.state.value.lastBlock;
      assert w.chain[..last + 1][last] == w.seen[..last + 1][last];
    }
  }

  lemma {:induction false} DivergedTable(cfg: WorkerConfig, w: World)
    requires Diverged(cfg, w)
    ensures Sound(w.d.certs, w.seen, cfg.chainID, cfg.startBlock, |w.seen|)
    ensures Complete(w.d.certs, w.seen, cfg.chainID, cfg.startBlock, Checkpointed(cfg, w.d))
  {
    hide Sound, Complete;
  }

  lemma {:induction false} MendedStale(certs: map<nat, Certificate>, c: Chain, seen: Chain, chainID: int,
                                       lo: nat, from: nat, n: nat, hi: nat)
    requires Sound(certs, seen, chainID, lo, |seen|) && Complete(certs, seen, chainID, lo, n)
    requires Keeps(c, seen, n) || lo == n
    requires lo <= from <= n && from <= |c| && hi <= |c| && (n <= hi || from == n)
    ensures Mended(certs, c, chainID, lo, from, hi) <==>
            forall t :: t in certs && certs[t].blockNumber >= n ==> Reissued(c, chainID, from, hi, t)
  {
    forall r | IsRow(c, chainID, lo, from, r)
      ensures r.tokenID in certs && certs[r.tokenID] == r
    {
      KeepsRows(c, seen, n, chainID, lo, r);
      assert IsRow(seen, chainID, lo, n, r);
    }
    forall t | t in certs && certs[t].blockNumber < n
      ensures IsRow(c, chainID, lo, from, certs[t]) || Reissued(c, chainID, from, hi, t)
    {
      KeepsRows(c, seen, n, chainID, lo, certs[t]);
      assert IsRow(seen, chainID, lo, n, certs[t]);
      assert certs[t].blockNumber < from || IsRow(c, chainID, from, hi, certs[t]);
    }
  }

  /** The chain does not reach the start block yet. */
  lemma {:induction false} NothingReissued(cfg: WorkerConfig, w: World, from: nat, w': World)
    requires Diverged(cfg, w) && w.d.state.None? && from == cfg.startBlock > |w.chain|
             && w'.chain == w.chain && w'.d == w.d
    ensures TableExact(cfg, w') <==>
            forall t :: t in w.d.certs && w.d.certs[t].blockNumber >= from ==>
              Reissued(w.chain, cfg.chainID, from, from, t)
  {
    EmptyIff(w.d.certs, w.seen, cfg.chainID, cfg.startBlock);
  }

  // ---- Reorganisations below the rewind point ----

  /** What the history promises of the table, without any promise about the canonical chain. */
  ghost predicate History(cfg: WorkerConfig, w: World) {
    StateInv(cfg, w) && TableInv(cfg, w) && ValidChain(w.seen)
  }

  /**
   Below n the chain issues nothing that seen did not, and what seen issued there stays or is issued
   again in [n, hi).
   */
  ghost predicate NothingNewOrLost(c: Chain, seen: Chain, chainID: int, lo: nat, n: nat, hi: nat) {
    && (forall q :: IsRow(c, chainID, lo, n, q) ==> IsRow(seen, chainID, lo, n, q))
    && (forall q :: IsRow(seen, chainID, lo, n, q) ==>
                      IsRow(c, chainID, lo, n, q) || Reissued(c, chainID, n, hi, q.tokenID))
  }

  /**
   However deep a reorganisation reaches, the polls that rewind and scan again end with the exact table
   if and only if no canonical event up to the rewind point was new to the indexer, and each event it
   had seen there is canonical still or has its token issued again in the blocks scanned.
   */
  lemma {:induction false} DeepReorgIff(cfg: WorkerConfig, ws: seq<World>)
    requires Polled(cfg, ws) && History(cfg, ws[0])
    requires |ReconcilePlan(cfg, ws[0].chain, ws[0].d.state).effects| == 2
    ensures var seen, c, n := ws[0].seen, ws[0].chain, RewindTo(cfg, ws[0].d.state.value.lastBlock) + 1;
            TableExact(cfg, ws[|ws| - 1]) <==>
            NothingNewOrLost(c, seen, cfg.chainID, cfg.startBlock, n, PolledTo(cfg, c, n, |ws| - 1))
  {
    hide *;
    PolledParts(cfg, ws);
    var w, c := ws[0], ws[0].chain;
    RewoundTable(cfg, w);
    var r := RewindTo(cfg, w.d.state.value.lastBlock);
    var certs := Reconciled(cfg, c, w.d).certs;
    SoundIsKeyed(certs, w.seen, cfg.chainID, cfg.startBlock, r + 1);
    PollsExactIff(cfg, ws);
    MendedDeep(certs, c, w.seen, cfg.chainID, cfg.startBlock, r + 1, PolledTo(cfg, c, r + 1, |ws| - 1));
  }

  lemma {:induction false} RewoundTable(cfg: WorkerConfig, w: World)
    requires History(cfg, w) && |ReconcilePlan(cfg, w.chain, w.d.state).effects| == 2
    ensures w.d.state.Some?
    ensures var r, d1 := RewindTo(cfg, w.d.state.value.lastBlock), Reconciled(cfg, w.chain, w.d);
            && cfg.startBlock <= r < |w.chain| && ScanFrom(cfg, w) == r + 1 == Checkpointed(cfg, d1)
            && Sound(d1.certs, w.seen, cfg.chainID, cfg.startBlock, r + 1)
            && Complete(d1.certs, w.seen, cfg.chainID, cfg.startBlock, r + 1)
  {
    hide Linked, UniqueEvents, ValidEvents, Sound, Complete, DeletedFrom;
    ReconciledIs(cfg, w.chain, w.d);
    var r := RewindTo(cfg, w.d.state.value.lastBlock);
    DeleteAbove(cfg, w.seen, if w.torn then r + 1 else |w.seen|, Covered(cfg, w), r + 1, w.d.certs);
  }

  lemma {:induction false} MendedDeep(certs: map<nat, Certificate>, c: Chain, seen: Chain, chainID: int, lo: nat,
                                      n: nat, hi: nat)
    requires Sound(certs, seen, chainID, lo, n) && Complete(certs, seen, chainID, lo, n)
    ensures Mended(certs, c, chainID, lo, n, hi) <==> NothingNewOrLost(c, seen, chainID, lo, n, hi)
  {
    hide IsRow, Reissued;
  }

  // ---- Equal hashes of different chains ----

  /**
   If the checkpoint's hash is found on the chain, whether or not the blocks below agree, polls end with
   the exact table if and only if the chain issues nothing below the scan that the indexer had not seen
   there, and each row of the table is canonical there or has its token issued again in the blocks scanned.
   */
  lemma {:induction false} SameHashIff(cfg: WorkerConfig, ws: seq<World>)
    requires Polled(cfg, ws) && History(cfg, ws[0]) && !ws[0].torn && ws[0].d.state.Some? && CheckpointCanonical(ws[0])
    ensures var w, c, from := ws[0], ws[0].chain, ScanFrom(cfg, ws[0]);
            var hi := PolledTo(cfg, c, from, |ws| - 1);
            TableExact(cfg, ws[|ws| - 1]) <==>
            && (forall q :: IsRow(c, cfg.chainID, cfg.startBlock, from, q) ==>
                              IsRow(w.seen, cfg.chainID, cfg.startBlock, from, q))
            && (forall t :: t in w.d.certs ==>
                              || IsRow(c, cfg.chainID, cfg.startBlock, from, w.d.certs[t])
                              || Reissued(c, cfg.chainID, from, hi, t))
  {
    hide *;
    PolledParts(cfg, ws);
    var w, c, from := ws[0], ws[0].chain, ScanFrom(cfg, ws[0]);
    SameHashPlan(cfg, w);
    PollsExactIff(cfg, ws);
    MendedSeen(w.d.certs, c, w.seen, cfg.chainID, cfg.startBlock, from, Checkpointed(cfg, w.d),
               PolledTo(cfg, c, from, |ws| - 1));
  }

  lemma {:induction false} SameHashPlan(cfg: WorkerConfig, w: World)
    requires History(cfg, w) && !w.torn && w.d.state.Some? && CheckpointCanonical(w)
    ensures Reconciled(cfg, w.chain, w.d) == w.d && KeyedByToken(w.d.certs)
    ensures cfg.startBlock <= ScanFrom(cfg, w) <= Checkpointed(cfg, w.d) <= |w.chain|
            && Checkpointed(cfg, w.d) <= |w.seen|
    ensures Sound(w.d.certs, w.seen, cfg.chainID, cfg.startBlock, |w.seen|)
    ensures Complete(w.d.certs, w.seen, cfg.chainID, cfg.startBlock, Checkpointed(cfg, w.d))
  {
    hide Sound, Complete, KeyedByToken, ValidChain;
    SoundIsKeyed(w.d.certs, w.seen, cfg.chainID, cfg.startBlock, |w.seen|);
  }

  lemma {:induction false} MendedSeen(certs: map<nat, Certificate>, c: Chain, seen: Chain, chainID: int,
                                      lo: nat, from: nat, n: nat, hi: nat)
    requires Sound(certs, seen, chainID, lo, |seen|) && Complete(certs, seen, chainID, lo, n) && from <= n <= |seen|
    ensures Mended(certs, c, chainID, lo, from, hi) <==>
            && (forall q :: IsRow(c, chainID, lo, from, q) ==> IsRow(seen, chainID, lo, from, q))
            && (forall t :: t in certs ==>
                              IsRow(c, chainID, lo, from, certs[t]) || Reissued(c, chainID, from, hi, t))
  {
    hide Reissued;
    if Complete(certs, c, chainID, lo, from) {
      forall q | IsRow(c, chainID, lo, from, q)
        ensures IsRow(seen, chainID, lo, from, q)
      {
        assert certs[q.tokenID] == q;
      }
    }
    if forall q :: IsRow(c, chainID, lo, from, q) ==> IsRow(seen, chainID, lo, from, q) {
      forall q | IsRow(c, chainID, lo, from, q)
        ensures q.tokenID in certs && certs[q.tokenID] == q
      {
        assert IsRow(seen, chainID, lo, n, q);
      }
    }
  }

  // ---- Blocks that no scan reads ----

  /** Blocks lo, ..., hi-1 issue nothing. */
  predicate Quiet(c: Chain, lo: nat, hi: nat)
    requires hi <= |c|
  {
    forall i :: lo <= i < hi ==> c[i].events == []
  }

  lemma {:induction false} QuietIff(c: Chain, chainID: int, lo: nat, n: nat, hi: nat)
    requires lo <= n && hi <= |c|
    ensures Quiet(c, n, hi) <==> forall q :: IsRow(c, chainID, lo, hi, q) ==> q.blockNumber < n
  {
    if !Quiet(c, n, hi) {
      var i :| n <= i < hi && c[i].events != [];
      var q := BlockRows(c[i], i, chainID)[0];
      assert q in BlockRows(c[i], i, chainID) && IsRow(c, chainID, lo, hi, q);
    }
  }

  /** With a table exact below n and a scan from further up, the blocks between decide. */
  lemma {:induction false} MendedGap(certs: map<nat, Certificate>, c: Chain, chainID: int, lo: nat, n: nat, from: nat,
                                     hi: nat)
    requires Sound(certs, c, chainID, lo, n) && Complete(certs, c, chainID, lo, n)
    requires lo <= from <= hi <= |c| && lo <= n <= hi
    ensures Mended(certs, c, chainID, lo, from, hi) <==> Quiet(c, n, from)
  {
    QuietIff(c, chainID, lo, n, from);
    forall t | t in certs
      ensures IsRow(c, chainID, lo, from, certs[t]) || Reissued(c, chainID, from, hi, t)
    {
      assert certs[t].blockNumber < from || IsRow(c, chainID, from, hi, certs[t]);
    }
    if Quiet(c, n, from) {
      forall q | IsRow(c, chainID, lo, from, q)
        ensures q.tokenID in certs && certs[q.tokenID] == q
      {
        assert IsRow(c, chainID, lo, n, q);
      }
    } else {
      var q :| IsRow(c, chainID, lo, from, q) && q.blockNumber >= n;
      assert q.tokenID in certs ==> certs[q.tokenID] != q;
    }
  }

  /**
   A rewind stopped between its two writes, and then the old fork came back. The polls that follow end
   with the exact table if and only if the blocks above the rewind point that they do not scan, the
   last of which is at the checkpoint unless the position lags, issue nothing.
   */
  lemma {:induction false} TornRewindIff(cfg: WorkerConfig, ws: seq<World>)
    requires Polled(cfg, ws) && History(cfg, ws[0]) && ws[0].torn
    requires Keeps(ws[0].chain, ws[0].seen, Checkpointed(cfg, ws[0].d))
    ensures ScanFrom(cfg, ws[0]) <= |ws[0].chain|
    ensures TableExact(cfg, ws[|ws| - 1]) <==>
            Quiet(ws[0].chain, RewindTo(cfg, ws[0].d.state.value.lastBlock) + 1, ScanFrom(cfg, ws[0]))
  {
    hide *;
    PolledParts(cfg, ws);
    var w, c, from := ws[0], ws[0].chain, ScanFrom(cfg, ws[0]);
    TornPlan(cfg, w);
    var n := RewindTo(cfg, w.d.state.value.lastBlock) + 1;
    PolledFar(cfg, c, from, |ws| - 1, n);
    PollsExactIff(cfg, ws);
    MendedGap(w.d.certs, c, cfg.chainID, cfg.startBlock, n, from, PolledTo(cfg, c, from, |ws| - 1));
  }

  lemma {:induction false} TornPlan(cfg: WorkerConfig, w: World)
    requires History(cfg, w) && w.torn && cfg.batchSize >= 1 && Keeps(w.chain, w.seen, Checkpointed(cfg, w.d))
    ensures w.d.state.Some? && Reconciled(cfg, w.chain, w.d) == w.d && KeyedByToken(w.d.certs)
    ensures var from, n, top := ScanFrom(cfg, w), RewindTo(cfg, w.d.state.value.lastBlock) + 1, Checkpointed(cfg, w.d);
            && cfg.startBlock <= from <= top <= from + cfg.batchSize && cfg.startBlock < n <= top <= |w.chain|
            && Sound(w.d.certs, w.chain, cfg.chainID, cfg.startBlock, n)
            && Complete(w.d.certs, w.chain, cfg.chainID, cfg.startBlock, n)
  {
    hide Sound, Complete, KeyedByToken, ValidChain;
    var last := w.d.state.value.lastBlock;
    assert w.chain[..last + 1][last] == w.seen[..last + 1][last];
    var n := RewindTo(cfg, last) + 1;
    KeepsLess(w.chain, w.seen, n, last + 1);
    SoundTransfer(w.d.certs, w.chain, w.seen, cfg.chainID, cfg.startBlock, n);
    SoundIsKeyed(w.d.certs, w.chain, cfg.chainID, cfg.startBlock, n);
  }

  /** Reconcile stored the rewound checkpoint, but the answer was lost: the position is still the old one. */
  ghost predicate LostSave(cfg: WorkerConfig, w: World, w': World) {
    && |ReconcilePlan(cfg, w.chain, w.d.state).effects| == 2
    && w' == Rewound(cfg, w).(next := Resume(cfg, w.d.state, w.next), chain := w'.chain)
  }

  /**
   After a lost save, and as long as the rewound checkpoint is canonical, the polls that follow end with
   the exact table if and only if they scan nothing or the blocks between it and the position issue nothing.
   */
  lemma {:induction false} LostSaveIff(cfg: WorkerConfig, w: World, ws: seq<World>)
    requires Inv(cfg, w) && Polled(cfg, ws) && LostSave(cfg, w, ws[0])
    requires Keeps(ws[0].chain, ws[0].seen, |ws[0].seen|)
    ensures var c, from := ws[0].chain, ScanFrom(cfg, ws[0]);
            TableExact(cfg, ws[|ws| - 1]) <==> from >= |c| || Quiet(c, Checkpointed(cfg, ws[0].d), from)
  {
    hide *;
    PolledParts(cfg, ws);
    var v, c, from := ws[0], ws[0].chain, ScanFrom(cfg, ws[0]);
    var n := Checkpointed(cfg, v.d);
    LostSavePlan(cfg, w, v);
    PolledFar(cfg, c, from, |ws| - 1, n);
    if from < |c| {
      PollsExactIff(cfg, ws);
      MendedGap(v.d.certs, c, cfg.chainID, cfg.startBlock, n, from, PolledTo(cfg, c, from, |ws| - 1));
    } else {
      PollsTable(cfg, ws);
      PolledIdle(cfg, c, from, v.d, |ws| - 1, ws[|ws| - 1]);
      ExactTable(cfg, v, ws[|ws| - 1], n);
    }
  }

  lemma {:induction false} ExactTable(cfg: WorkerConfig, v: World, w: World, n: nat)
    requires UniqueEvents(v.chain) && w.chain == v.chain && w.d == v.d && n == Checkpointed(cfg, v.d) <= |v.chain|
    requires Sound(v.d.certs, v.chain, cfg.chainID, cfg.startBlock, n)
             && Complete(v.d.certs, v.chain, cfg.chainID, cfg.startBlock, n)
    ensures TableExact(cfg, w)
  {
    hide UniqueEvents, Sound, Complete, Projection;
    ProjectionIff(v.d.certs, v.chain, cfg.chainID, cfg.startBlock, n);
  }

  lemma {:induction false} LostSavePlan(cfg: WorkerConfig, w: World, v: World)
    requires Inv(cfg, w) && LostSave(cfg, w, v) && Keeps(v.chain, v.seen, |v.seen|)
    ensures Reconciled(cfg, v.chain, v.d) == v.d && KeyedByToken(v.d.certs)
    ensures var from, n := ScanFrom(cfg, v), Checkpointed(cfg, v.d);
            && cfg.startBlock <= from && n <= from + cfg.batchSize && cfg.startBlock < n <= |v.chain|
            && Sound(v.d.certs, v.chain, cfg.chainID, cfg.startBlock, n)
            && Complete(v.d.certs, v.chain, cfg.chainID, cfg.startBlock, n)
  {
    hide Sound, Complete, KeyedByToken, ValidChain, OutboxInv, DeletedFrom, Admissible;
    RewoundKeepsInv(cfg, w);
    ResumeKeepsInv(cfg, w);
    var r := RewindTo(cfg, w.d.state.value.lastBlock);
    assert v.seen == w.chain[..r + 1] && |v.seen| == r + 1;
    assert v.chain[..r + 1][r] == v.seen[r];
    SoundTransfer(v.d.certs, v.chain, v.seen, cfg.chainID, cfg.startBlock, r + 1);
    SoundIsKeyed(v.d.certs, v.chain, cfg.chainID, cfg.startBlock, r + 1);
  }

  // ---- A chain that changes in the middle of a poll ----

  /**
   The worker's scan read the logs on chain c, and then, the chain having changed, the last hash on c'.
   With a table that was exact for c' so far, a scan that succeeds leaves an exact one if and only if both
   chains issue the same rows in the batch; reconcile finds the checkpoint in order either way.
   */
  lemma {:induction false} SplitReadIff(cfg: WorkerConfig, c: Chain, c': Chain, start: nat, hands: seq<HandOver>,
                                        d: Durable, d': Durable)
    requires UniqueEvents(c) && UniqueEvents(c') && cfg.startBlock <= start < |c|
    requires start <= BatchEnd(start, cfg.batchSize, |c| - 1)
    requires var plan := SplitPlan(cfg, c, c', start, hands);
             plan.completes && Stopped(cfg, d, plan.effects, |plan.effects|, d')
    requires start <= |c'| && d.certs == Projection(c', cfg.chainID, cfg.startBlock, start)
    ensures BatchEnd(start, cfg.batchSize, |c| - 1) < |c'| && ReconcilePlan(cfg, c', d'.state) == Plan([], true)
    ensures var hi := BatchEnd(start, cfg.batchSize, |c| - 1) + 1;
            d'.certs == Projection(c', cfg.chainID, cfg.startBlock, hi) <==>
            forall q :: IsRow(c, cfg.chainID, start, hi, q) <==> IsRow(c', cfg.chainID, start, hi, q)
  {
    hide UniqueEvents, SplitPlan, ApplyAll, Applicable, Projection, BatchEnd, Rows, Upserts, IsRow, Sound, Complete,
         AllValid, Clash;
    var to, es := BatchEnd(start, cfg.batchSize, |c| - 1), SplitPlan(cfg, c, c', start, hands).effects;
    assert es[..|es|] == es;
    SplitTable(cfg, c, c', start, hands, d);
    BatchEndInside(start, cfg.batchSize, |c| - 1);
    UpsertedInterval(d.certs, c, cfg.chainID, start, to + 1);
    ProjectionIff(d.certs, c', cfg.chainID, cfg.startBlock, start);
    ProjectionIff(d'.certs, c', cfg.chainID, cfg.startBlock, to + 1);
    SameBatchIff(d.certs, d'.certs, c, c', cfg.chainID, cfg.startBlock, start, to + 1);
  }

  lemma {:induction false} SameBatchIff(certs: map<nat, Certificate>, certs': map<nat, Certificate>, c: Chain,
                                        c': Chain,
                                        chainID: int, lo: nat, from: nat, hi: nat)
    requires UniqueEvents(c') && lo <= from <= hi <= |c'| && Upserted(certs, certs', c, chainID, from, hi)
    requires Sound(certs, c', chainID, lo, from) && Complete(certs, c', chainID, lo, from) && hi <= |c|
    ensures Sound(certs', c', chainID, lo, hi) && Complete(certs', c', chainID, lo, hi) <==>
            forall q :: IsRow(c, chainID, from, hi, q) <==> IsRow(c', chainID, from, hi, q)
  {
    hide Sound, Complete, IsRow, Upserted, UniqueEvents;
    if Sound(certs', c', chainID, lo, hi) && Complete(certs', c', chainID, lo, hi) {
      forall q
        ensures IsRow(c, chainID, from, hi, q) <==> IsRow(c', chainID, from, hi, q)
      {
        ExactBatchRow(certs, certs', c, c', chainID, lo, from, hi, q);
      }
    }
    if forall q :: IsRow(c, chainID, from, hi, q) <==> IsRow(c', chainID, from, hi, q) {
      SameUpserts(certs, certs', c, c', chainID, from, hi);
      SoundIsMended(certs, c', chainID, lo, from, hi);
      ExactFromOldRows(certs, certs', c', chainID, lo, from, hi);
    }
  }

  lemma {:induction false} SameUpserts(certs: map<nat, Certificate>, certs': map<nat, Certificate>, c: Chain, c': Chain,
                                       chainID: int, from: nat, hi: nat)
    requires Upserted(certs, certs', c, chainID, from, hi)
    requires forall q :: IsRow(c, chainID, from, hi, q) <==> IsRow(c', chainID, from, hi, q)
    ensures Upserted(certs, certs', c', chainID, from, hi)
  {
    hide IsRow;
    assert forall t :: Reissued(c, chainID, from, hi, t) <==> Reissued(c', chainID, from, hi, t);
  }

  lemma {:induction false} SoundIsMended(certs: map<nat, Certificate>, c: Chain, chainID: int, lo: nat, from: nat,
                                         hi: nat)
    requires Sound(certs, c, chainID, lo, from) && Complete(certs, c, chainID, lo, from)
    ensures Mended(certs, c, chainID, lo, from, hi) && KeyedByToken(certs)
  {
    hide IsRow, Complete;
  }

  lemma {:induction false} ExactBatchRow(certs: map<nat, Certificate>, certs': map<nat, Certificate>, c: Chain,
                                         c': Chain,
                                         chainID: int, lo: nat, from: nat, hi: nat, q: Certificate)
    requires lo <= from <= hi <= |c'| && hi <= |c| && Upserted(certs, certs', c, chainID, from, hi)
    requires Sound(certs, c', chainID, lo, from)
    requires Sound(certs', c', chainID, lo, hi) && Complete(certs', c', chainID, lo, hi)
    ensures IsRow(c, chainID, from, hi, q) <==> IsRow(c', chainID, from, hi, q)
  {
    if IsRow(c', chainID, from, hi, q) {
      assert IsRow(c', chainID, lo, hi, q) && certs'[q.tokenID] == q;
      if Reissued(c, chainID, from, hi, q.tokenID) {
        var r :| IsRow(c, chainID, from, hi, r) && r.tokenID == q.tokenID;
      }
    }
  }
}
