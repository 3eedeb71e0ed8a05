/**
 Whole runs of the indexer against a chain that grows and reorganises, with failing calls,
 crashes and restarts at any point.

 Two history variables say what the tables were read from. seen is the chain, cut after the
 last block whose logs any batch has upserted; torn says that a rewind deleted its rows but did
 not get to save the rewound checkpoint.
 */
module IndexerRuns {
  import opened Domain
  import opened Chains
  import opened Store
  import opened Indexer
  import opened Batches

  datatype World = World(chain: Chain, d: Durable, next: nat, seen: Chain, torn: bool)

  /**
   What the theorems assume of the canonical chain that a poll reads. Below the checkpoint a
   reorganisation reaches at most the rewound part. While the checkpoint block is canonical, no
   interrupted rewind is pending and no block that a failed batch read has been replaced.
   */
  ghost predicate Admissible(cfg: WorkerConfig, w: World) {
    && w.chain != [] && |w.chain| + cfg.batchSize <= UINT64
    && ValidChain(w.chain) && CollisionFree(w.chain, w.chain + w.seen)
    && match w.d.state
       case None => Keeps(w.chain, w.seen, |w.seen|)
       case Some(s) =>
         && Keeps(w.chain, w.seen, RewindTo(cfg, s.lastBlock) + 1)
         && (Keeps(w.chain, w.seen, s.lastBlock + 1) ==> !w.torn && Keeps(w.chain, w.seen, |w.seen|))
  }

  /** Blocks below this height are covered by the saved checkpoint. */
  function Checkpointed(cfg: WorkerConfig, d: Durable): nat {
    if d.state.None? then cfg.startBlock else d.state.value.lastBlock + 1
  }

  /** Blocks below this height have all their rows in the table. */
  function Covered(cfg: WorkerConfig, w: World): nat {
    if w.torn && w.d.state.Some? then RewindTo(cfg, w.d.state.value.lastBlock) + 1 else Checkpointed(cfg, w.d)
  }

  /** No batch since the last checkpoint, or since the position that lags behind it, read further than this. */
  function Reach(cfg: WorkerConfig, w: World): nat {
    (if w.next == 0 then Checkpointed(cfg, w.d) else w.next) + cfg.batchSize
  }

  /** Where a scan may start: at the checkpoint, or less than a batch behind it. */
  predicate StartsAt(cfg: WorkerConfig, d: Durable, start: nat) {
    cfg.startBlock <= start <= Checkpointed(cfg, d) <= start + cfg.batchSize
  }

  ghost predicate StateInv(cfg: WorkerConfig, w: World) {
    && |w.seen| <= Reach(cfg, w)
    && (w.next == 0 || StartsAt(cfg, w.d, w.next))
    && match w.d.state
       case None => !w.torn && (w.next == 0 || w.next == cfg.startBlock)
       case Some(s) =>
         && s.chainID == cfg.chainID
         && cfg.startBlock <= s.lastBlock < |w.seen|
         && s.lastHash == w.seen[s.lastBlock].hash
  }

  ghost predicate TableInv(cfg: WorkerConfig, w: World) {
    && Sound(w.d.certs, w.seen, cfg.chainID, cfg.startBlock, if w.torn then Covered(cfg, w) else |w.seen|)
    && Complete(w.d.certs, w.seen, cfg.chainID, cfg.startBlock, Covered(cfg, w))
  }

  /** Every event that the checkpoint covers owes its webhook. */
  ghost predicate OutboxInv(cfg: WorkerConfig, d: Durable, c: Chain) {
    && OutboxOk(d.outbox, d.lastID)
    && (cfg.webhooks ==>
          forall r :: IsRow(c, cfg.chainID, cfg.startBlock, Checkpointed(cfg, d), r) ==>
              Recorded(d.outbox, r.OutboxKey()))
  }

  ghost predicate Inv(cfg: WorkerConfig, w: World) {
    && cfg.batchSize >= 1
    && Admissible(cfg, w) && ValidChain(w.seen)
    && StateInv(cfg, w) && TableInv(cfg, w) && OutboxInv(cfg, w.d, w.seen)
  }

  // ---- Steps ----

  ghost predicate Init(cfg: WorkerConfig, w: World) {
    && cfg.batchSize >= 1
    && w.d == Durable(map[], None, [], 0, QueueState(map[], {}, {}))
    && w.next == 0 && w.seen == [] && !w.torn
    && Admissible(cfg, w)
  }

  /** The chain grows, is replaced in part, or both. */
  ghost predicate ChainStep(cfg: WorkerConfig, w: World, w': World) {
    w' == w.(chain := w'.chain) && Admissible(cfg, w')
  }

  /** The process dies between polls; a crash within a poll is a poll that stopped, then this. */
  ghost predicate RestartStep(w: World, w': World) {
    w' == w.(next := 0)
  }

  function ScanFrom(cfg: WorkerConfig, w: World): nat {
    ScanStart(cfg, w.chain, w.d.state, Resume(cfg, w.d.state, w.next))
  }

  function SeenAfter(cfg: WorkerConfig, w: World, k: nat): Chain {
    var rec := |ReconcilePlan(cfg, w.chain, w.d.state).effects|;
    var kept := if rec == 2 && k >= 2 && ScanFrom(cfg, w) <= |w.chain| then w.chain[..ScanFrom(cfg, w)] else w.seen;
    if k > rec && ScanFrom(cfg, w) < |w.chain| then
      var to := BatchEnd(ScanFrom(cfg, w), cfg.batchSize, |w.chain| - 1);
      if to + 1 > |kept| then w.chain[..to + 1] else kept
    else kept
  }

  function TornAfter(cfg: WorkerConfig, w: World, k: nat): bool {
    if |ReconcilePlan(cfg, w.chain, w.d.state).effects| == 2 then k == 1 || (k == 0 && w.torn) else w.torn
  }

  ghost predicate PollStep(cfg: WorkerConfig, w: World, hands: seq<HandOver>, k: nat, ok: bool, w': World) {
    && PollStops(cfg, w.chain, w.d, w.next, hands, k, ok, w'.d, w'.next)
    && (|ReconcilePlan(cfg, w.chain, w.d.state).effects| == 2 == k ==> w'.next == ScanFrom(cfg, w))
    && w'.chain == w.chain && w'.seen == SeenAfter(cfg, w, k) && w'.torn == TornAfter(cfg, w, k)
  }

  ghost predicate Step(cfg: WorkerConfig, w: World, w': World) {
    || ChainStep(cfg, w, w')
    || RestartStep(w, w')
    || exists hands, k, ok :: PollStep(cfg, w, hands, k, ok, w')
  }

  ghost predicate Run(cfg: WorkerConfig, ws: seq<World>) {
    && ws != [] && Init(cfg, ws[0])
    && forall i :: 0 < i < |ws| ==> Step(cfg, ws[i - 1], ws[i])
  }

  // ---- Chains and prefixes ----

  lemma {:induction false} PrefixValid(c: Chain, n: nat)
    requires ValidChain(c) && n <= |c|
    ensures ValidChain(c[..n])
  {
  }

  lemma {:induction false} SoundTransfer(certs: map<nat, Certificate>, c: Chain, d: Chain, chainID: int, lo: nat,
                                         hi: nat)
    requires Keeps(c, d, hi)
    ensures Sound(certs, c, chainID, lo, hi) <==> Sound(certs, d, chainID, lo, hi)
    ensures Complete(certs, c, chainID, lo, hi) <==> Complete(certs, d, chainID, lo, hi)
  {
    forall r
      ensures IsRow(c, chainID, lo, hi, r) <==> IsRow(d, chainID, lo, hi, r)
    {
      KeepsRows(c, d, hi, chainID, lo, r);
    }
  }

  lemma {:induction false} SoundMore(certs: map<nat, Certificate>, c: Chain, chainID: int, lo: nat, hi: nat, hi': nat)
    requires Sound(certs, c, chainID, lo, hi) && hi <= hi' <= |c|
    ensures Sound(certs, c, chainID, lo, hi')
  {
  }

  lemma {:induction false} KeepsLess(c: Chain, d: Chain, m: nat, n: nat)
    requires m <= n && Keeps(c, d, n)
    ensures Keeps(c, d, m)
  {
  }

  // ---- The upserts of one batch ----

  /** Every effect upserts a row of c below hi, or records a webhook. */
  ghost predicate Batch(cfg: WorkerConfig, c: Chain, hi: nat, es: seq<Effect>) {
    forall e :: e in es ==> e.Owe? || (e.Put? && IsRow(c, cfg.chainID, cfg.startBlock, hi, e.cert))
  }

  lemma {:induction false} BatchMore(cfg: WorkerConfig, c: Chain, hi: nat, hi': nat, es: seq<Effect>)
    requires Batch(cfg, c, hi, es) && hi <= hi' <= |c|
    ensures Batch(cfg, c, hi', es)
  {
  }

  lemma {:induction false} RecordingKeeps(d: Durable, c: Certificate, hand: HandOver)
    requires OutboxOk(d.outbox, d.lastID)
    ensures var d' := Recording(d, c, hand);
            && OutboxOk(d'.outbox, d'.lastID) && Recorded(d'.outbox, c.OutboxKey())
            && d'.certs == d.certs && d'.state == d.state
            && forall key :: Recorded(d.outbox, key) ==> Recorded(d'.outbox, key)
  {
    var d' := Recording(d, c, hand);
    if !Recorded(d.outbox, c.OutboxKey()) {
      assert d'.outbox[|d.outbox|].key == c.OutboxKey();
      forall key | Recorded(d.outbox, key)
        ensures Recorded(d'.outbox, key)
      {
        var i :| 0 <= i < |d.outbox| && d.outbox[i].key == key;
        assert d'.outbox[i].key == key;
      }
    }
  }

  lemma {:induction false} PutKeeps(cfg: WorkerConfig, c: Chain, hi: nat, certs: map<nat, Certificate>, r: Certificate)
    requires UniqueEvents(c) && Sound(certs, c, cfg.chainID, cfg.startBlock, hi)
    requires IsRow(c, cfg.chainID, cfg.startBlock, hi, r)
    ensures !KeyTaken(certs, r)
    ensures Sound(certs[r.tokenID := r], c, cfg.chainID, cfg.startBlock, hi)
    ensures r.tokenID in certs ==> certs[r.tokenID] == r
  {
  }

  /** d' has everything d has: same checkpoint, same rows, same webhooks, and perhaps more. */
  ghost predicate Extends(d: Durable, d': Durable) {
    && d'.state == d.state
    && (forall t :: t in d.certs ==> t in d'.certs && d'.certs[t] == d.certs[t])
    && (forall key :: Recorded(d.outbox, key) ==> Recorded(d'.outbox, key))
  }

  ghost predicate Done(d: Durable, e: Effect) {
    && (e.Put? ==> e.cert.tokenID in d.certs && d.certs[e.cert.tokenID] == e.cert)
    && (e.Owe? ==> Recorded(d.outbox, e.owed.OutboxKey()))
  }

  ghost predicate TablesOk(cfg: WorkerConfig, c: Chain, hi: nat, d: Durable) {
    Sound(d.certs, c, cfg.chainID, cfg.startBlock, hi) && OutboxOk(d.outbox, d.lastID)
  }

  lemma {:induction false} EffectKeeps(cfg: WorkerConfig, c: Chain, hi: nat, d: Durable, e: Effect)
    requires UniqueEvents(c) && TablesOk(cfg, c, hi, d)
    requires e.Owe? || (e.Put? && IsRow(c, cfg.chainID, cfg.startBlock, hi, e.cert))
    ensures e.Put? ==> !KeyTaken(d.certs, e.cert)
    ensures var d' := Apply(cfg, d, e); TablesOk(cfg, c, hi, d') && Extends(d, d') && Done(d', e)
  {
    if e.Put? {
      PutKeeps(cfg, c, hi, d.certs, e.cert);
    } else {
      RecordingKeeps(d, e.owed, e.hand);
    }
  }

  /**
   Upserting canonical rows into a table of canonical rows never violates the second unique key,
   overwrites nothing with anything else, and forgets no outbox row.
   */
  lemma {:induction false} BatchKeeps(cfg: WorkerConfig, c: Chain, hi: nat, d: Durable, es: seq<Effect>)
    requires UniqueEvents(c) && TablesOk(cfg, c, hi, d) && Batch(cfg, c, hi, es)
    ensures Applicable(cfg, d, es)
    ensures var d' := ApplyAll(cfg, d, es);
            TablesOk(cfg, c, hi, d') && Extends(d, d') && forall e :: e in es ==> Done(d', e)
  {
    if es == [] {
      ExtendsItself(d);
    } else {
      var n := |es| - 1;
      var d1, d' := ApplyAll(cfg, d, es[..n]), ApplyAll(cfg, d, es);
      assert es == es[..n] + [es[n]];
      hide Apply, Recorded, KeyTaken, TablesOk, IsRow, Extends, Done;
      BatchKeeps(cfg, c, hi, d, es[..n]);
      EffectKeeps(cfg, c, hi, d1, es[n]);
      ExtendsMore(d, d1, d');
      forall e | e in es
        ensures Done(d', e)
      {
        if e in es[..n] {
          StaysDone(d1, d', e);
        }
      }
    }
  }

  lemma {:induction false} ExtendsItself(d: Durable)
    ensures Extends(d, d)
  {
  }

  lemma {:induction false} ExtendsMore(d: Durable, d1: Durable, d2: Durable)
    requires Extends(d, d1) && Extends(d1, d2)
    ensures Extends(d, d2)
  {
  }

  lemma {:induction false} StaysDone(d: Durable, d': Durable, e: Effect)
    requires Extends(d, d') && Done(d, e)
    ensures Done(d', e)
  {
  }

  lemma {:induction false} SoundUnique(cfg: WorkerConfig, c: Chain, hi: nat, certs: map<nat, Certificate>)
    requires UniqueEvents(c) && Sound(certs, c, cfg.chainID, cfg.startBlock, hi)
    ensures UniqueKeys(certs)
  {
  }

  /** On a valid chain every log yields exactly the row of its event. */
  lemma {:induction false} FetchIsRow(cfg: WorkerConfig, c: Chain, lo: nat, hi: nat, i: nat)
    requires ValidChain(c) && hi <= |c| && i < |IssuedLogs(c, lo, hi)|
    ensures i < |Rows(c, cfg.chainID, lo, hi)|
    ensures Fetch(cfg, c, IssuedLogs(c, lo, hi)[i]) == Some(Rows(c, cfg.chainID, lo, hi)[i])
  {
    LogsMatchRows(c, cfg.chainID, lo, hi);
    RowsMembers(c, cfg.chainID, lo, hi);
    var r := Rows(c, cfg.chainID, lo, hi)[i];
    assert r in Rows(c, cfg.chainID, lo, hi);
    assert IsRow(c, cfg.chainID, lo, hi, r);
    BackfillAtHead(c, cfg.chainID, r);
    RowsValid(c, cfg.chainID, lo, hi, r);
  }

  /** What one batch does for the row r of the log it is at. */
  ghost predicate Covers(cfg: WorkerConfig, es: seq<Effect>, r: Certificate) {
    Put(r) in es && (cfg.webhooks ==> exists hand :: Owe(r, hand) in es)
  }

  lemma {:induction false} LogEffectsAreRows(cfg: WorkerConfig, c: Chain, lo: nat, hi: nat, hands: seq<HandOver>,
                                             n: nat)
    requires ValidChain(c) && hi <= |c| && cfg.startBlock <= lo
    requires n <= Fetchable(cfg, c, IssuedLogs(c, lo, hi))
    ensures n <= |Rows(c, cfg.chainID, lo, hi)|
    ensures var es := LogEffects(cfg, c, IssuedLogs(c, lo, hi), hands, n);
            && Batch(cfg, c, hi, es)
            && forall i :: 0 <= i < n ==> Covers(cfg, es, Rows(c, cfg.chainID, lo, hi)[i])
  {
    hide *;
    if n == 0 {
      NoLogEffects(cfg, c, hi, IssuedLogs(c, lo, hi), hands);
    } else {
      var logs, rows := IssuedLogs(c, lo, hi), Rows(c, cfg.chainID, lo, hi);
      LogEffectsAreRows(cfg, c, lo, hi, hands, n - 1);
      FetchIsRow(cfg, c, lo, hi, n - 1);
      RowAt(cfg, c, lo, hi, n - 1);
      LogEffectsStep(cfg, c, logs, hands, n, rows[n - 1]);
      OneMoreRow(cfg, c, hi, LogEffects(cfg, c, logs, hands, n - 1), rows, n, HandAt(hands, n - 1));
    }
  }

  lemma {:induction false} NoLogEffects(cfg: WorkerConfig, c: Chain, hi: nat, logs: seq<IssuedLog>,
                                        hands: seq<HandOver>)
    ensures Batch(cfg, c, hi, LogEffects(cfg, c, logs, hands, 0))
  {
  }

  lemma {:induction false} OneMoreRow(cfg: WorkerConfig, c: Chain, hi: nat, es: seq<Effect>, rows: seq<Certificate>,
                                      n: nat, hand: HandOver)
    requires Batch(cfg, c, hi, es) && 0 < n <= |rows| && IsRow(c, cfg.chainID, cfg.startBlock, hi, rows[n - 1])
    requires forall i :: 0 <= i < n - 1 ==> Covers(cfg, es, rows[i])
    ensures var es' := es + CertEffects(cfg, rows[n - 1], hand);
            Batch(cfg, c, hi, es') && forall i :: 0 <= i < n ==> Covers(cfg, es', rows[i])
  {
  }

  lemma {:induction false} RowAt(cfg: WorkerConfig, c: Chain, lo: nat, hi: nat, i: nat)
    requires hi <= |c| && i < |Rows(c, cfg.chainID, lo, hi)| && cfg.startBlock <= lo
    ensures IsRow(c, cfg.chainID, cfg.startBlock, hi, Rows(c, cfg.chainID, lo, hi)[i])
  {
    hide Rows;
    RowsMembers(c, cfg.chainID, lo, hi);
    assert Rows(c, cfg.chainID, lo, hi)[i] in Rows(c, cfg.chainID, lo, hi);
  }

  lemma {:induction false} AllFetchable(cfg: WorkerConfig, c: Chain, lo: nat, hi: nat)
    requires ValidChain(c) && hi <= |c|
    ensures Fetchable(cfg, c, IssuedLogs(c, lo, hi)) == |IssuedLogs(c, lo, hi)|
  {
    var logs := IssuedLogs(c, lo, hi);
    var n := Fetchable(cfg, c, logs);
    if n < |logs| {
      FetchIsRow(cfg, c, lo, hi, n);
    }
  }

  // ---- One poll ----

  /** All blocks read so far are canonical and no rewind is pending. */
  ghost predicate Settled(w: World) {
    !w.torn && Keeps(w.chain, w.seen, |w.seen|)
  }

  /** Without wrap-around a batch is [start, to] with start <= to <= head. */
  lemma {:induction false} BatchEndPlain(start: nat, batchSize: nat, head: nat)
    requires 1 <= batchSize && start <= head && head + batchSize < UINT64
    ensures var to := BatchEnd(start, batchSize, head);
            start <= to <= head && to < start + batchSize && to + 1 == Min(start + batchSize, head + 1)
  {
  }

  function ScanRows(cfg: WorkerConfig, c: Chain, start: nat, hands: seq<HandOver>): seq<Effect>
    requires start < |c|
  {
    var logs := IssuedLogs(c, start, BatchEnd(start, cfg.batchSize, |c| - 1) + 1);
    LogEffects(cfg, c, logs, hands, Fetchable(cfg, c, logs))
  }

  lemma {:induction false} ScanOnValidChain(cfg: WorkerConfig, c: Chain, start: nat, hands: seq<HandOver>)
    requires ValidChain(c) && cfg.startBlock <= start < |c|
    ensures var to := BatchEnd(start, cfg.batchSize, |c| - 1);
            var es := ScanRows(cfg, c, start, hands);
            && ScanPlan(cfg, c, start, hands) == Plan(es + [Save(IndexerState(cfg.chainID, to, c[to].hash))], true)
            && Batch(cfg, c, to + 1, es)
            && forall r :: IsRow(c, cfg.chainID, start, to + 1, r) ==> Covers(cfg, es, r)
  {
    hide Fetch, Fetchable, LogEffects, Rows, IssuedLogs, Linked, UniqueEvents, ValidEvents, Batch, IsRow, Covers;
    var to := BatchEnd(start, cfg.batchSize, |c| - 1);
    var logs := IssuedLogs(c, start, to + 1);
    var es := ScanRows(cfg, c, start, hands);
    AllFetchable(cfg, c, start, to + 1);
    LogEffectsAreRows(cfg, c, start, to + 1, hands, |logs|);
    LogsMatchRows(c, cfg.chainID, start, to + 1);
    RowsMembers(c, cfg.chainID, start, to + 1);
    var rows := Rows(c, cfg.chainID, start, to + 1);
    forall r | IsRow(c, cfg.chainID, start, to + 1, r)
      ensures Covers(cfg, es, r)
    {
      var i :| 0 <= i < |rows| && rows[i] == r;
    }
  }

  /** The prefix of the chain known to be reflected once a batch ending at to has been touched. */
  function SeenWith(w: World, to: nat): Chain
    requires to < |w.chain|
  {
    if to + 1 > |w.seen| then w.chain[..to + 1] else w.seen
  }

  lemma {:induction false} SeenWithKeeps(w: World, to: nat)
    requires to < |w.chain| && Settled(w)
    ensures var seen := SeenWith(w, to);
            && |seen| == Max(|w.seen|, to + 1) && Keeps(w.chain, seen, |seen|)
            && Keeps(seen, w.seen, |w.seen|)
            && (forall b :: b in seen ==> b in w.chain)
            && (ValidChain(w.chain) ==> ValidChain(seen))
  {
    var seen := SeenWith(w, to);
    if to + 1 > |w.seen| {
      assert seen[..|w.seen|] == w.chain[..|w.seen|];
    }
    assert seen == w.chain[..|seen|];
    if ValidChain(w.chain) {
      PrefixValid(w.chain, |seen|);
    }
  }

  /** Some upserts of a batch, but not yet the checkpoint. */
  lemma {:induction false} PartialBatch(cfg: WorkerConfig, w: World, to: nat, es: seq<Effect>, w': World)
    requires Inv(cfg, w) && Settled(w) && to < |w.chain| && to + 1 <= Reach(cfg, w)
    requires Batch(cfg, w.chain, to + 1, es)
    requires w' == World(w.chain, ApplyAll(cfg, w.d, es), w.next, SeenWith(w, to), false)
    ensures Applicable(cfg, w.d, es) && Inv(cfg, w') && Settled(w')
    ensures Extends(w.d, w'.d) && forall e :: e in es ==> Done(w'.d, e)
    ensures Sound(w'.d.certs, w.chain, cfg.chainID, cfg.startBlock, |w'.seen|)
  {
    hide Apply, ApplyAll, Applicable, Linked, UniqueEvents, ValidEvents, IsRow, Sound, Complete, Recorded, OutboxOk,
         Done, Batch;
    SeenWithKeeps(w, to);
    var hi := |w'.seen|;
    SoundTransfer(w.d.certs, w.chain, w.seen, cfg.chainID, cfg.startBlock, |w.seen|);
    SoundMore(w.d.certs, w.chain, cfg.chainID, cfg.startBlock, |w.seen|, hi);
    BatchMore(cfg, w.chain, to + 1, hi, es);
    BatchKeeps(cfg, w.chain, hi, w.d, es);
    SoundTransfer(w'.d.certs, w.chain, w'.seen, cfg.chainID, cfg.startBlock, hi);
    CoveredKept(cfg, w, w');
  }

  lemma {:induction false} CoveredKept(cfg: WorkerConfig, w: World, w': World)
    requires Inv(cfg, w) && Settled(w)
    requires Keeps(w'.seen, w.seen, |w.seen|) && !w'.torn && Extends(w.d, w'.d) && OutboxOk(w'.d.outbox, w'.d.lastID)
    ensures Complete(w'.d.certs, w'.seen, cfg.chainID, cfg.startBlock, Covered(cfg, w'))
    ensures OutboxInv(cfg, w'.d, w'.seen)
  {
    var n := Checkpointed(cfg, w.d);
    assert Covered(cfg, w') == n == Covered(cfg, w);
    if w.d.state.Some? {
      KeepsLess(w'.seen, w.seen, n, |w.seen|);
    }
    forall r | IsRow(w'.seen, cfg.chainID, cfg.startBlock, n, r)
      ensures IsRow(w.seen, cfg.chainID, cfg.startBlock, n, r)
    {
      KeepsRows(w'.seen, w.seen, n, cfg.chainID, cfg.startBlock, r);
    }
  }

  lemma {:induction false} SettledAdmissible(cfg: WorkerConfig, w: World, w': World)
    requires Admissible(cfg, w) && w'.chain == w.chain && w'.seen == w.seen && Settled(w')
    requires w'.d.state.Some? ==>
               cfg.startBlock <= w'.d.state.value.lastBlock && RewindTo(cfg, w'.d.state.value.lastBlock) < |w'.seen|
    ensures Admissible(cfg, w')
  {
  }

  /** The checkpoint saved after a whole batch; the position follows, or lags if the answer was lost. */
  lemma {:induction false} SavedBatch(cfg: WorkerConfig, w: World, start: nat, es: seq<Effect>, w': World)
    requires Inv(cfg, w) && Settled(w) && StartsAt(cfg, w.d, start) && start == w.next < |w.chain|
    requires |w.chain| + cfg.batchSize <= UINT64
    requires var to := BatchEnd(start, cfg.batchSize, |w.chain| - 1);
             && Batch(cfg, w.chain, to + 1, es)
             && (forall r :: IsRow(w.chain, cfg.chainID, start, to + 1, r) ==> Covers(cfg, es, r))
             && w' == World(w.chain,
                            ApplyAll(cfg, w.d, es).(state := Some(IndexerState(cfg.chainID, to, w.chain[to].hash))),
                            w'.next, SeenWith(w, to), false)
             && (w'.next == to + 1 || w'.next == start)
    ensures Applicable(cfg, w.d, es) && Inv(cfg, w') && Settled(w')
    ensures Checkpointed(cfg, w'.d) == Min(start + cfg.batchSize, |w.chain|)
  {
    hide *;
    InvBounds(cfg, w);
    StartsBefore(cfg, w, start);
    BatchEndPlain(start, cfg.batchSize, |w.chain| - 1);
    var to := BatchEnd(start, cfg.batchSize, |w.chain| - 1);
    MinAbove(Checkpointed(cfg, w.d), start + cfg.batchSize, |w.chain|, start);
    ReachFrom(cfg, w, start);
    var w1 := World(w.chain, ApplyAll(cfg, w.d, es), w.next, SeenWith(w, to), false);
    SeenCoversBatch(w, to);
    PartialBatch(cfg, w, to, es, w1);
    SettledPrefix(w1, to + 1);
    BatchCoversAll(cfg, w, w1, start, to, es);
    SameCheckpoint(cfg, w.d, w1.d);
    SavedInv(cfg, w1, w', to);
  }

  lemma {:induction false} SeenCoversBatch(w: World, to: nat)
    requires to < |w.chain|
    ensures to + 1 <= |SeenWith(w, to)|
  {
  }

  /** A settled chain has all the blocks that the checkpoint covers. */
  lemma {:induction false} StartsBefore(cfg: WorkerConfig, w: World, start: nat)
    requires Inv(cfg, w) && Settled(w) && StartsAt(cfg, w.d, start)
    ensures cfg.startBlock <= start <= Checkpointed(cfg, w.d) <= start + cfg.batchSize
    ensures Checkpointed(cfg, w.d) <= Max(start, |w.chain|)
  {
  }

  lemma {:induction false} MinAbove(a: int, b: int, c: int, d: int)
    ensures a <= b && a <= Max(d, c) && d <= c ==> a <= Min(b, c)
  {
  }

  lemma {:induction false} ReachFrom(cfg: WorkerConfig, w: World, start: nat)
    requires start == w.next && start <= Checkpointed(cfg, w.d)
    ensures start + cfg.batchSize <= Reach(cfg, w)
  {
  }

  lemma {:induction false} SettledPrefix(w: World, n: nat)
    requires Settled(w) && n <= |w.seen|
    ensures Keeps(w.chain, w.seen, n) && Keeps(w.seen, w.chain, n)
  {
    KeepsLess(w.chain, w.seen, n, |w.seen|);
  }

  lemma {:induction false} SameCheckpoint(cfg: WorkerConfig, d: Durable, d': Durable)
    requires Extends(d, d')
    ensures Checkpointed(cfg, d') == Checkpointed(cfg, d)
    ensures forall start :: StartsAt(cfg, d, start) ==> StartsAt(cfg, d', start)
  {
  }

  /** Saving the checkpoint of a batch whose rows and webhooks are all there. */
  lemma {:induction false} SavedInv(cfg: WorkerConfig, w: World, w': World, to: nat)
    requires Inv(cfg, w) && Settled(w) && cfg.startBlock <= to && Checkpointed(cfg, w.d) <= to + 1
             && Keeps(w.chain, w.seen, to + 1)
    requires w' == w.(d := w.d.(state := Some(IndexerState(cfg.chainID, to, w.chain[to].hash))), next := w'.next)
    requires w'.next == to + 1 || (w'.next == w.next && StartsAt(cfg, w.d, w.next) && to + 1 <= w.next + cfg.batchSize)
    requires Complete(w.d.certs, w.seen, cfg.chainID, cfg.startBlock, to + 1)
    requires cfg.webhooks ==>
               forall r :: IsRow(w.seen, cfg.chainID, cfg.startBlock, to + 1, r) ==> Recorded(w.d.outbox, r.OutboxKey())
    ensures Inv(cfg, w') && Settled(w') && Checkpointed(cfg, w'.d) == to + 1
  {
    hide ValidChain, Sound, Complete, IsRow, Recorded, OutboxOk, Admissible;
    SettledAdmissible(cfg, w, w');
    SavedState(cfg, w, w', to);
  }

  lemma {:induction false} SavedState(cfg: WorkerConfig, w: World, w': World, to: nat)
    requires StateInv(cfg, w) && cfg.startBlock <= to && Checkpointed(cfg, w.d) <= to + 1
             && Keeps(w.chain, w.seen, to + 1)
    requires w' == w.(d := w.d.(state := Some(IndexerState(cfg.chainID, to, w.chain[to].hash))), next := w'.next)
    requires w'.next == to + 1 || (w'.next == w.next && StartsAt(cfg, w.d, w.next) && to + 1 <= w.next + cfg.batchSize)
    requires cfg.batchSize >= 1
    ensures StateInv(cfg, w')
  {
    assert w.seen[..to + 1][to] == w.chain[..to + 1][to];
  }

  lemma {:induction false} BatchCoversAll(cfg: WorkerConfig, w: World, w1: World, start: nat, to: nat, es: seq<Effect>)
    requires Inv(cfg, w) && Settled(w) && StartsAt(cfg, w.d, start) && start <= to < |w.chain|
    requires Extends(w.d, w1.d) && forall e :: e in es ==> Done(w1.d, e)
    requires forall q :: IsRow(w.chain, cfg.chainID, start, to + 1, q) ==> Covers(cfg, es, q)
    requires Keeps(w1.seen, w.chain, to + 1)
    ensures Complete(w1.d.certs, w1.seen, cfg.chainID, cfg.startBlock, to + 1)
    ensures cfg.webhooks ==>
              forall r :: IsRow(w1.seen, cfg.chainID, cfg.startBlock, to + 1, r) ==>
                  Recorded(w1.d.outbox, r.OutboxKey())
  {
    forall r | IsRow(w1.seen, cfg.chainID, cfg.startBlock, to + 1, r)
      ensures r.tokenID in w1.d.certs && w1.d.certs[r.tokenID] == r
      ensures cfg.webhooks ==> Recorded(w1.d.outbox, r.OutboxKey())
    {
      BatchCovers(cfg, w, w1, start, to, es, r);
    }
  }

  /** A row below the new checkpoint was in the table already, or this batch upserted it. */
  lemma {:induction false} BatchCovers(cfg: WorkerConfig, w: World, w1: World, start: nat, to: nat, es: seq<Effect>,
                                       r: Certificate)
    requires Inv(cfg, w) && Settled(w) && StartsAt(cfg, w.d, start) && start <= to < |w.chain|
    requires Extends(w.d, w1.d) && forall e :: e in es ==> Done(w1.d, e)
    requires forall q :: IsRow(w.chain, cfg.chainID, start, to + 1, q) ==> Covers(cfg, es, q)
    requires Keeps(w1.seen, w.chain, to + 1) && IsRow(w1.seen, cfg.chainID, cfg.startBlock, to + 1, r)
    ensures r.tokenID in w1.d.certs && w1.d.certs[r.tokenID] == r
    ensures cfg.webhooks ==> Recorded(w1.d.outbox, r.OutboxKey())
  {
    hide Linked, UniqueEvents, ValidEvents, Sound, Recorded, OutboxOk;
    KeepsRows(w1.seen, w.chain, to + 1, cfg.chainID, cfg.startBlock, r);
    var n := Checkpointed(cfg, w.d);
    if r.blockNumber < n {
      assert IsRow(w.chain, cfg.chainID, cfg.startBlock, n, r);
      KeepsLess(w.chain, w.seen, n, |w.seen|);
      KeepsRows(w.chain, w.seen, n, cfg.chainID, cfg.startBlock, r);
      assert Covered(cfg, w) == n;
    } else {
      assert Covers(cfg, es, r);
      assert Done(w1.d, Put(r));
      if cfg.webhooks {
        var hand :| Owe(r, hand) in es;
        assert Done(w1.d, Owe(r, hand));
      }
    }
  }

  /** The stored hash is canonical exactly when every block up to the checkpoint is. */
  lemma {:induction false} CheckpointHashDecides(cfg: WorkerConfig, w: World)
    requires Inv(cfg, w) && w.d.state.Some? && w.d.state.value.lastBlock < |w.chain|
    ensures var s := w.d.state.value;
            w.chain[s.lastBlock].hash == s.lastHash <==> Keeps(w.chain, w.seen, s.lastBlock + 1)
  {
    HashDecidesAgreement(w.chain, w.seen, w.d.state.value.lastBlock);
  }

  lemma {:induction false} NoRewindSettles(cfg: WorkerConfig, w: World)
    requires Inv(cfg, w)
    ensures var rec := ReconcilePlan(cfg, w.chain, w.d.state);
            && (rec.effects == [] && rec.completes ==> Settled(w))
            && (!rec.completes ==> rec.effects == [])
            && |rec.effects| != 1
  {
    hide UniqueEvents, ValidEvents, Sound, Complete, OutboxOk, IsRow, Recorded;
    if w.d.state.Some? && w.d.state.value.lastBlock < |w.chain| {
      CheckpointHashDecides(cfg, w);
    }
  }

  function Rewound(cfg: WorkerConfig, w: World): World
    requires |ReconcilePlan(cfg, w.chain, w.d.state).effects| == 2
  {
    var r := RewindTo(cfg, w.d.state.value.lastBlock);
    World(w.chain,
          w.d.(certs := DeletedFrom(w.d.certs, cfg.chainID, r + 1),
               state := Some(IndexerState(cfg.chainID, r, w.chain[r].hash))),
          r + 1, w.chain[..r + 1], false)
  }

  /** After the rewind every kept row is canonical, and no canonical row below the rewind point is gone. */
  lemma {:induction false} RewindKeepsRows(cfg: WorkerConfig, w: World)
    requires Inv(cfg, w) && w.d.state.Some?
    ensures var r := RewindTo(cfg, w.d.state.value.lastBlock);
            var certs := DeletedFrom(w.d.certs, cfg.chainID, r + 1);
            && Sound(certs, w.seen, cfg.chainID, cfg.startBlock, r + 1)
            && Complete(certs, w.seen, cfg.chainID, cfg.startBlock, r + 1)
            && Sound(certs, w.chain, cfg.chainID, cfg.startBlock, r + 1)
            && Complete(certs, w.chain, cfg.chainID, cfg.startBlock, r + 1)
  {
    hide Linked, UniqueEvents, ValidEvents, OutboxInv, CollisionFree, Sound, Complete, DeletedFrom;
    var r := RewindTo(cfg, w.d.state.value.lastBlock);
    var hi := if w.torn then r + 1 else |w.seen|;
    DeleteAbove(cfg, w.seen, hi, Covered(cfg, w), r + 1, w.d.certs);
    SoundTransfer(DeletedFrom(w.d.certs, cfg.chainID, r + 1), w.chain, w.seen, cfg.chainID, cfg.startBlock, r + 1);
  }

  lemma {:induction false} DeleteAbove(cfg: WorkerConfig, c: Chain, hi: nat, covered: nat, n: nat,
                                       certs: map<nat, Certificate>)
    requires ValidEvents(c) && n <= covered && n <= |c|
    requires Sound(certs, c, cfg.chainID, cfg.startBlock, hi)
             && Complete(certs, c, cfg.chainID, cfg.startBlock, covered)
    requires covered <= |c|
    ensures Sound(DeletedFrom(certs, cfg.chainID, n), c, cfg.chainID, cfg.startBlock, n)
    ensures Complete(DeletedFrom(certs, cfg.chainID, n), c, cfg.chainID, cfg.startBlock, n)
  {
  }

  lemma {:induction false} TornKeepsInv(cfg: WorkerConfig, w: World, w': World)
    requires Inv(cfg, w) && |ReconcilePlan(cfg, w.chain, w.d.state).effects| == 2
    requires w' == World(w.chain,
                         w.d.(certs := DeletedFrom(w.d.certs, cfg.chainID,
                                                   RewindTo(cfg, w.d.state.value.lastBlock) + 1)),
                         w.next, w.seen, true)
    ensures Inv(cfg, w')
  {
    hide Linked, UniqueEvents, ValidEvents, Sound, Complete, OutboxOk, IsRow, Recorded, DeletedFrom, CollisionFree;
    RewindKeepsRows(cfg, w);
    CheckpointHashDecides(cfg, w);
  }

  lemma {:induction false} RewoundKeepsInv(cfg: WorkerConfig, w: World)
    requires Inv(cfg, w) && |ReconcilePlan(cfg, w.chain, w.d.state).effects| == 2
    ensures Inv(cfg, Rewound(cfg, w)) && Settled(Rewound(cfg, w))
  {
    hide ValidChain, Sound, Complete, OutboxInv, DeletedFrom, CollisionFree;
    var w' := Rewound(cfg, w);
    var r := RewindTo(cfg, w.d.state.value.lastBlock);
    RewindKeepsRows(cfg, w);
    PrefixValid(w.chain, r + 1);
    SoundTransfer(w'.d.certs, w.chain, w'.seen, cfg.chainID, cfg.startBlock, r + 1);
    PrefixCollisionFree(w.chain, w.seen, r + 1);
    RewoundOutbox(cfg, w, r);
  }

  /** Going back to an earlier checkpoint leaves all that it covers recorded. */
  lemma {:induction false} RewoundOutbox(cfg: WorkerConfig, w: World, r: nat)
    requires OutboxInv(cfg, w.d, w.seen) && r < Checkpointed(cfg, w.d) <= |w.seen| && Keeps(w.chain, w.seen, r + 1)
    ensures forall d: Durable :: d.outbox == w.d.outbox && d.lastID == w.d.lastID && Checkpointed(cfg, d) == r + 1 ==>
              OutboxInv(cfg, d, w.chain[..r + 1])
  {
  }

  lemma {:induction false} PrefixCollisionFree(c: Chain, d: Chain, n: nat)
    requires CollisionFree(c, c + d) && n <= |c|
    ensures CollisionFree(c, c + c[..n])
  {
  }

  // ---- Main step theorem ----

  lemma {:induction false} ReconcilePrefix(cfg: WorkerConfig, w: World, hands: seq<HandOver>, k: nat, ok: bool,
                                           w': World)
    requires Inv(cfg, w) && PollStep(cfg, w, hands, k, ok, w')
    requires k <= |ReconcilePlan(cfg, w.chain, w.d.state).effects|
    ensures Inv(cfg, w')
  {
    hide UniqueEvents, ValidEvents, Sound, Complete, OutboxOk, IsRow, Recorded, Linked, Admissible, ScanPlan,
         CollisionFree, DeletedFrom;
    var rec := ReconcilePlan(cfg, w.chain, w.d.state);
    var plan := PollPlan(cfg, w.chain, w.d.state, Resume(cfg, w.d.state, w.next), hands);
    assert plan.effects[..k] == rec.effects[..k];
    ApplyShort(cfg, w.d, rec.effects, k);
    NoRewindSettles(cfg, w);
    ScanSaves(cfg, w.chain, ScanFrom(cfg, w), hands);
    if k == 0 {
      ResumeKeepsInv(cfg, w);
    } else if k == 1 {
      TornKeepsInv(cfg, w, w'.(next := w.next));
      ResumeKeepsInv(cfg, w'.(next := w.next));
    } else {
      RewoundKeepsInv(cfg, w);
    }
  }

  lemma {:induction false} ResumeKeepsInv(cfg: WorkerConfig, w: World)
    requires Inv(cfg, w)
    ensures Inv(cfg, w.(next := Resume(cfg, w.d.state, w.next)))
    ensures StartsAt(cfg, w.d, Resume(cfg, w.d.state, w.next))
  {
    hide Sound, Complete, OutboxInv, ValidChain, CollisionFree;
  }

  lemma {:induction false} ApplyShort(cfg: WorkerConfig, d: Durable, es: seq<Effect>, k: nat)
    requires k <= |es| && k <= 2
    ensures k == 0 ==> ApplyAll(cfg, d, es[..k]) == d
    ensures k == 1 ==> ApplyAll(cfg, d, es[..k]) == Apply(cfg, d, es[0])
    ensures k == 2 ==> ApplyAll(cfg, d, es[..k]) == Apply(cfg, Apply(cfg, d, es[0]), es[1])
  {
    assert es[..0] == [];
    if k >= 1 {
      OneEffect(cfg, d, es[0]);
      assert es[..1] == [es[0]];
    }
    if k == 2 {
      assert es[..2] == [es[0]] + [es[1]];
      ApplyAllAppend(cfg, d, [es[0]], [es[1]]);
      OneEffect(cfg, Apply(cfg, d, es[0]), es[1]);
    }
  }

  /** The world in which the scan part of a poll starts. */
  function AtScan(cfg: WorkerConfig, w: World): World {
    if |ReconcilePlan(cfg, w.chain, w.d.state).effects| == 2 then Rewound(cfg, w)
    else w.(next := Resume(cfg, w.d.state, w.next))
  }

  lemma {:induction false} AtScanKeepsInv(cfg: WorkerConfig, w: World)
    requires Inv(cfg, w) && ReconcilePlan(cfg, w.chain, w.d.state).completes
    ensures var v := AtScan(cfg, w);
            Inv(cfg, v) && Settled(v) && StartsAt(cfg, v.d, ScanFrom(cfg, w)) && v.next == ScanFrom(cfg, w)
    ensures var v := AtScan(cfg, w);
            ApplyAll(cfg, w.d, ReconcilePlan(cfg, w.chain, w.d.state).effects) == v.d
  {
    hide UniqueEvents, ValidEvents, Sound, Complete, OutboxOk, IsRow, Recorded, Linked, Admissible, CollisionFree,
         DeletedFrom;
    var rec := ReconcilePlan(cfg, w.chain, w.d.state);
    NoRewindSettles(cfg, w);
    ApplyShort(cfg, w.d, rec.effects, |rec.effects|);
    assert rec.effects[..|rec.effects|] == rec.effects;
    if |rec.effects| == 2 {
      RewoundKeepsInv(cfg, w);
    } else {
      ResumeKeepsInv(cfg, w);
    }
  }

  /** The part of a poll that lies in the scan. */
  lemma {:induction false} ScanSuffix(cfg: WorkerConfig, w: World, hands: seq<HandOver>, k: nat, ok: bool, w': World)
    requires Inv(cfg, w) && PollStep(cfg, w, hands, k, ok, w')
    requires ReconcilePlan(cfg, w.chain, w.d.state).completes
    requires k >= |ReconcilePlan(cfg, w.chain, w.d.state).effects|
    ensures var v, start := AtScan(cfg, w), ScanFrom(cfg, w);
            Stopped(cfg, v.d, ScanPlan(cfg, w.chain, start, hands).effects,
                    k - |ReconcilePlan(cfg, w.chain, w.d.state).effects|, w'.d)
  {
    hide Inv, ScanPlan, ApplyAll, Applicable;
    var rec := ReconcilePlan(cfg, w.chain, w.d.state);
    var scan := ScanPlan(cfg, w.chain, ScanFrom(cfg, w), hands);
    var j := k - |rec.effects|;
    assert (rec.effects + scan.effects)[..k] == rec.effects + scan.effects[..j];
    ApplyAllAppend(cfg, w.d, rec.effects, scan.effects[..j]);
    AtScanKeepsInv(cfg, w);
  }

  /** Inside the scan, a poll has upserted some of its batch, or all of it and saved the checkpoint. */
  lemma {:induction false} ScanShape(cfg: WorkerConfig, w: World, hands: seq<HandOver>, k: nat, ok: bool, w': World)
    requires Inv(cfg, w) && PollStep(cfg, w, hands, k, ok, w')
    requires ReconcilePlan(cfg, w.chain, w.d.state).completes && ScanFrom(cfg, w) < |w.chain|
    requires k > |ReconcilePlan(cfg, w.chain, w.d.state).effects|
    ensures var v, start := AtScan(cfg, w), ScanFrom(cfg, w);
            var es, to := ScanRows(cfg, w.chain, start, hands), BatchEnd(start, cfg.batchSize, |w.chain| - 1);
            var j := k - |ReconcilePlan(cfg, w.chain, w.d.state).effects|;
            && w'.chain == w.chain && w'.seen == SeenWith(v, to) && !w'.torn
            && j <= |es| + 1
            && (j <= |es| ==> !ok && w'.d == ApplyAll(cfg, v.d, es[..j]) && w'.next == v.next)
            && (j == |es| + 1 ==>
                  && w'.d == ApplyAll(cfg, v.d, es).(state := Some(IndexerState(cfg.chainID, to, w.chain[to].hash)))
                  && w'.next == if ok then to + 1 else v.next)
            && |PollPlan(cfg, w.chain, w.d.state, Resume(cfg, w.d.state, w.next), hands).effects| == k - j + |es| + 1
  {
    hide Inv, Keeps, Applicable, ApplyAll, ScanRows, Batch, Covers, IsRow, ScanPlan, BatchEnd, StartsAt, ValidChain;
    var rec := ReconcilePlan(cfg, w.chain, w.d.state);
    var v, start := AtScan(cfg, w), ScanFrom(cfg, w);
    AtScanKeepsInv(cfg, w);
    NoRewindSettles(cfg, w);
    AtScanChain(cfg, w);
    InvBounds(cfg, v);
    StartBounds(cfg, v.d, start);
    var j := k - |rec.effects|;
    ScanSuffix(cfg, w, hands, k, ok, w');
    ScanOnValidChain(cfg, w.chain, start, hands);
    var es := ScanRows(cfg, w.chain, start, hands);
    var to := BatchEnd(start, cfg.batchSize, |w.chain| - 1);
    BatchEndPlain(start, cfg.batchSize, |w.chain| - 1);
    var save := Save(IndexerState(cfg.chainID, to, w.chain[to].hash));
    if j <= |es| {
      assert (es + [save])[..j] == es[..j];
    } else {
      assert (es + [save])[..j] == es + [save];
      ApplyAllAppend(cfg, v.d, es, [save]);
      OneEffect(cfg, ApplyAll(cfg, v.d, es), save);
    }
  }

  /** A poll that got into the scan keeps the invariant; a whole one moves the checkpoint to the end of its batch. */
  lemma {:induction false} ScanKeepsInv(cfg: WorkerConfig, w: World, hands: seq<HandOver>, k: nat, ok: bool, w': World)
    requires Inv(cfg, w) && PollStep(cfg, w, hands, k, ok, w')
    requires ReconcilePlan(cfg, w.chain, w.d.state).completes && ScanFrom(cfg, w) < |w.chain|
    requires k > |ReconcilePlan(cfg, w.chain, w.d.state).effects|
    ensures Inv(cfg, w') && Settled(w')
    ensures ok ==>
              && Checkpointed(cfg, w'.d) == w'.next == Min(ScanFrom(cfg, w) + cfg.batchSize, |w.chain|)
              && w'.d.state.Some? && w'.seen == SeenWith(AtScan(cfg, w), w'.next - 1)
  {
    hide *;
    var v, start := AtScan(cfg, w), ScanFrom(cfg, w);
    var to := BatchEnd(start, cfg.batchSize, |w.chain| - 1);
    var es := ScanRows(cfg, w.chain, start, hands);
    var j := k - |ReconcilePlan(cfg, w.chain, w.d.state).effects|;
    AtScanKeepsInv(cfg, w);
    ScanShape(cfg, w, hands, k, ok, w');
    InvBounds(cfg, w);
    InvBounds(cfg, v);
    AtScanChain(cfg, w);
    StartBounds(cfg, v.d, start);
    ScanOnValidChain(cfg, w.chain, start, hands);
    BatchEndPlain(start, cfg.batchSize, |w.chain| - 1);
    ReachFrom(cfg, v, start);
    if j <= |es| {
      BatchPrefix(cfg, w.chain, to + 1, es, j);
      PartialBatch(cfg, v, to, es[..j], w');
    } else {
      SavedBatch(cfg, v, start, es, w');
    }
  }

  lemma {:induction false} StartBounds(cfg: WorkerConfig, d: Durable, start: nat)
    requires StartsAt(cfg, d, start) && cfg.startBlock <= Checkpointed(cfg, d)
    ensures cfg.startBlock <= start <= Checkpointed(cfg, d)
  {
  }

  lemma {:induction false} AtScanChain(cfg: WorkerConfig, w: World)
    requires Inv(cfg, w)
    ensures AtScan(cfg, w).chain == w.chain
  {
  }

  lemma {:induction false} InvBounds(cfg: WorkerConfig, w: World)
    requires Inv(cfg, w)
    ensures cfg.batchSize >= 1 && |w.chain| > 0 && |w.chain| + cfg.batchSize <= UINT64 && ValidChain(w.chain)
    ensures cfg.startBlock <= Checkpointed(cfg, w.d)
  {
  }

  lemma {:induction false} BatchPrefix(cfg: WorkerConfig, c: Chain, hi: nat, es: seq<Effect>, j: nat)
    requires Batch(cfg, c, hi, es) && j <= |es|
    ensures Batch(cfg, c, hi, es[..j])
  {
  }

  /** Whatever fails, and wherever the poll stops, the invariant holds again. */
  lemma {:induction false} PollKeepsInv(cfg: WorkerConfig, w: World, hands: seq<HandOver>, k: nat, ok: bool, w': World)
    requires Inv(cfg, w) && PollStep(cfg, w, hands, k, ok, w')
    ensures Inv(cfg, w')
  {
    hide Inv, Applicable, ApplyAll;
    var rec := ReconcilePlan(cfg, w.chain, w.d.state);
    if k <= |rec.effects| {
      ReconcilePrefix(cfg, w, hands, k, ok, w');
    } else {
      assert rec.completes && ScanFrom(cfg, w) < |w.chain|;
      ScanKeepsInv(cfg, w, hands, k, ok, w');
    }
  }

  lemma {:induction false} RunKeepsInv(cfg: WorkerConfig, ws: seq<World>)
    requires Run(cfg, ws)
    ensures forall i :: 0 <= i < |ws| ==> Inv(cfg, ws[i])
  {
    hide Inv, Init, Step;
    var n := |ws| - 1;
    InitInv(cfg, ws[0]);
    if n > 0 {
      RunKeepsInv(cfg, ws[..n]);
      assert Inv(cfg, ws[..n][n - 1]);
      StepKeepsInv(cfg, ws[n - 1], ws[n]);
      forall i | 0 <= i < |ws|
        ensures Inv(cfg, ws[i])
      {
        assert i < n ==> ws[i] == ws[..n][i];
      }
    }
  }

  lemma {:induction false} InitInv(cfg: WorkerConfig, w: World)
    requires Init(cfg, w)
    ensures Inv(cfg, w)
  {
  }

  lemma {:induction false} StepKeepsInv(cfg: WorkerConfig, w: World, w': World)
    requires Inv(cfg, w) && Step(cfg, w, w')
    ensures Inv(cfg, w')
  {
    hide PollStep, Admissible, Sound, Complete, OutboxInv;
    if exists hands, k, ok :: PollStep(cfg, w, hands, k, ok, w') {
      var hands, k, ok :| PollStep(cfg, w, hands, k, ok, w');
      PollKeepsInv(cfg, w, hands, k, ok, w');
    } else if RestartStep(w, w') {
      RestartAdmissible(cfg, w);
    }
  }

  lemma {:induction false} RestartAdmissible(cfg: WorkerConfig, w: World)
    requires Admissible(cfg, w)
    ensures Admissible(cfg, w.(next := 0))
  {
  }

  /**
   How deep a reorganisation the worker survives, in plain numbers: one that replaces the checkpoint's block
   may replace the eleven blocks below it as well, and at the start everything behind the start block. Such a
   replacement is one that runs allow, so that what holds of runs holds after it.
   */
  lemma {:induction false} TwelveBlocksMayGo(cfg: WorkerConfig, w: World, c: Chain)
    requires Inv(cfg, w) && w.d.state.Some?
    requires ValidChain(c) && c != [] && |c| + cfg.batchSize <= UINT64 && CollisionFree(c, c + w.seen)
    requires var last := w.d.state.value.lastBlock;
             && !Keeps(c, w.seen, last + 1)
             && Keeps(c, w.seen, (if last > cfg.startBlock + 12 then last - 12 else cfg.startBlock) + 1)
    ensures ChainStep(cfg, w, w.(chain := c))
  {
  }

  // ---- What a successful poll achieves ----

  /** A restart with the checkpoint at block 0: initNext starts over instead of at block 1. */
  predicate ResumesBehind(w: World) {
    w.next == 0 && w.d.state.Some? && w.d.state.value.lastBlock == 0
  }

  ghost predicate TableExact(cfg: WorkerConfig, w: World) {
    var n := Checkpointed(cfg, w.d);
    w.d.certs == if n <= |w.chain| then Projection(w.chain, cfg.chainID, cfg.startBlock, n) else map[]
  }

  ghost predicate CheckpointCanonical(w: World) {
    w.d.state.Some? ==>
      w.d.state.value.lastBlock < |w.chain| && w.d.state.value.lastHash == w.chain[w.d.state.value.lastBlock].hash
  }

  /** Once settled, the table is exact unless a failed batch left rows above the checkpoint. */
  lemma {:induction false} SettledExactIff(cfg: WorkerConfig, w: World)
    requires Inv(cfg, w) && Settled(w)
    ensures CheckpointCanonical(w)
    ensures TableExact(cfg, w) <==> forall t :: t in w.d.certs ==> w.d.certs[t].blockNumber < Checkpointed(cfg, w.d)
    ensures |w.seen| <= Checkpointed(cfg, w.d) ==> TableExact(cfg, w)
  {
    hide OutboxInv, Linked, UniqueEvents, ValidEvents, CollisionFree, Projection, Sound, Complete;
    var n := Checkpointed(cfg, w.d);
    SoundTransfer(w.d.certs, w.chain, w.seen, cfg.chainID, cfg.startBlock, |w.seen|);
    if w.d.state.Some? {
      KeepsLess(w.chain, w.seen, n, |w.seen|);
      assert w.chain[..n][n - 1] == w.seen[..n][n - 1];
      SoundTransfer(w.d.certs, w.chain, w.seen, cfg.chainID, cfg.startBlock, n);
      ExactIff(w.d.certs, w.chain, cfg.chainID, cfg.startBlock, n, |w.seen|);
    } else {
      EmptyIff(w.d.certs, w.seen, cfg.chainID, cfg.startBlock);
      EmptyRange(w.chain, cfg.chainID, n);
    }
  }

  /** Before the first checkpoint every row is one too many. */
  lemma {:induction false} EmptyIff(certs: map<nat, Certificate>, c: Chain, chainID: int, lo: nat)
    requires Sound(certs, c, chainID, lo, |c|)
    ensures certs == map[] <==> forall t :: t in certs ==> certs[t].blockNumber < lo
    ensures |c| <= lo ==> certs == map[]
  {
  }

  /** Of a sound table that is complete below n, only the rows at n or above are too many. */
  lemma {:induction false} ExactIff(certs: map<nat, Certificate>, c: Chain, chainID: int, lo: nat, n: nat, hi: nat)
    requires UniqueEvents(c) && n <= hi <= |c|
    requires Sound(certs, c, chainID, lo, hi) && Complete(certs, c, chainID, lo, n)
    ensures certs == Projection(c, chainID, lo, n) <==> forall t :: t in certs ==> certs[t].blockNumber < n
    ensures hi <= n ==> certs == Projection(c, chainID, lo, n)
  {
    ProjectionIff(certs, c, chainID, lo, n);
  }

  lemma {:induction false} NoScanSettles(cfg: WorkerConfig, w: World, hands: seq<HandOver>, k: nat, w': World)
    requires Inv(cfg, w) && PollStep(cfg, w, hands, k, true, w') && ScanFrom(cfg, w) >= |w.chain|
    ensures w' == AtScan(cfg, w) && Inv(cfg, w') && Settled(w')
    ensures w'.next == Checkpointed(cfg, w'.d) && |w'.seen| <= w'.next
  {
    hide Sound, Complete, Applicable, ApplyAll, IsRow, CollisionFree, UniqueEvents, Linked, ValidEvents, OutboxOk,
         Recorded;
    AtScanKeepsInv(cfg, w);
    var rec := ReconcilePlan(cfg, w.chain, w.d.state);
    var plan := PollPlan(cfg, w.chain, w.d.state, Resume(cfg, w.d.state, w.next), hands);
    assert plan.effects == rec.effects;
    assert plan.effects[..k] == rec.effects;
  }

  lemma {:induction false} WholeScanSettles(cfg: WorkerConfig, w: World, hands: seq<HandOver>, k: nat, w': World)
    requires Inv(cfg, w) && PollStep(cfg, w, hands, k, true, w') && ScanFrom(cfg, w) < |w.chain|
    ensures Inv(cfg, w') && Settled(w')
    ensures w'.next == Checkpointed(cfg, w'.d) == Min(ScanFrom(cfg, w) + cfg.batchSize, |w.chain|)
    ensures !ResumesBehind(w) ==> |w'.seen| <= w'.next
  {
    hide Sound, Complete, Applicable, ApplyAll, IsRow, CollisionFree, UniqueEvents, Linked, ValidEvents, OutboxOk,
         Recorded, ScanPlan, DeletedFrom;
    ScanSaves(cfg, w.chain, ScanFrom(cfg, w), hands);
    ScanKeepsInv(cfg, w, hands, k, true, w');
    AtScanKeepsInv(cfg, w);
    AtScanChain(cfg, w);
    SeenWithKeeps(AtScan(cfg, w), w'.next - 1);
  }

  /**
   After every successful poll the cached position and the stored hash are those of the canonical
   chain, and the table equals the projection of the canonical chain up to the checkpoint, with no
   missing and no orphaned row. The one exception is a restart with the checkpoint at block 0; then
   the table is exact unless a failed batch before left rows beyond the first batch.
   */
  lemma {:induction false} SuccessfulPollSyncs(cfg: WorkerConfig, w: World, hands: seq<HandOver>, k: nat, w': World)
    requires Inv(cfg, w) && PollStep(cfg, w, hands, k, true, w')
    ensures Inv(cfg, w') && Settled(w') && CheckpointCanonical(w') && w'.next == Checkpointed(cfg, w'.d)
    ensures var from := ScanFrom(cfg, w);
            w'.next == if from < |w.chain| then Min(from + cfg.batchSize, |w.chain|) else from
    ensures TableExact(cfg, w') <==> !ResumesBehind(w) || NothingBeyondFirstBatch(cfg, w)
  {
    hide Inv, PollStep, TableExact, Settled;
    if ScanFrom(cfg, w) < |w.chain| {
      WholeScanSettles(cfg, w, hands, k, w');
    } else {
      NoScanSettles(cfg, w, hands, k, w');
      AtScanNext(cfg, w);
    }
    SettledExactIff(cfg, w');
    if ResumesBehind(w) {
      RestartExactIff(cfg, w, hands, k, w');
    }
  }

  ghost predicate NothingBeyondFirstBatch(cfg: WorkerConfig, w: World) {
    forall t :: t in w.d.certs ==> w.d.certs[t].blockNumber < Min(cfg.batchSize, |w.chain|)
  }

  /** Block 0 cannot have been replaced, so such a restart scans from block 0 without a rewind. */
  lemma {:induction false} RestartPlan(cfg: WorkerConfig, w: World)
    requires Inv(cfg, w) && ResumesBehind(w)
    ensures cfg.startBlock == 0 && ReconcilePlan(cfg, w.chain, w.d.state) == Plan([], true)
    ensures Settled(w) && PollStart(cfg, w.chain, w.d, w.next) == 0 && |w.chain| > 0
    ensures Sound(w.d.certs, w.chain, cfg.chainID, 0, |w.seen|)
  {
    hide Sound, Complete, OutboxInv, Linked, UniqueEvents, ValidEvents, CollisionFree;
    CheckpointHashDecides(cfg, w);
    NoRewindSettles(cfg, w);
    SoundTransfer(w.d.certs, w.chain, w.seen, cfg.chainID, 0, |w.seen|);
  }

  lemma {:induction false} RestartExactIff(cfg: WorkerConfig, w: World, hands: seq<HandOver>, k: nat, w': World)
    requires Inv(cfg, w) && PollStep(cfg, w, hands, k, true, w') && ResumesBehind(w)
    ensures TableExact(cfg, w') <==> NothingBeyondFirstBatch(cfg, w)
  {
    hide Sound, Complete, IsRow, Rows, Projection, Upserts, Stopped, ScanPlan, Reissued, KeyedByToken;
    var c, hi := w.chain, Min(cfg.batchSize, |w.chain|);
    RestartPlan(cfg, w);
    InvBounds(cfg, w);
    hide Inv, Linked, UniqueEvents, ValidEvents;
    BatchEndPlain(0, cfg.batchSize, |c| - 1);
    ReconciledIs(cfg, c, w.d);
    GoodPollTable(cfg, c, w.d, w.next, hands, k, w'.d, w'.next);
    SoundIsKeyed(w.d.certs, c, cfg.chainID, 0, |w.seen|);
    BatchExactIff(w.d.certs, c, cfg.chainID, 0, 0, hi);
    ReissuedBelow(w.d.certs, c, cfg.chainID, |w.seen|, hi);
  }

  lemma {:induction false} SoundIsKeyed(certs: map<nat, Certificate>, c: Chain, chainID: int, lo: nat, hi: nat)
    requires Sound(certs, c, chainID, lo, hi)
    ensures KeyedByToken(certs)
  {
  }

  /** From block 0 on, a chain issues the tokens of its own rows again exactly as far as it is read. */
  lemma {:induction false} ReissuedBelow(certs: map<nat, Certificate>, c: Chain, chainID: int, n: nat, hi: nat)
    requires UniqueEvents(c) && Sound(certs, c, chainID, 0, n) && n <= |c| && hi <= |c|
    ensures Complete(certs, c, chainID, 0, 0)
    ensures forall t :: t in certs ==>
              !IsRow(c, chainID, 0, 0, certs[t]) && (Reissued(c, chainID, 0, hi, t) <==> certs[t].blockNumber < hi)
  {
    forall t | t in certs
      ensures Reissued(c, chainID, 0, hi, t) <==> certs[t].blockNumber < hi
    {
      if Reissued(c, chainID, 0, hi, t) {
        var r :| IsRow(c, chainID, 0, hi, r) && r.tokenID == t;
        assert IsRow(c, chainID, 0, |c|, r) && IsRow(c, chainID, 0, |c|, certs[t]);
        RowsUnique(c, chainID, 0, |c|, r, certs[t]);
      } else {
        assert certs[t].tokenID == t;
        assert !IsRow(c, chainID, 0, hi, certs[t]);
      }
    }
  }

  lemma {:induction false} AtScanNext(cfg: WorkerConfig, w: World)
    requires Inv(cfg, w)
    ensures AtScan(cfg, w).next == ScanFrom(cfg, w)
  {
  }

  /** The same for a poll anywhere in any run. */
  lemma {:induction false} EveryRunSyncs(cfg: WorkerConfig, ws: seq<World>, i: nat, hands: seq<HandOver>, k: nat)
    requires Run(cfg, ws) && 0 < i < |ws| && PollStep(cfg, ws[i - 1], hands, k, true, ws[i])
    ensures CheckpointCanonical(ws[i]) && ws[i].next == Checkpointed(cfg, ws[i].d)
    ensures TableExact(cfg, ws[i]) <==> !ResumesBehind(ws[i - 1]) || NothingBeyondFirstBatch(cfg, ws[i - 1])
  {
    hide PollStep, Inv, Step, TableExact, NothingBeyondFirstBatch;
    RunKeepsInv(cfg, ws);
    SuccessfulPollSyncs(cfg, ws[i - 1], hands, k, ws[i]);
  }

  lemma {:induction false} InvCovers(cfg: WorkerConfig, w: World, r: Certificate)
    requires Inv(cfg, w) && CheckpointCanonical(w)
    requires IsRow(w.chain, cfg.chainID, cfg.startBlock, Checkpointed(cfg, w.d), r)
    ensures r.tokenID in w.d.certs && w.d.certs[r.tokenID] == r
    ensures cfg.webhooks ==> Recorded(w.d.outbox, r.OutboxKey())
  {
    hide Linked, UniqueEvents, ValidEvents, OutboxOk, Recorded, CollisionFree, Sound;
    if w.d.state.Some? {
      CheckpointHashDecides(cfg, w);
      KeepsRows(w.chain, w.seen, Checkpointed(cfg, w.d), cfg.chainID, cfg.startBlock, r);
    }
  }

  /**
   At every moment of every run, failed polls and crashes included: while the checkpoint's block is
   canonical, each canonical event it covers has its row and, with webhooks on, its outbox row.
   */
  lemma {:induction false} CheckpointCoversNothingMissing(cfg: WorkerConfig, ws: seq<World>, i: nat, r: Certificate)
    requires Run(cfg, ws) && i < |ws| && CheckpointCanonical(ws[i])
    requires IsRow(ws[i].chain, cfg.chainID, cfg.startBlock, Checkpointed(cfg, ws[i].d), r)
    ensures r.tokenID in ws[i].d.certs && ws[i].d.certs[r.tokenID] == r
    ensures cfg.webhooks ==> Recorded(ws[i].d.outbox, r.OutboxKey())
  {
    hide Inv, Run, CheckpointCanonical, IsRow, Recorded;
    RunKeepsInv(cfg, ws);
    InvCovers(cfg, ws[i], r);
  }

  // ---- Catching up ----

  /** Successful polls in a row; the chain stays as it is. */
  ghost predicate GoodPolls(cfg: WorkerConfig, ws: seq<World>) {
    && ws != []
    && forall i :: 0 < i < |ws| ==> GoodPoll(cfg, ws[i - 1], ws[i])
  }

  ghost predicate GoodPoll(cfg: WorkerConfig, w: World, w': World) {
    exists hands, k, ok :: PollStep(cfg, w, hands, k, ok, w') && ok
  }

  /** The only state a caught-up worker can be in: it is a function of the chain. */
  ghost predicate CaughtUp(cfg: WorkerConfig, w: World) {
    var n := |w.chain|;
    && n > 0 && w.next == Max(n, cfg.startBlock)
    && w.d.certs == Projection(w.chain, cfg.chainID, cfg.startBlock, n)
    && w.d.state == if n <= cfg.startBlock then None else Some(IndexerState(cfg.chainID, n - 1, w.chain[n - 1].hash))
  }

  lemma {:induction false} SettledScanFrom(cfg: WorkerConfig, w: World)
    requires Inv(cfg, w) && Settled(w) && w.next == Checkpointed(cfg, w.d) && CheckpointCanonical(w)
    ensures w.next != 0 ==> ScanFrom(cfg, w) == w.next
  {
  }

  /** Each successful poll takes the next batch: the scanned intervals adjoin, without overlap or gap. */
  lemma {:induction false} PollsAdvance(cfg: WorkerConfig, ws: seq<World>)
    requires GoodPolls(cfg, ws) && |ws| >= 2 && Inv(cfg, ws[0])
    ensures var n, w := |ws| - 1, ws[|ws| - 1];
            var from := ScanFrom(cfg, ws[0]);
            && w.chain == ws[0].chain && Inv(cfg, w) && Settled(w) && CheckpointCanonical(w)
            && w.next == Checkpointed(cfg, w.d) == ScanFrom(cfg, w)
            && w.next == (if from < |w.chain| then Min(from + n * cfg.batchSize, |w.chain|) else from)
            && (n >= 2 || !ResumesBehind(ws[0]) ==> TableExact(cfg, w))
  {
    hide *;
    var n := |ws| - 1;
    var from := ScanFrom(cfg, ws[0]);
    var hands, k := LastPoll(cfg, ws);
    InvBounds(cfg, ws[0]);
    if n >= 2 {
      PollsAdvance(cfg, ws[..n]);
      assert ws[..n][n - 1] == ws[n - 1];
      BatchSum(cfg, from, n - 1, |ws[0].chain|);
      LaterPolls(ws[n - 1]);
    }
    SuccessfulPollSyncs(cfg, ws[n - 1], hands, k, ws[n]);
    PollKeepsChain(cfg, ws[n - 1], hands, k, ws[n]);
    BatchSum(cfg, from, n, |ws[0].chain|);
    SettledScanFrom(cfg, ws[n]);
  }

  lemma {:induction false} LaterPolls(w: World)
    ensures w.next != 0 ==> !ResumesBehind(w)
  {
  }

  lemma {:induction false} BatchSum(cfg: WorkerConfig, from: nat, n: nat, len: nat)
    requires n >= 1
    ensures var at := if from < len then Min(from + (n - 1) * cfg.batchSize, len) else from;
            (if at < len then Min(at + cfg.batchSize, len) else at)
            == if from < len then Min(from + n * cfg.batchSize, len) else from
    ensures cfg.batchSize >= 1 && len > 0 ==> (if from < len then Min(from + n * cfg.batchSize, len) else from) > 0
  {
  }

  lemma {:induction false} LastPoll(cfg: WorkerConfig, ws: seq<World>) returns (hands: seq<HandOver>, k: nat)
    requires GoodPolls(cfg, ws) && |ws| >= 2
    ensures GoodPolls(cfg, ws[..|ws| - 1])
    ensures PollStep(cfg, ws[|ws| - 2], hands, k, true, ws[|ws| - 1])
  {
    hide PollStep;
    var n := |ws| - 1;
    assert GoodPoll(cfg, ws[n - 1], ws[n]);
    var ok: bool;
    hands, k, ok :| PollStep(cfg, ws[n - 1], hands, k, ok, ws[n]) && ok;
  }

  lemma {:induction false} PollKeepsChain(cfg: WorkerConfig, w: World, hands: seq<HandOver>, k: nat, w': World)
    requires PollStep(cfg, w, hands, k, true, w')
    ensures w'.chain == w.chain
  {
  }

  /**
   From any state that any run can reach, enough successful polls on a chain that holds still end in
   the one state that the chain determines, however many calls failed before.
   */
  lemma {:induction false} PollsCatchUp(cfg: WorkerConfig, ws: seq<World>)
    requires GoodPolls(cfg, ws) && |ws| >= 2 && Inv(cfg, ws[0])
    requires ScanFrom(cfg, ws[0]) + (|ws| - 1) * cfg.batchSize >= |ws[0].chain|
    requires |ws| >= 3 || !ResumesBehind(ws[0])
    ensures CaughtUp(cfg, ws[|ws| - 1])
  {
    hide *;
    PollsAdvance(cfg, ws);
    var w, from := ws[|ws| - 1], ScanFrom(cfg, ws[0]);
    assert w.next >= |w.chain| by {
      hide *;
      MinAtLeast(from + (|ws| - 1) * cfg.batchSize, |w.chain|);
    }
    SyncedIsCaughtUp(cfg, w);
  }

  lemma {:induction false} MinAtLeast(a: int, b: int)
    ensures a >= b ==> Min(a, b) == b
  {
  }

  lemma {:induction false} SyncedIsCaughtUp(cfg: WorkerConfig, w: World)
    requires Inv(cfg, w) && CheckpointCanonical(w) && TableExact(cfg, w)
    requires w.next == Checkpointed(cfg, w.d) && w.next >= |w.chain|
    ensures CaughtUp(cfg, w)
  {
  }

  lemma {:induction false} EmptyRange(c: Chain, chainID: int, lo: nat)
    ensures |c| <= lo ==> Projection(c, chainID, lo, |c|) == map[]
    ensures lo <= |c| ==> Projection(c, chainID, lo, lo) == map[]
  {
  }

  /**
   Two runs, whatever failed, crashed or was rewound in them before, that end in enough successful polls
   on the same chain agree in table, checkpoint and position.
   */
  lemma {:induction false} CaughtUpRunsAgree(cfg: WorkerConfig, ws: seq<World>, i: nat, vs: seq<World>, j: nat)
    requires Run(cfg, ws) && EnoughPolls(cfg, ws, i) && Run(cfg, vs) && EnoughPolls(cfg, vs, j)
    requires ws[i].chain == vs[j].chain
    ensures var w, v := ws[|ws| - 1], vs[|vs| - 1];
            w.d.certs == v.d.certs && w.d.state == v.d.state && w.next == v.next
  {
    hide EnoughPolls, CaughtUp, Run;
    RunEndsCaughtUp(cfg, ws, i);
    RunEndsCaughtUp(cfg, vs, j);
    SameCaughtUp(cfg, ws[|ws| - 1], vs[|vs| - 1]);
  }

  /** From world i on the run has only successful polls, enough of them to reach the head. */
  ghost predicate EnoughPolls(cfg: WorkerConfig, ws: seq<World>, i: nat) {
    && i + 1 < |ws| && GoodPolls(cfg, ws[i..])
    && ScanFrom(cfg, ws[i]) + (|ws| - 1 - i) * cfg.batchSize >= |ws[i].chain|
    && (i + 2 < |ws| || !ResumesBehind(ws[i]))
  }

  lemma {:induction false} RunEndsCaughtUp(cfg: WorkerConfig, ws: seq<World>, i: nat)
    requires Run(cfg, ws) && EnoughPolls(cfg, ws, i)
    ensures i < |ws| && CaughtUp(cfg, ws[|ws| - 1]) && ws[|ws| - 1].chain == ws[i].chain
  {
    hide Run, Inv, GoodPolls, ScanFrom, ResumesBehind, CaughtUp, TableExact, Settled, CheckpointCanonical;
    RunKeepsInv(cfg, ws);
    assert ws[i..][0] == ws[i] && ws[i..][|ws[i..]| - 1] == ws[|ws| - 1];
    PollsCatchUp(cfg, ws[i..]);
    PollsAdvance(cfg, ws[i..]);
  }

  lemma {:induction false} SameCaughtUp(cfg: WorkerConfig, w: World, v: World)
    requires CaughtUp(cfg, w) && CaughtUp(cfg, v) && w.chain == v.chain
    ensures w.d.certs == v.d.certs && w.d.state == v.d.state && w.next == v.next
  {
  }

  // ---- Only the network can make a poll fail ----

  lemma {:induction false} NoPutsApplicable(cfg: WorkerConfig, d: Durable, es: seq<Effect>)
    requires forall e :: e in es ==> !e.Put?
    ensures Applicable(cfg, d, es)
  {
    if es != [] {
      NoPutsApplicable(cfg, d, es[..|es| - 1]);
    }
  }

  /**
   If the chain still reaches the checkpoint, no poll is refused by the database or stopped by a
   certificate: in particular no upsert ever violates the (chain_id, tx_hash, log_index) key, though
   ON CONFLICT names token_id only.
   */
  lemma {:induction false} HealthyPollCompletes(cfg: WorkerConfig, w: World, hands: seq<HandOver>)
    requires Inv(cfg, w) && (w.d.state.Some? ==> w.d.state.value.lastBlock < |w.chain|)
    ensures var plan := PollPlan(cfg, w.chain, w.d.state, Resume(cfg, w.d.state, w.next), hands);
            plan.completes && Applicable(cfg, w.d, plan.effects)
    ensures UniqueKeys(w.d.certs)
  {
    hide Sound, Complete, ApplyAll, Applicable, ScanRows, Covers, IsRow, CollisionFree, Linked, UniqueEvents,
         ValidEvents, OutboxOk, Recorded, Batch, Rewound;
    InvUnique(cfg, w);
    RewindPointExists(cfg, w);
    var rec := ReconcilePlan(cfg, w.chain, w.d.state);
    var start := ScanFrom(cfg, w);
    var scan := ScanPlan(cfg, w.chain, start, hands);
    NoPutsApplicable(cfg, w.d, rec.effects);
    ApplyAllAppend(cfg, w.d, rec.effects, scan.effects);
    ScanApplicable(cfg, w, hands);
  }

  lemma {:induction false} InvUnique(cfg: WorkerConfig, w: World)
    requires Inv(cfg, w)
    ensures UniqueKeys(w.d.certs)
  {
    SoundUnique(cfg, w.seen, if w.torn then Covered(cfg, w) else |w.seen|, w.d.certs);
  }

  lemma {:induction false} RewindPointExists(cfg: WorkerConfig, w: World)
    requires Inv(cfg, w) && (w.d.state.Some? ==> w.d.state.value.lastBlock < |w.chain|)
    ensures ReconcilePlan(cfg, w.chain, w.d.state).completes
  {
  }

  lemma {:induction false} ScanApplicable(cfg: WorkerConfig, w: World, hands: seq<HandOver>)
    requires Inv(cfg, w) && ReconcilePlan(cfg, w.chain, w.d.state).completes
    ensures var scan := ScanPlan(cfg, w.chain, ScanFrom(cfg, w), hands);
            scan.completes && Applicable(cfg, ApplyAll(cfg, w.d, ReconcilePlan(cfg, w.chain, w.d.state).effects),
                                         scan.effects)
  {
    hide *;
    var v, start := AtScan(cfg, w), ScanFrom(cfg, w);
    AtScanKeepsInv(cfg, w);
    AtScanChain(cfg, w);
    InvBounds(cfg, v);
    StartBounds(cfg, v.d, start);
    if start < |w.chain| {
      var to := BatchEnd(start, cfg.batchSize, |w.chain| - 1);
      BatchEndPlain(start, cfg.batchSize, |w.chain| - 1);
      var es := ScanRows(cfg, w.chain, start, hands);
      var save := Save(IndexerState(cfg.chainID, to, w.chain[to].hash));
      ScanOnValidChain(cfg, w.chain, start, hands);
      ReachFrom(cfg, v, start);
      PartialBatch(cfg, v, to, es, World(v.chain, ApplyAll(cfg, v.d, es), v.next, SeenWith(v, to), false));
      ApplyAllAppend(cfg, v.d, es, [save]);
      OneEffect(cfg, ApplyAll(cfg, v.d, es), save);
    } else {
      NothingToScan(cfg, w.chain, start, hands, v.d);
    }
  }

  lemma {:induction false} NothingToScan(cfg: WorkerConfig, c: Chain, start: nat, hands: seq<HandOver>, d: Durable)
    requires start >= |c|
    ensures ScanPlan(cfg, c, start, hands) == Plan([], true) && Applicable(cfg, d, [])
  {
  }
}
