/**
 For each hypothesis of IndexerRuns, a run that goes wrong without it. IndexerLimits has the exact
 conditions that these inputs miss.
 */
module IndexerExamples {
  import opened Domain
  import opened Chains
  import opened Store
  import opened Indexer
  import opened Batches
  import opened IndexerRuns
  import opened IndexerLimits

  const CFG := WorkerConfig(1, 0, 10, false)
  const DATA := OnchainCertificate("0xa", "title", "", "issuer", "", "", 1)
  const QUEUE := QueueState(map[], {}, {})

  function Plain(hash: string, parent: string): Block {
    Block(hash, parent, [])
  }

  function Issuing(hash: string, parent: string): Block {
    Block(hash, parent, [Event(1, "tx", 0, DATA)])
  }

  /** The row of the one event, at the given block. */
  function TheRow(hash: string, height: nat): Certificate {
    Certificate(1, DATA, 1, "tx", 0, height, hash)
  }

  function Tables(certs: map<nat, Certificate>, last: nat, hash: string): Durable {
    Durable(certs, Some(IndexerState(1, last, hash)), [], 0, QUEUE)
  }

  // A poll that finds another block at a checkpoint within the window of block 0, and stops in reconcile.
  lemma {:induction false} RewindPolls(c: Chain, d: Durable, next: nat, hands: seq<HandOver>)
    requires d.state.Some? && d.state.value.lastHash != "" && d.state.value.lastBlock <= REORG_WINDOW
    requires next != 0 && d.state.value.lastBlock < |c| && c[d.state.value.lastBlock].hash != d.state.value.lastHash
    ensures var deleted := d.(certs := DeletedFrom(d.certs, 1, 1));
            var rewound := deleted.(state := Some(IndexerState(1, 0, c[0].hash)));
            && PollStops(CFG, c, d, next, hands, 1, false, deleted, next)
            && PollStops(CFG, c, d, next, hands, 2, false, rewound, next)
            && (|c| == 1 ==> PollStops(CFG, c, d, next, hands, 2, true, rewound, 1))
  {
    hide ScanPlan, DeletedFrom, ApplyAll, Applicable;
    var es := [DeleteFrom(1), Save(IndexerState(1, 0, c[0].hash))];
    assert ReconcilePlan(CFG, c, d.state) == Plan(es, true);
    hide ReconcilePlan;
    var plan := PollPlan(CFG, c, d.state, next, hands);
    assert plan.effects[..1] == es[..1] && plan.effects[..2] == es[..2] == es;
    NoPutsApplicable(CFG, d, es[..1]);
    NoPutsApplicable(CFG, d, es);
    ApplyShort(CFG, d, es, 1);
    ApplyShort(CFG, d, es, 2);
    if |c| == 1 {
      NothingToScan(CFG, c, 1, hands, d);
    }
  }

  // A poll that finds its checkpoint in order and has nothing to scan.
  lemma {:induction false} IdlePoll(cfg: WorkerConfig, c: Chain, d: Durable, next: nat, hands: seq<HandOver>)
    requires ReconcilePlan(cfg, c, d.state) == Plan([], true) && next != 0 && next >= |c|
    ensures PollStops(cfg, c, d, next, hands, 0, true, d, next)
  {
    hide ReconcilePlan;
    NothingToScan(cfg, c, next, hands, d);
    NotStarted(cfg, d, []);
  }

  // A batch of one block.
  ghost predicate OneBlock(cfg: WorkerConfig, c: Chain, d: Durable, next: nat) {
    var start := Resume(cfg, d.state, next);
    && cfg.chainID == 1 && !cfg.webhooks
    && ReconcilePlan(cfg, c, d.state) == Plan([], true)
    && start < |c| && BatchEnd(start, cfg.batchSize, |c| - 1) == start
  }

  lemma {:induction false} QuietScan(cfg: WorkerConfig, c: Chain, start: nat, hands: seq<HandOver>)
    requires start < |c| && BatchEnd(start, cfg.batchSize, |c| - 1) == start && c[start].events == []
    ensures ScanPlan(cfg, c, start, hands) == Plan([Save(IndexerState(cfg.chainID, start, c[start].hash))], true)
  {
    hide Fetch, BatchEnd;
    assert IssuedLogs(c, start, start) == [] && IssuedLogs(c, start, start + 1) == [];
  }

  lemma {:induction false} QuietPolls(cfg: WorkerConfig, c: Chain, d: Durable, next: nat, hands: seq<HandOver>)
    requires OneBlock(cfg, c, d, next) && c[Resume(cfg, d.state, next)].events == []
    ensures var start := Resume(cfg, d.state, next);
            PollStops(cfg, c, d, next, hands, 1, true, d.(state := Some(IndexerState(1, start, c[start].hash))),
                      start + 1)
  {
    hide ScanPlan, ReconcilePlan, ApplyAll, Applicable, BatchEnd, Resume, PollStops;
    var start := Resume(cfg, d.state, next);
    var save := Save(IndexerState(1, start, c[start].hash));
    QuietScan(cfg, c, start, hands);
    OneEffect(cfg, d, save);
    WholePoll(cfg, c, d, next, hands);
  }

  lemma {:induction false} WholePoll(cfg: WorkerConfig, c: Chain, d: Durable, next: nat, hands: seq<HandOver>)
    requires ReconcilePlan(cfg, c, d.state) == Plan([], true)
    requires var start := Resume(cfg, d.state, next);
             && start < |c| && ScanPlan(cfg, c, start, hands).completes
             && Applicable(cfg, d, ScanPlan(cfg, c, start, hands).effects)
    ensures var start := Resume(cfg, d.state, next);
            var es := ScanPlan(cfg, c, start, hands).effects;
            PollStops(cfg, c, d, next, hands, |es|, true, ApplyAll(cfg, d, es),
                      BatchEnd(start, cfg.batchSize, |c| - 1) + 1)
  {
    hide ScanPlan, ReconcilePlan, ApplyAll, Applicable, BatchEnd, Resume;
    var es := ScanPlan(cfg, c, Resume(cfg, d.state, next), hands).effects;
    assert [] + es == es && es[..|es|] == es;
  }

  lemma {:induction false} IssuingSplit(cfg: WorkerConfig, c: Chain, c': Chain, start: nat, hands: seq<HandOver>)
    requires cfg.chainID == 1 && !cfg.webhooks && UniqueEvents(c) && ValidEvents(c) && start < |c'|
    requires start < |c| && BatchEnd(start, cfg.batchSize, |c| - 1) == start && |c[start].events| == 1
    ensures SplitPlan(cfg, c, c', start, hands)
            == Plan([Put(RowOf(c[start].events[0], c[start].hash, start, 1)),
                     Save(IndexerState(1, start, c'[start].hash))], true)
  {
    var logs, r := IssuedLogs(c, start, start + 1), RowOf(c[start].events[0], c[start].hash, start, 1);
    hide *;
    OneBlockRows(c, start);
    FetchIsBuilt(cfg, c, start, start + 1, 0);
    RowsMembers(c, 1, start, start + 1);
    assert r in [r];
    RowsValid(c, 1, start, start + 1, r);
    OneLogPlan(cfg, c, c', start, hands, r);
  }

  lemma {:induction false} OneLogPlan(cfg: WorkerConfig, c: Chain, c': Chain, start: nat, hands: seq<HandOver>,
                                      r: Certificate)
    requires cfg.chainID == 1 && !cfg.webhooks && start < |c| && start < |c'|
    requires BatchEnd(start, cfg.batchSize, |c| - 1) == start
    requires |IssuedLogs(c, start, start + 1)| == 1 && Fetch(cfg, c, IssuedLogs(c, start, start + 1)[0]) == Some(r)
    ensures SplitPlan(cfg, c, c', start, hands) == Plan([Put(r), Save(IndexerState(1, start, c'[start].hash))], true)
  {
    hide IssuedLogs, Fetch, BatchEnd;
    var logs := IssuedLogs(c, start, start + 1);
    assert logs[..0] == [];
    assert Fetchable(cfg, c, logs) == 1;
    assert LogEffects(cfg, c, logs, hands, 0) == [];
  }

  lemma {:induction false} OneBlockRows(c: Chain, start: nat)
    requires start < |c| && |c[start].events| == 1
    ensures Rows(c, 1, start, start + 1) == [RowOf(c[start].events[0], c[start].hash, start, 1)]
    ensures |IssuedLogs(c, start, start + 1)| == 1
  {
    assert Rows(c, 1, start, start) == [] && IssuedLogs(c, start, start) == [];
  }

  lemma {:induction false} IssuingPollStops(cfg: WorkerConfig, c: Chain, d: Durable, next: nat, hands: seq<HandOver>)
    requires OneBlock(cfg, c, d, next) && UniqueEvents(c) && ValidEvents(c) && d.certs == map[]
    requires |c[Resume(cfg, d.state, next)].events| == 1
    ensures var start := Resume(cfg, d.state, next);
            var r := RowOf(c[start].events[0], c[start].hash, start, 1);
            PollStops(cfg, c, d, next, hands, 1, false, d.(certs := map[r.tokenID := r]), start)
  {
    hide UniqueEvents, ValidEvents, ReconcilePlan, SplitPlan;
    var start := Resume(cfg, d.state, next);
    IssuingSplit(cfg, c, c, start, hands);
    var r := RowOf(c[start].events[0], c[start].hash, start, 1);
    var plan := PollPlan(cfg, c, d.state, start, hands);
    assert plan.effects[..1] == [Put(r)];
    OneEffect(cfg, d, Put(r));
  }

  lemma {:induction false} QuietRows(c: Chain, n: nat)
    requires n <= |c| && forall i :: 0 <= i < n ==> c[i].events == []
    ensures Rows(c, 1, 0, n) == []
  {
    if n > 0 {
      QuietRows(c, n - 1);
    }
  }

  lemma {:induction false} LastBlockIssues(c: Chain, n: nat)
    requires n < |c| && |c[n].events| == 1 && forall i :: 0 <= i < n ==> c[i].events == []
    ensures var r := RowOf(c[n].events[0], c[n].hash, n, 1); Projection(c, 1, 0, n + 1) == map[r.tokenID := r]
  {
    QuietRows(c, n);
    var r := RowOf(c[n].events[0], c[n].hash, n, 1);
    assert BlockRows(c[n], n, 1) == [r];
    assert Rows(c, 1, 0, n + 1) == [r] && [r][..0] == [];
    assert Fold([r]) == Fold([])[r.tokenID := r];
  }

  lemma {:induction false} QuietProjection(c: Chain, n: nat)
    requires n <= |c| && forall i :: 0 <= i < n ==> c[i].events == []
    ensures Projection(c, 1, 0, n) == map[]
  {
    QuietRows(c, n);
  }

  lemma {:induction false} SmallChainValid(c: Chain)
    requires |c| == 2 && c[0].events == [] && c[1] == Issuing("x", c[1].parent)
    ensures UniqueEvents(c) && ValidEvents(c)
  {
  }

  /** Reorganisations must keep the block the rewind stops at: an event replaced below it leaves its row behind. */
  lemma {:induction false} DeepReorgLeavesOrphan()
    ensures var c, c' := [Issuing("a", "")], [Plain("b", "")];
            var d, d' := Tables(map[1 := TheRow("a", 0)], 0, "a"), Tables(map[1 := TheRow("a", 0)], 0, "b");
            && d.certs == Projection(c, 1, 0, 1)
            && PollStops(CFG, c', d, 1, [], 2, true, d', 1)
            && d'.certs != Projection(c', 1, 0, 1)
  {
    hide PollStops, Rows;
    var c, c' := [Issuing("a", "")], [Plain("b", "")];
    var d := Tables(map[1 := TheRow("a", 0)], 0, "a");
    LastBlockIssues(c, 0);
    QuietRows(c', 1);
    RewindPolls(c', d, 1, []);
    assert DeletedFrom(d.certs, 1, 1) == d.certs;
    assert 1 in d.certs;
  }

  /** After a crash between the delete and the save, the old fork must not come back. */
  lemma {:induction false} TornRewindMissesRow()
    ensures var c, c' := [Plain("g", ""), Issuing("x", "g")], [Plain("g", ""), Plain("y", "g")];
            var d, torn := Tables(map[1 := TheRow("x", 1)], 1, "x"), Tables(map[], 1, "x");
            && d.certs == Projection(c, 1, 0, 2)
            && PollStops(CFG, c', d, 2, [], 1, false, torn, 2)
            && PollStops(CFG, c, torn, 2, [], 0, true, torn, 2)
            && torn.certs != Projection(c, 1, 0, 2)
  {
    hide PollStops, Rows;
    var c, c' := [Plain("g", ""), Issuing("x", "g")], [Plain("g", ""), Plain("y", "g")];
    var d, torn := Tables(map[1 := TheRow("x", 1)], 1, "x"), Tables(map[], 1, "x");
    LastBlockIssues(c, 1);
    assert 1 in d.certs;
    RewindPolls(c', d, 2, []);
    assert DeletedFrom(d.certs, 1, 1) == map[];
    IdlePoll(CFG, c, torn, 2, []);
  }

  /**
   A lost answer of reconcile's save: the rewound checkpoint is stored, the cached position stays ahead
   of it, and the rewound blocks are never scanned.
   */
  lemma {:induction false} AmbiguousSaveSkipsBlocks()
    ensures var c, c' := [Plain("g", ""), Issuing("x", "g")], [Plain("g", ""), Issuing("x", "g"), Plain("y", "x")];
            var d, stored, after := Tables(map[], 1, "w"), Tables(map[], 0, "g"), Tables(map[], 2, "y");
            && PollStops(CFG, c, d, 2, [], 2, false, stored, 2)
            && PollStops(CFG, c', stored, 2, [], 1, true, after, 3)
            && after.certs != Projection(c', 1, 0, 3)
  {
    hide PollStops, Rows;
    var c, c' := [Plain("g", ""), Issuing("x", "g")], [Plain("g", ""), Issuing("x", "g"), Plain("y", "x")];
    var d, stored := Tables(map[], 1, "w"), Tables(map[], 0, "g");
    RewindPolls(c, d, 2, []);
    assert DeletedFrom(d.certs, 1, 1) == d.certs;
    QuietPolls(CFG, c', stored, 2, []);
    assert IsRow(c', 1, 0, 3, TheRow("x", 1)) by {
      assert BlockRows(c'[1], 1, 1)[0] == TheRow("x", 1);
    }
    ProjectionIff(map[], c', 1, 0, 3);
  }

  function Carrying(hash: string, parent: string, token: nat, tx: string): Block {
    Block(hash, parent, [Event(token, tx, 0, DATA)])
  }

  /** A failed batch upserted both rows of the old fork; the new fork mines the two transactions in the other order. */
  function Swapped(): World {
    var seen := [Plain("g", ""), Carrying("a", "g", 1, "t"), Carrying("b", "a", 2, "u")];
    var chain := [Plain("g", ""), Carrying("x", "g", 1, "u"), Carrying("y", "x", 2, "t")];
    var certs := map[1 := RowOf(seen[1].events[0], "a", 1, 1), 2 := RowOf(seen[2].events[0], "b", 2, 1)];
    World(chain, Tables(certs, 0, "g"), 1, seen, false)
  }

  lemma {:induction false} SwappedRows(b: Block, b': Block, b'': Block)
    requires b.events == [] && |b'.events| == 1 && |b''.events| == 1
    ensures Rows([b, b', b''], 1, 0, 3) == [RowOf(b'.events[0], b'.hash, 1, 1), RowOf(b''.events[0], b''.hash, 2, 1)]
    ensures Rows([b, b', b''], 1, 1, 3) == Rows([b, b', b''], 1, 0, 3)
    ensures Rows([b, b', b''], 1, 0, 1) == []
  {
    var c := [b, b', b''];
    assert Rows(c, 1, 0, 0) == [] && Rows(c, 1, 1, 1) == [] && Rows(c, 1, 0, 1) == [];
    assert Rows(c, 1, 0, 2) == [RowOf(b'.events[0], b'.hash, 1, 1)] == Rows(c, 1, 1, 2);
  }

  lemma {:induction false} ThreeBlocksValid(g: string, h: string, i: string, t: nat, u: nat, x: string, y: string)
    requires g != "" && h != "" && i != "" && x != "" && y != "" && t != u && x != y
    ensures ValidChain([Plain(g, ""), Carrying(h, g, t, x), Carrying(i, h, u, y)])
  {
    var c := [Plain(g, ""), Carrying(h, g, t, x), Carrying(i, h, u, y)];
    assert Linked(c);
    assert c[0].events == [] && c[1].events == [Event(t, x, 0, DATA)] && c[2].events == [Event(u, y, 0, DATA)];
    ThreeBlocksUnique(c);
    ThreeBlocksEvents(c);
  }

  lemma {:induction false} ThreeBlocksUnique(c: Chain)
    requires |c| == 3 && c[0].events == [] && |c[1].events| == 1 && |c[2].events| == 1
    requires c[1].events[0].tokenID != c[2].events[0].tokenID && c[1].events[0].txHash != c[2].events[0].txHash
    ensures UniqueEvents(c)
  {
  }

  lemma {:induction false} ThreeBlocksEvents(c: Chain)
    requires |c| == 3 && c[0].events == [] && |c[1].events| == 1 && |c[2].events| == 1 && c[1].hash != ""
             && c[2].hash != ""
    requires c[1].events[0].data == DATA == c[2].events[0].data && c[1].events[0].txHash != ""
             && c[2].events[0].txHash != ""
    ensures ValidEvents(c)
  {
    assert DATA.owner[1] == 'x' && |DATA.owner| == 3;
  }

  lemma {:induction false} SwappedChainsValid()
    ensures ValidChain(Swapped().chain) && ValidChain(Swapped().seen)
  {
    hide ValidChain;
    ThreeBlocksValid("g", "a", "b", 1, 2, "t", "u");
    ThreeBlocksValid("g", "x", "y", 1, 2, "u", "t");
  }

  lemma {:induction false} SwappedTable()
    ensures Sound(Swapped().d.certs, Swapped().seen, 1, 0, 3) && Complete(Swapped().d.certs, Swapped().seen, 1, 0, 3)
  {
    hide ValidEvents, Linked, UniqueEvents, Sound, Complete, Rows;
    var w := Swapped();
    SwappedChainsValid();
    SwappedRows(w.seen[0], w.seen[1], w.seen[2]);
    var rows := Rows(w.seen, 1, 0, 3);
    assert rows[..1] == [rows[0]] && rows[..1][..0] == [];
    assert Upserts(map[], rows[..1][..0]) == map[] && Upserts(map[], rows[..1]) == map[1 := rows[0]];
    assert Upserts(map[], rows) == map[1 := rows[0]][2 := rows[1]] == w.d.certs;
    ProjectionIsUpserts(rows);
    ProjectionIff(w.d.certs, w.seen, 1, 0, 3);
  }

  lemma {:induction false} SwappedDiverged()
    ensures Diverged(CFG, Swapped())
  {
    SwappedTable();
    hide Sound, Rows, BlockRows, Carrying, RowOf;
    var w := Swapped();
    assert w.chain[..1] == w.seen[..1] == [Plain("g", "")];
    assert |w.seen| == 3 && w.seen[0].hash == "g";
    CompleteLess(w.d.certs, w.seen, 1, 0, 1, 3);
  }

  lemma {:induction false} ProjectionIsUpserts(rows: seq<Certificate>)
    ensures Upserts(map[], rows) == Fold(rows)
  {
    if rows != [] {
      ProjectionIsUpserts(rows[..|rows| - 1]);
    }
  }

  /**
   Every stale token is issued again, and yet no poll ever succeeds: the first row of the batch meets
   the stale row of the other token under its transaction.
   */
  lemma {:induction false} SwappedTransactionsStall(hands: seq<HandOver>, k: nat, ok: bool, d': Durable, next': nat)
    requires PollStops(CFG, Swapped().chain, Swapped().d, 1, hands, k, ok, d', next')
    ensures Diverged(CFG, Swapped()) && ValidChain(Swapped().chain)
    ensures forall t :: t in Swapped().d.certs ==> Reissued(Swapped().chain, 1, 1, 3, t)
    ensures !ok && d'.state == Swapped().d.state
  {
    hide PollStops, ValidChain, UniqueEvents, Diverged, Clash, Reissued, BatchRows, Swapped;
    var w := Swapped();
    SwappedChainsValid();
    SwappedDiverged();
    SwappedBatch();
    ClashStalls(CFG, w.chain, w.d, 1, hands, k, ok, d', next');
  }

  lemma {:induction false} SwappedBatch()
    ensures var w := Swapped();
            && UniqueEvents(w.chain)
            && ReconcilePlan(CFG, w.chain, w.d.state) == Plan([], true) && Resume(CFG, w.d.state, 1) == 1 < |w.chain|
            && Clash(w.d.certs, BatchRows(CFG, w.chain, 1))
            && forall t :: t in w.d.certs ==> Reissued(w.chain, 1, 1, 3, t)
  {
    hide UniqueEvents, ValidEvents, Rows, Meets;
    var w := Swapped();
    SwappedChainsValid();
    SwappedRows(w.chain[0], w.chain[1], w.chain[2]);
    var rows := BatchRows(CFG, w.chain, 1);
    RowsMembers(w.chain, 1, 1, 3);
    assert rows[0] in rows && rows[1] in rows;
    SwappedMeets(w.d.certs, rows);
    assert ClashAt(w.d.certs, rows, 0);
  }

  lemma {:induction false} SwappedMeets(certs: map<nat, Certificate>, rows: seq<Certificate>)
    requires rows != [] && 2 in certs && rows[0].tokenID == 1 && certs[2].EventKey() == rows[0].EventKey()
    ensures Meets(certs, rows, 0, 2)
  {
  }

  /**
   The exception of SuccessfulPollSyncs is real: with the checkpoint at block 0 a restart scans block 0
   again, so a row that a failed batch left at block 1 is ahead of the checkpoint after a successful poll.
   */
  lemma {:induction false} RestartAtGenesisLeavesRowAhead()
    ensures var cfg, c := CFG.(batchSize := 1), [Plain("g", ""), Issuing("x", "g")];
            var d, ahead := Tables(map[], 0, "g"), Tables(map[1 := TheRow("x", 1)], 0, "g");
            && PollStops(cfg, c, d, 1, [], 1, false, ahead, 1)
            && PollStops(cfg, c, ahead, 0, [], 1, true, ahead, 1)
            && ahead.certs != Projection(c, 1, 0, 1)
  {
    hide PollStops, Rows, Projection, UniqueEvents, ValidEvents;
    var cfg, c := CFG.(batchSize := 1), [Plain("g", ""), Issuing("x", "g")];
    var d, ahead := Tables(map[], 0, "g"), Tables(map[1 := TheRow("x", 1)], 0, "g");
    SmallChainValid(c);
    IssuingPollStops(cfg, c, d, 1, []);
    QuietPolls(cfg, c, ahead, 0, []);
    QuietProjection(c, 1);
    assert 1 in ahead.certs;
  }

  /** The chain must hold still during a poll: block 1 is replaced after its logs were read, and before its hash was. */
  lemma {:induction false} SplitReadKeepsOldRow(hands: seq<HandOver>)
    ensures var cfg, c, c' := CFG.(batchSize := 1), [Plain("g", ""), Issuing("x", "g")],
            [Plain("g", ""), Plain("y", "g")];
            var d, after := Tables(map[], 0, "g"), Tables(map[1 := TheRow("x", 1)], 1, "y");
            && Stopped(cfg, d, SplitPlan(cfg, c, c', 1, hands).effects, 2, after)
            && SplitPlan(cfg, c, c', 1, hands).completes && |SplitPlan(cfg, c, c', 1, hands).effects| == 2
            && ReconcilePlan(cfg, c', after.state) == Plan([], true) && after.certs != Projection(c', 1, 0, 2)
  {
    hide Rows, Projection, UniqueEvents, ValidEvents, SplitPlan, Apply, ApplyAll, Applicable;
    var cfg, c, c' := CFG.(batchSize := 1), [Plain("g", ""), Issuing("x", "g")], [Plain("g", ""), Plain("y", "g")];
    var d, save := Tables(map[], 0, "g"), Save(IndexerState(1, 1, "y"));
    SmallChainValid(c);
    IssuingSplit(cfg, c, c', 1, hands);
    var es := [Put(TheRow("x", 1)), save];
    assert SplitPlan(cfg, c, c', 1, hands) == Plan(es, true);
    ApplyShort(cfg, d, es, 2);
    TwoEffects(cfg, d, TheRow("x", 1), save.state);
    QuietProjection(c', 2);
    assert 1 in Tables(map[1 := TheRow("x", 1)], 1, "y").certs;
  }

  lemma {:induction false} TwoEffects(cfg: WorkerConfig, d: Durable, r: Certificate, s: IndexerState)
    requires d.certs == map[]
    ensures Apply(cfg, Apply(cfg, d, Put(r)), Save(s)) == d.(certs := map[r.tokenID := r], state := Some(s))
    ensures Applicable(cfg, d, [Put(r), Save(s)]) && [Put(r), Save(s)][..2] == [Put(r), Save(s)]
  {
    assert [Put(r), Save(s)] == [Put(r)] + [Save(s)];
    ApplyAllAppend(cfg, d, [Put(r)], [Save(s)]);
    OneEffect(cfg, d, Put(r));
    OneEffect(cfg, Apply(cfg, d, Put(r)), Save(s));
  }

  /** The sum of position and batch size must not wrap: this poll succeeds and takes the checkpoint back to block 0. */
  lemma {:induction false} WrappedBatchMovesBack()
    ensures var cfg, c := CFG.(batchSize := UINT64 - 1), [Plain("g", ""), Issuing("x", "g"), Plain("y", "x")];
            var d, after := Tables(map[1 := TheRow("x", 1)], 1, "x"), Tables(map[1 := TheRow("x", 1)], 0, "g");
            && d.certs == Projection(c, 1, 0, 2)
            && PollStops(cfg, c, d, 2, [], 1, true, after, 1)
            && after.certs != Projection(c, 1, 0, 1)
  {
    hide PollStops, Rows;
    var cfg, c := CFG.(batchSize := UINT64 - 1), [Plain("g", ""), Issuing("x", "g"), Plain("y", "x")];
    var d, save := Tables(map[1 := TheRow("x", 1)], 1, "x"), Save(IndexerState(1, 0, "g"));
    LastBlockIssues(c, 1);
    QuietProjection(c, 1);
    assert 1 in d.certs;
    assert BatchEnd(2, cfg.batchSize, 2) == 0;
    NothingInBatch(cfg, c, 2, []);
    OneEffect(cfg, d, save);
    hide ScanPlan, ApplyAll, Applicable;
    WholePoll(cfg, c, d, 2, []);
  }

  lemma {:induction false} NothingInBatch(cfg: WorkerConfig, c: Chain, start: nat, hands: seq<HandOver>)
    requires start < |c| && BatchEnd(start, cfg.batchSize, |c| - 1) < start
    ensures var to := BatchEnd(start, cfg.batchSize, |c| - 1);
            to < |c| && ScanPlan(cfg, c, start, hands) == Plan([Save(IndexerState(cfg.chainID, to, c[to].hash))], true)
  {
    hide BatchEnd, Fetch;
  }

  /** Block hashes must not collide: a block replaced under the same hash is not noticed. */
  lemma {:induction false} HashCollisionHidesReorg()
    ensures var c, c' := [Plain("g", ""), Issuing("x", "g")], [Plain("g", ""), Plain("x", "g")];
            var d := Tables(map[1 := TheRow("x", 1)], 1, "x");
            && d.certs == Projection(c, 1, 0, 2)
            && PollStops(CFG, c', d, 2, [], 0, true, d, 2)
            && d.certs != Projection(c', 1, 0, 2)
  {
    hide PollStops, Rows;
    var c, c' := [Plain("g", ""), Issuing("x", "g")], [Plain("g", ""), Plain("x", "g")];
    var d := Tables(map[1 := TheRow("x", 1)], 1, "x");
    LastBlockIssues(c, 1);
    QuietProjection(c', 2);
    assert 1 in d.certs;
    IdlePoll(CFG, c', d, 2, []);
  }
}
