/**
 What a poll makes of any table whatever, on any chain that numbers its tokens: the table is the old
 one with the rows of one interval upserted, and an exact condition says when that is a projection.
 Nothing is assumed of how the table came about.
 */
module Batches {
  import opened Domain
  import opened Chains
  import opened Store
  import opened Indexer

  // ---- Upserting a list of rows ----

  function Upserts(certs: map<nat, Certificate>, rows: seq<Certificate>): map<nat, Certificate> {
    if rows == [] then certs
    else
      var r := rows[|rows| - 1];
      Upserts(certs, rows[..|rows| - 1])[r.tokenID := r]
  }

  predicate UniqueTokens(rows: seq<Certificate>) {
    forall i, j :: 0 <= i < j < |rows| ==> rows[i].tokenID != rows[j].tokenID
  }

  predicate HasToken(rows: seq<Certificate>, t: nat) {
    exists i :: 0 <= i < |rows| && rows[i].tokenID == t
  }

  lemma {:induction false} UpsertsAppend(certs: map<nat, Certificate>, rows: seq<Certificate>, more: seq<Certificate>)
    ensures Upserts(certs, rows + more) == Upserts(Upserts(certs, rows), more)
  {
    if more == [] {
      assert rows + more == rows;
    } else {
      var n := |more| - 1;
      assert (rows + more)[..|rows + more| - 1] == rows + more[..n];
      UpsertsAppend(certs, rows, more[..n]);
    }
  }

  /** Each row is in the table; a token that no row has keeps its old row, or stays absent. */
  lemma {:induction false} UpsertsAt(certs: map<nat, Certificate>, rows: seq<Certificate>)
    requires UniqueTokens(rows)
    ensures var certs' := Upserts(certs, rows);
            && (forall r :: r in rows ==> r.tokenID in certs' && certs'[r.tokenID] == r)
            && (forall t :: !HasToken(rows, t) ==>
                              (t in certs' <==> t in certs) && (t in certs ==> certs'[t] == certs[t]))
  {
    if rows != [] {
      var n := |rows| - 1;
      UpsertsAt(certs, rows[..n]);
      hide Upserts;
      LastUpsert(certs, rows);
      TokensOfInit(rows);
    }
  }

  lemma {:induction false} LastUpsert(certs: map<nat, Certificate>, rows: seq<Certificate>)
    requires rows != []
    ensures var r := rows[|rows| - 1]; Upserts(certs, rows) == Upserts(certs, rows[..|rows| - 1])[r.tokenID := r]
  {
  }

  lemma {:induction false} TokensOfInit(rows: seq<Certificate>)
    requires rows != [] && UniqueTokens(rows)
    ensures var init, r := rows[..|rows| - 1], rows[|rows| - 1];
            && UniqueTokens(init) && (forall q :: q in rows ==> q in init || q == r)
            && (forall q :: q in init ==> q.tokenID != r.tokenID)
            && (forall t :: HasToken(rows, t) <==> HasToken(init, t) || t == r.tokenID)
  {
    var n := |rows| - 1;
    assert forall i :: 0 <= i < n ==> rows[..n][i] == rows[i];
    forall t | HasToken(rows, t)
      ensures HasToken(rows[..n], t) || t == rows[n].tokenID
    {
      var i :| 0 <= i < |rows| && rows[i].tokenID == t;
      assert i < n ==> rows[..n][i].tokenID == t;
    }
    assert forall t :: HasToken(rows[..n], t) ==> HasToken(rows, t);
  }

  // ---- When the result is the projection ----

  predicate KeyedByToken(certs: map<nat, Certificate>) {
    forall t :: t in certs ==> certs[t].tokenID == t
  }

  /** Blocks lo, ..., hi-1 issue token t. */
  ghost predicate Reissued(c: Chain, chainID: int, lo: nat, hi: nat, t: nat) {
    exists r :: IsRow(c, chainID, lo, hi, r) && r.tokenID == t
  }

  lemma {:induction false} RowsHaveUniqueTokens(c: Chain, chainID: int, lo: nat, hi: nat)
    requires UniqueEvents(c) && hi <= |c|
    ensures UniqueTokens(Rows(c, chainID, lo, hi))
  {
    if lo < hi {
      var before, last := Rows(c, chainID, lo, hi - 1), BlockRows(c[hi - 1], hi - 1, chainID);
      RowsHaveUniqueTokens(c, chainID, lo, hi - 1);
      RowsMembers(c, chainID, lo, hi - 1);
      forall i, j | 0 <= i < |before| && 0 <= j < |last|
        ensures before[i].tokenID != last[j].tokenID
      {
        assert before[i] in before && last[j] in last;
        assert IsRow(c, chainID, lo, hi, before[i]) && IsRow(c, chainID, lo, hi, last[j]);
      }
    }
  }

  lemma {:induction false} ReissuedHasToken(c: Chain, chainID: int, lo: nat, hi: nat, t: nat)
    requires hi <= |c|
    ensures Reissued(c, chainID, lo, hi, t) <==> HasToken(Rows(c, chainID, lo, hi), t)
  {
    var rows := Rows(c, chainID, lo, hi);
    RowsMembers(c, chainID, lo, hi);
    if HasToken(rows, t) {
      var i :| 0 <= i < |rows| && rows[i].tokenID == t;
      assert rows[i] in rows;
    }
  }

  lemma {:induction false} UpsertedInterval(certs: map<nat, Certificate>, c: Chain, chainID: int, from: nat, hi: nat)
    requires UniqueEvents(c) && hi <= |c|
    ensures var certs' := Upserts(certs, Rows(c, chainID, from, hi));
            && (forall r :: IsRow(c, chainID, from, hi, r) ==> r.tokenID in certs' && certs'[r.tokenID] == r)
            && (forall t :: !Reissued(c, chainID, from, hi, t) ==>
                              (t in certs' <==> t in certs) && (t in certs ==> certs'[t] == certs[t]))
  {
    hide UniqueEvents, Upserts, IsRow, Reissued, HasToken;
    RowsHaveUniqueTokens(c, chainID, from, hi);
    UpsertsAt(certs, Rows(c, chainID, from, hi));
    RowsMembers(c, chainID, from, hi);
    forall t
      ensures Reissued(c, chainID, from, hi, t) <==> HasToken(Rows(c, chainID, from, hi), t)
    {
      ReissuedHasToken(c, chainID, from, hi, t);
    }
  }

  /** No row below from is missing; each row of the table belongs below from or has its token issued in [from, hi). */
  ghost predicate Mended(certs: map<nat, Certificate>, c: Chain, chainID: int, lo: nat, from: nat, hi: nat) {
    && Complete(certs, c, chainID, lo, from)
    && forall t :: t in certs ==> IsRow(c, chainID, lo, from, certs[t]) || Reissued(c, chainID, from, hi, t)
  }

  /** Upserting the rows of [from, hi) into any table gives the projection up to hi exactly if that mends it. */
  lemma {:induction false} BatchExactIff(certs: map<nat, Certificate>, c: Chain, chainID: int, lo: nat, from: nat,
                                         hi: nat)
    requires UniqueEvents(c) && KeyedByToken(certs) && lo <= from <= hi <= |c|
    ensures Upserts(certs, Rows(c, chainID, from, hi)) == Projection(c, chainID, lo, hi) <==>
            Mended(certs, c, chainID, lo, from, hi)
  {
    hide UniqueEvents, Upserts, IsRow, Reissued, Sound, Complete, Projection;
    var certs' := Upserts(certs, Rows(c, chainID, from, hi));
    UpsertedInterval(certs, c, chainID, from, hi);
    ProjectionIff(certs', c, chainID, lo, hi);
    if Sound(certs', c, chainID, lo, hi) && Complete(certs', c, chainID, lo, hi) {
      OldRowsOfExact(certs, certs', c, chainID, lo, from, hi);
    }
    if Mended(certs, c, chainID, lo, from, hi) {
      ExactFromOldRows(certs, certs', c, chainID, lo, from, hi);
    }
  }

  ghost predicate Upserted(certs: map<nat, Certificate>, certs': map<nat, Certificate>, c: Chain, chainID: int,
                           from: nat, hi: nat) {
    && (forall r :: IsRow(c, chainID, from, hi, r) ==> r.tokenID in certs' && certs'[r.tokenID] == r)
    && (forall t :: !Reissued(c, chainID, from, hi, t) ==>
                      (t in certs' <==> t in certs) && (t in certs ==> certs'[t] == certs[t]))
  }

  lemma {:induction false} OldRowsOfExact(certs: map<nat, Certificate>, certs': map<nat, Certificate>, c: Chain,
                                          chainID: int,
                                          lo: nat, from: nat, hi: nat)
    requires UniqueEvents(c) && lo <= from <= hi <= |c| && Upserted(certs, certs', c, chainID, from, hi)
    requires Sound(certs', c, chainID, lo, hi) && Complete(certs', c, chainID, lo, hi)
    ensures Mended(certs, c, chainID, lo, from, hi)
  {
    forall r | IsRow(c, chainID, lo, from, r)
      ensures r.tokenID in certs && certs[r.tokenID] == r
    {
      NotReissued(c, chainID, lo, from, hi, r);
    }
    forall t | t in certs && !Reissued(c, chainID, from, hi, t)
      ensures IsRow(c, chainID, lo, from, certs[t])
    {
      assert IsRow(c, chainID, lo, hi, certs'[t]);
    }
  }

  /** A chain issues no token twice. */
  lemma {:induction false} NotReissued(c: Chain, chainID: int, lo: nat, from: nat, hi: nat, r: Certificate)
    requires UniqueEvents(c) && lo <= from <= hi <= |c| && IsRow(c, chainID, lo, from, r)
    ensures !Reissued(c, chainID, from, hi, r.tokenID) && IsRow(c, chainID, lo, hi, r)
  {
    if Reissued(c, chainID, from, hi, r.tokenID) {
      var q :| IsRow(c, chainID, from, hi, q) && q.tokenID == r.tokenID;
      RowsUnique(c, chainID, lo, hi, r, q);
    }
  }

  lemma {:induction false} ExactFromOldRows(certs: map<nat, Certificate>, certs': map<nat, Certificate>, c: Chain,
                                            chainID: int,
                                            lo: nat, from: nat, hi: nat)
    requires UniqueEvents(c) && KeyedByToken(certs) && lo <= from <= hi <= |c|
             && Upserted(certs, certs', c, chainID, from, hi)
    requires Mended(certs, c, chainID, lo, from, hi)
    ensures Sound(certs', c, chainID, lo, hi) && Complete(certs', c, chainID, lo, hi)
  {
    forall t | t in certs'
      ensures certs'[t].tokenID == t && IsRow(c, chainID, lo, hi, certs'[t])
    {
      if Reissued(c, chainID, from, hi, t) {
        var r :| IsRow(c, chainID, from, hi, r) && r.tokenID == t;
      }
    }
    forall r | IsRow(c, chainID, lo, hi, r)
      ensures r.tokenID in certs' && certs'[r.tokenID] == r
    {
      if r.blockNumber < from {
        NotReissued(c, chainID, lo, from, hi, r);
      } else {
        assert IsRow(c, chainID, from, hi, r);
      }
    }
  }

  // ---- Rows that the second unique key refuses ----

  /** Row j meets another token's row under its event key, and no earlier row has replaced that one. */
  predicate Meets(certs: map<nat, Certificate>, rows: seq<Certificate>, j: nat, t: nat)
    requires j < |rows|
  {
    t in certs && t != rows[j].tokenID && certs[t].EventKey() == rows[j].EventKey() && !HasToken(rows[..j], t)
  }

  predicate ClashAt(certs: map<nat, Certificate>, rows: seq<Certificate>, j: nat)
    requires j < |rows|
  {
    exists t :: t in certs && Meets(certs, rows, j, t)
  }

  predicate Clash(certs: map<nat, Certificate>, rows: seq<Certificate>) {
    exists j :: 0 <= j < |rows| && ClashAt(certs, rows, j)
  }

  predicate UniqueEventKeys(rows: seq<Certificate>) {
    forall i, j :: 0 <= i < j < |rows| ==> rows[i].EventKey() != rows[j].EventKey()
  }

  lemma {:induction false} TakenIff(certs: map<nat, Certificate>, rows: seq<Certificate>, j: nat)
    requires UniqueTokens(rows) && UniqueEventKeys(rows) && j < |rows|
    ensures KeyTaken(Upserts(certs, rows[..j]), rows[j]) <==> ClashAt(certs, rows, j)
  {
    hide Upserts;
    var certs' := Upserts(certs, rows[..j]);
    UpsertsAt(certs, rows[..j]);
    forall i | 0 <= i < j
      ensures rows[i].tokenID in certs' && certs'[rows[i].tokenID] == rows[i]
    {
      assert rows[..j][i] in rows[..j];
    }
    if KeyTaken(certs', rows[j]) {
      var t :| t in certs' && t != rows[j].tokenID && certs'[t].EventKey() == rows[j].EventKey();
      assert t in certs && Meets(certs, rows, j, t);
    }
  }

  lemma {:induction false} RowsHaveUniqueKeys(c: Chain, chainID: int, lo: nat, hi: nat)
    requires UniqueEvents(c) && hi <= |c|
    ensures UniqueEventKeys(Rows(c, chainID, lo, hi))
  {
    if lo < hi {
      var before, last := Rows(c, chainID, lo, hi - 1), BlockRows(c[hi - 1], hi - 1, chainID);
      RowsHaveUniqueKeys(c, chainID, lo, hi - 1);
      RowsMembers(c, chainID, lo, hi - 1);
      forall i, j | 0 <= i < |before| && 0 <= j < |last|
        ensures before[i].EventKey() != last[j].EventKey()
      {
        assert before[i] in before && last[j] in last;
        assert IsRow(c, chainID, lo, hi, before[i]) && IsRow(c, chainID, lo, hi, last[j]);
      }
    }
  }

  // ---- The effects of a scan ----

  lemma {:induction false} FetchIsBuilt(cfg: WorkerConfig, c: Chain, lo: nat, hi: nat, i: nat)
    requires UniqueEvents(c) && hi <= |c| && i < |IssuedLogs(c, lo, hi)|
    ensures i < |Rows(c, cfg.chainID, lo, hi)|
    ensures var r := Rows(c, cfg.chainID, lo, hi)[i];
            Fetch(cfg, c, IssuedLogs(c, lo, hi)[i]) == if r.Valid() then Some(r) else None
  {
    LogsMatchRows(c, cfg.chainID, lo, hi);
    RowsMembers(c, cfg.chainID, lo, hi);
    var r := Rows(c, cfg.chainID, lo, hi)[i];
    assert r in Rows(c, cfg.chainID, lo, hi);
    assert IsRow(c, cfg.chainID, lo, hi, r);
    BackfillAtHead(c, cfg.chainID, r);
    RowShape(c, cfg.chainID, lo, hi, r);
  }

  lemma {:induction false} RowShape(c: Chain, chainID: int, lo: nat, hi: nat, r: Certificate)
    requires IsRow(c, chainID, lo, hi, r)
    ensures r.chainID == chainID
  {
  }

  lemma {:induction false} AddCert(cfg: WorkerConfig, d: Durable, es: seq<Effect>, r: Certificate, hand: HandOver)
    ensures var d1, d2 := ApplyAll(cfg, d, es), ApplyAll(cfg, d, es + CertEffects(cfg, r, hand));
            d2.certs == d1.certs[r.tokenID := r] && d2.state == d1.state
    ensures Applicable(cfg, d, es + CertEffects(cfg, r, hand)) <==>
            Applicable(cfg, d, es) && !KeyTaken(ApplyAll(cfg, d, es).certs, r)
  {
    hide Recorded, KeyTaken, Marked;
    var d1 := ApplyAll(cfg, d, es);
    ApplyAllAppend(cfg, d, es, CertEffects(cfg, r, hand));
    OneEffect(cfg, d1, Put(r));
    if cfg.webhooks {
      assert CertEffects(cfg, r, hand) == [Put(r)] + [Owe(r, hand)];
      ApplyAllAppend(cfg, d1, [Put(r)], [Owe(r, hand)]);
      OneEffect(cfg, Apply(cfg, d1, Put(r)), Owe(r, hand));
    } else {
      assert CertEffects(cfg, r, hand) == [Put(r)];
    }
  }

  /** None of the first n rows meets a taken key when its turn comes. */
  predicate NoneTaken(certs: map<nat, Certificate>, rows: seq<Certificate>, n: nat)
    requires n <= |rows|
  {
    forall j :: 0 <= j < n ==> !KeyTaken(Upserts(certs, rows[..j]), rows[j])
  }

  lemma {:induction false} InitOfPrefix(rows: seq<Certificate>, n: nat)
    requires 0 < n <= |rows|
    ensures |rows[..n]| == n && rows[..n][n - 1] == rows[n - 1] && rows[..n][..n - 1] == rows[..n - 1]
  {
  }

  lemma {:induction false} OneMore(certs: map<nat, Certificate>, rows: seq<Certificate>, n: nat)
    requires n <= |rows|
    ensures n == 0 ==> Upserts(certs, rows[..n]) == certs && NoneTaken(certs, rows, n)
    ensures n > 0 ==>
              var r, before := rows[n - 1], Upserts(certs, rows[..n - 1]);
              && Upserts(certs, rows[..n]) == before[r.tokenID := r]
              && (NoneTaken(certs, rows, n) <==> NoneTaken(certs, rows, n - 1) && !KeyTaken(before, r))
  {
    hide KeyTaken;
    if n > 0 {
      InitOfPrefix(rows, n);
    }
  }

  /** The first n logs upsert the first n rows, and can do so unless one of these meets a taken key. */
  lemma {:induction false} LogEffectsTable(cfg: WorkerConfig, c: Chain, lo: nat, hi: nat, hands: seq<HandOver>, n: nat,
                                           d: Durable)
    requires UniqueEvents(c) && hi <= |c| && n <= Fetchable(cfg, c, IssuedLogs(c, lo, hi))
    ensures n <= |Rows(c, cfg.chainID, lo, hi)|
    ensures var rows, es := Rows(c, cfg.chainID, lo, hi), LogEffects(cfg, c, IssuedLogs(c, lo, hi), hands, n);
            && ApplyAll(cfg, d, es).certs == Upserts(d.certs, rows[..n]) && ApplyAll(cfg, d, es).state == d.state
            && (Applicable(cfg, d, es) <==> NoneTaken(d.certs, rows, n))
  {
    hide *;
    var logs, rows := IssuedLogs(c, lo, hi), Rows(c, cfg.chainID, lo, hi);
    if n == 0 {
      NoLogs(cfg, c, logs, hands, d);
      OneMore(d.certs, rows, 0);
    } else {
      LogEffectsTable(cfg, c, lo, hi, hands, n - 1, d);
      NextRow(cfg, c, lo, hi, n);
      OneMore(d.certs, rows, n);
      AddCert(cfg, d, LogEffects(cfg, c, logs, hands, n - 1), rows[n - 1], HandAt(hands, n - 1));
      LogEffectsStep(cfg, c, logs, hands, n, rows[n - 1]);
    }
  }

  lemma {:induction false} NextRow(cfg: WorkerConfig, c: Chain, lo: nat, hi: nat, n: nat)
    requires UniqueEvents(c) && hi <= |c| && 0 < n <= Fetchable(cfg, c, IssuedLogs(c, lo, hi))
    ensures n <= |Rows(c, cfg.chainID, lo, hi)|
    ensures Fetch(cfg, c, IssuedLogs(c, lo, hi)[n - 1]) == Some(Rows(c, cfg.chainID, lo, hi)[n - 1])
  {
    hide UniqueEvents, Fetch, IssuedLogs, Rows;
    FetchIsBuilt(cfg, c, lo, hi, n - 1);
  }

  lemma {:induction false} NoLogs(cfg: WorkerConfig, c: Chain, logs: seq<IssuedLog>, hands: seq<HandOver>, d: Durable)
    ensures LogEffects(cfg, c, logs, hands, 0) == [] && ApplyAll(cfg, d, []) == d && Applicable(cfg, d, [])
  {
  }

  predicate AllValid(rows: seq<Certificate>) {
    forall r :: r in rows ==> r.Valid()
  }

  lemma {:induction false} FetchableIff(cfg: WorkerConfig, c: Chain, lo: nat, hi: nat)
    requires UniqueEvents(c) && hi <= |c|
    ensures var logs, rows := IssuedLogs(c, lo, hi), Rows(c, cfg.chainID, lo, hi);
            |logs| == |rows| && (Fetchable(cfg, c, logs) == |logs| <==> AllValid(rows))
  {
    hide Fetch, UniqueEvents, Rows, IssuedLogs;
    var logs, rows := IssuedLogs(c, lo, hi), Rows(c, cfg.chainID, lo, hi);
    var n := Fetchable(cfg, c, logs);
    LogsMatchRows(c, cfg.chainID, lo, hi);
    if n < |logs| {
      FetchIsBuilt(cfg, c, lo, hi, n);
      assert rows[n] in rows;
    } else {
      forall r | r in rows
        ensures r.Valid()
      {
        var i :| 0 <= i < |rows| && rows[i] == r;
        FetchIsBuilt(cfg, c, lo, hi, i);
      }
    }
  }

  /** The rows of the batch that starts at start. */
  function BatchRows(cfg: WorkerConfig, c: Chain, start: nat): seq<Certificate>
    requires start < |c|
  {
    Rows(c, cfg.chainID, start, BatchEnd(start, cfg.batchSize, |c| - 1) + 1)
  }

  /**
   A scan runs to its end exactly if Validate accepts all its rows, no unique key refuses one, and the
   chain on which it reads its last hash reaches that far.
   */
  lemma {:induction false} SplitTable(cfg: WorkerConfig, c: Chain, c': Chain, start: nat, hands: seq<HandOver>,
                                      d: Durable)
    requires UniqueEvents(c) && start < |c|
    ensures var plan, to := SplitPlan(cfg, c, c', start, hands), BatchEnd(start, cfg.batchSize, |c| - 1);
            var rows := BatchRows(cfg, c, start);
            && (plan.completes <==> AllValid(rows) && to < |c'|)
            && (plan.completes ==>
                  && (Applicable(cfg, d, plan.effects) <==> !Clash(d.certs, rows))
                  && ApplyAll(cfg, d, plan.effects).certs == Upserts(d.certs, rows)
                  && ApplyAll(cfg, d, plan.effects).state == Some(IndexerState(cfg.chainID, to, c'[to].hash)))
  {
    hide UniqueEvents, Fetchable, Fetch, IssuedLogs, Rows, LogEffects, AllValid, Clash, Upserts, ApplyAll, Applicable,
         KeyTaken;
    var to := BatchEnd(start, cfg.batchSize, |c| - 1);
    var logs, rows := IssuedLogs(c, start, to + 1), BatchRows(cfg, c, start);
    FetchableIff(cfg, c, start, to + 1);
    if Fetchable(cfg, c, logs) == |logs| && to < |c'| {
      var es, save := LogEffects(cfg, c, logs, hands, |logs|), Save(IndexerState(cfg.chainID, to, c'[to].hash));
      LogEffectsTable(cfg, c, start, to + 1, hands, |logs|, d);
      assert rows[..|rows|] == rows;
      ApplyAllAppend(cfg, d, es, [save]);
      OneEffect(cfg, ApplyAll(cfg, d, es), save);
      ClashIff(cfg, c, start, d.certs);
    }
  }

  lemma {:induction false} ScanTable(cfg: WorkerConfig, c: Chain, start: nat, hands: seq<HandOver>, d: Durable)
    requires UniqueEvents(c) && start < |c|
    ensures var plan, to := ScanPlan(cfg, c, start, hands), BatchEnd(start, cfg.batchSize, |c| - 1);
            var rows := BatchRows(cfg, c, start);
            && (plan.completes <==> AllValid(rows))
            && (plan.completes ==>
                  && (Applicable(cfg, d, plan.effects) <==> !Clash(d.certs, rows))
                  && ApplyAll(cfg, d, plan.effects).certs == Upserts(d.certs, rows)
                  && ApplyAll(cfg, d, plan.effects).state == Some(IndexerState(cfg.chainID, to, c[to].hash)))
  {
    hide UniqueEvents, SplitPlan, Rows, AllValid, Clash, Upserts, ApplyAll, Applicable;
    SplitTable(cfg, c, c, start, hands, d);
  }

  lemma {:induction false} ClashIff(cfg: WorkerConfig, c: Chain, start: nat, certs: map<nat, Certificate>)
    requires UniqueEvents(c) && start < |c|
    ensures var rows := BatchRows(cfg, c, start);
            Clash(certs, rows) <==> !NoneTaken(certs, rows, |rows|)
  {
    hide UniqueEvents, Rows, ClashAt, KeyTaken, Upserts, UniqueTokens, UniqueEventKeys;
    var to, rows := BatchEnd(start, cfg.batchSize, |c| - 1), BatchRows(cfg, c, start);
    RowsHaveUniqueTokens(c, cfg.chainID, start, to + 1);
    RowsHaveUniqueKeys(c, cfg.chainID, start, to + 1);
    forall j | 0 <= j < |rows|
      ensures KeyTaken(Upserts(certs, rows[..j]), rows[j]) <==> ClashAt(certs, rows, j)
    {
      TakenIff(certs, rows, j);
    }
  }

  // ---- Whole polls ----

  /** Durable state once reconcile has returned. */
  function Reconciled(cfg: WorkerConfig, c: Chain, d: Durable): Durable {
    ApplyAll(cfg, d, ReconcilePlan(cfg, c, d.state).effects)
  }

  /** Where a poll scans from. */
  function PollStart(cfg: WorkerConfig, c: Chain, d: Durable, next: nat): nat {
    ScanStart(cfg, c, d.state, Resume(cfg, d.state, next))
  }

  lemma {:induction false} ReconciledIs(cfg: WorkerConfig, c: Chain, d: Durable)
    ensures var rec, d' := ReconcilePlan(cfg, c, d.state), Reconciled(cfg, c, d);
            && Applicable(cfg, d, rec.effects)
            && (|rec.effects| == 0 ==> d' == d)
            && (|rec.effects| == 2 ==>
                  var r := RewindTo(cfg, d.state.value.lastBlock);
                  && r < |c|
                  && d' == d.(certs := DeletedFrom(d.certs, cfg.chainID, r + 1),
                              state := Some(IndexerState(cfg.chainID, r, c[r].hash))))
            && (rec.completes ==> |rec.effects| == 0 || |rec.effects| == 2)
  {
    hide DeletedFrom;
    var es := ReconcilePlan(cfg, c, d.state).effects;
    if |es| == 2 {
      assert es == [es[0]] + [es[1]];
      OneEffect(cfg, d, es[0]);
      ApplyAllAppend(cfg, d, [es[0]], [es[1]]);
      OneEffect(cfg, Apply(cfg, d, es[0]), es[1]);
    } else if |es| == 1 {
      OneEffect(cfg, d, es[0]);
      assert es == [es[0]];
    }
  }

  /**
   Reconcile in plain numbers: without a checkpoint hash, or with one that the chain confirms, nothing
   happens; otherwise the rows above the start block, or above the block 12 below the checkpoint if that
   lies higher, are deleted, and that block becomes the checkpoint.
   */
  lemma {:induction false} ReconcileInNumbers(cfg: WorkerConfig, c: Chain, d: Durable)
    ensures var rec, d' := ReconcilePlan(cfg, c, d.state), Reconciled(cfg, c, d);
            if d.state.None? || d.state.value.lastHash == "" then rec.completes && d' == d
            else
              var last := d.state.value.lastBlock;
              if last >= |c| then !rec.completes && d' == d
              else if c[last].hash == d.state.value.lastHash then rec.completes && d' == d
              else
                var r := Max(cfg.startBlock, last - 12);
                && (forall t :: t in d'.certs <==>
                                  t in d.certs && (d.certs[t].chainID != cfg.chainID || d.certs[t].blockNumber <= r))
                && (forall t :: t in d'.certs ==> d'.certs[t] == d.certs[t])
                && (rec.completes <==> r < |c|)
                && (r < |c| ==> d'.state == Some(IndexerState(cfg.chainID, r, c[r].hash)))
                && d'.outbox == d.outbox && d'.lastID == d.lastID && d'.queue == d.queue
  {
    ReconciledIs(cfg, c, d);
    var es := ReconcilePlan(cfg, c, d.state).effects;
    if |es| == 1 {
      assert es == [es[0]];
      OneEffect(cfg, d, es[0]);
    } else if |es| == 0 {
      assert es == [];
    }
  }

  /**
   Where a poll scans from, in plain numbers: behind the rewound checkpoint, else at the position, else where
   a restart resumes.
   */
  lemma {:induction false} StartInNumbers(cfg: WorkerConfig, c: Chain, d: Durable, next: nat)
    ensures var rewinds := |ReconcilePlan(cfg, c, d.state).effects| == 2;
            PollStart(cfg, c, d, next)
            == if rewinds then Max(cfg.startBlock, d.state.value.lastBlock - 12) + 1
               else if next != 0 then next
               else if d.state.None? || d.state.value.lastBlock == 0 then cfg.startBlock
               else d.state.value.lastBlock + 1
  {
  }

  /**
   From any table, a poll can succeed exactly if the checkpoint can be reconciled, Validate accepts
   every certificate of the batch, and none of its rows is refused by the second unique key.
   */
  lemma {:induction false} PollCanSucceedIff(cfg: WorkerConfig, c: Chain, d: Durable, next: nat, hands: seq<HandOver>)
    requires UniqueEvents(c)
    ensures var start := PollStart(cfg, c, d, next);
            (exists k, d', next' :: PollStops(cfg, c, d, next, hands, k, true, d', next')) <==>
            && ReconcilePlan(cfg, c, d.state).completes
            && (start < |c| ==>
                  && AllValid(BatchRows(cfg, c, start))
                  && !Clash(Reconciled(cfg, c, d).certs, BatchRows(cfg, c, start)))
  {
    hide UniqueEvents, ScanPlan, AllValid, Clash, ApplyAll, Applicable, ReconcilePlan, Rows;
    var rec, start := ReconcilePlan(cfg, c, d.state), PollStart(cfg, c, d, next);
    var plan := PollPlan(cfg, c, d.state, Resume(cfg, d.state, next), hands);
    var d1 := Reconciled(cfg, c, d);
    ReconciledIs(cfg, c, d);
    if start < |c| {
      ScanTable(cfg, c, start, hands, d1);
    } else {
      NoScan(cfg, c, start, hands, d1);
    }
    ApplyAllAppend(cfg, d, rec.effects, ScanPlan(cfg, c, start, hands).effects);
    assert plan.effects[..|plan.effects|] == plan.effects;
    if plan.completes && Applicable(cfg, d, plan.effects) {
      var next' := NextAfter(cfg, c, d.state, Resume(cfg, d.state, next));
      assert PollStops(cfg, c, d, next, hands, |plan.effects|, true, ApplyAll(cfg, d, plan.effects), next');
    }
  }

  lemma {:induction false} NoScan(cfg: WorkerConfig, c: Chain, start: nat, hands: seq<HandOver>, d: Durable)
    requires start >= |c|
    ensures ScanPlan(cfg, c, start, hands) == Plan([], true) && Applicable(cfg, d, []) && ApplyAll(cfg, d, []) == d
  {
  }

  /** What a successful poll leaves, whatever it found. */
  lemma {:induction false} GoodPollTable(cfg: WorkerConfig, c: Chain, d: Durable, next: nat, hands: seq<HandOver>,
                                         k: nat, d': Durable, next': nat)
    requires UniqueEvents(c) && PollStops(cfg, c, d, next, hands, k, true, d', next')
    ensures ReconcilePlan(cfg, c, d.state).completes
    ensures var start, d1 := PollStart(cfg, c, d, next), Reconciled(cfg, c, d);
            if start < |c| then
              var to := BatchEnd(start, cfg.batchSize, |c| - 1);
              && d'.certs == Upserts(d1.certs, BatchRows(cfg, c, start))
              && d'.state == Some(IndexerState(cfg.chainID, to, c[to].hash)) && next' == to + 1
            else d' == d1 && next' == start
  {
    hide UniqueEvents, ScanPlan, AllValid, Clash, ApplyAll, Applicable, ReconcilePlan, Rows, Upserts;
    var rec, start := ReconcilePlan(cfg, c, d.state), PollStart(cfg, c, d, next);
    var plan := PollPlan(cfg, c, d.state, Resume(cfg, d.state, next), hands);
    var d1 := Reconciled(cfg, c, d);
    ReconciledIs(cfg, c, d);
    if start < |c| {
      ScanTable(cfg, c, start, hands, d1);
    } else {
      NoScan(cfg, c, start, hands, d1);
    }
    ApplyAllAppend(cfg, d, rec.effects, ScanPlan(cfg, c, start, hands).effects);
    assert plan.effects[..k] == plan.effects;
  }

  // ---- A refused row stops the worker ----

  /** However far a batch gets, its table is the old one with some first rows of the batch upserted. */
  lemma {:induction false} PrefixTable(cfg: WorkerConfig, c: Chain, lo: nat, hi: nat, hands: seq<HandOver>, n: nat,
                                       d: Durable, k: nat)
      returns (m: nat)
    requires UniqueEvents(c) && hi <= |c| && n <= Fetchable(cfg, c, IssuedLogs(c, lo, hi))
    requires k <= |LogEffects(cfg, c, IssuedLogs(c, lo, hi), hands, n)|
    ensures m <= n <= |Rows(c, cfg.chainID, lo, hi)|
    ensures var rows, es := Rows(c, cfg.chainID, lo, hi), LogEffects(cfg, c, IssuedLogs(c, lo, hi), hands, n)[..k];
            && ApplyAll(cfg, d, es).certs == Upserts(d.certs, rows[..m]) && ApplyAll(cfg, d, es).state == d.state
            && (Applicable(cfg, d, es) ==> NoneTaken(d.certs, rows, m))
  {
    hide *;
    var logs, rows := IssuedLogs(c, lo, hi), Rows(c, cfg.chainID, lo, hi);
    var es := LogEffects(cfg, c, logs, hands, n);
    LogEffectsTable(cfg, c, lo, hi, hands, n, d);
    if k == |es| {
      m := n;
      assert es[..k] == es;
    } else {
      NoLogs(cfg, c, logs, hands, d);
      LogEffectsTable(cfg, c, lo, hi, hands, n - 1, d);
      NextRow(cfg, c, lo, hi, n);
      LogEffectsStep(cfg, c, logs, hands, n, rows[n - 1]);
      var before := LogEffects(cfg, c, logs, hands, n - 1);
      if k <= |before| {
        m := PrefixTable(cfg, c, lo, hi, hands, n - 1, d, k);
        assert es[..k] == before[..k];
      } else {
        m := n;
        CertEffectsStart(cfg, before, rows[n - 1], HandAt(hands, n - 1), k);
        AddPut(cfg, d, before, rows[n - 1]);
        OneMore(d.certs, rows, n);
      }
    }
  }

  lemma {:induction false} CertEffectsStart(cfg: WorkerConfig, es: seq<Effect>, r: Certificate, hand: HandOver, k: nat)
    requires |es| < k < |es + CertEffects(cfg, r, hand)|
    ensures (es + CertEffects(cfg, r, hand))[..k] == es + [Put(r)]
  {
  }

  lemma {:induction false} AddPut(cfg: WorkerConfig, d: Durable, es: seq<Effect>, r: Certificate)
    ensures var d1, d2 := ApplyAll(cfg, d, es), ApplyAll(cfg, d, es + [Put(r)]);
            d2.certs == d1.certs[r.tokenID := r] && d2.state == d1.state
    ensures Applicable(cfg, d, es + [Put(r)]) <==> Applicable(cfg, d, es) && !KeyTaken(ApplyAll(cfg, d, es).certs, r)
  {
    hide KeyTaken;
    ApplyAllAppend(cfg, d, es, [Put(r)]);
    OneEffect(cfg, ApplyAll(cfg, d, es), Put(r));
  }

  /** A row refused now is refused still after any part of the batch before it. */
  lemma {:induction false} StaysClash(certs: map<nat, Certificate>, rows: seq<Certificate>, j: nat, m: nat)
    requires UniqueTokens(rows) && UniqueEventKeys(rows) && j < |rows| && m <= |rows| && ClashAt(certs, rows, j)
    requires NoneTaken(certs, rows, m)
    ensures m <= j && ClashAt(Upserts(certs, rows[..m]), rows, j)
  {
    hide Upserts;
    TakenIff(certs, rows, j);
    var t :| t in certs && Meets(certs, rows, j, t);
    UpsertsAt(certs, rows[..m]);
    assert forall i :: 0 <= i < m ==> rows[..m][i] == rows[..j][i];
    assert Meets(Upserts(certs, rows[..m]), rows, j, t);
  }

  lemma {:induction false} ClashStopsScan(cfg: WorkerConfig, c: Chain, start: nat, hands: seq<HandOver>,
                                            d: Durable, k: nat, d': Durable)
    requires UniqueEvents(c) && start < |c| && Clash(d.certs, BatchRows(cfg, c, start))
    requires Stopped(cfg, d, ScanPlan(cfg, c, start, hands).effects, k, d')
    ensures ScanPlan(cfg, c, start, hands).completes ==> k < |ScanPlan(cfg, c, start, hands).effects|
    ensures d'.state == d.state && Clash(d'.certs, BatchRows(cfg, c, start))
  {
    hide UniqueEvents, Fetch, Fetchable, IssuedLogs, Rows, Upserts, NoneTaken, LogEffects, ApplyAll, Applicable,
         ClashAt,
         UniqueTokens, UniqueEventKeys, BatchEnd;
    var to, rows := BatchEnd(start, cfg.batchSize, |c| - 1), BatchRows(cfg, c, start);
    BatchEndInside(start, cfg.batchSize, |c| - 1);
    var logs := IssuedLogs(c, start, to + 1);
    var n := Fetchable(cfg, c, logs);
    var es, plan := LogEffects(cfg, c, logs, hands, n), ScanPlan(cfg, c, start, hands);
    RowsHaveUniqueTokens(c, cfg.chainID, start, to + 1);
    RowsHaveUniqueKeys(c, cfg.chainID, start, to + 1);
    var j :| 0 <= j < |rows| && ClashAt(d.certs, rows, j);
    var i := if k <= |es| then k else |es|;
    assert plan.effects[..k][..i] == es[..i];
    PrefixApplicable(cfg, d, plan.effects[..k], i);
    var m := PrefixTable(cfg, c, start, to + 1, hands, n, d, i);
    StaysClash(d.certs, rows, j, m);
    if n == |logs| && k >= |es| {
      FetchableIff(cfg, c, start, to + 1);
      LogEffectsTable(cfg, c, start, to + 1, hands, n, d);
      assert es[..i] == es;
      StaysClash(d.certs, rows, j, n);
      assert false;
    }
    assert i == k && plan.effects[..k] == es[..k];
  }

  lemma {:induction false} BatchEndInside(start: nat, batchSize: nat, head: nat)
    ensures BatchEnd(start, batchSize, head) <= head
  {
  }

  /**
   While the checkpoint's block stays canonical, a refused row in the next batch stops the worker for
   good: no poll succeeds, the checkpoint and the resume point stay, and the row is refused again.
   */
  lemma {:induction false} ClashStalls(cfg: WorkerConfig, c: Chain, d: Durable, next: nat, hands: seq<HandOver>,
                                              k: nat, ok: bool, d': Durable, next': nat)
    requires UniqueEvents(c) && PollStops(cfg, c, d, next, hands, k, ok, d', next')
    requires ReconcilePlan(cfg, c, d.state) == Plan([], true)
    requires var start := Resume(cfg, d.state, next); start < |c| && Clash(d.certs, BatchRows(cfg, c, start))
    ensures !ok && d'.state == d.state && Resume(cfg, d'.state, next') == Resume(cfg, d.state, next)
    ensures Clash(d'.certs, BatchRows(cfg, c, Resume(cfg, d.state, next)))
  {
    hide UniqueEvents, ScanPlan, ReconcilePlan, ApplyAll, Applicable, Clash, BatchEnd, Rows;
    var start := Resume(cfg, d.state, next);
    var scan := ScanPlan(cfg, c, start, hands);
    assert [] + scan.effects == scan.effects;
    ClashStopsScan(cfg, c, start, hands, d, k, d');
  }

  lemma {:induction false} PrefixApplicable(cfg: WorkerConfig, d: Durable, es: seq<Effect>, k: nat)
    requires Applicable(cfg, d, es) && k <= |es|
    ensures Applicable(cfg, d, es[..k])
  {
    assert es == es[..k] + es[k..];
    ApplyAllAppend(cfg, d, es[..k], es[k..]);
  }

  // ---- The row comes before its webhook ----

  /** What d' has recorded beyond d belongs to one of the first m rows. */
  ghost predicate RecordsOf(d: Durable, d': Durable, rows: seq<Certificate>, m: nat)
    requires m <= |rows|
  {
    forall key :: Recorded(d'.outbox, key) ==>
                    Recorded(d.outbox, key) || exists i :: 0 <= i < m && rows[i].OutboxKey() == key
  }

  lemma {:induction false} RecordsMore(d: Durable, d1: Durable, d2: Durable, rows: seq<Certificate>, n: nat)
    requires 0 < n <= |rows| && RecordsOf(d, d1, rows, n - 1)
    requires forall key :: Recorded(d2.outbox, key) ==> Recorded(d1.outbox, key) || key == rows[n - 1].OutboxKey()
    ensures RecordsOf(d, d2, rows, n)
  {
    hide Recorded;
  }

  lemma {:induction false} CertRecords(cfg: WorkerConfig, d: Durable, r: Certificate, hand: HandOver, j: nat)
    requires 0 < j <= |CertEffects(cfg, r, hand)|
    ensures var d' := ApplyAll(cfg, d, CertEffects(cfg, r, hand)[..j]);
            && d'.certs == d.certs[r.tokenID := r]
            && forall key :: Recorded(d'.outbox, key) ==> Recorded(d.outbox, key) || key == r.OutboxKey()
  {
    var es := CertEffects(cfg, r, hand);
    OneEffect(cfg, d, es[0]);
    assert es[..1] == [es[0]];
    if j == 2 {
      assert es[..2] == [es[0]] + [es[1]];
      ApplyAllAppend(cfg, d, [es[0]], [es[1]]);
      OneEffect(cfg, Apply(cfg, d, es[0]), es[1]);
      RecordingAdds(Apply(cfg, d, es[0]), r, hand);
    }
  }

  lemma {:induction false} RecordingAdds(d: Durable, c: Certificate, hand: HandOver)
    ensures forall key :: Recorded(Recording(d, c, hand).outbox, key) ==>
                            Recorded(d.outbox, key) || key == c.OutboxKey()
    ensures Recording(d, c, hand).certs == d.certs
  {
    var d' := Recording(d, c, hand);
    forall key | Recorded(d'.outbox, key)
      ensures Recorded(d.outbox, key) || key == c.OutboxKey()
    {
      var i :| 0 <= i < |d'.outbox| && d'.outbox[i].key == key;
      assert i < |d.outbox| ==> d.outbox[i].key == key;
    }
  }

  lemma {:induction false} PrefixRecords(cfg: WorkerConfig, c: Chain, lo: nat, hi: nat, hands: seq<HandOver>, n: nat,
                                         d: Durable, k: nat) returns (m: nat)
    requires UniqueEvents(c) && hi <= |c| && n <= Fetchable(cfg, c, IssuedLogs(c, lo, hi))
    requires k <= |LogEffects(cfg, c, IssuedLogs(c, lo, hi), hands, n)|
    ensures m <= n <= |Rows(c, cfg.chainID, lo, hi)|
    ensures var rows := Rows(c, cfg.chainID, lo, hi);
            var d' := ApplyAll(cfg, d, LogEffects(cfg, c, IssuedLogs(c, lo, hi), hands, n)[..k]);
            d'.certs == Upserts(d.certs, rows[..m]) && RecordsOf(d, d', rows, m)
  {
    hide *;
    var logs, rows := IssuedLogs(c, lo, hi), Rows(c, cfg.chainID, lo, hi);
    var es := LogEffects(cfg, c, logs, hands, n);
    NoLogs(cfg, c, logs, hands, d);
    LogEffectsTable(cfg, c, lo, hi, hands, n, d);
    if k == 0 {
      m := 0;
      assert es[..0] == [];
      OneMore(d.certs, rows, 0);
      NoRecords(d, rows);
    } else {
      NextRow(cfg, c, lo, hi, n);
      var before, r := LogEffects(cfg, c, logs, hands, n - 1), rows[n - 1];
      LogEffectsStep(cfg, c, logs, hands, n, r);
      if k <= |before| {
        m := PrefixRecords(cfg, c, lo, hi, hands, n - 1, d, k);
        assert es[..k] == before[..k];
      } else {
        m := n;
        var j := k - |before|;
        var last := CertEffects(cfg, r, HandAt(hands, n - 1));
        var m' := PrefixRecords(cfg, c, lo, hi, hands, n - 1, d, |before|);
        assert before[..|before|] == before && es[..k] == before + last[..j];
        LogEffectsTable(cfg, c, lo, hi, hands, n - 1, d);
        OneMore(d.certs, rows, n);
        var d1 := ApplyAll(cfg, d, before);
        CertRecords(cfg, d1, r, HandAt(hands, n - 1), j);
        ApplyAllAppend(cfg, d, before, last[..j]);
        RecordsUpTo(d, d1, rows, m', n - 1);
        RecordsMore(d, d1, ApplyAll(cfg, d1, last[..j]), rows, n);
      }
    }
  }

  lemma {:induction false} NoRecords(d: Durable, rows: seq<Certificate>)
    ensures RecordsOf(d, d, rows, 0)
  {
  }

  lemma {:induction false} RecordsUpTo(d: Durable, d': Durable, rows: seq<Certificate>, m: nat, n: nat)
    requires m <= n <= |rows| && RecordsOf(d, d', rows, m)
    ensures RecordsOf(d, d', rows, n)
  {
    hide Recorded;
  }

  ghost predicate HasKey(certs: map<nat, Certificate>, key: (int, string, nat)) {
    exists t :: t in certs && certs[t].OutboxKey() == key
  }

  lemma {:induction false} ScanRecords(cfg: WorkerConfig, c: Chain, start: nat, hands: seq<HandOver>, d: Durable,
                                       k: nat,
                                       d': Durable)
    requires UniqueEvents(c) && Stopped(cfg, d, ScanPlan(cfg, c, start, hands).effects, k, d')
    ensures forall key :: Recorded(d'.outbox, key) ==> Recorded(d.outbox, key) || HasKey(d'.certs, key)
  {
    hide UniqueEvents, Fetch, Fetchable, IssuedLogs, Rows, Upserts, LogEffects, ApplyAll, Applicable, BatchEnd,
         Recorded,
         UniqueTokens, HasKey;
    if start < |c| {
      var to := BatchEnd(start, cfg.batchSize, |c| - 1);
      BatchEndInside(start, cfg.batchSize, |c| - 1);
      var logs, rows := IssuedLogs(c, start, to + 1), Rows(c, cfg.chainID, start, to + 1);
      var n := Fetchable(cfg, c, logs);
      var es, plan := LogEffects(cfg, c, logs, hands, n), ScanPlan(cfg, c, start, hands).effects;
      var i := if k <= |es| then k else |es|;
      var m := PrefixRecords(cfg, c, start, to + 1, hands, n, d, i);
      var d1 := ApplyAll(cfg, d, es[..i]);
      RowsHaveUniqueTokens(c, cfg.chainID, start, to + 1);
      RowsHaveKeys(d.certs, rows, m);
      if k > |es| {
        var save := Save(IndexerState(cfg.chainID, to, c[to].hash));
        assert plan[..k] == es[..i] + [save];
        ApplyAllAppend(cfg, d, es[..i], [save]);
        OneEffect(cfg, d1, save);
      } else {
        assert plan[..k] == es[..i];
      }
    } else {
      NoScan(cfg, c, start, hands, d);
    }
  }

  lemma {:induction false} RowsHaveKeys(certs: map<nat, Certificate>, rows: seq<Certificate>, m: nat)
    requires m <= |rows| && UniqueTokens(rows)
    ensures forall i :: 0 <= i < m ==> HasKey(Upserts(certs, rows[..m]), rows[i].OutboxKey())
  {
    hide Upserts;
    assert UniqueTokens(rows[..m]);
    UpsertsAt(certs, rows[..m]);
    forall i | 0 <= i < m
      ensures HasKey(Upserts(certs, rows[..m]), rows[i].OutboxKey())
    {
      assert rows[..m][i] == rows[i] && rows[i] in rows[..m];
    }
  }

  /** No poll, wherever it stops, records a webhook for a certificate that the table does not have yet. */
  lemma {:induction false} NoWebhookBeforeRow(cfg: WorkerConfig, c: Chain, d: Durable, next: nat, hands: seq<HandOver>,
                                              k: nat, ok: bool, d': Durable, next': nat)
    requires UniqueEvents(c) && PollStops(cfg, c, d, next, hands, k, ok, d', next')
    ensures forall key :: Recorded(d'.outbox, key) ==> Recorded(d.outbox, key) || HasKey(d'.certs, key)
  {
    hide UniqueEvents, ScanPlan, ApplyAll, Applicable, ReconcilePlan, Recorded, HasKey, NextStops;
    var rec, start := ReconcilePlan(cfg, c, d.state), PollStart(cfg, c, d, next);
    var plan := PollPlan(cfg, c, d.state, Resume(cfg, d.state, next), hands);
    if k <= |rec.effects| {
      assert plan.effects[..k] == rec.effects[..k];
      ReconcileRecords(cfg, c, d, k);
    } else {
      var scan, d1 := ScanPlan(cfg, c, start, hands), Reconciled(cfg, c, d);
      var j := k - |rec.effects|;
      assert plan.effects[..k] == rec.effects + scan.effects[..j];
      ApplyAllAppend(cfg, d, rec.effects, scan.effects[..j]);
      assert rec.effects[..|rec.effects|] == rec.effects;
      ReconcileRecords(cfg, c, d, |rec.effects|);
      ScanRecords(cfg, c, start, hands, d1, j, d');
    }
  }

  lemma {:induction false} ReconcileRecords(cfg: WorkerConfig, c: Chain, d: Durable, k: nat)
    requires k <= |ReconcilePlan(cfg, c, d.state).effects|
    ensures ApplyAll(cfg, d, ReconcilePlan(cfg, c, d.state).effects[..k]).outbox == d.outbox
  {
    hide DeletedFrom;
    var es := ReconcilePlan(cfg, c, d.state).effects;
    if k == 1 {
      assert es[..1] == [es[0]];
      OneEffect(cfg, d, es[0]);
    } else if k == 2 {
      assert es[..2] == [es[0]] + [es[1]];
      ApplyAllAppend(cfg, d, [es[0]], [es[1]]);
      OneEffect(cfg, d, es[0]);
      OneEffect(cfg, Apply(cfg, d, es[0]), es[1]);
    } else {
      assert es[..0] == [];
    }
  }
}
