/**
 From an event on the chain to an accepted webhook task: the polling worker of IndexerRuns together
 with the outbox machine of Outbox, whose sweeps run at any moment, also in the middle of a poll.
 */
module EndToEnd {
  import opened Domain
  import opened Chains
  import opened Store
  import opened Indexer
  import opened IndexerRuns
  import Outbox
  import Contract

  /** w follows the worker; s is the outbox and the queue as worker and sweeps leave them. */
  datatype Whole = Whole(w: World, s: Outbox.System)

  /** The certificates for which effects record a webhook, in order. */
  function OwedBy(es: seq<Effect>): seq<Certificate> {
    if es == [] then []
    else
      var last := es[|es| - 1];
      OwedBy(es[..|es| - 1]) + if last.Owe? then [last.owed] else []
  }

  /** The call inserts: a worker that is busy with a row makes no other insert. */
  predicate Inserts(s: Outbox.System, call: Outbox.Call) {
    call.Insert? && s.worker == Outbox.Idle
  }

  /** The certificates for which calls inserted into the outbox, in order. */
  function InsertedBy(s: Outbox.System, calls: seq<Outbox.Call>): seq<Certificate> {
    if calls == [] then []
    else
      var init, last := calls[..|calls| - 1], calls[|calls| - 1];
      InsertedBy(s, init) + if Inserts(Outbox.Exec(s, init), last) then [last.cert] else []
  }

  /**
   A poll that stopped after k effects: its inserts are those of its effects, and any calls of the
   fast path and of sweeps, with any outcome, come before, between and after them.
   */
  ghost predicate PollTogether(cfg: WorkerConfig, x: Whole, x': Whole, hands: seq<HandOver>, k: nat, ok: bool,
                               calls: seq<Outbox.Call>) {
    var plan := PollPlan(cfg, x.w.chain, x.w.d.state, Resume(cfg, x.w.d.state, x.w.next), hands);
    && PollStep(cfg, x.w, hands, k, ok, x'.w) && k <= |plan.effects|
    && x'.s == Outbox.Exec(x.s, calls)
    && InsertedBy(x.s, calls) == OwedBy(plan.effects[..k])
  }

  /** Between polls: the chain moves, the process restarts, and sweeps run. */
  ghost predicate Between(cfg: WorkerConfig, x: Whole, x': Whole, calls: seq<Outbox.Call>) {
    && (ChainStep(cfg, x.w, x'.w) || RestartStep(x.w, x'.w) || x'.w == x.w)
    && x'.s == Outbox.Exec(x.s, calls) && InsertedBy(x.s, calls) == []
  }

  ghost predicate WholeStep(cfg: WorkerConfig, x: Whole, x': Whole) {
    || (exists hands, k, ok, calls :: PollTogether(cfg, x, x', hands, k, ok, calls))
    || (exists calls :: Between(cfg, x, x', calls))
  }

  ghost predicate WholeRun(cfg: WorkerConfig, xs: seq<Whole>) {
    && xs != [] && Init(cfg, xs[0].w) && xs[0].s == Outbox.INITIAL
    && forall i :: 0 < i < |xs| ==> WholeStep(cfg, xs[i - 1], xs[i])
  }

  // ---- The two views of the outbox ----

  /** The same rows, whatever marks they carry. */
  ghost predicate SameRows(o: seq<OutboxRow>, o': seq<OutboxRow>) {
    && |o| == |o'|
    && forall i :: 0 <= i < |o| ==> o[i].id == o'[i].id && o[i].key == o'[i].key && o[i].payload == o'[i].payload
  }

  ghost predicate Coupled(d: Durable, s: Outbox.System) {
    SameRows(d.outbox, s.outbox) && d.lastID == s.lastID
  }

  lemma {:induction false} SameRecorded(o: seq<OutboxRow>, o': seq<OutboxRow>, key: (int, string, nat))
    requires SameRows(o, o')
    ensures Recorded(o, key) <==> Recorded(o', key)
  {
    if Recorded(o, key) {
      var i :| 0 <= i < |o| && o[i].key == key;
      assert o'[i].key == key;
    }
    if Recorded(o', key) {
      var i :| 0 <= i < |o'| && o'[i].key == key;
      assert o[i].key == key;
    }
  }

  lemma {:induction false} InsertCouples(d: Durable, s: Outbox.System, c: Certificate, hand: HandOver)
    requires Coupled(d, s) && s.worker == Outbox.Idle
    ensures Coupled(Recording(d, c, hand), Outbox.Next(s, Outbox.Insert(c)))
  {
    hide Recorded, Enqueued;
    SameRecorded(d.outbox, s.outbox, c.OutboxKey());
  }

  lemma {:induction false} OtherCallsCouple(d: Durable, s: Outbox.System, call: Outbox.Call)
    requires Coupled(d, s) && !Inserts(s, call)
    ensures Coupled(d, Outbox.Next(s, call))
  {
    hide Recorded, Enqueued, FirstUnenqueued;
  }

  /** Effects and calls that record the same certificates in the same order keep the views together. */
  lemma {:induction false} CallsCouple(cfg: WorkerConfig, d: Durable, es: seq<Effect>, s: Outbox.System,
                                       calls: seq<Outbox.Call>)
    requires Coupled(d, s) && InsertedBy(s, calls) == OwedBy(es)
    ensures Coupled(ApplyAll(cfg, d, es), Outbox.Exec(s, calls))
    decreases |es| + |calls|
  {
    hide Coupled, Apply, Outbox.Next;
    var m, n := |es| - 1, |calls| - 1;
    if n >= 0 && !Inserts(Outbox.Exec(s, calls[..n]), calls[n]) {
      assert InsertedBy(s, calls) == InsertedBy(s, calls[..n]);
      CallsCouple(cfg, d, es, s, calls[..n]);
      OtherCallsCouple(ApplyAll(cfg, d, es), Outbox.Exec(s, calls[..n]), calls[n]);
    } else if m >= 0 && !es[m].Owe? {
      assert OwedBy(es) == OwedBy(es[..m]);
      CallsCouple(cfg, d, es[..m], s, calls);
      OtherEffectsCouple(cfg, ApplyAll(cfg, d, es[..m]), es[m], Outbox.Exec(s, calls));
    } else if m >= 0 && n >= 0 {
      SplitEqual(OwedBy(es[..m]), es[m].owed, InsertedBy(s, calls[..n]), calls[n].cert);
      CallsCouple(cfg, d, es[..m], s, calls[..n]);
      BothCouple(cfg, ApplyAll(cfg, d, es[..m]), es[m], Outbox.Exec(s, calls[..n]), calls[n]);
    }
  }

  lemma {:induction false} SplitEqual(a: seq<Certificate>, x: Certificate, b: seq<Certificate>, y: Certificate)
    requires a + [x] == b + [y]
    ensures a == b && x == y
  {
    assert (a + [x])[|a|] == x && (b + [y])[|b|] == y;
    assert (a + [x])[..|a|] == a && (b + [y])[..|b|] == b;
  }

  lemma {:induction false} OtherEffectsCouple(cfg: WorkerConfig, d: Durable, e: Effect, s: Outbox.System)
    requires Coupled(d, s) && !e.Owe?
    ensures Coupled(Apply(cfg, d, e), s)
  {
  }

  lemma {:induction false} BothCouple(cfg: WorkerConfig, d: Durable, e: Effect, s: Outbox.System, call: Outbox.Call)
    requires Coupled(d, s) && e.Owe? && Inserts(s, call) && call.cert == e.owed
    ensures Coupled(Apply(cfg, d, e), Outbox.Next(s, call))
  {
    hide Recording, Outbox.Next, Coupled;
    InsertCouples(d, s, e.owed, e.hand);
  }

  // ---- Every run ----

  ghost predicate WholeInv(cfg: WorkerConfig, x: Whole) {
    Inv(cfg, x.w) && Outbox.Inv(x.s) && Coupled(x.w.d, x.s)
  }

  lemma {:induction false} ExecInv(s: Outbox.System, calls: seq<Outbox.Call>)
    requires Outbox.Inv(s)
    ensures Outbox.Inv(Outbox.Exec(s, calls))
  {
    if calls != [] {
      hide Outbox.Inv, Outbox.Next;
      var n := |calls| - 1;
      ExecInv(s, calls[..n]);
      Outbox.NextKeeps(Outbox.Exec(s, calls[..n]), calls[n]);
    }
  }

  lemma {:induction false} PollTogetherKeeps(cfg: WorkerConfig, x: Whole, x': Whole, hands: seq<HandOver>, k: nat,
                                             ok: bool,
                                             calls: seq<Outbox.Call>)
    requires WholeInv(cfg, x) && PollTogether(cfg, x, x', hands, k, ok, calls)
    ensures WholeInv(cfg, x')
  {
    hide Inv, Outbox.Inv, Coupled, PollPlan, Resume, InsertedBy, OwedBy, ApplyAll, Applicable, SeenAfter, TornAfter,
         Outbox.Exec;
    PollKeepsInv(cfg, x.w, hands, k, ok, x'.w);
    ExecInv(x.s, calls);
    var plan := PollPlan(cfg, x.w.chain, x.w.d.state, Resume(cfg, x.w.d.state, x.w.next), hands);
    CallsCouple(cfg, x.w.d, plan.effects[..k], x.s, calls);
  }

  lemma {:induction false} BetweenKeeps(cfg: WorkerConfig, x: Whole, x': Whole, calls: seq<Outbox.Call>)
    requires WholeInv(cfg, x) && Between(cfg, x, x', calls)
    ensures WholeInv(cfg, x')
  {
    hide Inv, Outbox.Inv, Coupled, InsertedBy, Outbox.Exec, ChainStep, RestartStep;
    if x'.w != x.w {
      StepKeepsInv(cfg, x.w, x'.w);
    }
    ExecInv(x.s, calls);
    SameDurable(cfg, x.w, x'.w);
    assert OwedBy([]) == [] && ApplyAll(cfg, x.w.d, []) == x.w.d;
    CallsCouple(cfg, x.w.d, [], x.s, calls);
  }

  lemma {:induction false} SameDurable(cfg: WorkerConfig, w: World, w': World)
    requires ChainStep(cfg, w, w') || RestartStep(w, w') || w' == w
    ensures w'.d == w.d
  {
  }

  lemma {:induction false} WholeRunKeeps(cfg: WorkerConfig, xs: seq<Whole>)
    requires WholeRun(cfg, xs)
    ensures WholeInv(cfg, xs[|xs| - 1])
  {
    hide WholeInv, WholeStep, Init;
    var n := |xs| - 1;
    if n == 0 {
      WholeInit(cfg, xs[0]);
    } else {
      WholeRunKeeps(cfg, xs[..n]);
      assert WholeStep(cfg, xs[n - 1], xs[n]);
      WholeStepKeeps(cfg, xs[n - 1], xs[n]);
    }
  }

  lemma {:induction false} WholeInit(cfg: WorkerConfig, x: Whole)
    requires Init(cfg, x.w) && x.s == Outbox.INITIAL
    ensures WholeInv(cfg, x)
  {
    hide Inv;
    InitInv(cfg, x.w);
  }

  lemma {:induction false} WholeStepKeeps(cfg: WorkerConfig, x: Whole, x': Whole)
    requires WholeInv(cfg, x) && WholeStep(cfg, x, x')
    ensures WholeInv(cfg, x')
  {
    hide WholeInv, PollTogether, Between;
    if exists hands, k, ok, calls :: PollTogether(cfg, x, x', hands, k, ok, calls) {
      var hands, k, ok, calls :| PollTogether(cfg, x, x', hands, k, ok, calls);
      PollTogetherKeeps(cfg, x, x', hands, k, ok, calls);
    } else {
      var calls :| Between(cfg, x, x', calls);
      BetweenKeeps(cfg, x, x', calls);
    }
  }

  // ---- Which payload a row carries ----

  /** The first of the certificates that has this key. */
  function First(cs: seq<Certificate>, key: (int, string, nat)): Option<Certificate> {
    if cs == [] then None
    else
      var before, last := First(cs[..|cs| - 1], key), cs[|cs| - 1];
      if before.Some? then before else if last.OutboxKey() == key then Some(last) else None
  }

  /** Each row carries the payload of the first certificate recorded under its key. */
  ghost predicate FirstPayloads(outbox: seq<OutboxRow>, cs: seq<Certificate>) {
    && (forall i :: 0 <= i < |outbox| ==>
                      var first := First(cs, outbox[i].key);
                      first.Some? && first.value.OutboxKey() == outbox[i].key
                      && outbox[i].payload == NewWebhookEvent(first.value))
    && (forall key :: First(cs, key).Some? ==> Recorded(outbox, key))
  }

  lemma {:induction false} PayloadsAreFirst(calls: seq<Outbox.Call>)
    ensures FirstPayloads(Outbox.Exec(Outbox.INITIAL, calls).outbox, InsertedBy(Outbox.INITIAL, calls))
  {
    if calls != [] {
      hide FirstPayloads, Outbox.Next, First;
      var n := |calls| - 1;
      var s := Outbox.Exec(Outbox.INITIAL, calls[..n]);
      PayloadsAreFirst(calls[..n]);
      if Inserts(s, calls[n]) {
        InsertIsFirst(s, InsertedBy(Outbox.INITIAL, calls[..n]), calls[n].cert);
      } else {
        OtherCallsKeepRows(s, calls[n]);
        SamePayloads(s.outbox, Outbox.Next(s, calls[n]).outbox, InsertedBy(Outbox.INITIAL, calls[..n]));
        assert InsertedBy(Outbox.INITIAL, calls) == InsertedBy(Outbox.INITIAL, calls[..n]);
      }
    }
  }

  lemma {:induction false} OtherCallsKeepRows(s: Outbox.System, call: Outbox.Call)
    requires !Inserts(s, call)
    ensures SameRows(s.outbox, Outbox.Next(s, call).outbox)
  {
    hide Recorded, Enqueued, FirstUnenqueued;
  }

  lemma {:induction false} SamePayloads(o: seq<OutboxRow>, o': seq<OutboxRow>, cs: seq<Certificate>)
    requires SameRows(o, o') && FirstPayloads(o, cs)
    ensures FirstPayloads(o', cs)
  {
    hide First, Recorded;
    forall key | First(cs, key).Some?
      ensures Recorded(o', key)
    {
      SameRecorded(o, o', key);
    }
  }

  lemma {:induction false} InsertIsFirst(s: Outbox.System, cs: seq<Certificate>, c: Certificate)
    requires FirstPayloads(s.outbox, cs) && s.worker == Outbox.Idle
    ensures FirstPayloads(Outbox.Next(s, Outbox.Insert(c)).outbox, cs + [c])
  {
    var o, o' := s.outbox, Outbox.Next(s, Outbox.Insert(c)).outbox;
    assert (cs + [c])[..|cs|] == cs;
    assert forall key :: First(cs + [c], key)
                         == if First(cs, key).Some? then First(cs, key) else if c.OutboxKey()
                             == key then Some(c) else None;
    hide First;
    if Recorded(o, c.OutboxKey()) {
      assert o' == o;
      var i :| 0 <= i < |o| && o[i].key == c.OutboxKey();
    } else {
      assert o' == o + [o'[|o|]] && o'[|o|].key == c.OutboxKey();
      assert First(cs, c.OutboxKey()).None?;
      forall key | First(cs + [c], key).Some?
        ensures Recorded(o', key)
      {
        if First(cs, key).Some? {
          var i :| 0 <= i < |o| && o[i].key == key;
          assert o'[i].key == key;
        }
      }
    }
  }

  lemma {:induction false} ExecAppend(s: Outbox.System, calls: seq<Outbox.Call>, more: seq<Outbox.Call>)
    ensures Outbox.Exec(s, calls + more) == Outbox.Exec(Outbox.Exec(s, calls), more)
  {
    if more == [] {
      assert calls + more == calls;
    } else {
      var n := |more| - 1;
      assert (calls + more)[..|calls + more| - 1] == calls + more[..n];
      ExecAppend(s, calls, more[..n]);
    }
  }

  lemma {:induction false} WholeRunCalls(cfg: WorkerConfig, xs: seq<Whole>) returns (calls: seq<Outbox.Call>)
    requires WholeRun(cfg, xs)
    ensures xs != [] && xs[|xs| - 1].s == Outbox.Exec(Outbox.INITIAL, calls)
  {
    hide Outbox.Exec, WholeRun, WholeStep;
    WholeRunParts(cfg, xs);
    var n := |xs| - 1;
    if n == 0 {
      calls := [];
      NoCalls();
    } else {
      var before := WholeRunCalls(cfg, xs[..n]);
      var more := StepCalls(cfg, xs[n - 1], xs[n]);
      calls := before + more;
      ExecAppend(Outbox.INITIAL, before, more);
    }
  }

  lemma {:induction false} NoCalls()
    ensures Outbox.Exec(Outbox.INITIAL, []) == Outbox.INITIAL
  {
  }

  lemma {:induction false} WholeRunParts(cfg: WorkerConfig, xs: seq<Whole>)
    requires WholeRun(cfg, xs)
    ensures xs != [] && xs[0].s == Outbox.INITIAL
    ensures var n := |xs| - 1; n > 0 ==> WholeRun(cfg, xs[..n]) && WholeStep(cfg, xs[n - 1], xs[n])
  {
    hide WholeStep, Init;
  }

  lemma {:induction false} StepCalls(cfg: WorkerConfig, x: Whole, x': Whole) returns (calls: seq<Outbox.Call>)
    requires WholeStep(cfg, x, x')
    ensures x'.s == Outbox.Exec(x.s, calls)
  {
    hide Outbox.Exec, PollStep, InsertedBy;
    if exists hands, k, ok, calls :: PollTogether(cfg, x, x', hands, k, ok, calls) {
      var hands, k, ok;
      hands, k, ok, calls :| PollTogether(cfg, x, x', hands, k, ok, calls);
    } else {
      calls :| Between(cfg, x, x', calls);
    }
  }

  /**
   After a transaction was mined again, its row keeps the payload of the certificate first recorded. That is
   the payload of the canonical certificate r if and only if all delivered fields agree; if only the issue
   time can differ, as after another block took in the same call, if and only if the issue times agree.
   */
  lemma {:induction false} PayloadIff(cfg: WorkerConfig, xs: seq<Whole>, i: nat, r: Certificate)
      returns (calls: seq<Outbox.Call>, first: Certificate)
    requires WholeRun(cfg, xs) && i < |xs[|xs| - 1].s.outbox| && xs[|xs| - 1].s.outbox[i].key == r.OutboxKey()
    ensures xs[|xs| - 1].s == Outbox.Exec(Outbox.INITIAL, calls)
    ensures First(InsertedBy(Outbox.INITIAL, calls), r.OutboxKey()) == Some(first)
    ensures var payload, data := xs[|xs| - 1].s.outbox[i].payload, first.data;
            && payload.tokenID == r.tokenID && payload.chainID == r.chainID && payload.txHash == r.txHash
            && payload.ownerAddress == data.owner && payload.title == data.title
            && payload.recipientName == data.recipientName && payload.issuerName == data.issuerName
            && payload.description == data.description && payload.issuedAt == data.issuedAt
    ensures var payload := xs[|xs| - 1].s.outbox[i].payload;
            && (payload == NewWebhookEvent(r) <==> first.data.(metadataURI := r.data.metadataURI) == r.data)
            && (first.data.(issuedAt := r.data.issuedAt) == r.data ==>
                  (payload == NewWebhookEvent(r) <==> first.data.issuedAt == r.data.issuedAt))
  {
    hide WholeRun, Outbox.Exec, InsertedBy, First, Recorded;
    calls := WholeRunCalls(cfg, xs);
    PayloadsAreFirst(calls);
    first := First(InsertedBy(Outbox.INITIAL, calls), r.OutboxKey()).value;
  }

  // ---- What becomes of each event ----

  /**
   From chain to queue: in every run of polls, reorganisations, failures, crashes and sweeps, each canonical
   event that a canonical checkpoint covers has its outbox row, and that row is still listed for the next
   sweeps, or the queue holds a task with its id and payload, or held it until it was done with.
   */
  lemma {:induction false} EveryEventIsHandedOver(cfg: WorkerConfig, xs: seq<Whole>, r: Certificate)
      returns (calls: seq<Outbox.Call>, i: nat)
    requires WholeRun(cfg, xs) && cfg.webhooks && CheckpointCanonical(xs[|xs| - 1].w)
    requires var w := xs[|xs| - 1].w; IsRow(w.chain, cfg.chainID, cfg.startBlock, Checkpointed(cfg, w.d), r)
    ensures xs[|xs| - 1].s == Outbox.Exec(Outbox.INITIAL, calls)
    ensures var outbox := xs[|xs| - 1].s.outbox;
            && i < |outbox| && outbox[i].key == (r.chainID, r.txHash, r.tokenID)
            && (outbox[i] in Unenqueued(outbox) || Outbox.HeldOrFinished(calls, outbox[i].id, outbox[i].payload))
  {
    assert xs != [];
    hide WholeRun, Inv, Outbox.Inv, CheckpointCanonical, Unenqueued, IsRow, Outbox.Exec, Outbox.HeldOrFinished;
    var x := xs[|xs| - 1];
    WholeRunKeeps(cfg, xs);
    InvCovers(cfg, x.w, r);
    SameRecorded(x.w.d.outbox, x.s.outbox, r.OutboxKey());
    calls := WholeRunCalls(cfg, xs);
    i :| 0 <= i < |x.s.outbox| && x.s.outbox[i].key == r.OutboxKey();
    Outbox.NoWebhookLost(calls, i);
  }

  /** Two recorded certificates share a row if and only if chain, transaction and token are the same. */
  lemma {:induction false} OneRowPerEvent(calls: seq<Outbox.Call>, c: Certificate, c': Certificate)
    requires c in InsertedBy(Outbox.INITIAL, calls) && c' in InsertedBy(Outbox.INITIAL, calls)
    ensures var outbox := Outbox.Exec(Outbox.INITIAL, calls).outbox;
            exists i, j :: 0 <= i < |outbox| && 0 <= j < |outbox| && outbox[i].key == c.OutboxKey()
              && outbox[j].key == c'.OutboxKey()
              && (i == j <==> c.chainID == c'.chainID && c.txHash == c'.txHash && c.tokenID == c'.tokenID)
  {
    hide Outbox.Exec, InsertedBy;
    var cs, outbox := InsertedBy(Outbox.INITIAL, calls), Outbox.Exec(Outbox.INITIAL, calls).outbox;
    PayloadsAreFirst(calls);
    Outbox.OneRowOneFastEnqueue(calls);
    FirstExists(cs, c);
    FirstExists(cs, c');
    var i :| 0 <= i < |outbox| && outbox[i].key == c.OutboxKey();
    var j :| 0 <= j < |outbox| && outbox[j].key == c'.OutboxKey();
    assert c.OutboxKey() == c'.OutboxKey() <==>
           c.chainID == c'.chainID && c.txHash == c'.txHash && c.tokenID == c'.tokenID;
    assert i == j <==> c.OutboxKey() == c'.OutboxKey();
  }

  lemma {:induction false} FirstExists(cs: seq<Certificate>, c: Certificate)
    requires c in cs
    ensures First(cs, c.OutboxKey()).Some?
  {
    var n := |cs| - 1;
    if c in cs[..n] {
      FirstExists(cs[..n], c);
    } else {
      assert cs == cs[..n] + [cs[n]];
    }
  }

  // ---- The table is the contract's own list ----

  /** Row r is what call k of block i, which issued its token, says: word for word, with where it was mined. */
  ghost predicate RowOfCall(cfg: WorkerConfig, blocks: seq<Contract.MinedBlock>, r: Certificate, i: nat, k: nat) {
    && i < |blocks| && k < |blocks[i].calls|
    && var m := blocks[i].calls[k];
    && m.tx.Issue?
    && r.chainID == cfg.chainID && r.blockNumber == i && r.blockHash == blocks[i].hash
    && r.txHash == m.txHash && r.logIndex == m.logIndex
    && r.data.owner == m.tx.recipient
    && r.data.title == m.tx.cert.title
    && r.data.recipientName == m.tx.cert.recipientName
    && r.data.issuerName == m.tx.cert.issuerName
    && r.data.description == m.tx.cert.description
    && r.data.metadataURI == m.tx.cert.metadataURI
    && r.data.issuedAt == blocks[i].time
  }

  ghost predicate IssuedRow(cfg: WorkerConfig, owner: string, blocks: seq<Contract.MinedBlock>, t: nat,
                            r: Certificate) {
    exists i, k :: RowOfCall(cfg, blocks, r, i, k) && Contract.IssuedBy(Contract.Deployed(owner), blocks, t, i, k)
  }

  /**
   Whatever happened before, enough successful polls on a chain that the contract wrote end with a table
   that holds exactly tokens 1..totalSupply, each with what getCertificate returns, and each the row of the
   call that issued it.
   */
  lemma {:induction false} TableMirrorsContract(cfg: WorkerConfig, ws: seq<World>, i: nat, owner: string,
                                                blocks: seq<Contract.MinedBlock>)
    requires Run(cfg, ws) && EnoughPolls(cfg, ws, i) && cfg.startBlock == 0
    requires Contract.Senders(blocks) && ws[i].chain == Contract.ChainOf(Contract.Deployed(owner), blocks)
    ensures var s, table := Contract.AfterBlocks(Contract.Deployed(owner), blocks), ws[|ws| - 1].d.certs;
            && (forall t :: t in table <==> 1 <= t <= Contract.TotalSupply(s))
            && (forall t :: t in table ==> Contract.GetCertificate(s, t) == Some(table[t].data))
            && (forall t :: t in table ==> IssuedRow(cfg, owner, blocks, t, table[t]))
  {
    hide Run, EnoughPolls, Projection, Contract.AfterBlocks, Contract.GetCertificate, Contract.Senders,
         Contract.BlockEvents;
    RunEndsCaughtUp(cfg, ws, i);
    assert |ws[i].chain| == |blocks|;
    Contract.ProjectionMirrorsContract(owner, blocks, cfg.chainID);
    var c, table := ws[i].chain, ws[|ws| - 1].d.certs;
    assert table == Projection(c, cfg.chainID, 0, |c|) by { CaughtUpTable(cfg, ws[|ws| - 1]); }
    hide Contract.ChainOf, Contract.IssuedBy, IsRow, RowOfCall, Rows, UniqueEvents;
    forall t | t in table
      ensures IssuedRow(cfg, owner, blocks, t, table[t])
    {
      ProjectionRows(c, cfg.chainID, |c|, owner, blocks);
      var b, k := RowIsOfCall(cfg, owner, blocks, table[t]);
    }
  }

  lemma {:induction false} CaughtUpTable(cfg: WorkerConfig, w: World)
    requires CaughtUp(cfg, w)
    ensures w.d.certs == Projection(w.chain, cfg.chainID, cfg.startBlock, |w.chain|)
  {
  }

  lemma {:induction false} ProjectionRows(c: Chain, chainID: int, n: nat, owner: string,
                                          blocks: seq<Contract.MinedBlock>)
    requires Contract.Senders(blocks) && c == Contract.ChainOf(Contract.Deployed(owner), blocks) && n == |c| == |blocks|
    ensures var table := Projection(c, chainID, 0, n);
            forall t :: t in table ==> table[t].tokenID == t && IsRow(c, chainID, 0, n, table[t])
  {
    hide Contract.AfterBlocks, Contract.BlockEvents, Contract.GetCertificate, IsRow, Rows;
    var rows := Rows(c, chainID, 0, n);
    assert blocks[..n] == blocks;
    assert Contract.Inv(Contract.Deployed(owner)) by { Contract.DeployedOk(owner); }
    Contract.RowsAreTokens(Contract.Deployed(owner), blocks, chainID, n);
    RowsMembers(c, chainID, 0, n);
    FoldMembers(rows);
  }

  lemma {:induction false} RowIsOfCall(cfg: WorkerConfig, owner: string, blocks: seq<Contract.MinedBlock>,
                                       r: Certificate)
      returns (b: nat, k: nat)
    requires Contract.Senders(blocks)
    requires var c := Contract.ChainOf(Contract.Deployed(owner), blocks); IsRow(c, cfg.chainID, 0, |c|, r)
    ensures RowOfCall(cfg, blocks, r, b, k)
    ensures Contract.IssuedBy(Contract.Deployed(owner), blocks, r.tokenID, b, k)
  {
    hide Contract.AfterBlocks, Contract.AfterCalls, Contract.BlockEvents, Contract.IssuedBy, Contract.Inv;
    var c := Contract.ChainOf(Contract.Deployed(owner), blocks);
    b := r.blockNumber;
    var j :| 0 <= j < |c[b].events| && BlockRows(c[b], b, cfg.chainID)[j] == r;
    Contract.DeployedOk(owner);
    k := Contract.TokenIssued(Contract.Deployed(owner), blocks, b, j);
  }
}
