/**
 The polling worker. What one poll does to durable state is a list of effects computed from
 the chain and the checkpoint; a call that fails, or a crash, cuts that list short.
 */
module Indexer {
  import opened Domain
  import opened Chains
  import opened Store

  const REORG_WINDOW := 12
  const UINT64 := 0x1_0000_0000_0000_0000

  /** webhooks tells whether a task enqueuer was wired in. */
  datatype WorkerConfig = WorkerConfig(chainID: int, startBlock: nat, batchSize: nat, webhooks: bool)

  /** Everything a crash leaves behind. */
  datatype Durable = Durable(
    certs: map<nat, Certificate>,
    state: Option<IndexerState>,
    outbox: seq<OutboxRow>,
    lastID: nat,
    queue: QueueState)

  /** How far the best-effort hand-over of a new outbox row got. */
  datatype HandOver = Refused | Unmarked | Handed

  datatype Effect =
    | DeleteFrom(from: nat)
    | Save(state: IndexerState)
    | Put(cert: Certificate)
    | Owe(owed: Certificate, hand: HandOver)

  // ---- Effects on durable state ----

  function Recording(d: Durable, c: Certificate, hand: HandOver): Durable {
    var id := d.lastID + 1;
    if Recorded(d.outbox, c.OutboxKey()) then d.(lastID := id)
    else
      var payload := NewWebhookEvent(c);
      var outbox := d.outbox + [OutboxRow(id, c.OutboxKey(), payload, false)];
      d.(lastID := id,
         outbox := if hand == Handed then Marked(outbox, id) else outbox,
         queue := if hand == Refused then d.queue else Enqueued(d.queue, id, payload))
  }

  function Apply(cfg: WorkerConfig, d: Durable, e: Effect): Durable {
    match e
    case DeleteFrom(from) => d.(certs := DeletedFrom(d.certs, cfg.chainID, from))
    case Save(s) => d.(state := Some(s))
    case Put(c) => d.(certs := d.certs[c.tokenID := c])
    case Owe(c, hand) => Recording(d, c, hand)
  }

  function ApplyAll(cfg: WorkerConfig, d: Durable, es: seq<Effect>): Durable {
    if es == [] then d
    else Apply(cfg, ApplyAll(cfg, d, es[..|es| - 1]), es[|es| - 1])
  }

  /** No upsert in es meets a violated unique key. */
  predicate Applicable(cfg: WorkerConfig, d: Durable, es: seq<Effect>) {
    es == [] ||
    var init, last := es[..|es| - 1], es[|es| - 1];
    && Applicable(cfg, d, init)
    && (last.Put? ==> !KeyTaken(ApplyAll(cfg, d, init).certs, last.cert))
  }

  lemma {:induction false} ApplyAllAppend(cfg: WorkerConfig, d: Durable, es: seq<Effect>, fs: seq<Effect>)
    ensures ApplyAll(cfg, d, es + fs) == ApplyAll(cfg, ApplyAll(cfg, d, es), fs)
    ensures Applicable(cfg, d, es + fs) <==> Applicable(cfg, d, es) && Applicable(cfg, ApplyAll(cfg, d, es), fs)
  {
    if fs == [] {
      assert es + fs == es;
    } else {
      var n := |fs| - 1;
      ApplyAllAppend(cfg, d, es, fs[..n]);
      assert (es + fs)[..|es + fs| - 1] == es + fs[..n];
    }
  }

  // ---- The effects of one poll ----

  /** completes is false when the poll must fail after these effects, whatever the network does. */
  datatype Plan = Plan(effects: seq<Effect>, completes: bool)

  function RewindTo(cfg: WorkerConfig, last: nat): nat {
    if last > cfg.startBlock + REORG_WINDOW then last - REORG_WINDOW else cfg.startBlock
  }

  function ReconcilePlan(cfg: WorkerConfig, c: Chain, state: Option<IndexerState>): Plan {
    if state.None? || state.value.lastHash == "" then Plan([], true)
    else
      var s := state.value;
      if s.lastBlock >= |c| then Plan([], false)
      else if c[s.lastBlock].hash == s.lastHash then Plan([], true)
      else
        var r := RewindTo(cfg, s.lastBlock);
        if r >= |c| then Plan([DeleteFrom(r + 1)], false)
        else Plan([DeleteFrom(r + 1), Save(IndexerState(cfg.chainID, r, c[r].hash))], true)
  }

  /** The block where the scan starts once reconcile has returned. */
  function ScanStart(cfg: WorkerConfig, c: Chain, state: Option<IndexerState>, next: nat): nat {
    if |ReconcilePlan(cfg, c, state).effects| == 2 then RewindTo(cfg, state.value.lastBlock) + 1 else next
  }

  /** min(next + batchSize - 1, head), the sum in 64-bit arithmetic. */
  function BatchEnd(next: nat, batchSize: nat, head: nat): nat {
    Min((next + batchSize + UINT64 - 1) % UINT64, head)
  }

  function Fetch(cfg: WorkerConfig, c: Chain, l: IssuedLog): Option<Certificate> {
    var data := GetCertificate(c, l.tokenID);
    if data.None? then None else NewIndexedCertificate(l, data.value, cfg.chainID)
  }

  /** How many leading logs yield a certificate. */
  function Fetchable(cfg: WorkerConfig, c: Chain, logs: seq<IssuedLog>): (n: nat)
    ensures n <= |logs|
    ensures forall i :: 0 <= i < n ==> Fetch(cfg, c, logs[i]).Some?
    ensures n < |logs| ==> Fetch(cfg, c, logs[n]).None?
  {
    if logs == [] then 0
    else
      var n := Fetchable(cfg, c, logs[..|logs| - 1]);
      if n == |logs| - 1 && Fetch(cfg, c, logs[n]).Some? then |logs| else n
  }

  function HandAt(hands: seq<HandOver>, i: nat): HandOver {
    if i < |hands| then hands[i] else Refused
  }

  function CertEffects(cfg: WorkerConfig, cert: Certificate, hand: HandOver): seq<Effect> {
    [Put(cert)] + if cfg.webhooks then [Owe(cert, hand)] else []
  }

  function LogEffects(cfg: WorkerConfig, c: Chain, logs: seq<IssuedLog>, hands: seq<HandOver>, n: nat): seq<Effect>
    requires n <= Fetchable(cfg, c, logs)
  {
    if n == 0 then []
    else LogEffects(cfg, c, logs, hands, n - 1)
         + CertEffects(cfg, Fetch(cfg, c, logs[n - 1]).value, HandAt(hands, n - 1))
  }

  /** A scan that reads logs and certificates on chain c, and then the hash of its last block on chain c'. */
  function SplitPlan(cfg: WorkerConfig, c: Chain, c': Chain, next: nat, hands: seq<HandOver>): Plan {
    if next >= |c| then Plan([], true)
    else
      var to := BatchEnd(next, cfg.batchSize, |c| - 1);
      var logs := IssuedLogs(c, next, to + 1);
      var n := Fetchable(cfg, c, logs);
      var effects := LogEffects(cfg, c, logs, hands, n);
      if n < |logs| || to >= |c'| then Plan(effects, false)
      else Plan(effects + [Save(IndexerState(cfg.chainID, to, c'[to].hash))], true)
  }

  function ScanPlan(cfg: WorkerConfig, c: Chain, next: nat, hands: seq<HandOver>): Plan {
    SplitPlan(cfg, c, c, next, hands)
  }

  function PollPlan(cfg: WorkerConfig, c: Chain, state: Option<IndexerState>, next: nat, hands: seq<HandOver>): Plan {
    var rec := ReconcilePlan(cfg, c, state);
    if !rec.completes then rec
    else
      var scan := ScanPlan(cfg, c, ScanStart(cfg, c, state, next), hands);
      Plan(rec.effects + scan.effects, scan.completes)
  }

  /** The worker's cached position after a successful poll that started from next. */
  function NextAfter(cfg: WorkerConfig, c: Chain, state: Option<IndexerState>, next: nat): nat {
    var start := ScanStart(cfg, c, state, next);
    if start < |c| then BatchEnd(start, cfg.batchSize, |c| - 1) + 1 else start
  }

  /** The resume point of initNext. */
  function Resume(cfg: WorkerConfig, state: Option<IndexerState>, next: nat): nat {
    if next != 0 then next
    else if state.None? || state.value.lastBlock == 0 then cfg.startBlock
    else state.value.lastBlock + 1
  }

  /** A run of es from d that stopped after k effects and left d'. */
  ghost predicate Stopped(cfg: WorkerConfig, d: Durable, es: seq<Effect>, k: nat, d': Durable) {
    && k <= |es|
    && Applicable(cfg, d, es[..k])
    && d' == ApplyAll(cfg, d, es[..k])
  }

  /**
   The cached position after a poll that stopped after k effects. A poll that failed may have done all
   of them, when only the last answer was lost; its position then lags behind the checkpoint it saved.
   */
  ghost predicate NextStops(cfg: WorkerConfig, c: Chain, state: Option<IndexerState>, next: nat, k: nat, ok: bool,
                            next': nat) {
    var rec, start := ReconcilePlan(cfg, c, state), Resume(cfg, state, next);
    if ok then next' == NextAfter(cfg, c, state, start)
    else
      || (k == 0 && next' == next)                              // initNext failed
      || (k <= |rec.effects| && next' == start)                 // reconcile failed
      || (rec.completes && k >= |rec.effects| && next' == ScanStart(cfg, c, state, start))
  }

  /** One call of Poll on chain c that stopped after k effects. */
  ghost predicate PollStops(cfg: WorkerConfig, c: Chain, d: Durable, next: nat, hands: seq<HandOver>,
                            k: nat, ok: bool, d': Durable, next': nat)
  {
    var plan := PollPlan(cfg, c, d.state, Resume(cfg, d.state, next), hands);
    && Stopped(cfg, d, plan.effects, k, d')
    && (ok ==> k == |plan.effects| && plan.completes)
    && NextStops(cfg, c, d.state, next, k, ok, next')
  }

  // ---- Prefixes of effect lists ----

  lemma {:induction false} OneEffect(cfg: WorkerConfig, d: Durable, e: Effect)
    ensures ApplyAll(cfg, d, [e]) == Apply(cfg, d, e)
    ensures Applicable(cfg, d, [e]) <==> (e.Put? ==> !KeyTaken(d.certs, e.cert))
  {
  }

  lemma {:induction false} FirstRefused(cfg: WorkerConfig, d: Durable, es: seq<Effect>)
    requires es != [] && es[0].Put? && KeyTaken(d.certs, es[0].cert)
    ensures !Applicable(cfg, d, es)
  {
    assert es == [es[0]] + es[1..];
    ApplyAllAppend(cfg, d, [es[0]], es[1..]);
    OneEffect(cfg, d, es[0]);
  }

  lemma {:induction false} LogEffectsPrefix(cfg: WorkerConfig, c: Chain, logs: seq<IssuedLog>, hands: seq<HandOver>,
                                            n: nat, m: nat)
    requires n <= m <= Fetchable(cfg, c, logs)
    ensures LogEffects(cfg, c, logs, hands, n) <= LogEffects(cfg, c, logs, hands, m)
  {
    if n < m {
      LogEffectsPrefix(cfg, c, logs, hands, n, m - 1);
    }
  }

  lemma {:induction false} LogEffectsStep(cfg: WorkerConfig, c: Chain, logs: seq<IssuedLog>, hands: seq<HandOver>,
                                          n: nat, r: Certificate)
    requires 0 < n <= Fetchable(cfg, c, logs) && Fetch(cfg, c, logs[n - 1]) == Some(r)
    ensures LogEffects(cfg, c, logs, hands, n) == LogEffects(cfg, c, logs, hands, n - 1)
            + CertEffects(cfg, r, HandAt(hands, n - 1))
  {
  }

  lemma {:induction false} ScanSaves(cfg: WorkerConfig, c: Chain, next: nat, hands: seq<HandOver>)
    ensures var plan := ScanPlan(cfg, c, next, hands);
            plan.completes && next < |c| ==> plan.effects != []
  {
  }

  lemma {:induction false} NotStarted(cfg: WorkerConfig, d: Durable, es: seq<Effect>)
    ensures Stopped(cfg, d, es, 0, d)
  {
  }

  lemma {:induction false} StoppedEarly(cfg: WorkerConfig, d: Durable, es: seq<Effect>, more: seq<Effect>, k: nat,
                                        d': Durable)
    requires es <= more && Stopped(cfg, d, es, k, d')
    ensures Stopped(cfg, d, more, k, d')
    ensures !Applicable(cfg, d, es) ==> !Applicable(cfg, d, more)
  {
    assert more[..k] == es[..k];
    assert more == es + more[|es|..];
    ApplyAllAppend(cfg, d, es, more[|es|..]);
  }

  lemma {:induction false} StoppedThen(cfg: WorkerConfig, d: Durable, es: seq<Effect>, d1: Durable, fs: seq<Effect>,
                                       j: nat, d2: Durable)
    requires Stopped(cfg, d, es, |es|, d1) && Stopped(cfg, d1, fs, j, d2)
    ensures Stopped(cfg, d, es + fs, |es| + j, d2)
    ensures !Applicable(cfg, d1, fs) ==> !Applicable(cfg, d, es + fs)
  {
    assert es[..|es|] == es;
    assert (es + fs)[..|es| + j] == es + fs[..j];
    ApplyAllAppend(cfg, d, es, fs[..j]);
    ApplyAllAppend(cfg, d, es, fs);
  }

  lemma {:induction false} NextFetchable(cfg: WorkerConfig, c: Chain, logs: seq<IssuedLog>, n: nat)
    requires n <= Fetchable(cfg, c, logs) && n < |logs| && Fetch(cfg, c, logs[n]).Some?
    ensures n < Fetchable(cfg, c, logs)
  {
  }

  // ---- The worker ----

  /**
   The network: calls is the number of port calls that will still be answered, and lost tells whether
   a write that is not answered was carried out all the same.
   */
  class Network {
    var calls: nat
    const lost: bool

    constructor (calls: nat, lost: bool)
      ensures this.calls == calls && this.lost == lost
    {
      this.calls, this.lost := calls, lost;
    }

    /** A call that is not answered returns an error. */
    method Call() returns (ok: bool)
      modifies this
      ensures ok == (old(calls) > 0)
      ensures calls == if ok then old(calls) - 1 else 0
    {
      ok := calls > 0;
      if ok {
        calls := calls - 1;
      }
    }

    /** A call that changes the store. */
    method Write() returns (ok: bool, done: bool)
      modifies this
      ensures ok == (old(calls) > 0) && done == (ok || lost)
      ensures calls == if ok then old(calls) - 1 else 0
    {
      ok := Call();
      done := ok || lost;
    }
  }

  class Worker {
    const cfg: WorkerConfig
    const repo: CertificateRepo
    const queue: TaskQueue
    const net: Network
    var next: nat

    constructor (cfg: WorkerConfig, repo: CertificateRepo, queue: TaskQueue, net: Network)
      ensures this.cfg == cfg && this.repo == repo && this.queue == queue && this.net == net && next == 0
    {
      this.cfg, this.repo, this.queue, this.net, next := cfg, repo, queue, net, 0;
    }

    function Durables(): Durable
      reads repo, queue
    {
      Durable(repo.certs, repo.state, repo.outbox, repo.lastID, queue.state)
    }

    method InitNext() returns (ok: bool)
      modifies this`next, net
      ensures next == if ok then Resume(cfg, repo.state, old(next)) else old(next)
      ensures !ok ==> net.calls == 0
    {
      if next != 0 {
        return true;
      }
      ok := net.Call(); // GetState
      if !ok {
        return;
      }
      if repo.state.None? || repo.state.value.lastBlock == 0 {
        next := cfg.startBlock;
      } else {
        next := repo.state.value.lastBlock + 1;
      }
    }

    /**
     hand fixes the outcome of the best-effort calls; none of them follows an insert whose answer is
     lost, so such an insert is one with hand == Refused.
     */
    method EnqueueWebhook(cert: Certificate, hand: HandOver) returns (ok: bool, ghost k: nat)
      modifies repo, queue, net
      ensures k <= 1 && (ok ==> k == 1)
      ensures Durables() == if k == 1 then Recording(old(Durables()), cert, hand) else old(Durables())
      ensures !ok ==> net.calls == 0
    {
      var done: bool;
      ok, done := net.Write(); // InsertWebhookOutbox
      if !ok && !(done && hand == Refused) {
        return false, 0;
      }
      k := 1;
      var payload := NewWebhookEvent(cert);
      var id, isNew := repo.InsertWebhookOutbox(cert.OutboxKey(), payload);
      if !ok || !isNew {
        return;
      }
      var stored := queue.EnqueueUnique(id, payload, hand != Refused);
      if stored && hand == Handed {
        ghost var o := repo.outbox;
        repo.MarkWebhookOutboxEnqueued(id);
        MarkedIs(o, repo.outbox, id);
      }
    }

    method ProcessLog(c: Chain, l: IssuedLog, hand: HandOver) returns (ok: bool, ghost k: nat)
      modifies repo, queue, net
      ensures Fetch(cfg, c, l).None? ==> !ok && k == 0 && Durables() == old(Durables())
      ensures Fetch(cfg, c, l).Some? ==>
                var es := CertEffects(cfg, Fetch(cfg, c, l).value, hand);
                && Stopped(cfg, old(Durables()), es, k, Durables())
                && (ok ==> k == |es|)
                && (!ok ==> net.calls == 0 || !Applicable(cfg, old(Durables()), es))
    {
      k := 0;
      ok := net.Call(); // GetCertificate
      var fetched := Fetch(cfg, c, l);
      if !ok || fetched.None? {
        return false, 0;
      }
      ghost var d := Durables();
      ghost var es := CertEffects(cfg, fetched.value, hand);
      assert es[..0] == [];
      OneEffect(cfg, d, Put(fetched.value));
      var done: bool;
      ok, done := net.Write(); // Upsert
      if !done {
        return;
      }
      assert es[..1] == [Put(fetched.value)];
      var stored := repo.Upsert(fetched.value);
      if !stored {
        FirstRefused(cfg, d, es);
        return false, 0;
      }
      k := 1;
      if ok && cfg.webhooks {
        ApplyAllAppend(cfg, d, [Put(fetched.value)], [Owe(fetched.value, hand)]);
        OneEffect(cfg, Durables(), Owe(fetched.value, hand));
        assert es[..2] == es == [Put(fetched.value)] + [Owe(fetched.value, hand)];
        ghost var j: nat;
        ok, j := EnqueueWebhook(fetched.value, hand);
        k := 1 + j;
      }
    }

    method Reconcile(c: Chain) returns (ok: bool, ghost k: nat)
      modifies this`next, repo, net
      ensures var plan := ReconcilePlan(cfg, c, old(repo.state));
              && Stopped(cfg, old(Durables()), plan.effects, k, Durables())
              && (ok ==> plan.completes && k == |plan.effects|)
              && next == (if ok then ScanStart(cfg, c, old(repo.state), old(next)) else old(next))
              && (!ok ==> net.calls == 0 || !plan.completes)
    {
      k := 0;
      ghost var d, plan := Durables(), ReconcilePlan(cfg, c, repo.state);
      assert plan.effects[..0] == [];
      ok := net.Call(); // GetState
      if !ok {
        return;
      }
      if repo.state.None? || repo.state.value.lastHash == "" {
        return;
      }
      var state := repo.state.value;
      ok := net.Call(); // BlockHash
      if !ok || state.lastBlock >= |c| {
        return false, 0;
      }
      if c[state.lastBlock].hash == state.lastHash {
        return;
      }
      var rewindTo := cfg.startBlock;
      if state.lastBlock > cfg.startBlock + REORG_WINDOW {
        rewindTo := state.lastBlock - REORG_WINDOW;
      }
      var done: bool;
      ok, done := net.Write(); // DeleteFromBlock
      if !done {
        return;
      }
      repo.DeleteFromBlock(cfg.chainID, rewindTo + 1);
      assert repo.certs == DeletedFrom(d.certs, cfg.chainID, rewindTo + 1);
      k := 1;
      assert plan.effects[..1] == [DeleteFrom(rewindTo + 1)];
      OneEffect(cfg, d, DeleteFrom(rewindTo + 1));
      if !ok {
        return;
      }
      ok := net.Call(); // BlockHash
      if !ok || rewindTo >= |c| {
        return false, 1;
      }
      var rewound := IndexerState(cfg.chainID, rewindTo, c[rewindTo].hash);
      assert plan.effects[..2] == [DeleteFrom(rewindTo + 1)] + [Save(rewound)];
      ApplyAllAppend(cfg, d, [DeleteFrom(rewindTo + 1)], [Save(rewound)]);
      OneEffect(cfg, Durables(), Save(rewound));
      ok, done := net.Write(); // SaveState
      if !done {
        return;
      }
      repo.SaveState(rewound);
      k := 2;
      if ok {
        next := rewindTo + 1;
      }
    }

    /** The loop of poll over one batch of logs. */
    method ProcessLogs(c: Chain, logs: seq<IssuedLog>, hands: seq<HandOver>) returns (ok: bool, ghost k: nat)
      modifies repo, queue, net
      ensures var n := Fetchable(cfg, c, logs);
              var es := LogEffects(cfg, c, logs, hands, n);
              && Stopped(cfg, old(Durables()), es, k, Durables())
              && (ok ==> n == |logs| && k == |es|)
              && (!ok ==> net.calls == 0 || n < |logs| || !Applicable(cfg, old(Durables()), es))
    {
      hide ApplyAll, Applicable, Fetchable, Fetch, CertEffects;
      ghost var d, n := Durables(), Fetchable(cfg, c, logs);
      ok, k := true, 0;
      NotStarted(cfg, d, []);
      var i := 0;
      while i < |logs|
        invariant ok && 0 <= i <= n
        invariant k == |LogEffects(cfg, c, logs, hands, i)|
        invariant Stopped(cfg, d, LogEffects(cfg, c, logs, hands, i), k, Durables())
      {
        ghost var done, before := LogEffects(cfg, c, logs, hands, i), Durables();
        ghost var j: nat;
        ok, j := ProcessLog(c, logs[i], HandAt(hands, i));
        if Fetch(cfg, c, logs[i]).None? {
          LogEffectsPrefix(cfg, c, logs, hands, i, n);
          StoppedEarly(cfg, d, done, LogEffects(cfg, c, logs, hands, n), k, Durables());
          return;
        }
        NextFetchable(cfg, c, logs, i);
        ghost var es := CertEffects(cfg, Fetch(cfg, c, logs[i]).value, HandAt(hands, i));
        StoppedThen(cfg, d, done, before, es, j, Durables());
        k := k + j;
        if !ok {
          LogEffectsPrefix(cfg, c, logs, hands, i + 1, n);
          StoppedEarly(cfg, d, done + es, LogEffects(cfg, c, logs, hands, n), k, Durables());
          return;
        }
        i := i + 1;
      }
    }

    /** The scan part of poll: one batch of blocks, then the checkpoint, whose hash is read last, on chain c'. */
    method Scan(c: Chain, c': Chain, hands: seq<HandOver>) returns (ok: bool, ghost k: nat)
      modifies this`next, repo, queue, net
      ensures var plan := SplitPlan(cfg, c, c', old(next), hands);
              && Stopped(cfg, old(Durables()), plan.effects, k, Durables())
              && (ok ==> plan.completes && k == |plan.effects|)
              && (!ok ==> net.calls == 0 || !plan.completes || !Applicable(cfg, old(Durables()), plan.effects))
              && next == (if ok && old(next) < |c| then BatchEnd(old(next), cfg.batchSize, |c| - 1) + 1 else old(next))
    {
      hide ApplyAll, Applicable, LogEffects, Fetchable, Fetch;
      ghost var d, plan := Durables(), SplitPlan(cfg, c, c', next, hands);
      k := 0;
      NotStarted(cfg, d, plan.effects);
      ok := net.Call(); // HeadBlock
      if !ok || next >= |c| {
        return;
      }
      var to := BatchEnd(next, cfg.batchSize, |c| - 1);
      ok := net.Call(); // IssuedLogs
      if !ok {
        return;
      }
      var logs := IssuedLogs(c, next, to + 1);
      ghost var upserts := LogEffects(cfg, c, logs, hands, Fetchable(cfg, c, logs));
      ok, k := ProcessLogs(c, logs, hands);
      StoppedEarly(cfg, d, upserts, plan.effects, k, Durables());
      if !ok {
        return;
      }
      ok := net.Call(); // BlockHash
      if !ok || to >= |c'| {
        return false, k;
      }
      var state := IndexerState(cfg.chainID, to, c'[to].hash);
      ApplyAllAppend(cfg, d, upserts, [Save(state)]);
      var done: bool;
      ok, done := net.Write(); // SaveState
      if !done {
        return;
      }
      ghost var before := Durables();
      OneEffect(cfg, before, Save(state));
      assert [Save(state)][..1] == [Save(state)];
      repo.SaveState(state);
      StoppedThen(cfg, d, upserts, before, [Save(state)], 1, Durables());
      k := k + 1;
      if ok {
        next := to + 1;
      }
    }

    method Poll(c: Chain, hands: seq<HandOver>) returns (ok: bool, ghost k: nat)
      modifies this`next, repo, queue, net
      ensures PollStops(cfg, c, old(Durables()), old(next), hands, k, ok, Durables(), next)
      ensures !ok ==>
                var plan := PollPlan(cfg, c, old(repo.state), Resume(cfg, old(repo.state), old(next)), hands);
                net.calls == 0 || !plan.completes || !Applicable(cfg, old(Durables()), plan.effects)
    {
      hide ApplyAll, Applicable, LogEffects, Fetchable, Fetch, SplitPlan;
      ghost var d := Durables();
      ghost var plan := PollPlan(cfg, c, repo.state, Resume(cfg, repo.state, next), hands);
      NotStarted(cfg, d, plan.effects);
      ok := InitNext();
      if !ok {
        return false, 0;
      }
      ghost var rec := ReconcilePlan(cfg, c, repo.state);
      ok, k := Reconcile(c);
      StoppedEarly(cfg, d, rec.effects, plan.effects, k, Durables());
      ScanSaves(cfg, c, ScanStart(cfg, c, d.state, Resume(cfg, d.state, old(next))), hands);
      if !ok {
        return;
      }
      ghost var scan, before := ScanPlan(cfg, c, next, hands), Durables();
      ghost var j: nat;
      ok, j := Scan(c, c, hands);
      StoppedThen(cfg, d, rec.effects, before, scan.effects, j, Durables());
      ApplyAllAppend(cfg, d, rec.effects, scan.effects);
      k := k + j;
    }
  }
}
