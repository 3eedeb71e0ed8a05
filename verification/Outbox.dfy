/**
 The webhook outbox: the worker's fast path (insert, enqueue, mark) and any number of sweeps,
 each call a step of its own, interleaved in every way and failing at any point.
 */
module Outbox {
  import opened Domain
  import opened Store
  import Indexer

  const SWEEP_LIMIT := 100

  // ---- One sweep ----

  function MarkAll(outbox: seq<OutboxRow>, ids: set<nat>): seq<OutboxRow> {
    seq(|outbox|, i requires 0 <= i < |outbox| =>
      outbox[i].(enqueued := outbox[i].enqueued || outbox[i].id in ids))
  }

  function EnqueueAll(q: QueueState, entries: seq<OutboxRow>, refused: set<nat>): QueueState {
    if entries == [] then q
    else
      var before := EnqueueAll(q, entries[..|entries| - 1], refused);
      var e := entries[|entries| - 1];
      if e.id in refused then before else Enqueued(before, e.id, e.payload)
  }

  function DoneIds(entries: seq<OutboxRow>, refused: set<nat>, unmarked: set<nat>): set<nat> {
    set e | e in entries && e.id !in refused && e.id !in unmarked :: e.id
  }

  class WebhookSweepHandler {
    const repo: CertificateRepo
    const queue: TaskQueue

    constructor (repo: CertificateRepo, queue: TaskQueue)
      ensures this.repo == repo && this.queue == queue
    {
      this.repo, this.queue := repo, queue;
    }

    /**
     refused: rows whose enqueue fails; unmarked: rows whose mark fails; listed: the list call works.
     No failing row keeps the sweep from the rows behind it.
     */
    method ProcessTask(refused: set<nat>, unmarked: set<nat>, listed: bool) returns (ok: bool)
      modifies repo`outbox, queue
      ensures ok == listed
      ensures var entries := if ok then FirstUnenqueued(old(repo.outbox), SWEEP_LIMIT) else [];
              && repo.outbox == MarkAll(old(repo.outbox), DoneIds(entries, refused, unmarked))
              && queue.state == EnqueueAll(old(queue.state), entries, refused)
      ensures ok ==> repo.outbox == Swept(old(repo.outbox), refused + unmarked)
    {
      hide Pending, FirstUnenqueued, Unenqueued, MarkAll, DoneIds, Marked, EnqueueAll, Enqueued;
      ghost var before, q := repo.outbox, queue.state;
      NothingSwept(before, q, refused, unmarked);
      if !listed {
        return false;
      }
      var entries := repo.ListUnenqueuedWebhookOutbox(SWEEP_LIMIT);
      var i := 0;
      assert entries[..0] == [];
      while i < |entries|
        invariant 0 <= i <= |entries|
        invariant repo.outbox == MarkAll(before, DoneIds(entries[..i], refused, unmarked))
        invariant queue.state == EnqueueAll(q, entries[..i], refused)
      {
        var e := entries[i];
        i := i + 1;
        assert entries[..i] == entries[..i - 1] + [e];
        SweepStep(q, entries[..i - 1], e, refused, unmarked);
        var enqueued := queue.EnqueueUnique(e.id, e.payload, e.id !in refused);
        if enqueued && e.id !in unmarked {
          ghost var o := repo.outbox;
          repo.MarkWebhookOutboxEnqueued(e.id);
          MarkedIs(o, repo.outbox, e.id);
          MarkOneMore(before, DoneIds(entries[..i - 1], refused, unmarked), e.id);
        }
      }
      assert entries[..i] == entries;
      FailingIs(entries, refused, unmarked);
      return true;
    }
  }

  lemma {:induction false} NothingSwept(outbox: seq<OutboxRow>, q: QueueState, refused: set<nat>, unmarked: set<nat>)
    ensures MarkAll(outbox, DoneIds([], refused, unmarked)) == outbox && EnqueueAll(q, [], refused) == q
  {
    assert DoneIds([], refused, unmarked) == {};
  }

  lemma {:induction false} SweepStep(q: QueueState, entries: seq<OutboxRow>, e: OutboxRow, refused: set<nat>,
                                     unmarked: set<nat>)
    ensures var done := DoneIds(entries, refused, unmarked);
            DoneIds(entries + [e], refused, unmarked)
            == if e.id in refused || e.id in unmarked then done else done + {e.id}
    ensures var before := EnqueueAll(q, entries, refused);
            EnqueueAll(q, entries + [e], refused)
            == if e.id in refused then before else Enqueued(before, e.id, e.payload)
  {
    assert (entries + [e])[..|entries|] == entries;
  }

  /** For the table it does not matter which of a row's two calls fails. */
  lemma {:induction false} FailingIs(entries: seq<OutboxRow>, refused: set<nat>, unmarked: set<nat>)
    ensures DoneIds(entries, refused, unmarked) == DoneIds(entries, refused + unmarked, {})
  {
  }

  lemma {:induction false} MarkOneMore(outbox: seq<OutboxRow>, ids: set<nat>, id: nat)
    ensures Marked(MarkAll(outbox, ids), id) == MarkAll(outbox, ids + {id})
  {
  }

  // ---- The sweep drains the outbox, oldest rows first ----

  /** How many of the first n rows await enqueueing and are rows of the set ids. */
  function PendingIn(outbox: seq<OutboxRow>, ids: set<nat>, n: nat): nat
    requires n <= |outbox|
  {
    if n == 0 then 0
    else PendingIn(outbox, ids, n - 1) + if !outbox[n - 1].enqueued && outbox[n - 1].id in ids then 1 else 0
  }

  lemma {:induction false} UnenqueuedOrigin(outbox: seq<OutboxRow>, n: nat, j: nat) returns (i: nat)
    requires n <= |outbox| && j < |Unenqueued(outbox[..n])|
    ensures i < n && !outbox[i].enqueued && Pending(outbox, i) == j && outbox[i] == Unenqueued(outbox[..n])[j]
  {
    assert outbox[..n][..n - 1] == outbox[..n - 1];
    if j < |Unenqueued(outbox[..n - 1])| {
      i := UnenqueuedOrigin(outbox, n - 1, j);
    } else {
      i := n - 1;
      UnenqueuedAt(outbox, n - 1, n - 1);
    }
  }

  /** A row is listed exactly when it is unenqueued and fewer than limit older rows are. */
  lemma {:induction false} ListedIff(outbox: seq<OutboxRow>, lastID: nat, limit: nat, i: nat)
    requires OutboxOk(outbox, lastID) && i < |outbox|
    ensures (exists e :: e in FirstUnenqueued(outbox, limit) && e.id == outbox[i].id)
            <==> !outbox[i].enqueued && Pending(outbox, i) < limit
  {
    hide Unenqueued, Pending;
    var n := |outbox|;
    assert outbox[..n] == outbox;
    UnenqueuedAt(outbox, n, i);
    var listed := FirstUnenqueued(outbox, limit);
    if !outbox[i].enqueued && Pending(outbox, i) < limit {
      assert listed[Pending(outbox, i)] == outbox[i];
    }
    forall e | e in listed && e.id == outbox[i].id
      ensures !outbox[i].enqueued && Pending(outbox, i) < limit
    {
      var j :| 0 <= j < |listed| && listed[j] == e;
      var k := UnenqueuedOrigin(outbox, n, j);
    }
  }

  /** A sweep in which exactly the rows of failing fail, in either of their two calls. */
  function Swept(outbox: seq<OutboxRow>, failing: set<nat>): (swept: seq<OutboxRow>)
    ensures |swept| == |outbox| && Later(outbox, swept)
  {
    MarkAll(outbox, DoneIds(FirstUnenqueued(outbox, SWEEP_LIMIT), failing, {}))
  }

  lemma {:induction false} SweptAt(outbox: seq<OutboxRow>, lastID: nat, failing: set<nat>, i: nat)
    requires OutboxOk(outbox, lastID) && i < |outbox|
    ensures var row := outbox[i];
            Swept(outbox, failing)[i]
            == row.(enqueued := row.enqueued || (Pending(outbox, i) < SWEEP_LIMIT && row.id !in failing))
  {
    ListedIff(outbox, lastID, SWEEP_LIMIT, i);
  }

  function Good(outbox: seq<OutboxRow>, failing: set<nat>, n: nat): int
    requires n <= |outbox|
  {
    Pending(outbox, n) - PendingIn(outbox, failing, n)
  }

  /** A sweep gets through the first hundred pending rows; only failing ones among them stay. */
  lemma {:induction false} SweepProgress(outbox: seq<OutboxRow>, lastID: nat, failing: set<nat>, n: nat)
    requires OutboxOk(outbox, lastID) && n <= |outbox|
    ensures var swept := Swept(outbox, failing);
            && PendingIn(swept, failing, n) == PendingIn(outbox, failing, n)
            && 0 <= Good(swept, failing, n) <= Max(0, Pending(outbox, n) - 100)
  {
    if n > 0 {
      SweepProgress(outbox, lastID, failing, n - 1);
      SweptAt(outbox, lastID, failing, n - 1);
    }
  }

  /** What may happen between two sweeps: new rows are appended and pending rows get marked. */
  ghost predicate Later(o: seq<OutboxRow>, o': seq<OutboxRow>) {
    && |o| <= |o'|
    && forall i :: 0 <= i < |o| ==>
         && o'[i].id == o[i].id && o'[i].key == o[i].key && o'[i].payload == o[i].payload
         && (o[i].enqueued ==> o'[i].enqueued)
  }

  lemma {:induction false} LaterTransitive(o: seq<OutboxRow>, o': seq<OutboxRow>, o'': seq<OutboxRow>)
    requires Later(o, o') && Later(o', o'')
    ensures Later(o, o'')
  {
  }

  lemma {:induction false} LaterCounts(o: seq<OutboxRow>, o': seq<OutboxRow>, failing: set<nat>, n: nat)
    requires Later(o, o') && n <= |o|
    ensures 0 <= Good(o', failing, n) <= Good(o, failing, n)
    ensures PendingIn(o', failing, n) <= PendingIn(o, failing, n)
  {
    if n > 0 {
      LaterCounts(o, o', failing, n - 1);
    }
  }

  /** The table at the start of each of a series of sweeps. */
  ghost predicate Sweeps(os: seq<seq<OutboxRow>>, lastID: nat, failing: set<nat>) {
    && os != []
    && (forall k :: 0 <= k < |os| ==> OutboxOk(os[k], lastID))
    && forall k :: 0 < k < |os| ==> Later(Swept(os[k - 1], failing), os[k])
  }

  lemma {:induction false} GoodSplit(o: seq<OutboxRow>, failing: set<nat>, n: nat)
    requires n <= |o|
    ensures Pending(o, n) == Good(o, failing, n) + PendingIn(o, failing, n)
  {
  }

  lemma {:induction false} SweepsProgress(os: seq<seq<OutboxRow>>, lastID: nat, failing: set<nat>, t: nat)
    requires Sweeps(os, lastID, failing) && t < |os[0]| && PendingIn(os[0], failing, t) < SWEEP_LIMIT
    ensures var k, f := |os| - 1, PendingIn(os[0], failing, t);
            && t < |os[k]| && os[k][t].id == os[0][t].id
            && PendingIn(os[k], failing, t) <= f
            && 0 <= Good(os[k], failing, t) <= Max(0, Good(os[0], failing, t) - k * (SWEEP_LIMIT - f))
  {
    hide Swept, Good, PendingIn, Pending, OutboxOk;
    var k, f := |os| - 1, PendingIn(os[0], failing, t);
    if k > 0 {
      SweepsProgress(os[..k], lastID, failing, t);
      var o := os[k - 1];
      GoodSplit(o, failing, t);
      assert os[..k][k - 1] == o;
      SweepProgress(o, lastID, failing, t);
      assert Later(Swept(o, failing), os[k]);
      LaterCounts(Swept(o, failing), os[k], failing, t);
      assert k * (SWEEP_LIMIT - f) == (k - 1) * (SWEEP_LIMIT - f) + (SWEEP_LIMIT - f);
    } else {
      LaterCounts(os[0], os[0], failing, t);
    }
  }

  /**
   If fewer than 100 older pending rows always fail, a row that does not fail is marked within
   ceil((r+1) / (100-f)) sweeps, where r older pending rows do not fail and f do, however many
   newer rows arrive meanwhile.
   */
  lemma {:induction false} SweepDrains(os: seq<seq<OutboxRow>>, lastID: nat, failing: set<nat>, t: nat)
    requires Sweeps(os, lastID, failing) && t < |os[0]| && os[0][t].id !in failing && |os| >= 2
    requires var r, f := Good(os[0], failing, t), PendingIn(os[0], failing, t);
             f < 100 && (|os| - 1) * (100 - f) >= r + 1
    ensures t < |os[|os| - 1]| && os[|os| - 1][t].enqueued
  {
    hide Swept, Good, PendingIn, Pending, OutboxOk;
    var k := |os| - 1;
    SweepsProgress(os[..k], lastID, failing, t);
    var o, f := os[k - 1], PendingIn(os[0], failing, t);
    assert os[..k][k - 1] == o;
    assert k * (SWEEP_LIMIT - f) == (k - 1) * (SWEEP_LIMIT - f) + (SWEEP_LIMIT - f);
    GoodSplit(o, failing, t);
    SweptAt(o, lastID, failing, t);
    assert Later(Swept(o, failing), os[k]);
  }

  /** The bound is exact in f: behind 100 older rows that always fail, no sweep ever reaches a row. */
  lemma {:induction false} SweepStarves(os: seq<seq<OutboxRow>>, lastID: nat, failing: set<nat>, t: nat)
    requires Sweeps(os, lastID, failing) && t < |os[0]| && !os[0][t].enqueued
    requires PendingIn(os[0], failing, t) >= 100
    // between sweeps, nothing else marks this row or the failing ones before it
    requires forall k, i ::
               (0 < k < |os| && 0 <= i <= t < |os[k - 1]| && i < |os[k]| && (i == t || os[0][i].id in failing)) ==>
               os[k][i].enqueued == Swept(os[k - 1], failing)[i].enqueued
    ensures var k := |os| - 1;
            t < |os[k]| && !os[k][t].enqueued && PendingIn(os[k], failing, t) >= 100
            && Later(os[0], os[k])
  {
    hide Swept, PendingIn, Pending, OutboxOk;
    var k := |os| - 1;
    if k > 0 {
      var o := os[k - 1];
      forall j, i | 0 < j < |os[..k]| && 0 <= i <= t < |os[..k][j - 1]| && i < |os[..k][j]|
          && (i == t || os[0][i].id in failing)
        ensures os[..k][j][i].enqueued == Swept(os[..k][j - 1], failing)[i].enqueued
      {
        assert os[..k][j] == os[j] && os[..k][j - 1] == os[j - 1];
      }
      SweepStarves(os[..k], lastID, failing, t);
      assert os[..k][k - 1] == o && os[..k][0] == os[0];
      LaterTransitive(os[0], o, Swept(o, failing));
      LaterTransitive(os[0], Swept(o, failing), os[k]);
      assert Later(Swept(o, failing), os[k]);
      SweepProgress(o, lastID, failing, t);
      PendingSplit(o, failing, t);
      SweptAt(o, lastID, failing, t);
      SameFailing(Swept(o, failing), os[k], failing, t);
    }
  }

  lemma {:induction false} PendingSplit(o: seq<OutboxRow>, ids: set<nat>, n: nat)
    requires n <= |o|
    ensures PendingIn(o, ids, n) <= Pending(o, n)
  {
    if n > 0 {
      PendingSplit(o, ids, n - 1);
    }
  }

  lemma {:induction false} SameFailing(o: seq<OutboxRow>, o': seq<OutboxRow>, failing: set<nat>, n: nat)
    requires n <= |o| && n <= |o'|
    requires forall i :: 0 <= i < n ==> o'[i].id == o[i].id && (o[i].id in failing ==> o'[i].enqueued == o[i].enqueued)
    ensures PendingIn(o', failing, n) == PendingIn(o, failing, n)
  {
    if n > 0 {
      SameFailing(o, o', failing, n - 1);
    }
  }

  // ---- All interleavings of the worker with any number of sweeps ----

  /** Where the worker is between the calls of enqueueWebhook. */
  datatype WorkerPc = Idle | Inserted(id: nat, payload: WebhookEvent) | HandedOver(handed: nat)

  /** A sweep: the entries still to do, and whether the first of them has just been accepted. */
  datatype SweepPc = SweepPc(todo: seq<OutboxRow>, accepted: bool)

  /** fast: the ids for which the worker's fast path called EnqueueUnique. */
  datatype System = System(
    outbox: seq<OutboxRow>,
    lastID: nat,
    queue: QueueState,
    worker: WorkerPc,
    sweeps: map<nat, SweepPc>,
    fast: seq<nat>)

  const INITIAL := System([], 0, QueueState(map[], {}, {}), Idle, map[], [])

  /** Nil: newly stored, or absorbed as a duplicate; StoredButError: the answer was lost. */
  datatype Reply = Nil | Error | StoredButError

  datatype Call =
    | Insert(cert: Certificate)
    | WorkerEnqueue(reply: Reply)
    | WorkerMark(committed: bool)
    | WorkerCrash
    | SweepList(sweep: nat)
    | SweepEnqueue(sweep: nat, reply: Reply)
    | SweepMark(sweep: nat, committed: bool)
    | SweepEnd(sweep: nat)
    | Finish(tasks: set<nat>, locks: set<WebhookEvent>)

  function Answered(q: QueueState, id: nat, payload: WebhookEvent, reply: Reply): QueueState {
    if reply == Error then q else Enqueued(q, id, payload)
  }

  /** One call; a call that its caller is not about to make changes nothing. */
  function Next(s: System, call: Call): System {
    match call
    case Insert(c) =>
      if s.worker != Idle then s
      else
        var id := s.lastID + 1;
        if Recorded(s.outbox, c.OutboxKey()) then s.(lastID := id)
        else s.(lastID := id,
                outbox := s.outbox + [OutboxRow(id, c.OutboxKey(), NewWebhookEvent(c), false)],
                worker := Inserted(id, NewWebhookEvent(c)))
    case WorkerEnqueue(reply) =>
      if !s.worker.Inserted? then s
      else s.(queue := Answered(s.queue, s.worker.id, s.worker.payload, reply),
              fast := s.fast + [s.worker.id],
              worker := if reply == Nil then HandedOver(s.worker.id) else Idle)
    case WorkerMark(committed) =>
      if !s.worker.HandedOver? then s
      else s.(outbox := if committed then Marked(s.outbox, s.worker.handed) else s.outbox, worker := Idle)
    case WorkerCrash => s.(worker := Idle)
    case SweepList(k) =>
      if k in s.sweeps then s
      else s.(sweeps := s.sweeps[k := SweepPc(FirstUnenqueued(s.outbox, SWEEP_LIMIT), false)])
    case SweepEnqueue(k, reply) =>
      if k !in s.sweeps || s.sweeps[k].todo == [] || s.sweeps[k].accepted then s
      else
        var todo := s.sweeps[k].todo;
        s.(queue := Answered(s.queue, todo[0].id, todo[0].payload, reply),
           sweeps := s.sweeps[k := if reply == Nil then SweepPc(todo, true) else SweepPc(todo[1..], false)])
    case SweepMark(k, committed) =>
      if k !in s.sweeps || s.sweeps[k].todo == [] || !s.sweeps[k].accepted then s
      else
        var todo := s.sweeps[k].todo;
        s.(outbox := if committed then Marked(s.outbox, todo[0].id) else s.outbox,
           sweeps := s.sweeps[k := SweepPc(todo[1..], false)])
    case SweepEnd(k) => s.(sweeps := s.sweeps - {k})
    case Finish(tasks, locks) =>
      s.(queue := s.queue.(tasks := s.queue.tasks - tasks, locks := s.queue.locks - locks))
  }

  function Exec(s: System, calls: seq<Call>): System {
    if calls == [] then s else Next(Exec(s, calls[..|calls| - 1]), calls[|calls| - 1])
  }

  // ---- Invariant ----

  ghost predicate IsEntry(outbox: seq<OutboxRow>, id: nat, payload: WebhookEvent) {
    exists i :: 0 <= i < |outbox| && outbox[i].id == id && outbox[i].payload == payload
  }

  ghost predicate QueueOk(q: QueueState, outbox: seq<OutboxRow>) {
    && q.tasks.Keys <= q.accepted
    && forall p :: p in q.locks ==>
         exists i :: 0 <= i < |outbox| && outbox[i].payload == p && outbox[i].id in q.accepted
  }

  ghost predicate MarksOk(outbox: seq<OutboxRow>, q: QueueState) {
    forall i :: 0 <= i < |outbox| && outbox[i].enqueued ==> outbox[i].id in q.accepted
  }

  ghost predicate WorkerOk(s: System) {
    && (s.worker.Inserted? ==> IsEntry(s.outbox, s.worker.id, s.worker.payload) && s.worker.id !in s.fast)
    && (s.worker.HandedOver? ==> s.worker.handed in s.queue.accepted)
  }

  ghost predicate SweepOk(pc: SweepPc, outbox: seq<OutboxRow>, q: QueueState) {
    && (forall e :: e in pc.todo ==> IsEntry(outbox, e.id, e.payload))
    && (pc.accepted && pc.todo != [] ==> pc.todo[0].id in q.accepted)
  }

  ghost predicate FastOk(s: System) {
    && (forall i :: 0 <= i < |s.fast| ==> s.fast[i] <= s.lastID)
    && (forall i, j :: 0 <= i < j < |s.fast| ==> s.fast[i] != s.fast[j])
  }

  ghost predicate Inv(s: System) {
    && OutboxOk(s.outbox, s.lastID) && QueueOk(s.queue, s.outbox) && MarksOk(s.outbox, s.queue)
    && WorkerOk(s) && FastOk(s)
    && forall k :: k in s.sweeps ==> SweepOk(s.sweeps[k], s.outbox, s.queue)
  }

  /**
   A nil answer means that this row's own task is, or has been, in the queue: its payload names the
   event, so a lock on an equal payload can only have been taken for the same row.
   */
  lemma {:induction false} NilMeansAccepted(q: QueueState, outbox: seq<OutboxRow>, lastID: nat, id: nat,
                                            payload: WebhookEvent)
    requires OutboxOk(outbox, lastID) && QueueOk(q, outbox) && IsEntry(outbox, id, payload)
    ensures id in Enqueued(q, id, payload).accepted
    ensures q.accepted <= Enqueued(q, id, payload).accepted
    ensures QueueOk(Enqueued(q, id, payload), outbox)
  {
  }

  lemma {:induction false} LaterKeeps(o: seq<OutboxRow>, o': seq<OutboxRow>, q: QueueState, q': QueueState)
    requires Later(o, o') && q.accepted <= q'.accepted && q'.locks <= q.locks && q'.tasks.Keys <= q.tasks.Keys
    ensures QueueOk(q, o) ==> QueueOk(q', o')
    ensures forall id, p :: IsEntry(o, id, p) ==> IsEntry(o', id, p)
    ensures forall pc :: SweepOk(pc, o, q) ==> SweepOk(pc, o', q')
  {
  }

  lemma {:induction false} MarkedKeeps(o: seq<OutboxRow>, lastID: nat, q: QueueState, id: nat)
    requires OutboxOk(o, lastID) && MarksOk(o, q) && id in q.accepted
    ensures Later(o, Marked(o, id)) && OutboxOk(Marked(o, id), lastID) && MarksOk(Marked(o, id), q)
  {
  }

  lemma {:induction false} SweepsKeep(s: System, s': System, touched: nat)
    requires Inv(s) && Later(s.outbox, s'.outbox) && s.queue.accepted <= s'.queue.accepted
    requires forall k :: k in s'.sweeps && k != touched ==> k in s.sweeps && s'.sweeps[k] == s.sweeps[k]
    requires touched in s'.sweeps ==> SweepOk(s'.sweeps[touched], s'.outbox, s'.queue)
    ensures forall k :: k in s'.sweeps ==> SweepOk(s'.sweeps[k], s'.outbox, s'.queue)
  {
  }

  lemma {:induction false} InsertKeeps(s: System, c: Certificate)
    requires Inv(s)
    ensures Inv(Next(s, Insert(c))) && Later(s.outbox, Next(s, Insert(c)).outbox)
  {
    var s' := Next(s, Insert(c));
    if s.worker == Idle && !Recorded(s.outbox, c.OutboxKey()) {
      NewRowKeeps(s.outbox, s.lastID, s.queue, s'.outbox[|s.outbox|]);
      hide OutboxOk, QueueOk, MarksOk, IsEntry;
    }
    SweepsKeep(s, s', 0);
  }

  lemma {:induction false} NewRowKeeps(outbox: seq<OutboxRow>, lastID: nat, q: QueueState, row: OutboxRow)
    requires OutboxOk(outbox, lastID) && QueueOk(q, outbox) && MarksOk(outbox, q)
    requires row.id == lastID + 1 && row.payload.OutboxKey() == row.key && !row.enqueued && !Recorded(outbox, row.key)
    ensures var outbox' := outbox + [row];
            && OutboxOk(outbox', lastID + 1) && QueueOk(q, outbox') && MarksOk(outbox', q)
            && Later(outbox, outbox') && IsEntry(outbox', row.id, row.payload)
  {
    LaterKeeps(outbox, outbox + [row], q, q);
    assert (outbox + [row])[|outbox|] == row;
  }

  lemma {:induction false} WorkerCallKeeps(s: System, call: Call)
    requires Inv(s) && (call.WorkerEnqueue? || call.WorkerMark? || call.WorkerCrash?)
    ensures Inv(Next(s, call)) && Later(s.outbox, Next(s, call).outbox)
            && s.queue.accepted <= Next(s, call).queue.accepted
  {
    hide Enqueued, Marked;
    var s' := Next(s, call);
    if call.WorkerEnqueue? && s.worker.Inserted? {
      NilMeansAccepted(s.queue, s.outbox, s.lastID, s.worker.id, s.worker.payload);
      EntryBound(s.outbox, s.lastID, s.worker.id, s.worker.payload);
    } else if call.WorkerMark? && s.worker.HandedOver? {
      MarkedKeeps(s.outbox, s.lastID, s.queue, s.worker.handed);
      LaterKeeps(s.outbox, s'.outbox, s.queue, s'.queue);
    }
    SweepsKeep(s, s', 0);
  }

  lemma {:induction false} EntryBound(outbox: seq<OutboxRow>, lastID: nat, id: nat, payload: WebhookEvent)
    requires OutboxOk(outbox, lastID) && IsEntry(outbox, id, payload)
    ensures id <= lastID
  {
  }

  lemma {:induction false} SweepCallKeeps(s: System, call: Call)
    requires Inv(s) && (call.SweepEnqueue? || call.SweepMark?)
    ensures Inv(Next(s, call)) && Later(s.outbox, Next(s, call).outbox)
            && s.queue.accepted <= Next(s, call).queue.accepted
  {
    hide Enqueued, Marked, OutboxOk, QueueOk;
    var s' := Next(s, call);
    if call.sweep in s.sweeps && s.sweeps[call.sweep].todo != [] {
      var e := s.sweeps[call.sweep].todo[0];
      if call.SweepEnqueue? && !s.sweeps[call.sweep].accepted {
        NilMeansAccepted(s.queue, s.outbox, s.lastID, e.id, e.payload);
      } else if call.SweepMark? && s.sweeps[call.sweep].accepted {
        MarkedKeeps(s.outbox, s.lastID, s.queue, e.id);
      }
    }
    LaterKeeps(s.outbox, s'.outbox, s.queue, s.queue.(accepted := s'.queue.accepted));
    SweepsKeep(s, s', call.sweep);
  }

  lemma {:induction false} ListingKeeps(s: System, k: nat)
    requires Inv(s)
    ensures Inv(Next(s, SweepList(k))) && Next(s, SweepList(k)).outbox == s.outbox
  {
    var s' := Next(s, SweepList(k));
    if k !in s.sweeps {
      var n := |s.outbox|;
      assert s.outbox[..n] == s.outbox;
      forall e | e in s'.sweeps[k].todo
        ensures IsEntry(s.outbox, e.id, e.payload)
      {
        var j :| 0 <= j < |s'.sweeps[k].todo| && s'.sweeps[k].todo[j] == e;
        var i := UnenqueuedOrigin(s.outbox, n, j);
      }
    }
  }

  /** Every call keeps the invariant, removes no row, undoes no mark and forgets no accepted task. */
  lemma {:induction false} NextKeeps(s: System, call: Call)
    requires Inv(s)
    ensures Inv(Next(s, call))
    ensures Later(s.outbox, Next(s, call).outbox) && s.queue.accepted <= Next(s, call).queue.accepted
  {
    if call.Insert? {
      InsertKeeps(s, call.cert);
    } else if call.WorkerEnqueue? || call.WorkerMark? || call.WorkerCrash? {
      WorkerCallKeeps(s, call);
    } else if call.SweepList? {
      ListingKeeps(s, call.sweep);
    } else if call.SweepEnqueue? || call.SweepMark? {
      SweepCallKeeps(s, call);
    } else {
      var s' := Next(s, call);
      LaterKeeps(s.outbox, s'.outbox, s.queue, s'.queue);
    }
  }

  lemma {:induction false} ExecKeeps(calls: seq<Call>)
    ensures Inv(Exec(INITIAL, calls))
  {
    if calls != [] {
      ExecKeeps(calls[..|calls| - 1]);
      NextKeeps(Exec(INITIAL, calls[..|calls| - 1]), calls[|calls| - 1]);
    }
  }

  /** Every stored task has the id and the payload of an outbox row. */
  ghost predicate TasksOk(s: System) {
    forall id :: id in s.queue.tasks ==> IsEntry(s.outbox, id, s.queue.tasks[id])
  }

  /** Only enqueueing a row and Finish touch the queue. */
  lemma {:induction false} QueueChange(s: System, call: Call) returns (id: nat, payload: WebhookEvent, reply: Reply)
    requires Inv(s)
    ensures var q := Next(s, call).queue;
            || q == s.queue
            || (IsEntry(s.outbox, id, payload) && q == Answered(s.queue, id, payload, reply))
            || (call.Finish? && q == s.queue.(tasks := s.queue.tasks - call.tasks, locks := s.queue.locks - call.locks))
  {
    hide OutboxOk, QueueOk, MarksOk, FastOk, Marked, Recorded, FirstUnenqueued, Answered;
    if call.WorkerEnqueue? && s.worker.Inserted? {
      id, payload, reply := s.worker.id, s.worker.payload, call.reply;
    } else if call.SweepEnqueue? && call.sweep in s.sweeps && s.sweeps[call.sweep].todo != [] {
      var e := s.sweeps[call.sweep].todo[0];
      assert SweepOk(s.sweeps[call.sweep], s.outbox, s.queue);
      id, payload, reply := e.id, e.payload, call.reply;
    } else {
      id, payload, reply := *, *, Error;
    }
  }

  /** One call stores at most what its caller hands over, and only Finish takes a task away. */
  lemma {:induction false} TasksAfter(s: System, call: Call)
    requires Inv(s) && TasksOk(s)
    ensures TasksOk(Next(s, call))
    ensures forall id :: id in s.queue.tasks && !(call.Finish? && id in call.tasks) ==>
                           id in Next(s, call).queue.tasks && Next(s, call).queue.tasks[id] == s.queue.tasks[id]
    ensures forall id :: id in Next(s, call).queue.accepted && id !in s.queue.accepted ==>
            id in Next(s, call).queue.tasks
  {
    hide Inv, Next, IsEntry, Later;
    var s' := Next(s, call);
    var i, payload, reply := QueueChange(s, call);
    NextKeeps(s, call);
    forall id | id in s'.queue.tasks
      ensures IsEntry(s'.outbox, id, s'.queue.tasks[id])
    {
      EntryLater(s.outbox, s'.outbox, id, s'.queue.tasks[id]);
    }
  }

  lemma {:induction false} EntryLater(o: seq<OutboxRow>, o': seq<OutboxRow>, id: nat, payload: WebhookEvent)
    requires Later(o, o') && IsEntry(o, id, payload)
    ensures IsEntry(o', id, payload)
  {
    var i :| 0 <= i < |o| && o[i].id == id && o[i].payload == payload;
    assert o'[i].id == id && o'[i].payload == payload;
  }

  /** The queue holds this task, or it held it when it said that the task was done with. */
  ghost predicate HeldOrFinished(calls: seq<Call>, id: nat, payload: WebhookEvent) {
    || Holds(Exec(INITIAL, calls), id, payload)
    || exists j :: 0 <= j < |calls| && FinishedAt(calls, j, id, payload)
  }

  predicate Holds(s: System, id: nat, payload: WebhookEvent) {
    id in s.queue.tasks && s.queue.tasks[id] == payload
  }

  predicate FinishedAt(calls: seq<Call>, j: nat, id: nat, payload: WebhookEvent)
    requires j < |calls|
  {
    calls[j].Finish? && id in calls[j].tasks && Holds(Exec(INITIAL, calls[..j]), id, payload)
  }

  /**
   Acceptance is no mere word: each accepted id is, or was until it was finished, a stored task with its
   row's payload.
   */
  lemma {:induction false} AcceptedIsHeld(calls: seq<Call>)
    ensures var s := Exec(INITIAL, calls);
            && TasksOk(s)
            && forall i :: 0 <= i < |s.outbox| && s.outbox[i].id in s.queue.accepted ==>
                 HeldOrFinished(calls, s.outbox[i].id, s.outbox[i].payload)
  {
    ExecKeeps(calls);
    var s' := Exec(INITIAL, calls);
    if calls != [] {
      hide Inv, TasksOk, Next, HeldOrFinished;
      var n := |calls| - 1;
      var s := Exec(INITIAL, calls[..n]);
      AcceptedIsHeld(calls[..n]);
      ExecKeeps(calls[..n]);
      TasksAfter(s, calls[n]);
      forall i | 0 <= i < |s'.outbox| && s'.outbox[i].id in s'.queue.accepted
        ensures HeldOrFinished(calls, s'.outbox[i].id, s'.outbox[i].payload)
      {
        AcceptedRow(calls, i);
      }
    }
  }

  lemma {:induction false} AcceptedRow(calls: seq<Call>, i: nat)
    requires calls != [] && i < |Exec(INITIAL, calls).outbox|
    requires var s := Exec(INITIAL, calls[..|calls| - 1]);
             && Inv(s) && TasksOk(s) && Inv(Exec(INITIAL, calls)) && TasksOk(Exec(INITIAL, calls))
             && forall j :: 0 <= j < |s.outbox| && s.outbox[j].id in s.queue.accepted ==>
                  HeldOrFinished(calls[..|calls| - 1], s.outbox[j].id, s.outbox[j].payload)
    requires var s' := Exec(INITIAL, calls); s'.outbox[i].id in s'.queue.accepted
    ensures var s' := Exec(INITIAL, calls); HeldOrFinished(calls, s'.outbox[i].id, s'.outbox[i].payload)
  {
    hide Inv, TasksOk, Next, HeldOrFinished, Exec;
    var n := |calls| - 1;
    var s, s' := Exec(INITIAL, calls[..n]), Exec(INITIAL, calls);
    var row := s'.outbox[i];
    assert s' == Next(s, calls[n]) by { ExecLast(calls); }
    TasksAfter(s, calls[n]);
    NextKeeps(s, calls[n]);
    if row.id in s.queue.accepted {
      var j := AcceptedEntry(calls[..n], row.id);
      SameRowLater(s, s', j, i);
      StillHeld(calls, row.id, row.payload);
    } else {
      TaskOfRow(s', i);
      NowHeld(calls, row.id, row.payload);
    }
  }

  /** Only ids of rows are ever accepted. */
  lemma {:induction false} AcceptedEntry(calls: seq<Call>, id: nat) returns (j: nat)
    requires id in Exec(INITIAL, calls).queue.accepted
    ensures j < |Exec(INITIAL, calls).outbox| && Exec(INITIAL, calls).outbox[j].id == id
  {
    hide Inv, Next;
    var n := |calls| - 1;
    var s := Exec(INITIAL, calls[..n]);
    ExecKeeps(calls[..n]);
    NextKeeps(s, calls[n]);
    if id in s.queue.accepted {
      j := AcceptedEntry(calls[..n], id);
    } else {
      j := NewlyAccepted(s, calls[n], id);
    }
  }

  lemma {:induction false} NewlyAccepted(s: System, call: Call, id: nat) returns (j: nat)
    requires Inv(s) && id in Next(s, call).queue.accepted && id !in s.queue.accepted
    ensures j < |s.outbox| && s.outbox[j].id == id
  {
    hide OutboxOk, QueueOk, MarksOk, FastOk, Marked, Recorded, FirstUnenqueued;
    assert call.SweepEnqueue? && call.sweep in s.sweeps ==> SweepOk(s.sweeps[call.sweep], s.outbox, s.queue);
    var payload := if call.WorkerEnqueue? then s.worker.payload else s.sweeps[call.sweep].todo[0].payload;
    assert IsEntry(s.outbox, id, payload);
    j :| j < |s.outbox| && s.outbox[j].id == id && s.outbox[j].payload == payload;
  }

  lemma {:induction false} ExecLast(calls: seq<Call>)
    requires calls != []
    ensures Exec(INITIAL, calls) == Next(Exec(INITIAL, calls[..|calls| - 1]), calls[|calls| - 1])
  {
  }

  lemma {:induction false} SameRowLater(s: System, s': System, j: nat, i: nat)
    requires Inv(s') && Later(s.outbox, s'.outbox) && j < |s.outbox| && i < |s'.outbox| && s.outbox[j].id
             == s'.outbox[i].id
    ensures i == j && s'.outbox[i].payload == s.outbox[j].payload
  {
  }

  /** A stored task has the payload of its row. */
  lemma {:induction false} TaskOfRow(s: System, i: nat)
    requires Inv(s) && TasksOk(s) && i < |s.outbox| && s.outbox[i].id in s.queue.tasks
    ensures Holds(s, s.outbox[i].id, s.outbox[i].payload)
  {
    var id := s.outbox[i].id;
    var j :| 0 <= j < |s.outbox| && s.outbox[j].id == id && s.outbox[j].payload == s.queue.tasks[id];
    assert i == j;
  }

  lemma {:induction false} NowHeld(calls: seq<Call>, id: nat, payload: WebhookEvent)
    requires Holds(Exec(INITIAL, calls), id, payload)
    ensures HeldOrFinished(calls, id, payload)
  {
  }

  lemma {:induction false} StillHeld(calls: seq<Call>, id: nat, payload: WebhookEvent)
    requires calls != [] && HeldOrFinished(calls[..|calls| - 1], id, payload)
    requires var s, call := Exec(INITIAL, calls[..|calls| - 1]), calls[|calls| - 1];
             id in s.queue.tasks && !(call.Finish? && id in call.tasks) ==>
               id in Exec(INITIAL, calls).queue.tasks && Exec(INITIAL, calls).queue.tasks[id] == s.queue.tasks[id]
    ensures HeldOrFinished(calls, id, payload)
  {
    hide Exec;
    var n := |calls| - 1;
    if Holds(Exec(INITIAL, calls[..n]), id, payload) {
      if calls[n].Finish? && id in calls[n].tasks {
        assert FinishedAt(calls, n, id, payload);
      }
    } else {
      var j :| 0 <= j < n && FinishedAt(calls[..n], j, id, payload);
      assert calls[..n][..j] == calls[..j];
      assert FinishedAt(calls, j, id, payload);
    }
  }

  lemma {:induction false} ListedOrAccepted(s: System, i: nat)
    requires Inv(s) && i < |s.outbox|
    ensures s.outbox[i] in Unenqueued(s.outbox) || s.outbox[i].id in s.queue.accepted
  {
    assert s.outbox[..|s.outbox|] == s.outbox;
    UnenqueuedAt(s.outbox, |s.outbox|, i);
  }

  /**
   No webhook is lost: after any interleaving of calls, failed or not, each recorded event is either still
   listed for the next sweeps, or the queue holds a task with its id and payload, or held it until it was
   done with.
   */
  lemma {:induction false} NoWebhookLost(calls: seq<Call>, i: nat)
    requires i < |Exec(INITIAL, calls).outbox|
    ensures var row := Exec(INITIAL, calls).outbox[i];
            row in Unenqueued(Exec(INITIAL, calls).outbox) || HeldOrFinished(calls, row.id, row.payload)
  {
    hide Inv, Exec, HeldOrFinished;
    ExecKeeps(calls);
    ListedOrAccepted(Exec(INITIAL, calls), i);
    AcceptedIsHeld(calls);
  }

  /** What is recorded stays recorded, in place, and a mark stays; accepted tasks stay accepted. */
  lemma {:induction false} NothingForgotten(calls: seq<Call>, more: seq<Call>)
    ensures Later(Exec(INITIAL, calls).outbox, Exec(INITIAL, calls + more).outbox)
    ensures Exec(INITIAL, calls).queue.accepted <= Exec(INITIAL, calls + more).queue.accepted
  {
    if more == [] {
      assert calls + more == calls;
    } else {
      var n := |more| - 1;
      assert (calls + more)[..|calls + more| - 1] == calls + more[..n];
      NothingForgotten(calls, more[..n]);
      ExecKeeps(calls + more[..n]);
      NextKeeps(Exec(INITIAL, calls + more[..n]), more[n]);
    }
  }

  /**
   At most one outbox row per (chain, transaction, token), hence one task id, and the fast path
   enqueues it at most once, however often the event is replayed or re-mined.
   */
  lemma {:induction false} OneRowOneFastEnqueue(calls: seq<Call>)
    ensures var s := Exec(INITIAL, calls);
            && (forall i, j :: 0 <= i < j < |s.outbox| ==>
                                 s.outbox[i].key != s.outbox[j].key && s.outbox[i].id != s.outbox[j].id)
            && (forall i, j :: 0 <= i < j < |s.fast| ==> s.fast[i] != s.fast[j])
  {
    ExecKeeps(calls);
  }

  /** What the polling worker does for one certificate is one schedule of these calls. */
  lemma {:induction false} FastPathIsCalls(d: Indexer.Durable, c: Certificate, hand: Indexer.HandOver,
                                           sweeps: map<nat, SweepPc>, fast: seq<nat>)
    ensures var reply := if hand == Indexer.Refused then Error else Nil;
            var s := System(d.outbox, d.lastID, d.queue, Idle, sweeps, fast);
            var s' := Next(Next(Next(s, Insert(c)), WorkerEnqueue(reply)), WorkerMark(hand == Indexer.Handed));
            var d' := Indexer.Recording(d, c, hand);
            s'.outbox == d'.outbox && s'.lastID == d'.lastID && s'.queue == d'.queue && s'.worker == Idle
  {
  }

  // ---- The handler's sweep is one schedule of these calls ----

  function EntryCalls(k: nat, e: OutboxRow, refused: set<nat>, unmarked: set<nat>): seq<Call> {
    if e.id in refused then [SweepEnqueue(k, Error)] else [SweepEnqueue(k, Nil), SweepMark(k, e.id !in unmarked)]
  }

  function SweepCalls(k: nat, entries: seq<OutboxRow>, refused: set<nat>, unmarked: set<nat>): seq<Call> {
    if entries == [] then []
    else
      var n := |entries| - 1;
      SweepCalls(k, entries[..n], refused, unmarked) + EntryCalls(k, entries[n], refused, unmarked)
  }

  lemma {:induction false} ExecTwo(s: System, calls: seq<Call>, more: seq<Call>)
    requires 1 <= |more| <= 2
    ensures Exec(s, calls + more)
            == if |more| == 1 then Next(Exec(s, calls), more[0]) else Next(Next(Exec(s, calls), more[0]), more[1])
  {
    hide Next;
    assert (calls + more)[..|calls + more| - 1] == calls + more[..|more| - 1];
    if |more| == 1 {
      assert calls + more[..0] == calls;
    } else {
      assert (calls + more[..1])[..|calls|] == calls;
    }
  }

  /** A sweep that has come to entries todo, and has left this outbox and this queue. */
  predicate SweepStands(s: System, k: nat, outbox: seq<OutboxRow>, queue: QueueState, todo: seq<OutboxRow>) {
    s.outbox == outbox && s.queue == queue && k in s.sweeps && s.sweeps[k] == SweepPc(todo, false)
  }

  lemma {:induction false} EntryIsCalls(s: System, k: nat, todo: seq<OutboxRow>, calls: seq<Call>,
                                        refused: set<nat>, unmarked: set<nat>)
    requires todo != [] && calls == EntryCalls(k, todo[0], refused, unmarked)
    requires k in s.sweeps && s.sweeps[k] == SweepPc(todo, false)
    ensures var e := todo[0];
            var queue := if e.id in refused then s.queue else Enqueued(s.queue, e.id, e.payload);
            var outbox := if e.id in refused || e.id in unmarked then s.outbox else Marked(s.outbox, e.id);
            var s' := if |calls| == 1 then Next(s, calls[0]) else Next(Next(s, calls[0]), calls[1]);
            SweepStands(s', k, outbox, queue, todo[1..])
  {
    hide Marked, Enqueued, FirstUnenqueued, Recorded;
  }

  /** Undisturbed, the calls of a sweep leave the outbox and the queue that ProcessTask promises. */
  lemma {:induction false} SweepIsCalls(s: System, k: nat, refused: set<nat>, unmarked: set<nat>, n: nat)
    requires k !in s.sweeps && n <= |FirstUnenqueued(s.outbox, SWEEP_LIMIT)|
    ensures var entries := FirstUnenqueued(s.outbox, SWEEP_LIMIT);
            SweepStands(Exec(Next(s, SweepList(k)), SweepCalls(k, entries[..n], refused, unmarked)), k,
                        MarkAll(s.outbox, DoneIds(entries[..n], refused, unmarked)),
                        EnqueueAll(s.queue, entries[..n], refused), entries[n..])
  {
    var entries := FirstUnenqueued(s.outbox, SWEEP_LIMIT);
    hide *;
    EntriesAt(entries, n);
    if n == 0 {
      NothingSwept(s.outbox, s.queue, refused, unmarked);
      SweepListed(s, k, refused, unmarked);
    } else {
      SweepIsCalls(s, k, refused, unmarked, n - 1);
      OneMoreEntry(s, k, refused, unmarked, entries[..n - 1], entries[n - 1..]);
    }
  }

  lemma {:induction false} EntriesAt(entries: seq<OutboxRow>, n: nat)
    requires n <= |entries|
    ensures n == 0 ==> entries[..n] == [] && entries[n..] == entries
    ensures n > 0 ==>
              && entries[..n] == entries[..n - 1] + [entries[n - 1]]
              && entries[n - 1..][0] == entries[n - 1] && entries[n - 1..][1..] == entries[n..]
  {
  }

  lemma {:induction false} OneMoreEntry(s: System, k: nat, refused: set<nat>, unmarked: set<nat>, done: seq<OutboxRow>,
                                        todo: seq<OutboxRow>)
    requires todo != []
    requires SweepStands(Exec(Next(s, SweepList(k)), SweepCalls(k, done, refused, unmarked)), k,
                         MarkAll(s.outbox, DoneIds(done, refused, unmarked)), EnqueueAll(s.queue, done, refused), todo)
    ensures var now := done + [todo[0]];
            SweepStands(Exec(Next(s, SweepList(k)), SweepCalls(k, now, refused, unmarked)), k,
                        MarkAll(s.outbox, DoneIds(now, refused, unmarked)), EnqueueAll(s.queue, now, refused),
                            todo[1..])
  {
    hide *;
    var e, s1, calls := todo[0], Next(s, SweepList(k)), EntryCalls(k, todo[0], refused, unmarked);
    var before := Exec(s1, SweepCalls(k, done, refused, unmarked));
    SweepStandsIs(before, k, MarkAll(s.outbox, DoneIds(done, refused, unmarked)), EnqueueAll(s.queue, done, refused),
                  todo);
    SweepCallsStep(k, done, e, refused, unmarked);
    ExecTwo(s1, SweepCalls(k, done, refused, unmarked), calls);
    EntryIsCalls(before, k, todo, calls, refused, unmarked);
    SweepStep(s.queue, done, e, refused, unmarked);
    MarkOneMore(s.outbox, DoneIds(done, refused, unmarked), e.id);
  }

  lemma {:induction false} SweepStandsIs(s: System, k: nat, outbox: seq<OutboxRow>, queue: QueueState,
                                         todo: seq<OutboxRow>)
    ensures SweepStands(s, k, outbox, queue, todo) <==>
            s.outbox == outbox && s.queue == queue && k in s.sweeps && s.sweeps[k] == SweepPc(todo, false)
  {
  }

  lemma {:induction false} SweepListed(s: System, k: nat, refused: set<nat>, unmarked: set<nat>)
    requires k !in s.sweeps
    ensures SweepStands(Exec(Next(s, SweepList(k)), SweepCalls(k, [], refused, unmarked)), k, s.outbox, s.queue,
                        FirstUnenqueued(s.outbox, SWEEP_LIMIT))
  {
    hide FirstUnenqueued;
  }

  lemma {:induction false} SweepCallsStep(k: nat, done: seq<OutboxRow>, e: OutboxRow, refused: set<nat>,
                                          unmarked: set<nat>)
    ensures SweepCalls(k, done + [e], refused, unmarked)
            == SweepCalls(k, done, refused, unmarked) + EntryCalls(k, e, refused, unmarked)
    ensures 1 <= |EntryCalls(k, e, refused, unmarked)| <= 2
  {
    assert (done + [e])[..|done|] == done;
  }

  // ---- Whole sweeps in the midst of other calls ----

  /** The row for which this call of sweep k fails, if it does. */
  function FailedBy(s: System, k: nat, call: Call): set<nat> {
    if k !in s.sweeps || s.sweeps[k].todo == [] then {}
    else
      var pc, id := s.sweeps[k], s.sweeps[k].todo[0].id;
      if (call.SweepEnqueue? && call.sweep == k && !pc.accepted && call.reply != Nil)
         || (call.SweepMark? && call.sweep == k && pc.accepted && !call.committed)
      then {id} else {}
  }

  /** The rows for which a call of sweep k failed. */
  function Failed(s: System, k: nat, calls: seq<Call>): set<nat> {
    if calls == [] then {}
    else
      var init, last := calls[..|calls| - 1], calls[|calls| - 1];
      Failed(s, k, init) + FailedBy(Exec(s, init), k, last)
  }

  ghost predicate IsMarked(outbox: seq<OutboxRow>, id: nat) {
    exists i :: 0 <= i < |outbox| && outbox[i].id == id && outbox[i].enqueued
  }

  lemma {:induction false} MarkedLater(o: seq<OutboxRow>, o': seq<OutboxRow>, id: nat)
    requires Later(o, o') && IsMarked(o, id)
    ensures IsMarked(o', id)
  {
    var i :| 0 <= i < |o| && o[i].id == id && o[i].enqueued;
    assert o'[i].id == id && o'[i].enqueued;
  }

  lemma {:induction false} EntryMarked(o: seq<OutboxRow>, id: nat, payload: WebhookEvent)
    requires IsEntry(o, id, payload)
    ensures IsMarked(Marked(o, id), id)
  {
    var i :| 0 <= i < |o| && o[i].id == id && o[i].payload == payload;
    assert Marked(o, id)[i].id == id && Marked(o, id)[i].enqueued;
  }

  lemma {:induction false} ExecLater(s: System, calls: seq<Call>)
    requires Inv(s)
    ensures Inv(Exec(s, calls)) && Later(s.outbox, Exec(s, calls).outbox)
    ensures s.lastID <= Exec(s, calls).lastID
  {
    if calls != [] {
      hide Inv, Next, Later;
      var n := |calls| - 1;
      ExecLater(s, calls[..n]);
      NextKeeps(Exec(s, calls[..n]), calls[n]);
      NextCounts(Exec(s, calls[..n]), calls[n]);
      LaterTransitive(s.outbox, Exec(s, calls[..n]).outbox, Exec(s, calls).outbox);
    } else {
      LaterItself(s.outbox);
    }
  }

  lemma {:induction false} NextCounts(s: System, call: Call)
    ensures s.lastID <= Next(s, call).lastID
  {
    hide Marked, Recorded, Enqueued, FirstUnenqueued;
  }

  lemma {:induction false} LaterItself(o: seq<OutboxRow>)
    ensures Later(o, o)
  {
  }

  /** Sweep k, listed at s, has come this far: its entries done so far are marked, or a call for them failed. */
  ghost predicate SweepAt(entries: seq<OutboxRow>, failed: set<nat>, s: System, k: nat) {
    && k in s.sweeps && |s.sweeps[k].todo| <= |entries|
    && s.sweeps[k].todo == entries[|entries| - |s.sweeps[k].todo|..]
    && forall j :: 0 <= j < |entries| - |s.sweeps[k].todo| ==>
         entries[j].id in failed || IsMarked(s.outbox, entries[j].id)
  }

  lemma {:induction false} SweepSoFar(s: System, k: nat, calls: seq<Call>)
    requires Inv(s) && k !in s.sweeps && SweepEnd(k) !in calls
    ensures var s1 := Next(s, SweepList(k));
            SweepAt(FirstUnenqueued(s.outbox, SWEEP_LIMIT), Failed(s1, k, calls), Exec(s1, calls), k)
  {
    var s1, entries := Next(s, SweepList(k)), FirstUnenqueued(s.outbox, SWEEP_LIMIT);
    if calls == [] {
      ListingStarts(s, k);
    } else {
      hide Inv, Next, SweepAt, FirstUnenqueued, FailedBy;
      var n := |calls| - 1;
      assert calls == calls[..n] + [calls[n]];
      SweepSoFar(s, k, calls[..n]);
      NextKeeps(s, SweepList(k));
      ExecLater(s1, calls[..n]);
      SweepAdvances(entries, Failed(s1, k, calls[..n]), Exec(s1, calls[..n]), k, calls[n]);
    }
  }

  lemma {:induction false} ListingStarts(s: System, k: nat)
    requires k !in s.sweeps
    ensures SweepAt(FirstUnenqueued(s.outbox, SWEEP_LIMIT), {}, Next(s, SweepList(k)), k)
  {
    hide FirstUnenqueued;
  }

  lemma {:induction false} SweepAdvances(entries: seq<OutboxRow>, failed: set<nat>, s: System, k: nat, call: Call)
    requires Inv(s) && SweepAt(entries, failed, s, k) && call != SweepEnd(k)
    ensures SweepAt(entries, failed + FailedBy(s, k, call), Next(s, call), k)
  {
    hide Inv, Next, FailedBy, IsMarked;
    MarksStay(s, call);
    MarkSets(s, k);
    SweepMoves(s, k, call);
  }

  lemma {:induction false} MarksStay(s: System, call: Call)
    requires Inv(s)
    ensures forall id :: IsMarked(s.outbox, id) ==> IsMarked(Next(s, call).outbox, id)
  {
    hide Inv, Next, IsMarked;
    NextKeeps(s, call);
    forall id | IsMarked(s.outbox, id)
      ensures IsMarked(Next(s, call).outbox, id)
    {
      MarkedLater(s.outbox, Next(s, call).outbox, id);
    }
  }

  lemma {:induction false} MarkSets(s: System, k: nat)
    requires Inv(s) && k in s.sweeps
    ensures var pc := s.sweeps[k];
            pc.todo != [] && pc.accepted ==> IsMarked(Next(s, SweepMark(k, true)).outbox, pc.todo[0].id)
  {
    hide Marked, IsMarked;
    var pc := s.sweeps[k];
    assert SweepOk(pc, s.outbox, s.queue);
    if pc.todo != [] && pc.accepted {
      EntryMarked(s.outbox, pc.todo[0].id, pc.todo[0].payload);
    }
  }

  /** One call moves sweep k on by at most one entry, and only by failing or by marking it. */
  lemma {:induction false} SweepMoves(s: System, k: nat, call: Call)
    requires k in s.sweeps && call != SweepEnd(k)
    ensures var s', todo := Next(s, call), s.sweeps[k].todo;
            && k in s'.sweeps
            && (s'.sweeps[k].todo == todo || (todo != [] && s'.sweeps[k].todo == todo[1..]
                && (todo[0].id in FailedBy(s, k, call) || (call == SweepMark(k, true) && s.sweeps[k].accepted))))
  {
    hide Marked, Enqueued, Recorded, FirstUnenqueued;
  }

  /** A whole sweep: listed, every entry tried, and any other calls in between. */
  ghost predicate SweepRound(s: System, k: nat, calls: seq<Call>, failing: set<nat>, s': System) {
    && k !in s.sweeps && SweepEnd(k) !in calls
    && s' == Exec(Next(s, SweepList(k)), calls)
    && k in s'.sweeps && s'.sweeps[k].todo == []
    && Failed(Next(s, SweepList(k)), k, calls) <= failing
  }

  /** Whatever runs in its midst, a whole sweep marks all that an undisturbed one would have marked at its start. */
  lemma {:induction false} InterleavedSweep(s: System, k: nat, calls: seq<Call>, failing: set<nat>, s': System)
    requires Inv(s) && SweepRound(s, k, calls, failing, s')
    ensures Inv(s') && s.lastID <= s'.lastID && Later(Swept(s.outbox, failing), s'.outbox)
  {
    hide Next, Exec, Failed, FirstUnenqueued;
    NextKeeps(s, SweepList(k));
    NextCounts(s, SweepList(k));
    ExecLater(Next(s, SweepList(k)), calls);
    LaterTransitive(s.outbox, Next(s, SweepList(k)).outbox, s'.outbox);
    SweepSoFar(s, k, calls);
    var entries := FirstUnenqueued(s.outbox, SWEEP_LIMIT);
    forall e | e in entries && e.id !in failing
      ensures IsMarked(s'.outbox, e.id)
    {
      var j :| 0 <= j < |entries| && entries[j] == e;
    }
    MarkedIsLater(s.outbox, s'.outbox, s'.lastID, DoneIds(entries, failing, {}));
  }

  lemma {:induction false} MarkedIsLater(o: seq<OutboxRow>, o': seq<OutboxRow>, lastID: nat, ids: set<nat>)
    requires Later(o, o') && OutboxOk(o', lastID) && forall id :: id in ids ==> IsMarked(o', id)
    ensures Later(MarkAll(o, ids), o')
  {
    forall i | 0 <= i < |o| && o[i].id in ids
      ensures o'[i].enqueued
    {
      var j :| 0 <= j < |o'| && o'[j].id == o[i].id && o'[j].enqueued;
      assert j == i;
    }
  }

  /** Whole sweeps one after the other, each in the midst of any other calls. */
  ghost predicate Rounds(ss: seq<System>, failing: set<nat>) {
    && ss != [] && Inv(ss[0])
    && forall j :: 0 < j < |ss| ==> Round(ss[j - 1], failing, ss[j])
  }

  ghost predicate Round(s: System, failing: set<nat>, s': System) {
    exists k, calls :: SweepRound(s, k, calls, failing, s')
  }

  function Tables(ss: seq<System>): seq<seq<OutboxRow>> {
    seq(|ss|, j requires 0 <= j < |ss| => ss[j].outbox)
  }

  lemma {:induction false} RoundsAreSweeps(ss: seq<System>, failing: set<nat>)
    requires Rounds(ss, failing)
    ensures Inv(ss[|ss| - 1]) && Sweeps(Tables(ss), ss[|ss| - 1].lastID, failing)
  {
    hide Inv, Sweeps, SweepRound, OutboxOk;
    var n := |ss| - 1;
    if n == 0 {
      InvTable(ss[0]);
      FirstTable(ss[0].outbox, ss[0].lastID, failing);
      assert Tables(ss) == [ss[0].outbox];
    } else {
      RoundsAreSweeps(ss[..n], failing);
      assert Round(ss[n - 1], failing, ss[n]);
      var k, calls :| SweepRound(ss[n - 1], k, calls, failing, ss[n]);
      InterleavedSweep(ss[n - 1], k, calls, failing, ss[n]);
      InvTable(ss[n]);
      assert Tables(ss) == Tables(ss[..n]) + [ss[n].outbox];
      OneMoreTable(Tables(ss[..n]), ss[n - 1].lastID, failing, ss[n].outbox, ss[n].lastID);
    }
  }

  lemma {:induction false} FirstTable(o: seq<OutboxRow>, lastID: nat, failing: set<nat>)
    requires OutboxOk(o, lastID)
    ensures Sweeps([o], lastID, failing)
  {
  }

  lemma {:induction false} OneMoreTable(os: seq<seq<OutboxRow>>, lastID: nat, failing: set<nat>, o: seq<OutboxRow>,
                                        lastID': nat)
    requires Sweeps(os, lastID, failing) && Later(Swept(os[|os| - 1], failing), o)
    requires OutboxOk(o, lastID') && lastID <= lastID'
    ensures Sweeps(os + [o], lastID', failing)
  {
    hide Swept, Later, OutboxOk;
    forall j | 0 <= j < |os|
      ensures OutboxOk(os[j], lastID')
    {
      OkMore(os[j], lastID, lastID');
    }
  }

  lemma {:induction false} InvTable(s: System)
    requires Inv(s)
    ensures OutboxOk(s.outbox, s.lastID)
  {
  }

  lemma {:induction false} OkMore(outbox: seq<OutboxRow>, lastID: nat, lastID': nat)
    requires OutboxOk(outbox, lastID) && lastID <= lastID'
    ensures OutboxOk(outbox, lastID')
  {
  }

  /**
   So the drain bound holds of the interleaved machine: with fewer than 100 failing rows ahead, a row gets
   marked in time.
   */
  lemma {:induction false} RoundsDrain(ss: seq<System>, failing: set<nat>, t: nat)
    requires Rounds(ss, failing) && t < |ss[0].outbox| && ss[0].outbox[t].id !in failing && |ss| >= 2
    requires var r, f := Good(ss[0].outbox, failing, t), PendingIn(ss[0].outbox, failing, t);
             f < 100 && (|ss| - 1) * (100 - f) >= r + 1
    ensures t < |ss[|ss| - 1].outbox| && ss[|ss| - 1].outbox[t].enqueued
  {
    hide Rounds, Sweeps, Good, PendingIn, Inv;
    RoundsAreSweeps(ss, failing);
    SweepDrains(Tables(ss), ss[|ss| - 1].lastID, failing, t);
  }
}
