/**
 What survives a crash of the indexer: the three Postgres tables and the task queue.
 Each statement is a function on table values; the repository class runs it in place.
 */
module Store {
  import opened Domain

  /** The JSON envelope sent to the webhook consumer. */
  datatype WebhookEvent = WebhookEvent(
    tokenID: nat,
    ownerAddress: string,
    title: string,
    recipientName: string,
    issuerName: string,
    description: string,
    issuedAt: int,
    chainID: int,
    txHash: string)
  {
    function OutboxKey(): (int, string, nat) {
      (chainID, txHash, tokenID)
    }
  }

  function NewWebhookEvent(c: Certificate): WebhookEvent {
    WebhookEvent(c.tokenID, c.data.owner, c.data.title, c.data.recipientName, c.data.issuerName,
                 c.data.description, c.data.issuedAt, c.chainID, c.txHash)
  }

  datatype OutboxRow = OutboxRow(id: nat, key: (int, string, nat), payload: WebhookEvent, enqueued: bool)

  // ---- certificates ----

  /** The (chain_id, tx_hash, log_index) constraint is violated by another token's row. */
  predicate KeyTaken(certs: map<nat, Certificate>, c: Certificate) {
    exists t :: t in certs && t != c.tokenID && certs[t].EventKey() == c.EventKey()
  }

  function DeletedFrom(certs: map<nat, Certificate>, chainID: int, from: nat): map<nat, Certificate> {
    map t | t in certs && !(certs[t].chainID == chainID && certs[t].blockNumber >= from) :: certs[t]
  }

  ghost predicate UniqueKeys(certs: map<nat, Certificate>) {
    && (forall t :: t in certs ==> certs[t].tokenID == t)
    && (forall t, u :: t in certs && u in certs && certs[t].EventKey() == certs[u].EventKey() ==> t == u)
  }

  // ---- webhook_outbox: rows in order of id ----

  predicate Recorded(outbox: seq<OutboxRow>, key: (int, string, nat)) {
    exists i :: 0 <= i < |outbox| && outbox[i].key == key
  }

  function Marked(outbox: seq<OutboxRow>, id: nat): seq<OutboxRow> {
    seq(|outbox|, i requires 0 <= i < |outbox| =>
      if outbox[i].id == id then outbox[i].(enqueued := true) else outbox[i])
  }

  lemma {:induction false} MarkedIs(o: seq<OutboxRow>, o': seq<OutboxRow>, id: nat)
    requires |o'| == |o|
    requires forall i :: 0 <= i < |o| && o[i].id == id ==> o'[i] == o[i].(enqueued := true)
    requires forall i :: 0 <= i < |o| && o[i].id != id ==> o'[i] == o[i]
    ensures o' == Marked(o, id)
  {
  }

  function Unenqueued(outbox: seq<OutboxRow>): seq<OutboxRow> {
    if outbox == [] then []
    else
      var rest := Unenqueued(outbox[..|outbox| - 1]);
      var last := outbox[|outbox| - 1];
      if last.enqueued then rest else rest + [last]
  }

  function FirstUnenqueued(outbox: seq<OutboxRow>, limit: nat): seq<OutboxRow> {
    var all := Unenqueued(outbox);
    all[..Min(limit, |all|)]
  }

  /** How many of the first n rows await enqueueing. */
  function Pending(outbox: seq<OutboxRow>, n: nat): nat
    requires n <= |outbox|
  {
    if n == 0 then 0 else Pending(outbox, n - 1) + if outbox[n - 1].enqueued then 0 else 1
  }

  lemma {:induction false} UnenqueuedAt(outbox: seq<OutboxRow>, n: nat, i: nat)
    requires i <= n <= |outbox|
    ensures |Unenqueued(outbox[..n])| == Pending(outbox, n) >= Pending(outbox, i)
    ensures i < n && !outbox[i].enqueued ==>
              Pending(outbox, i) < Pending(outbox, n) && Unenqueued(outbox[..n])[Pending(outbox, i)] == outbox[i]
  {
    if n > 0 {
      assert outbox[..n][..n - 1] == outbox[..n - 1];
      UnenqueuedAt(outbox, n - 1, if i < n then i else n - 1);
    }
  }

  /** The list holds the pending rows in order of id: one with k older pending rows stands at place k. */
  lemma {:induction false} ListedAt(outbox: seq<OutboxRow>, limit: nat)
    ensures |FirstUnenqueued(outbox, limit)| == Min(limit, Pending(outbox, |outbox|))
    ensures forall i :: 0 <= i < |outbox| && !outbox[i].enqueued && Pending(outbox, i) < limit ==>
              && Pending(outbox, i) < |FirstUnenqueued(outbox, limit)|
              && FirstUnenqueued(outbox, limit)[Pending(outbox, i)] == outbox[i]
  {
    var n := |outbox|;
    assert outbox[..n] == outbox;
    UnenqueuedAt(outbox, n, 0);
    forall i | 0 <= i < n && !outbox[i].enqueued && Pending(outbox, i) < limit
      ensures Pending(outbox, i) < Pending(outbox, n) && Unenqueued(outbox)[Pending(outbox, i)] == outbox[i]
    {
      UnenqueuedAt(outbox, n, i);
    }
  }

  /** Ids grow along the table and no key is recorded twice. */
  predicate OutboxOk(outbox: seq<OutboxRow>, lastID: nat) {
    && (forall i :: 0 <= i < |outbox| ==> outbox[i].id <= lastID && outbox[i].payload.OutboxKey() == outbox[i].key)
    && (forall i, j :: 0 <= i < j < |outbox| ==> outbox[i].id < outbox[j].id && outbox[i].key != outbox[j].key)
  }

  // ---- the task queue ----

  /**
   tasks: the delivery tasks now stored, by id, with their payloads; locks: payloads whose uniqueness lock
   is held; accepted: every id that was ever stored.
   */
  datatype QueueState = QueueState(tasks: map<nat, WebhookEvent>, locks: set<WebhookEvent>, accepted: set<nat>)

  /** The three answers of the broker that EnqueueUnique turns into nil. */
  function Enqueued(q: QueueState, id: nat, payload: WebhookEvent): QueueState {
    if payload in q.locks then q                                   // ErrDuplicateTask
    else if id in q.tasks then q.(locks := q.locks + {payload})    // ErrTaskIDConflict
    else QueueState(q.tasks[id := payload], q.locks + {payload}, q.accepted + {id})
  }

  class TaskQueue {
    var state: QueueState

    constructor ()
      ensures state == QueueState(map[], {}, {})
    {
      state := QueueState(map[], {}, {});
    }

    /** up tells whether the broker answers this call. */
    method EnqueueUnique(id: nat, payload: WebhookEvent, up: bool) returns (ok: bool)
      modifies this
      ensures ok == up
      ensures state == if ok then Enqueued(old(state), id, payload) else old(state)
      ensures var held := payload in old(state).locks || id in old(state).tasks;
              state.tasks == if ok && !held then old(state).tasks[id := payload] else old(state).tasks
      ensures state.locks == if ok then old(state).locks + {payload} else old(state).locks
    {
      if !up {
        return false;
      }
      if payload in state.locks {
        return true;
      }
      if id in state.tasks {
        state := state.(locks := state.locks + {payload});
        return true;
      }
      state := QueueState(state.tasks[id := payload], state.locks + {payload}, state.accepted + {id});
      return true;
    }
  }

  class CertificateRepo {
    var certs: map<nat, Certificate>
    var state: Option<IndexerState>
    var outbox: seq<OutboxRow>
    var lastID: nat

    constructor ()
      ensures certs == map[] && state == None && outbox == [] && lastID == 0
    {
      certs, state, outbox, lastID := map[], None, [], 0;
    }

    /** ON CONFLICT names token_id only, so a clash on the second key is an error. */
    method Upsert(c: Certificate) returns (ok: bool)
      modifies this`certs
      ensures ok == !KeyTaken(old(certs), c)
      ensures certs == if ok then old(certs)[c.tokenID := c] else old(certs)
    {
      if KeyTaken(certs, c) {
        return false;
      }
      certs := certs[c.tokenID := c];
      return true;
    }

    method SaveState(s: IndexerState)
      modifies this`state
      ensures state == Some(s)
    {
      state := Some(s);
    }

    method DeleteFromBlock(chainID: int, from: nat)
      modifies this`certs
      ensures forall t :: t in certs <==>
                t in old(certs) && !(old(certs)[t].chainID == chainID && old(certs)[t].blockNumber >= from)
      ensures forall t :: t in certs ==> certs[t] == old(certs)[t]
    {
      certs := DeletedFrom(certs, chainID, from);
    }

    /** A conflict still draws a value from the id sequence, as BIGSERIAL does. */
    method InsertWebhookOutbox(key: (int, string, nat), payload: WebhookEvent) returns (id: nat, isNew: bool)
      modifies this`outbox, this`lastID
      ensures isNew == !Recorded(old(outbox), key)
      ensures lastID == old(lastID) + 1
      ensures isNew ==> id == lastID && outbox == old(outbox) + [OutboxRow(id, key, payload, false)]
      ensures !isNew ==> outbox == old(outbox)
    {
      lastID := lastID + 1;
      id, isNew := lastID, !Recorded(outbox, key);
      if isNew {
        outbox := outbox + [OutboxRow(id, key, payload, false)];
      }
    }

    method ListUnenqueuedWebhookOutbox(limit: nat) returns (entries: seq<OutboxRow>)
      ensures entries == FirstUnenqueued(outbox, limit)
      ensures |entries| == Min(limit, Pending(outbox, |outbox|))
      ensures forall i :: 0 <= i < |outbox| && !outbox[i].enqueued && Pending(outbox, i) < limit ==>
                Pending(outbox, i) < |entries| && entries[Pending(outbox, i)] == outbox[i]
    {
      ListedAt(outbox, limit);
      entries := FirstUnenqueued(outbox, limit);
    }

    method MarkWebhookOutboxEnqueued(id: nat)
      modifies this`outbox
      ensures |outbox| == |old(outbox)|
      ensures forall i :: 0 <= i < |outbox| && old(outbox)[i].id == id ==>
                outbox[i] == old(outbox)[i].(enqueued := true)
      ensures forall i :: 0 <= i < |outbox| && old(outbox)[i].id != id ==> outbox[i] == old(outbox)[i]
    {
      outbox := Marked(outbox, id);
    }
  }
}
