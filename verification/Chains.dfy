/**
 A blockchain as the node serves it: parent-linked blocks that carry issuance events,
 and the four read calls of the EventSource port on such a chain.
 */
module Chains {
  import opened Domain

  datatype Event = Event(tokenID: nat, txHash: string, logIndex: nat, data: OnchainCertificate)

  datatype Block = Block(hash: string, parent: string, events: seq<Event>)

  /** The block at height h is c[h]; the head is c[|c|-1]. */
  type Chain = seq<Block>

  // ---- The row that each event must produce ----

  function RowOf(e: Event, hash: string, height: nat, chainID: int): Certificate {
    Certificate(e.tokenID, e.data, chainID, e.txHash, e.logIndex, height, hash)
  }

  function BlockRows(b: Block, height: nat, chainID: int): seq<Certificate> {
    seq(|b.events|, j requires 0 <= j < |b.events| => RowOf(b.events[j], b.hash, height, chainID))
  }

  /** The rows of the events in blocks lo, ..., hi-1, in chain order. */
  function Rows(c: Chain, chainID: int, lo: nat, hi: nat): seq<Certificate>
    requires hi <= |c|
  {
    if hi <= lo then [] else Rows(c, chainID, lo, hi - 1) + BlockRows(c[hi - 1], hi - 1, chainID)
  }

  predicate IsRow(c: Chain, chainID: int, lo: nat, hi: nat, r: Certificate) {
    lo <= r.blockNumber < hi <= |c| && r in BlockRows(c[r.blockNumber], r.blockNumber, chainID)
  }

  lemma {:induction false} RowsMembers(c: Chain, chainID: int, lo: nat, hi: nat)
    requires hi <= |c|
    ensures forall r :: r in Rows(c, chainID, lo, hi) <==> IsRow(c, chainID, lo, hi, r)
  {
    if lo < hi {
      RowsMembers(c, chainID, lo, hi - 1);
      forall r: Certificate
        ensures r in Rows(c, chainID, lo, hi) <==> IsRow(c, chainID, lo, hi, r)
      {
        assert r in Rows(c, chainID, lo, hi)
          <==> r in Rows(c, chainID, lo, hi - 1) || r in BlockRows(c[hi - 1], hi - 1, chainID);
      }
    }
  }

  // ---- Reads of the EventSource port ----

  function BlockLogs(b: Block, height: nat): seq<IssuedLog> {
    seq(|b.events|, j requires 0 <= j < |b.events| =>
      IssuedLog(b.events[j].tokenID, height, b.hash, b.events[j].txHash, b.events[j].logIndex))
  }

  /** The logs of blocks lo, ..., hi-1, in chain order. */
  function IssuedLogs(c: Chain, lo: nat, hi: nat): seq<IssuedLog>
    requires hi <= |c|
  {
    if hi <= lo then [] else IssuedLogs(c, lo, hi - 1) + BlockLogs(c[hi - 1], hi - 1)
  }

  function FindEvent(events: seq<Event>, tokenID: nat): Option<OnchainCertificate> {
    if events == [] then None
    else if events[0].tokenID == tokenID then Some(events[0].data)
    else FindEvent(events[1..], tokenID)
  }

  /** getCertificate evaluated at the head: whatever the chain stored for the token. */
  function GetCertificate(c: Chain, tokenID: nat): Option<OnchainCertificate> {
    if c == [] then None
    else
      var found := FindEvent(c[|c| - 1].events, tokenID);
      if found.Some? then found else GetCertificate(c[..|c| - 1], tokenID)
  }

  // ---- Well-formed chains ----

  predicate Linked(c: Chain) {
    && (forall i :: 0 <= i < |c| ==> c[i].hash != "")
    && (forall i :: 0 < i < |c| ==> c[i].parent == c[i - 1].hash)
  }

  /** The contract numbers tokens afresh, and a transaction is mined at most once. */
  predicate UniqueEvents(c: Chain) {
    forall i, j, k, l ::
      0 <= i < |c| && 0 <= j < |c[i].events| && 0 <= k < |c| && 0 <= l < |c[k].events| ==>
      && (c[i].events[j].tokenID == c[k].events[l].tokenID ==> i == k && j == l)
      && (c[i].events[j].txHash == c[k].events[l].txHash && c[i].events[j].logIndex == c[k].events[l].logIndex
          ==> i == k && j == l)
  }

  predicate ValidEvents(c: Chain) {
    forall i, j :: 0 <= i < |c| && 0 <= j < |c[i].events| ==> RowOf(c[i].events[j], c[i].hash, i, 0).Valid()
  }

  predicate ValidChain(c: Chain) {
    Linked(c) && UniqueEvents(c) && ValidEvents(c)
  }

  predicate Keeps(c: Chain, d: Chain, n: nat) {
    n <= |c| && n <= |d| && c[..n] == d[..n]
  }

  ghost predicate CollisionFree(c: Chain, d: Chain) {
    forall b, b' :: b in c && b' in d && b.hash == b'.hash ==> b == b'
  }

  /** One hash comparison at height h decides whether two chains agree on every block up to h. */
  lemma {:induction false} HashDecidesAgreement(c: Chain, d: Chain, h: nat)
    requires Linked(c) && Linked(d) && CollisionFree(c, d)
    requires h < |c| && h < |d|
    ensures c[h].hash == d[h].hash <==> Keeps(c, d, h + 1)
  {
    if c[h].hash == d[h].hash {
      assert c[h] == d[h];
      if h > 0 {
        HashDecidesAgreement(c, d, h - 1);
        assert c[..h + 1] == c[..h] + [c[h]];
        assert d[..h + 1] == d[..h] + [d[h]];
      }
    }
    assert Keeps(c, d, h + 1) ==> c[h] == d[h] by {
      if Keeps(c, d, h + 1) {
        assert c[h] == c[..h + 1][h] == d[..h + 1][h] == d[h];
      }
    }
  }

  // ---- Consequences ----

  lemma {:induction false} KeepsRows(c: Chain, d: Chain, n: nat, chainID: int, lo: nat, r: Certificate)
    requires Keeps(c, d, n)
    ensures IsRow(c, chainID, lo, n, r) <==> IsRow(d, chainID, lo, n, r)
  {
  }

  /** Two rows of a chain that share a token, or share the event key, are one row. */
  lemma {:induction false} RowsUnique(c: Chain, chainID: int, lo: nat, hi: nat, r: Certificate, s: Certificate)
    requires UniqueEvents(c) && IsRow(c, chainID, lo, hi, r) && IsRow(c, chainID, lo, hi, s)
    requires r.tokenID == s.tokenID || r.EventKey() == s.EventKey()
    ensures r == s
  {
  }

  lemma {:induction false} RowsValid(c: Chain, chainID: int, lo: nat, hi: nat, r: Certificate)
    requires ValidEvents(c) && IsRow(c, chainID, lo, hi, r)
    ensures r.Valid() && r.chainID == chainID
  {
  }

  function LogOf(r: Certificate): IssuedLog {
    IssuedLog(r.tokenID, r.blockNumber, r.blockHash, r.txHash, r.logIndex)
  }

  lemma {:induction false} LogsMatchRows(c: Chain, chainID: int, lo: nat, hi: nat)
    requires hi <= |c|
    ensures |IssuedLogs(c, lo, hi)| == |Rows(c, chainID, lo, hi)|
    ensures forall i :: 0 <= i < |Rows(c, chainID, lo, hi)| ==>
              IssuedLogs(c, lo, hi)[i] == LogOf(Rows(c, chainID, lo, hi)[i])
  {
    if lo < hi {
      LogsMatchRows(c, chainID, lo, hi - 1);
    }
  }

  lemma {:induction false} FindEventFirst(events: seq<Event>, tokenID: nat)
    ensures FindEvent(events, tokenID).None? ==> forall j :: 0 <= j < |events| ==> events[j].tokenID != tokenID
    ensures FindEvent(events, tokenID).Some? ==>
              exists j :: 0 <= j < |events| && events[j].tokenID == tokenID
                && events[j].data == FindEvent(events, tokenID).value
  {
    if events != [] && events[0].tokenID != tokenID {
      FindEventFirst(events[1..], tokenID);
      if FindEvent(events, tokenID).Some? {
        var j :| 0 <= j < |events[1..]| && events[1..][j].tokenID == tokenID
                 && events[1..][j].data == FindEvent(events[1..], tokenID).value;
        assert events[j + 1] == events[1..][j];
      } else {
        forall j | 0 <= j < |events| ensures events[j].tokenID != tokenID {
          if j > 0 { assert events[j] == events[1..][j - 1]; }
        }
      }
    }
  }

  lemma {:induction false} LookupAtHead(c: Chain, i: nat, j: nat)
    requires UniqueEvents(c) && i < |c| && j < |c[i].events|
    ensures GetCertificate(c, c[i].events[j].tokenID) == Some(c[i].events[j].data)
  {
    var n := |c| - 1;
    var e := c[i].events[j];
    FindEventFirst(c[n].events, e.tokenID);
    if i < n {
      assert c[..n][i] == c[i];
      LookupAtHead(c[..n], i, j);
    }
  }

  /** Reading a certificate at the head gives back what its own event stored. */
  lemma {:induction false} BackfillAtHead(c: Chain, chainID: int, r: Certificate)
    requires UniqueEvents(c) && IsRow(c, chainID, 0, |c|, r)
    ensures GetCertificate(c, r.tokenID) == Some(r.data)
  {
    var rows := BlockRows(c[r.blockNumber], r.blockNumber, chainID);
    var j :| 0 <= j < |rows| && rows[j] == r;
    LookupAtHead(c, r.blockNumber, j);
  }

  // ---- The projection of a chain: the fold of upserts over its rows ----

  function Fold(rows: seq<Certificate>): map<nat, Certificate> {
    if rows == [] then map[]
    else
      var r := rows[|rows| - 1];
      Fold(rows[..|rows| - 1])[r.tokenID := r]
  }

  function Projection(c: Chain, chainID: int, lo: nat, hi: nat): map<nat, Certificate>
    requires hi <= |c|
  {
    Fold(Rows(c, chainID, lo, hi))
  }

  /** No orphaned row: every row of the table comes from the chain. */
  ghost predicate Sound(certs: map<nat, Certificate>, c: Chain, chainID: int, lo: nat, hi: nat) {
    forall t :: t in certs ==> certs[t].tokenID == t && IsRow(c, chainID, lo, hi, certs[t])
  }

  /** No missing row: every event of the chain has its row in the table. */
  ghost predicate Complete(certs: map<nat, Certificate>, c: Chain, chainID: int, lo: nat, hi: nat) {
    forall r :: IsRow(c, chainID, lo, hi, r) ==> r.tokenID in certs && certs[r.tokenID] == r
  }

  lemma {:induction false} FoldMembers(rows: seq<Certificate>)
    requires forall p, q :: 0 <= p < |rows| && 0 <= q < |rows| && rows[p].tokenID == rows[q].tokenID ==>
               rows[p] == rows[q]
    ensures forall t :: t in Fold(rows) ==> Fold(rows)[t].tokenID == t && Fold(rows)[t] in rows
    ensures forall r :: r in rows ==> r.tokenID in Fold(rows) && Fold(rows)[r.tokenID] == r
  {
    if rows != [] {
      var n := |rows| - 1;
      FoldMembers(rows[..n]);
      assert rows == rows[..n] + [rows[n]];
    }
  }

  lemma {:induction false} ProjectionIff(certs: map<nat, Certificate>, c: Chain, chainID: int, lo: nat, hi: nat)
    requires UniqueEvents(c) && hi <= |c|
    ensures certs == Projection(c, chainID, lo, hi) <==>
            Sound(certs, c, chainID, lo, hi) && Complete(certs, c, chainID, lo, hi)
  {
    var rows := Rows(c, chainID, lo, hi);
    RowsMembers(c, chainID, lo, hi);
    forall p, q | 0 <= p < |rows| && 0 <= q < |rows| && rows[p].tokenID == rows[q].tokenID
      ensures rows[p] == rows[q]
    {
      RowsUnique(c, chainID, lo, hi, rows[p], rows[q]);
    }
    FoldMembers(rows);
    if Sound(certs, c, chainID, lo, hi) && Complete(certs, c, chainID, lo, hi) {
      var table := Fold(rows);
      forall t
        ensures t in certs <==> t in table
        ensures t in certs ==> certs[t] == table[t]
      {
      }
      assert certs == table;
    }
  }
}
