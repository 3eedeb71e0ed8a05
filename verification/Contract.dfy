/**
 The soulbound certificate contract: its transactions, what no transaction can change, and why
 reading a certificate at the head of the chain is as good as reading it when it was issued.
 Strings are byte strings; addresses are in the indexer's normalised form.
 */
module Contract {
  import opened Domain
  import Chains

  const MAX_TITLE := 200
  const MAX_NAME := 100
  const MAX_DESC := 1000
  const MAX_URI := 300
  const MAX_UINT256 := 0x1_0000000000000000_0000000000000000_0000000000000000_0000000000000000 - 1

  datatype Cert = Cert(
    title: string,
    recipientName: string,
    issuerName: string,
    description: string,
    metadataURI: string,
    issuedAt: nat)

  datatype State = State(owner: string, nextTokenId: nat, certificates: map<nat, Cert>, holders: map<nat, string>)

  datatype Error =
    | Unauthorized | InvalidOwner | ZeroRecipient | StringTooLong | Panic | Soulbound | ApprovalDisabled
    | InvalidReceiver | InvalidSender | NonexistentToken | InsufficientApproval | IncorrectOwner

  /** accepts: the recipient is no contract, or its onERC721Received agrees. */
  datatype Tx =
    | Issue(recipient: string, cert: Cert, accepts: bool)
    | TransferFrom(from: string, to: string, tokenId: nat)
    | SafeTransferFrom(source: string, target: string, id: nat, taken: bool)
    | Approve
    | SetApprovalForAll
    | TransferOwnership(newOwner: string)
    | RenounceOwnership

  function OwnerOf(s: State, tokenId: nat): string {
    if tokenId in s.holders then s.holders[tokenId] else ZERO_ADDRESS
  }

  /** The inherited _update; no approval can exist, so only the holder itself is authorised. */
  function SuperUpdate(s: State, to: string, tokenId: nat, auth: string): Result<(State, string), Error> {
    var from := OwnerOf(s, tokenId);
    if auth != ZERO_ADDRESS && from != auth then
      Err(if from == ZERO_ADDRESS then NonexistentToken else InsufficientApproval)
    else
      var holders := if to == ZERO_ADDRESS then s.holders - {tokenId} else s.holders[tokenId := to];
      Ok((s.(holders := holders), from))
  }

  function Updated(s: State, to: string, tokenId: nat, auth: string): Result<(State, string), Error> {
    var from := OwnerOf(s, tokenId);
    if from != ZERO_ADDRESS && to != ZERO_ADDRESS then Err(Soulbound)
    else SuperUpdate(s, to, tokenId, auth)
  }

  function TooLong(c: Cert): bool {
    || |c.title| > MAX_TITLE || |c.recipientName| > MAX_NAME || |c.issuerName| > MAX_NAME
    || |c.description| > MAX_DESC || |c.metadataURI| > MAX_URI
  }

  function Transferred(s: State, sender: string, from: string, to: string, tokenId: nat): Result<State, Error> {
    if to == ZERO_ADDRESS then Err(InvalidReceiver)
    else
      match Updated(s, to, tokenId, sender)
      case Err(e) => Err(e)
      case Ok((s', previous)) => if previous != from then Err(IncorrectOwner) else Ok(s')
  }

  function Issued(s: State, sender: string, recipient: string, c: Cert, accepts: bool, now: nat): Result<State, Error> {
    if sender != s.owner then Err(Unauthorized)
    else if recipient == ZERO_ADDRESS then Err(ZeroRecipient)
    else if TooLong(c) then Err(StringTooLong)
    else if s.nextTokenId >= MAX_UINT256 then Err(Panic)
    else
      var id := s.nextTokenId;
      var stored := s.(nextTokenId := id + 1, certificates := s.certificates[id := c.(issuedAt := now)]);
      match Updated(stored, recipient, id, ZERO_ADDRESS)
      case Err(e) => Err(e)
      case Ok((s', previous)) =>
        if previous != ZERO_ADDRESS then Err(InvalidSender)
        else if !accepts then Err(InvalidReceiver)
        else Ok(s')
  }

  /** A transaction either succeeds or reverts; reverting undoes all it did. */
  function Call(s: State, sender: string, tx: Tx, now: nat): Result<State, Error> {
    match tx
    case Issue(recipient, c, accepts) => Issued(s, sender, recipient, c, accepts, now)
    case TransferFrom(from, to, tokenId) => Transferred(s, sender, from, to, tokenId)
    case SafeTransferFrom(from, to, tokenId, taken) =>
      var moved := Transferred(s, sender, from, to, tokenId);
      if moved.Ok? && !taken then Err(InvalidReceiver) else moved
    case Approve => Err(ApprovalDisabled)
    case SetApprovalForAll => Err(ApprovalDisabled)
    case TransferOwnership(newOwner) =>
      if sender != s.owner then Err(Unauthorized)
      else if newOwner == ZERO_ADDRESS then Err(InvalidOwner)
      else Ok(s.(owner := newOwner))
    case RenounceOwnership =>
      if sender != s.owner then Err(Unauthorized) else Ok(s.(owner := ZERO_ADDRESS))
  }

  function After(s: State, sender: string, tx: Tx, now: nat): State {
    var r := Call(s, sender, tx, now);
    if r.Ok? then r.value else s
  }

  // ---- The contract's storage, changed in place ----

  class SkillPassCertificate {
    var owner: string
    var nextTokenId: nat
    var certificates: map<nat, Cert>
    var holders: map<nat, string>

    constructor (initialOwner: string)
      ensures Value() == State(initialOwner, 1, map[], map[])
    {
      owner, nextTokenId, certificates, holders := initialOwner, 1, map[], map[];
    }

    function Value(): State
      reads this
    {
      State(owner, nextTokenId, certificates, holders)
    }

    /** Blocks transfers; lets mints (from is zero) and burns (to is zero) through. */
    method Update(to: string, tokenId: nat, auth: string) returns (r: Result<string, Error>)
      modifies this`holders
      ensures match Updated(old(Value()), to, tokenId, auth)
              case Ok((s, previous)) => r == Ok(previous) && Value() == s
              case Err(e) => r == Err(e) && Value() == old(Value())
    {
      var from := OwnerOf(Value(), tokenId);
      if from != ZERO_ADDRESS && to != ZERO_ADDRESS {
        return Err(Soulbound);
      }
      if auth != ZERO_ADDRESS && from != auth {
        return Err(if from == ZERO_ADDRESS then NonexistentToken else InsufficientApproval);
      }
      holders := if to == ZERO_ADDRESS then holders - {tokenId} else holders[tokenId := to];
      return Ok(from);
    }

    method IssueCertificate(sender: string, recipient: string, c: Cert, accepts: bool, now: nat)
        returns (r: Result<nat, Error>)
      modifies this
      ensures Value() == After(old(Value()), sender, Issue(recipient, c, accepts), now)
      ensures match Call(old(Value()), sender, Issue(recipient, c, accepts), now)
              case Ok(_) => r == Ok(old(nextTokenId))
              case Err(e) => r == Err(e)
    {
      var before := Value();
      if sender != owner {
        return Err(Unauthorized);
      }
      if recipient == ZERO_ADDRESS {
        return Err(ZeroRecipient);
      }
      if TooLong(c) {
        return Err(StringTooLong);
      }
      if nextTokenId >= MAX_UINT256 {
        return Err(Panic);
      }
      var tokenId := nextTokenId;
      nextTokenId := nextTokenId + 1;
      certificates := certificates[tokenId := c.(issuedAt := now)];
      var previous := Update(recipient, tokenId, ZERO_ADDRESS); // _safeMint
      r := match previous
        case Err(e) => Err(e)
        case Ok(p) =>
          if p != ZERO_ADDRESS then Err(InvalidSender) else if !accepts then Err(InvalidReceiver) else Ok(tokenId);
      if r.Err? {
        nextTokenId, certificates, holders := before.nextTokenId, before.certificates, before.holders;
      }
    }

    method TransferFrom(sender: string, from: string, to: string, tokenId: nat) returns (r: Result<(), Error>)
      modifies this`holders
      ensures Value() == After(old(Value()), sender, Tx.TransferFrom(from, to, tokenId), 0)
      ensures match Call(old(Value()), sender, Tx.TransferFrom(from, to, tokenId), 0)
              case Ok(_) => r == Ok(())
              case Err(e) => r == Err(e)
    {
      if to == ZERO_ADDRESS {
        return Err(InvalidReceiver);
      }
      var before := holders;
      var previous := Update(to, tokenId, sender);
      if previous.Err? {
        return Err(previous.error);
      }
      if previous.value != from {
        holders := before;
        return Err(IncorrectOwner);
      }
      return Ok(());
    }
  }

  // ---- What holds in every history ----

  ghost predicate Inv(s: State) {
    && s.nextTokenId >= 1
    && (forall t :: t in s.certificates <==> 1 <= t < s.nextTokenId)
    && (forall t :: t in s.holders <==> 1 <= t < s.nextTokenId)
    && (forall t :: t in s.holders ==> s.holders[t] != ZERO_ADDRESS && s.holders[t] != "")
  }

  /** s' has all of s's tokens, with the same holders and the same data. */
  ghost predicate Preserves(s: State, s': State) {
    && (forall t :: t in s.certificates ==> t in s'.certificates && s'.certificates[t] == s.certificates[t])
    && (forall t :: t in s.holders ==> t in s'.holders && s'.holders[t] == s.holders[t])
    && s.nextTokenId <= s'.nextTokenId
  }

  /** Nobody can send from the zero address, and a recipient is some address. */
  predicate Sendable(sender: string, tx: Tx) {
    sender != ZERO_ADDRESS && (tx.Issue? ==> tx.recipient != "")
  }

  lemma {:induction false} CallPreserves(s: State, sender: string, tx: Tx, now: nat)
    requires Inv(s) && Sendable(sender, tx)
    ensures Inv(After(s, sender, tx, now)) && Preserves(s, After(s, sender, tx, now))
    ensures !tx.Issue? ==>
              After(s, sender, tx, now).certificates == s.certificates && After(s, sender, tx, now).holders == s.holders
  {
  }

  /**
   Every transfer of every token reverts, whoever asks, an existing token's by the lock itself; so does every
   approval.
   */
  lemma {:induction false} NoTransferSucceeds(s: State, sender: string, from: string, to: string, tokenId: nat)
    requires Inv(s) && sender != ZERO_ADDRESS
    ensures Transferred(s, sender, from, to, tokenId).Err?
    ensures to != ZERO_ADDRESS ==>
              Transferred(s, sender, from, to, tokenId)
              == Err(if 1 <= tokenId <= TotalSupply(s) then Soulbound else NonexistentToken)
    ensures Call(s, sender, Approve, 0) == Err(ApprovalDisabled) == Call(s, sender, SetApprovalForAll, 0)
  {
  }

  /** Who may issue what, and which of several reasons a refusal gives. */
  lemma {:induction false} IssueSucceedsIff(s: State, sender: string, recipient: string, c: Cert, accepts: bool,
                                            now: nat)
    requires Inv(s)
    ensures var fits := |c.title| <= 200 && |c.recipientName| <= 100 && |c.issuerName| <= 100
                        && |c.description| <= 1000 && |c.metadataURI| <= 300;
            var r := Call(s, sender, Issue(recipient, c, accepts), now);
            && (r.Ok? <==>
                  sender == s.owner && recipient != ZERO_ADDRESS && fits && s.nextTokenId < MAX_UINT256 && accepts)
            && (sender != s.owner ==> r == Err(Unauthorized))
            && (sender == s.owner && recipient == ZERO_ADDRESS ==> r == Err(ZeroRecipient))
            && (sender == s.owner && recipient != ZERO_ADDRESS && !fits ==> r == Err(StringTooLong))
  {
  }

  /** No call of anybody but the owner succeeds, and no transfer or approval does. */
  lemma {:induction false} OnlyTheOwnerActs(s: State, sender: string, tx: Tx, now: nat)
    requires Inv(s) && sender != ZERO_ADDRESS && Call(s, sender, tx, now).Ok?
    ensures sender == s.owner && (tx.Issue? || tx.TransferOwnership? || tx.RenounceOwnership?)
  {
  }

  lemma {:induction false} OwnerAfter(s: State, sender: string, tx: Tx, now: nat)
    requires Inv(s)
    ensures var owner := After(s, sender, tx, now).owner;
            && (sender != s.owner || tx.Issue? ==> owner == s.owner)
            && (sender == s.owner && tx.RenounceOwnership? ==> owner == ZERO_ADDRESS)
            && (sender == s.owner && tx.TransferOwnership? ==>
                  owner == if tx.newOwner == ZERO_ADDRESS then s.owner else tx.newOwner)
  {
  }

  // ---- Mined blocks ----

  /** One call of the contract; a transaction may make several, and the node numbers their events. */
  datatype Mined = Mined(sender: string, tx: Tx, txHash: string, logIndex: nat)

  datatype MinedBlock = MinedBlock(hash: string, parent: string, time: nat, calls: seq<Mined>)

  function AfterCalls(s: State, calls: seq<Mined>, time: nat): State {
    if calls == [] then s
    else
      var last := calls[|calls| - 1];
      After(AfterCalls(s, calls[..|calls| - 1], time), last.sender, last.tx, time)
  }

  function AfterBlocks(s: State, blocks: seq<MinedBlock>): State {
    if blocks == [] then s
    else
      var last := blocks[|blocks| - 1];
      AfterCalls(AfterBlocks(s, blocks[..|blocks| - 1]), last.calls, last.time)
  }

  function Issues(s: State, m: Mined, time: nat): bool {
    m.tx.Issue? && Call(s, m.sender, m.tx, time).Ok?
  }

  /** The CertificateIssued events of a block. */
  function BlockEvents(s: State, calls: seq<Mined>, time: nat): seq<Chains.Event> {
    if calls == [] then []
    else
      var n := |calls| - 1;
      var before := AfterCalls(s, calls[..n], time);
      var m := calls[n];
      BlockEvents(s, calls[..n], time)
      + if !Issues(before, m, time) then []
        else [Chains.Event(before.nextTokenId, m.txHash, m.logIndex,
                           OnchainOf(m.tx.recipient, m.tx.cert.(issuedAt := time)))]
  }

  function OnchainOf(holder: string, c: Cert): OnchainCertificate {
    OnchainCertificate(holder, c.title, c.recipientName, c.issuerName, c.description, c.metadataURI, c.issuedAt)
  }

  /** The view function: a missing token reverts. */
  function GetCertificate(s: State, tokenId: nat): Option<OnchainCertificate> {
    if tokenId in s.holders && tokenId in s.certificates
    then Some(OnchainOf(s.holders[tokenId], s.certificates[tokenId])) else None
  }

  /** The chain that an indexer sees. */
  function ChainOf(s: State, blocks: seq<MinedBlock>): Chains.Chain {
    seq(|blocks|, i requires 0 <= i < |blocks| =>
      Chains.Block(blocks[i].hash, blocks[i].parent,
                   BlockEvents(AfterBlocks(s, blocks[..i]), blocks[i].calls, blocks[i].time)))
  }

  predicate CallSenders(calls: seq<Mined>) {
    forall j :: 0 <= j < |calls| ==> Sendable(calls[j].sender, calls[j].tx)
  }

  predicate Senders(blocks: seq<MinedBlock>) {
    forall i :: 0 <= i < |blocks| ==> CallSenders(blocks[i].calls)
  }

  predicate SameLog(m: Mined, m': Mined) {
    m.txHash == m'.txHash && m.logIndex == m'.logIndex
  }

  predicate UniqueLogs(blocks: seq<MinedBlock>) {
    forall i, j, k, l ::
      0 <= i < |blocks| && 0 <= j < |blocks[i].calls| && 0 <= k < |blocks| && 0 <= l < |blocks[k].calls| ==>
      SameLog(blocks[i].calls[j], blocks[k].calls[l]) ==> i == k && j == l
  }

  lemma {:induction false} CallsPreserve(s: State, calls: seq<Mined>, time: nat)
    requires Inv(s) && CallSenders(calls)
    ensures Inv(AfterCalls(s, calls, time)) && Preserves(s, AfterCalls(s, calls, time))
  {
    if calls != [] {
      hide After, Call;
      var n := |calls| - 1;
      CallsPreserve(s, calls[..n], time);
      CallPreserves(AfterCalls(s, calls[..n], time), calls[n].sender, calls[n].tx, time);
    }
  }

  lemma {:induction false} BlocksPreserve(s: State, blocks: seq<MinedBlock>, k: nat)
    requires Inv(s) && Senders(blocks) && k <= |blocks|
    ensures Inv(AfterBlocks(s, blocks)) && Inv(AfterBlocks(s, blocks[..k]))
    ensures Preserves(AfterBlocks(s, blocks[..k]), AfterBlocks(s, blocks))
  {
    var n := |blocks| - 1;
    if k == |blocks| {
      assert blocks[..k] == blocks;
    }
    if n >= 0 {
      BlocksPreserve(s, blocks[..n], if k <= n then k else n);
      assert k <= n ==> blocks[..n][..k] == blocks[..k];
      CallsPreserve(AfterBlocks(s, blocks[..n]), blocks[n].calls, blocks[n].time);
    }
  }

  // ---- The chain that the contract writes is the chain that the indexer expects ----

  function Deployed(owner: string): State {
    State(owner, 1, map[], map[])
  }

  function TotalSupply(s: State): int {
    s.nextTokenId - 1
  }

  lemma {:induction false} IssueStores(s: State, m: Mined, time: nat)
    requires Inv(s) && Sendable(m.sender, m.tx)
    ensures var s' := After(s, m.sender, m.tx, time);
            if Issues(s, m, time)
            then s'.nextTokenId == s.nextTokenId + 1
                 && GetCertificate(s', s.nextTokenId) == Some(OnchainOf(m.tx.recipient, m.tx.cert.(issuedAt := time)))
            else s'.nextTokenId == s.nextTokenId
  {
  }

  /** The events of a block carry the tokens it adds, in order, with the data it stores. */
  lemma {:induction false} BlockIssues(s: State, calls: seq<Mined>, time: nat)
    requires Inv(s) && CallSenders(calls)
    ensures |BlockEvents(s, calls, time)| == AfterCalls(s, calls, time).nextTokenId - s.nextTokenId
    ensures forall j :: 0 <= j < |BlockEvents(s, calls, time)| ==>
              var e := BlockEvents(s, calls, time)[j];
              e.tokenID == s.nextTokenId + j && GetCertificate(AfterCalls(s, calls, time), e.tokenID) == Some(e.data)
  {
    if calls != [] {
      hide After, Issues;
      var n := |calls| - 1;
      var before := AfterCalls(s, calls[..n], time);
      CallsPreserve(s, calls[..n], time);
      BlockIssues(s, calls[..n], time);
      CallPreserves(before, calls[n].sender, calls[n].tx, time);
      IssueStores(before, calls[n], time);
    }
  }

  ghost predicate LoggedBy(e: Chains.Event, calls: seq<Mined>) {
    exists k :: 0 <= k < |calls| && calls[k].txHash == e.txHash && calls[k].logIndex == e.logIndex
  }

  lemma {:induction false} BlockLogsDiffer(s: State, calls: seq<Mined>, time: nat)
    requires forall j, k :: 0 <= j < |calls| && 0 <= k < |calls| && SameLog(calls[j], calls[k]) ==> j == k
    ensures forall e :: e in BlockEvents(s, calls, time) ==> LoggedBy(e, calls)
    ensures forall j, l :: 0 <= j < l < |BlockEvents(s, calls, time)| ==>
              var e, e' := BlockEvents(s, calls, time)[j], BlockEvents(s, calls, time)[l];
              !(e.txHash == e'.txHash && e.logIndex == e'.logIndex)
  {
    if calls != [] {
      hide Issues, AfterCalls;
      var n := |calls| - 1;
      BlockLogsDiffer(s, calls[..n], time);
      forall e | e in BlockEvents(s, calls, time) ensures LoggedBy(e, calls) {
        if e in BlockEvents(s, calls[..n], time) {
          var k :| 0 <= k < n && calls[..n][k].txHash == e.txHash && calls[..n][k].logIndex == e.logIndex;
          assert calls[k] == calls[..n][k];
        } else {
          assert calls[n].txHash == e.txHash && calls[n].logIndex == e.logIndex;
        }
      }
      var earlier := BlockEvents(s, calls[..n], time);
      forall j | 0 <= j < |earlier|
        ensures !(earlier[j].txHash == calls[n].txHash && earlier[j].logIndex == calls[n].logIndex)
      {
        assert LoggedBy(earlier[j], calls[..n]);
        var k :| 0 <= k < n && calls[..n][k].txHash == earlier[j].txHash
                 && calls[..n][k].logIndex == earlier[j].logIndex;
        assert !SameLog(calls[k], calls[n]);
      }
    }
  }

  /** What block i adds: its tokens lie between the supplies before and after it. */
  lemma {:induction false} BlockTokens(s: State, blocks: seq<MinedBlock>, i: nat)
    requires Inv(s) && Senders(blocks) && i < |blocks|
    ensures var lo, hi := AfterBlocks(s, blocks[..i]), AfterBlocks(s, blocks[..i + 1]);
            var events := ChainOf(s, blocks)[i].events;
            && |events| == hi.nextTokenId - lo.nextTokenId
            && forall j :: 0 <= j < |events| ==>
                 events[j].tokenID == lo.nextTokenId + j
                 && GetCertificate(AfterBlocks(s, blocks), events[j].tokenID) == Some(events[j].data)
  {
    hide AfterCalls, BlockEvents, Inv;
    assert blocks[..i + 1][..i] == blocks[..i];
    BlocksPreserve(s, blocks, i);
    BlocksPreserve(s, blocks, i + 1);
    BlockIssues(AfterBlocks(s, blocks[..i]), blocks[i].calls, blocks[i].time);
  }

  lemma {:induction false} SuppliesGrow(s: State, blocks: seq<MinedBlock>, i: nat, k: nat)
    requires Inv(s) && Senders(blocks) && i <= k <= |blocks|
    ensures AfterBlocks(s, blocks[..i]).nextTokenId <= AfterBlocks(s, blocks[..k]).nextTokenId
  {
    assert blocks[..k][..i] == blocks[..i];
    BlocksPreserve(s, blocks[..k], i);
  }

  /** Fresh numbering and unique logs are what UniqueEvents asks for. */
  lemma {:induction false} ChainHasUniqueEvents(s: State, blocks: seq<MinedBlock>)
    requires Inv(s) && Senders(blocks) && UniqueLogs(blocks)
    ensures Chains.UniqueEvents(ChainOf(s, blocks))
  {
    var c := ChainOf(s, blocks);
    forall i, j, k, l | 0 <= i < |c| && 0 <= j < |c[i].events| && 0 <= k < |c| && 0 <= l < |c[k].events|
      ensures c[i].events[j].tokenID == c[k].events[l].tokenID ==> i == k && j == l
      ensures c[i].events[j].txHash == c[k].events[l].txHash && c[i].events[j].logIndex == c[k].events[l].logIndex
              ==> i == k && j == l
    {
      EventsDiffer(s, blocks, i, j, k, l);
    }
  }

  lemma {:induction false} EventsDiffer(s: State, blocks: seq<MinedBlock>, i: nat, j: nat, k: nat, l: nat)
    requires Inv(s) && Senders(blocks) && UniqueLogs(blocks)
    requires i < |blocks| && j < |ChainOf(s, blocks)[i].events| && k < |blocks| && l < |ChainOf(s, blocks)[k].events|
    ensures var e, e' := ChainOf(s, blocks)[i].events[j], ChainOf(s, blocks)[k].events[l];
            && (e.tokenID == e'.tokenID ==> i == k && j == l)
            && (e.txHash == e'.txHash && e.logIndex == e'.logIndex ==> i == k && j == l)
  {
    hide AfterBlocks, BlockEvents, Inv;
    BlockTokens(s, blocks, i);
    BlockTokens(s, blocks, k);
    if i < k {
      SuppliesGrow(s, blocks, i + 1, k);
    } else if k < i {
      SuppliesGrow(s, blocks, k + 1, i);
    }
    BlockLogsDiffer(AfterBlocks(s, blocks[..i]), blocks[i].calls, blocks[i].time);
    BlockLogsDiffer(AfterBlocks(s, blocks[..k]), blocks[k].calls, blocks[k].time);
    var e, e' := ChainOf(s, blocks)[i].events[j], ChainOf(s, blocks)[k].events[l];
    assert LoggedBy(e, blocks[i].calls) && LoggedBy(e', blocks[k].calls);
    var p :| 0 <= p < |blocks[i].calls| && blocks[i].calls[p].txHash == e.txHash
             && blocks[i].calls[p].logIndex == e.logIndex;
    var q :| 0 <= q < |blocks[k].calls| && blocks[k].calls[q].txHash == e'.txHash
             && blocks[k].calls[q].logIndex == e'.logIndex;
    assert SameLog(blocks[i].calls[p], blocks[k].calls[q]) ==> i == k;
  }

  /** Read in chain order, the rows are the tokens first, first + 1, ... with the data held at the head. */
  lemma {:induction false} RowsAreTokens(s: State, blocks: seq<MinedBlock>, chainID: int, hi: nat)
    requires Inv(s) && Senders(blocks) && hi <= |blocks|
    ensures var rows := Chains.Rows(ChainOf(s, blocks), chainID, 0, hi);
            && |rows| == AfterBlocks(s, blocks[..hi]).nextTokenId - s.nextTokenId
            && forall k :: 0 <= k < |rows| ==>
                 rows[k].tokenID == s.nextTokenId + k
                 && GetCertificate(AfterBlocks(s, blocks), rows[k].tokenID) == Some(rows[k].data)
  {
    if hi > 0 {
      hide AfterBlocks, BlockEvents, GetCertificate, Senders, Inv;
      var c := ChainOf(s, blocks);
      RowsAreTokens(s, blocks, chainID, hi - 1);
      BlockTokens(s, blocks, hi - 1);
      hide ChainOf;
      assert Chains.Rows(c, chainID, 0, hi)
          == Chains.Rows(c, chainID, 0, hi - 1) + Chains.BlockRows(c[hi - 1], hi - 1, chainID);
    }
  }

  /** Rows numbered from 1 make a table in which token t is row t - 1. */
  lemma {:induction false} FoldOfTokens(rows: seq<Certificate>)
    requires forall k :: 0 <= k < |rows| ==> rows[k].tokenID == 1 + k
    ensures forall t :: t in Chains.Fold(rows) <==> 1 <= t <= |rows|
    ensures forall t :: t in Chains.Fold(rows) ==> Chains.Fold(rows)[t] == rows[t - 1]
  {
    if rows != [] {
      FoldOfTokens(rows[..|rows| - 1]);
    }
  }

  /** The indexer's table over the whole chain holds tokens 1..totalSupply, each with the contract's own data. */
  lemma {:induction false} ProjectionMirrorsContract(owner: string, blocks: seq<MinedBlock>, chainID: int)
    requires Senders(blocks)
    ensures var s := AfterBlocks(Deployed(owner), blocks);
            var table := Chains.Projection(ChainOf(Deployed(owner), blocks), chainID, 0, |blocks|);
            && (forall t :: t in table <==> 1 <= t <= TotalSupply(s))
            && (forall t :: t in table ==> GetCertificate(s, t) == Some(table[t].data))
  {
    hide AfterBlocks, GetCertificate, Chains.Fold, Chains.Rows, BlockEvents;
    assert blocks[..|blocks|] == blocks;
    RowsAreTokens(Deployed(owner), blocks, chainID, |blocks|);
    FoldOfTokens(Chains.Rows(ChainOf(Deployed(owner), blocks), chainID, 0, |blocks|));
  }

  lemma {:induction false} LookupFindsAnEvent(c: Chains.Chain, tokenID: nat)
    requires Chains.GetCertificate(c, tokenID).Some?
    ensures exists i, j :: 0 <= i < |c| && 0 <= j < |c[i].events| && c[i].events[j].tokenID == tokenID
  {
    var n := |c| - 1;
    Chains.FindEventFirst(c[n].events, tokenID);
    if Chains.FindEvent(c[n].events, tokenID).None? {
      LookupFindsAnEvent(c[..n], tokenID);
      var i, j :| 0 <= i < n && 0 <= j < |c[..n][i].events| && c[..n][i].events[j].tokenID == tokenID;
      assert c[i].events[j].tokenID == tokenID;
    }
  }

  lemma {:induction false} EventInSupply(s: State, blocks: seq<MinedBlock>, i: nat, j: nat)
    requires Inv(s) && Senders(blocks) && i < |blocks| && j < |ChainOf(s, blocks)[i].events|
    ensures s.nextTokenId <= ChainOf(s, blocks)[i].events[j].tokenID < AfterBlocks(s, blocks).nextTokenId
  {
    hide ChainOf, Inv;
    BlockTokens(s, blocks, i);
    SuppliesGrow(s, blocks, 0, i);
    SuppliesGrow(s, blocks, i + 1, |blocks|);
    assert blocks[..|blocks|] == blocks;
  }

  /** The node's answer at the head, for every token issued or not, is the contract's view. */
  lemma {:induction false} HeadReadIsTheView(owner: string, blocks: seq<MinedBlock>, tokenID: nat)
    requires Senders(blocks) && UniqueLogs(blocks)
    ensures Chains.GetCertificate(ChainOf(Deployed(owner), blocks), tokenID)
            == GetCertificate(AfterBlocks(Deployed(owner), blocks), tokenID)
  {
    hide AfterBlocks, Chains.GetCertificate, Chains.UniqueEvents;
    var s := AfterBlocks(Deployed(owner), blocks);
    var c := ChainOf(Deployed(owner), blocks);
    var rows := Chains.Rows(c, 0, 0, |blocks|);
    assert blocks[..|blocks|] == blocks;
    ChainHasUniqueEvents(Deployed(owner), blocks);
    RowsAreTokens(Deployed(owner), blocks, 0, |blocks|);
    BlocksPreserve(Deployed(owner), blocks, 0);
    forall i, j | 0 <= i < |c| && 0 <= j < |c[i].events| ensures 1 <= c[i].events[j].tokenID < s.nextTokenId {
      EventInSupply(Deployed(owner), blocks, i, j);
    }
    if 1 <= tokenID < s.nextTokenId {
      Chains.RowsMembers(c, 0, 0, |blocks|);
      var r := rows[tokenID - 1];
      assert r in rows;
      Chains.BackfillAtHead(c, 0, r);
    } else if Chains.GetCertificate(c, tokenID).Some? {
      LookupFindsAnEvent(c, tokenID);
      assert false;
    }
  }

  /** Reads of two moments of one history agree on every token that the earlier one knows. */
  lemma {:induction false} ViewNeverChanges(owner: string, blocks: seq<MinedBlock>, k: nat, tokenID: nat)
    requires Senders(blocks) && k <= |blocks|
    ensures var before := GetCertificate(AfterBlocks(Deployed(owner), blocks[..k]), tokenID);
            before.Some? ==> GetCertificate(AfterBlocks(Deployed(owner), blocks), tokenID) == before
  {
    hide AfterBlocks;
    BlocksPreserve(Deployed(owner), blocks, k);
  }

  /** What an indexed certificate needs beyond what the contract demands. */
  predicate Acceptable(c: Cert) {
    c.title != "" && c.issuerName != ""
  }

  /** Parent-linked blocks, and hashes that are not empty. */
  predicate LinkedBlocks(blocks: seq<MinedBlock>) {
    && (forall i :: 0 <= i < |blocks| ==> blocks[i].hash != "")
    && (forall i :: 0 < i < |blocks| ==> blocks[i].parent == blocks[i - 1].hash)
    && (forall i, j :: 0 <= i < |blocks| && 0 <= j < |blocks[i].calls| ==> blocks[i].calls[j].txHash != "")
  }

  /**
   The contract bounds lengths from above only, so the indexer can follow it exactly when no title or
   issuer is empty.
   */
  lemma {:induction false} IndexableIff(owner: string, blocks: seq<MinedBlock>)
    requires Senders(blocks) && UniqueLogs(blocks) && LinkedBlocks(blocks)
    ensures Chains.ValidChain(ChainOf(Deployed(owner), blocks)) <==>
            forall t :: t in AfterBlocks(Deployed(owner), blocks).certificates ==>
              Acceptable(AfterBlocks(Deployed(owner), blocks).certificates[t])
  {
    hide AfterBlocks, BlockEvents, Chains.UniqueEvents;
    var d := Deployed(owner);
    var s := AfterBlocks(d, blocks);
    var c := ChainOf(d, blocks);
    BlocksPreserve(d, blocks, 0);
    ChainHasUniqueEvents(d, blocks);
    assert Chains.Linked(c);
    if Chains.ValidEvents(c) {
      forall t | t in s.certificates ensures Acceptable(s.certificates[t]) {
        var i, j := EventOf(d, blocks, t);
        EventValidIff(d, blocks, i, j);
        assert Chains.RowOf(c[i].events[j], c[i].hash, i, 0).Valid();
      }
    }
    if forall t :: t in s.certificates ==> Acceptable(s.certificates[t]) {
      forall i, j | 0 <= i < |c| && 0 <= j < |c[i].events|
        ensures Chains.RowOf(c[i].events[j], c[i].hash, i, 0).Valid()
      {
        EventValidIff(d, blocks, i, j);
      }
    }
    assert s == AfterBlocks(Deployed(owner), blocks);
  }

  lemma {:induction false} EventValidIff(s: State, blocks: seq<MinedBlock>, i: nat, j: nat)
    requires Inv(s) && Senders(blocks) && UniqueLogs(blocks) && LinkedBlocks(blocks)
    requires i < |blocks| && j < |ChainOf(s, blocks)[i].events|
    ensures var b := ChainOf(s, blocks)[i];
            var certs := AfterBlocks(s, blocks).certificates;
            && b.events[j].tokenID in certs
            && (Chains.RowOf(b.events[j], b.hash, i, 0).Valid() <==> Acceptable(certs[b.events[j].tokenID]))
  {
    hide AfterBlocks, BlockEvents;
    EventIsStored(s, blocks, i, j);
  }

  lemma {:induction false} EventIsStored(s: State, blocks: seq<MinedBlock>, i: nat, j: nat)
    requires Inv(s) && Senders(blocks) && UniqueLogs(blocks) && i < |blocks| && j < |ChainOf(s, blocks)[i].events|
    ensures var s' := AfterBlocks(s, blocks);
            var e := ChainOf(s, blocks)[i].events[j];
            && GetCertificate(s', e.tokenID) == Some(e.data)
            && e.data.owner != ZERO_ADDRESS && e.data.owner != ""
            && LoggedBy(e, blocks[i].calls)
  {
    hide AfterBlocks, BlockEvents;
    BlockTokens(s, blocks, i);
    BlocksPreserve(s, blocks, 0);
    BlockLogsDiffer(AfterBlocks(s, blocks[..i]), blocks[i].calls, blocks[i].time);
  }

  lemma {:induction false} EventOf(s: State, blocks: seq<MinedBlock>, t: nat) returns (i: nat, j: nat)
    requires Inv(s) && Senders(blocks) && s.nextTokenId <= t < AfterBlocks(s, blocks).nextTokenId
    ensures i < |blocks| && j < |ChainOf(s, blocks)[i].events| && ChainOf(s, blocks)[i].events[j].tokenID == t
  {
    hide AfterBlocks, BlockEvents, Inv;
    var c := ChainOf(s, blocks);
    assert blocks[..|blocks|] == blocks;
    RowsAreTokens(s, blocks, 0, |blocks|);
    Chains.RowsMembers(c, 0, 0, |blocks|);
    var r := Chains.Rows(c, 0, 0, |blocks|)[t - s.nextTokenId];
    i := r.blockNumber;
    assert Chains.IsRow(c, 0, 0, |blocks|, r);
    j :| j < |c[i].events| && Chains.BlockRows(c[i], i, 0)[j] == r;
  }

  // ---- Who issued what ----

  /**
   Call k of block i issued token t: the owner sent it, and it is stored word for word, under the time of its
   block.
   */
  ghost predicate IssuedBy(s: State, blocks: seq<MinedBlock>, t: nat, i: nat, k: nat) {
    && i < |blocks| && k < |blocks[i].calls|
    && var before, m := AfterCalls(AfterBlocks(s, blocks[..i]), blocks[i].calls[..k], blocks[i].time),
        blocks[i].calls[k];
    && before.nextTokenId == t && m.tx.Issue? && m.sender == before.owner && before.owner != ZERO_ADDRESS
    && var after := AfterBlocks(s, blocks);
    && t in after.holders && after.holders[t] == m.tx.recipient
    && t in after.certificates
    && after.certificates[t].title == m.tx.cert.title
    && after.certificates[t].recipientName == m.tx.cert.recipientName
    && after.certificates[t].issuerName == m.tx.cert.issuerName
    && after.certificates[t].description == m.tx.cert.description
    && after.certificates[t].metadataURI == m.tx.cert.metadataURI
    && after.certificates[t].issuedAt == blocks[i].time
  }

  /** An event tells of one call of its block. */
  ghost predicate TellsOf(e: Chains.Event, s: State, calls: seq<Mined>, time: nat, k: nat) {
    && k < |calls|
    && var before, m := AfterCalls(s, calls[..k], time), calls[k];
    && e.tokenID == before.nextTokenId && m.tx.Issue? && m.sender == before.owner
    && e.txHash == m.txHash && e.logIndex == m.logIndex
    && e.data.owner == m.tx.recipient
    && e.data.title == m.tx.cert.title
    && e.data.recipientName == m.tx.cert.recipientName
    && e.data.issuerName == m.tx.cert.issuerName
    && e.data.description == m.tx.cert.description
    && e.data.metadataURI == m.tx.cert.metadataURI
    && e.data.issuedAt == time
  }

  lemma {:induction false} EventCall(s: State, calls: seq<Mined>, time: nat, j: nat) returns (k: nat)
    requires j < |BlockEvents(s, calls, time)|
    ensures TellsOf(BlockEvents(s, calls, time)[j], s, calls, time, k)
  {
    hide AfterCalls;
    var n := |calls| - 1;
    var earlier := BlockEvents(s, calls[..n], time);
    if j < |earlier| {
      k := EventCall(s, calls[..n], time, j);
      assert calls[..n][..k] == calls[..k] && calls[..n][k] == calls[k];
    } else {
      k := n;
    }
  }

  /** Each token was issued by whoever owned the contract then, and the contract still holds what that call said. */
  lemma {:induction false} EveryTokenWasIssued(owner: string, blocks: seq<MinedBlock>, t: nat) returns (i: nat, k: nat)
    requires Senders(blocks) && 1 <= t <= TotalSupply(AfterBlocks(Deployed(owner), blocks))
    ensures IssuedBy(Deployed(owner), blocks, t, i, k)
  {
    var d := Deployed(owner);
    var j: nat;
    hide AfterBlocks, AfterCalls, BlockEvents, Inv;
    assert Inv(d) by { DeployedOk(owner); }
    i, j := EventOf(d, blocks, t);
    k := TokenIssued(d, blocks, i, j);
  }

  lemma {:induction false} DeployedOk(owner: string)
    ensures Inv(Deployed(owner))
  {
  }

  lemma {:induction false} TokenIssued(s: State, blocks: seq<MinedBlock>, i: nat, j: nat) returns (k: nat)
    requires Inv(s) && Senders(blocks) && i < |blocks| && j < |ChainOf(s, blocks)[i].events|
    ensures var e := ChainOf(s, blocks)[i].events[j];
            && TellsOf(e, AfterBlocks(s, blocks[..i]), blocks[i].calls, blocks[i].time, k)
            && IssuedBy(s, blocks, e.tokenID, i, k)
  {
    hide AfterBlocks, AfterCalls, BlockEvents, Inv;
    var before, calls := AfterBlocks(s, blocks[..i]), blocks[i].calls;
    BlockTokens(s, blocks, i);
    k := EventCall(before, calls, blocks[i].time, j);
    SenderIsNobody(s, blocks, i, k);
  }

  lemma {:induction false} SenderIsNobody(s: State, blocks: seq<MinedBlock>, i: nat, k: nat)
    requires Senders(blocks) && i < |blocks| && k < |blocks[i].calls|
    ensures blocks[i].calls[k].sender != ZERO_ADDRESS
  {
    assert CallSenders(blocks[i].calls);
  }

  /** Once the ownership is renounced, nothing changes any more. */
  lemma {:induction false} RenouncedCalls(s: State, calls: seq<Mined>, time: nat)
    requires Inv(s) && s.owner == ZERO_ADDRESS && CallSenders(calls)
    ensures AfterCalls(s, calls, time) == s
  {
    if calls != [] {
      hide Inv, Call;
      var n := |calls| - 1;
      RenouncedCalls(s, calls[..n], time);
      if Call(s, calls[n].sender, calls[n].tx, time).Ok? {
        OnlyTheOwnerActs(s, calls[n].sender, calls[n].tx, time);
      }
    }
  }

  lemma {:induction false} RenouncedForGood(s: State, blocks: seq<MinedBlock>, k: nat)
    requires Inv(s) && Senders(blocks) && k <= |blocks| && AfterBlocks(s, blocks[..k]).owner == ZERO_ADDRESS
    ensures AfterBlocks(s, blocks) == AfterBlocks(s, blocks[..k])
  {
    if k == |blocks| {
      assert blocks[..k] == blocks;
    } else {
      hide Inv, AfterCalls;
      var n := |blocks| - 1;
      assert blocks[..n][..k] == blocks[..k];
      RenouncedForGood(s, blocks[..n], k);
      BlocksPreserve(s, blocks, n);
      RenouncedCalls(AfterBlocks(s, blocks[..n]), blocks[n].calls, blocks[n].time);
    }
  }

  /** No stored text is longer than the contract allows. */
  ghost predicate AllFit(s: State) {
    forall t :: t in s.certificates ==>
      && |s.certificates[t].title| <= 200
      && |s.certificates[t].recipientName| <= 100
      && |s.certificates[t].issuerName| <= 100
      && |s.certificates[t].description| <= 1000
      && |s.certificates[t].metadataURI| <= 300
  }

  lemma {:induction false} CallsFit(s: State, calls: seq<Mined>, time: nat)
    requires AllFit(s)
    ensures AllFit(AfterCalls(s, calls, time))
  {
    if calls != [] {
      hide Call, AllFit;
      var n := |calls| - 1;
      CallsFit(s, calls[..n], time);
      CallFits(AfterCalls(s, calls[..n], time), calls[n].sender, calls[n].tx, time);
    }
  }

  lemma {:induction false} CallFits(s: State, sender: string, tx: Tx, now: nat)
    requires AllFit(s)
    ensures AllFit(After(s, sender, tx, now))
  {
  }

  lemma {:induction false} EverythingFits(owner: string, blocks: seq<MinedBlock>)
    ensures AllFit(AfterBlocks(Deployed(owner), blocks))
  {
    if blocks != [] {
      hide AllFit, AfterCalls;
      var n := |blocks| - 1;
      EverythingFits(owner, blocks[..n]);
      CallsFit(AfterBlocks(Deployed(owner), blocks[..n]), blocks[n].calls, blocks[n].time);
    } else {
      assert AfterBlocks(Deployed(owner), blocks) == Deployed(owner);
    }
  }
}
