/** Values shared by the indexer's modules: certificates, logs and the checkpoint. */
module Domain {

  datatype Option<+T> = None | Some(value: T)

  datatype Result<+T, +E> = Ok(value: T) | Err(error: E)

  const ZERO_ADDRESS := "0x0000000000000000000000000000000000000000"

  // The Unix second of Go's zero time (1 January of year 1), for which IsZero holds.
  const ZERO_TIME := -62135596800

  /** What the contract stores for a token, together with its holder. */
  datatype OnchainCertificate = OnchainCertificate(
    owner: string,
    title: string,
    recipientName: string,
    issuerName: string,
    description: string,
    metadataURI: string,
    issuedAt: int)

  /** The decoded CertificateIssued event: identity and provenance only. */
  datatype IssuedLog = IssuedLog(tokenID: nat, blockNumber: nat, blockHash: string, txHash: string, logIndex: nat)

  /** One row of the certificates table. */
  datatype Certificate = Certificate(
    tokenID: nat,
    data: OnchainCertificate,
    chainID: int,
    txHash: string,
    logIndex: nat,
    blockNumber: nat,
    blockHash: string)
  {
    predicate Valid() {
      && data.owner != ZERO_ADDRESS && data.owner != ""
      && data.title != ""
      && data.issuerName != ""
      && data.issuedAt != ZERO_TIME
      && txHash != ""
      && blockHash != ""
    }

    /** The table's second unique key. */
    function EventKey(): (int, string, nat) {
      (chainID, txHash, logIndex)
    }

    /** The outbox's unique key. */
    function OutboxKey(): (int, string, nat) {
      (chainID, txHash, tokenID)
    }
  }

  function NewIndexedCertificate(l: IssuedLog, data: OnchainCertificate, chainID: int): Option<Certificate> {
    var c := Certificate(l.tokenID, data, chainID, l.txHash, l.logIndex, l.blockNumber, l.blockHash);
    if c.Valid() then Some(c) else None
  }

  /** A log and its data make a row unless one of seven things is missing, and the row says what they say. */
  lemma {:induction false} IndexedIff(l: IssuedLog, data: OnchainCertificate, chainID: int)
    ensures var r := NewIndexedCertificate(l, data, chainID);
            && (r.None? <==>
                  || data.owner == "" || data.owner == "0x0000000000000000000000000000000000000000"
                  || data.title == "" || data.issuerName == "" || data.issuedAt == -62135596800
                  || l.txHash == "" || l.blockHash == "")
            && (r.Some? ==>
                  && r.value.tokenID == l.tokenID && r.value.data == data && r.value.chainID == chainID
                  && r.value.txHash == l.txHash && r.value.logIndex == l.logIndex
                  && r.value.blockNumber == l.blockNumber && r.value.blockHash == l.blockHash)
  {
  }

  datatype IndexerState = IndexerState(chainID: int, lastBlock: nat, lastHash: string)

  function Min(a: int, b: int): int {
    if a <= b then a else b
  }

  function Max(a: int, b: int): int {
    if a <= b then b else a
  }
}
