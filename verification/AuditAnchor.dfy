/**
 * The audit log's hash chain, the anchors that record its tail, and the exported list of anchors against
 * which a database can be checked even when the anchors themselves are gone.
 */
module AuditAnchor {
  import opened Common

  // ----- Tables -----

  /** `payload` is the canonical form of the row's own columns. */
  datatype LogRow = LogRow(chainSeq: int, payload: string, prevHash: string, rowHash: string)

  datatype Anchor = Anchor(id: Id, chainSeq: int, rowHash: string, entryCount: int, anchoredAt: int, anchoredBy: string)

  /** Both tables in the order of their unique sequence number. */
  datatype Database = Database(log: seq<LogRow>, anchors: seq<Anchor>)

  /** The unique indexes on chain_seq. */
  predicate Table(db: Database) {
    && (forall i, j :: 0 <= i < j < |db.log| ==> db.log[i].chainSeq < db.log[j].chainSeq)
    && (forall i, j :: 0 <= i < j < |db.anchors| ==> db.anchors[i].chainSeq < db.anchors[j].chainSeq)
  }

  /** SHA-256 over a row, over the list of anchors, and HMAC over a digest. */
  datatype Crypto = Crypto(row: (string, string) -> string, digest: seq<Anchor> -> string,
                           sign: (string, string) -> string)

  /** Thirty-two zero bytes. */
  const GENESIS := "0000000000000000000000000000000000000000000000000000000000000000"

  function TailSeq(log: seq<LogRow>): int {
    if log == [] then 0 else log[|log| - 1].chainSeq
  }

  function TailHash(log: seq<LogRow>): string {
    if log == [] then GENESIS else log[|log| - 1].rowHash
  }

  /** The insert trigger links a row to the tail. */
  function Append(c: Crypto, db: Database, payload: string): Database {
    var row := LogRow(TailSeq(db.log) + 1, payload, TailHash(db.log), c.row(TailHash(db.log), payload));
    db.(log := db.log + [row])
  }

  function AnchorAt(anchors: seq<Anchor>, chainSeq: int): Option<Anchor> {
    if anchors == [] then None
    else if anchors[|anchors| - 1].chainSeq == chainSeq then Some(anchors[|anchors| - 1])
    else AnchorAt(anchors[..|anchors| - 1], chainSeq)
  }

  function RowAt(log: seq<LogRow>, chainSeq: int): Option<LogRow> {
    if log == [] then None
    else if log[|log| - 1].chainSeq == chainSeq then Some(log[|log| - 1])
    else RowAt(log[..|log| - 1], chainSeq)
  }

  datatype RecordInput = RecordInput(id: Id, anchoredBy: string, now: int)

  /** An anchor for the present tail, unless there is one already or there is no tail. */
  function Record(db: Database, x: RecordInput): Database {
    if db.log == [] || AnchorAt(db.anchors, TailSeq(db.log)).Some? then db
    else db.(anchors := db.anchors + [Anchor(x.id, TailSeq(db.log), TailHash(db.log), |db.log|, x.now,
                                             Clip(x.anchoredBy, 160))])
  }

  // ----- Exports -----

  const FORMAT := "riverton-audit-anchor-export/v1"

  datatype Document = Document(
    format: string, exportedAt: int, exportedBy: string, anchorCount: nat, anchors: seq<Anchor>, digest: string,
    signed: bool, signature: Option<string>)

  /** No key and an empty key are the same. */
  function Signature(c: Crypto, digest: string, key: Option<string>): Option<string> {
    if key.None? || key.value == "" then None else Some(c.sign(key.value, digest))
  }

  function Export(c: Crypto, db: Database, exportedBy: string, now: int, key: Option<string>): Document {
    var digest := c.digest(db.anchors);
    var signature := Signature(c, digest, key);
    Document(FORMAT, now, exportedBy, |db.anchors|, db.anchors, digest, signature.Some?, signature)
  }

  // ----- Checks -----

  datatype Reason =
    | FormatUnknown
    | DigestMismatch
    | KeyMissing
    | SignatureMismatch
    | AnchorDeleted
    | AnchorRewritten
    | RowDeleted
    | RowRewritten
    | RowsLost

  datatype Violation = Violation(chainSeq: Option<int>, reason: Reason)

  function Found(chainSeq: int, holds: bool, reason: Reason): seq<Violation> {
    if holds then [Violation(Some(chainSeq), reason)] else []
  }

  /** What is wrong about one exported anchor. */
  function Check(db: Database, a: Anchor): seq<Violation> {
    var stored, row := AnchorAt(db.anchors, a.chainSeq), RowAt(db.log, a.chainSeq);
    Found(a.chainSeq, stored.None?, AnchorDeleted)
    + Found(a.chainSeq, stored.Some? && stored.value.rowHash != a.rowHash, AnchorRewritten)
    + Found(a.chainSeq, row.None?, RowDeleted)
    + Found(a.chainSeq, row.Some? && row.value.rowHash != a.rowHash, RowRewritten)
    + Found(a.chainSeq, |db.log| < a.entryCount, RowsLost)
  }

  function CheckAll(db: Database, anchors: seq<Anchor>): seq<Violation> {
    if anchors == [] then []
    else CheckAll(db, anchors[..|anchors| - 1]) + Check(db, anchors[|anchors| - 1])
  }

  function Verify(c: Crypto, db: Database, doc: Document, key: Option<string>): seq<Violation> {
    if doc.format != FORMAT then [Violation(None, FormatUnknown)]
    else if c.digest(doc.anchors) != doc.digest then [Violation(None, DigestMismatch)]
    else
      var signature := Signature(c, doc.digest, key);
      if doc.signed && signature.Some? && signature != doc.signature then [Violation(None, SignatureMismatch)]
      else (if doc.signed && signature.None? then [Violation(None, KeyMissing)] else []) + CheckAll(db, doc.anchors)
  }

  /** The check the database makes of its own anchors: at most one finding for each. */
  function CheckOwn(db: Database, a: Anchor): seq<Violation> {
    var row := RowAt(db.log, a.chainSeq);
    if row.None? then [Violation(Some(a.chainSeq), RowDeleted)]
    else if row.value.rowHash != a.rowHash then [Violation(Some(a.chainSeq), RowRewritten)]
    else Found(a.chainSeq, |db.log| < a.entryCount, RowsLost)
  }

  function VerifyOwn(db: Database, anchors: seq<Anchor>): seq<Violation> {
    if anchors == [] then []
    else VerifyOwn(db, anchors[..|anchors| - 1]) + CheckOwn(db, anchors[|anchors| - 1])
  }

  // ----- The chain -----

  predicate Linked(c: Crypto, log: seq<LogRow>, i: nat)
    requires i < |log|
  {
    && log[i].chainSeq == i + 1 && log[i].prevHash == TailHash(log[..i])
    && log[i].rowHash == c.row(log[i].prevHash, log[i].payload)
  }

  /** Numbered from one without a gap, each row linked to the one before and matching its hash. */
  predicate ChainOk(c: Crypto, log: seq<LogRow>) {
    forall i :: 0 <= i < |log| ==> Linked(c, log, i)
  }

  datatype ChainReason = GapInSequence | PreviousHashMismatch | ContentMismatch

  datatype ChainViolation = ChainViolation(chainSeq: int, reason: ChainReason)

  // ----- Runs -----

  datatype Step = AppendStep(payload: string) | RecordStep(record: RecordInput)

  function Next(c: Crypto, db: Database, s: Step): Database {
    match s
    case AppendStep(payload) => Append(c, db, payload)
    case RecordStep(x) => Record(db, x)
  }

  function Run(c: Crypto, db: Database, steps: seq<Step>): Database
    decreases |steps|
  {
    if steps == [] then db else Run(c, Next(c, db, steps[0]), steps[1..])
  }

  const EMPTY := Database([], [])

  // ----- The service -----

  datatype Recorded = Recorded(chainSeq: int, entryCount: int, rowHash: string, created: bool)

  class AuditStore {
    const crypto: Crypto
    var log: seq<LogRow>
    var anchors: seq<Anchor>

    constructor (crypto: Crypto)
      ensures this.crypto == crypto && State() == EMPTY
    {
      this.crypto := crypto;
      log, anchors := [], [];
    }

    function State(): Database
      reads this
    {
      Database(log, anchors)
    }

    method AppendRow(payload: string)
      modifies `log
      ensures State() == Append(crypto, old(State()), payload)
    {
      var prevHash := TailHash(log);
      log := log + [LogRow(TailSeq(log) + 1, payload, prevHash, crypto.row(prevHash, payload))];
    }

    method RecordAuditChainAnchor(x: RecordInput) returns (r: Option<Recorded>)
      modifies `anchors
      ensures State() == Record(old(State()), x)
      ensures r.None? <==> log == []
      ensures r.Some? ==> r.value == Recorded(TailSeq(log), |log|, TailHash(log), State() != old(State()))
    {
      if log == [] {
        return None;
      }
      var tail := log[|log| - 1];
      var created := AnchorAt(anchors, tail.chainSeq).None?;
      if created {
        anchors := anchors + [Anchor(x.id, tail.chainSeq, tail.rowHash, |log|, x.now, Clip(x.anchoredBy, 160))];
      }
      return Some(Recorded(tail.chainSeq, |log|, tail.rowHash, created));
    }

    method CheckAnchor(anchor: Anchor, currentCount: nat) returns (found: seq<Violation>)
      requires currentCount == |log|
      ensures found == Check(State(), anchor)
    {
      found := [];
      var stored := AnchorAt(anchors, anchor.chainSeq);
      if stored.None? {
        found := found + [Violation(Some(anchor.chainSeq), AnchorDeleted)];
      } else if stored.value.rowHash != anchor.rowHash {
        found := found + [Violation(Some(anchor.chainSeq), AnchorRewritten)];
      }
      var logRow := RowAt(log, anchor.chainSeq);
      if logRow.None? {
        found := found + [Violation(Some(anchor.chainSeq), RowDeleted)];
      } else if logRow.value.rowHash != anchor.rowHash {
        found := found + [Violation(Some(anchor.chainSeq), RowRewritten)];
      }
      if currentCount < anchor.entryCount {
        found := found + [Violation(Some(anchor.chainSeq), RowsLost)];
      }
    }

    method CheckAnchors(exported: seq<Anchor>) returns (found: seq<Violation>)
      ensures found == CheckAll(State(), exported)
    {
      found := [];
      var currentCount := |log|;
      for i := 0 to |exported|
        invariant found == CheckAll(State(), exported[..i])
      {
        assert exported[..i + 1][..i] == exported[..i];
        var more := CheckAnchor(exported[i], currentCount);
        found := found + more;
      }
      assert exported[..|exported|] == exported;
    }

    method VerifyAuditAnchorExport(doc: Document, key: Option<string>) returns (violations: seq<Violation>)
      ensures violations == Verify(crypto, State(), doc, key)
    {
      violations := [];
      if doc.format != FORMAT {
        return [Violation(None, FormatUnknown)];
      }
      if crypto.digest(doc.anchors) != doc.digest {
        return [Violation(None, DigestMismatch)];
      }
      if doc.signed {
        var signature := Signature(crypto, doc.digest, key);
        if signature.None? {
          violations := violations + [Violation(None, KeyMissing)];
        } else if signature != doc.signature {
          return [Violation(None, SignatureMismatch)];
        }
      }
      var found := CheckAnchors(doc.anchors);
      violations := violations + found;
    }

    /** The database function that walks the whole chain in order. */
    method VerifyAuditLogChain() returns (violations: seq<ChainViolation>)
      ensures violations == [] <==> ChainOk(crypto, log)
    {
      violations := [];
      var expectedPrev := GENESIS;
      var expectedSeq := 1;
      for i := 0 to |log|
        invariant violations == [] <==> ChainOk(crypto, log[..i])
        invariant expectedPrev == TailHash(log[..i])
        invariant violations == [] ==> expectedSeq == i + 1
      {
        var row := log[i];
        ghost var earlier := violations;
        if row.chainSeq != expectedSeq {
          violations := violations + [ChainViolation(row.chainSeq, GapInSequence)];
        }
        if row.prevHash != expectedPrev {
          violations := violations + [ChainViolation(row.chainSeq, PreviousHashMismatch)];
        }
        if row.rowHash != crypto.row(row.prevHash, row.payload) {
          violations := violations + [ChainViolation(row.chainSeq, ContentMismatch)];
        }
        ChainOneMore(crypto, log, i);
        expectedPrev := row.rowHash;
        expectedSeq := row.chainSeq + 1;
      }
      assert log[..|log|] == log;
    }
  }

  lemma ChainOneMore(c: Crypto, log: seq<LogRow>, n: nat)
    requires n < |log|
    ensures ChainOk(c, log[..n + 1]) <==> ChainOk(c, log[..n]) && Linked(c, log, n)
  {
    var shorter, longer := log[..n], log[..n + 1];
    forall i | 0 <= i < n ensures Linked(c, longer, i) <==> Linked(c, shorter, i) {
      assert longer[..i] == shorter[..i];
    }
    assert longer[..n] == shorter;
    assert Linked(c, longer, n) <==> Linked(c, log, n);
    if ChainOk(c, longer) {
      forall i | 0 <= i < n ensures Linked(c, shorter, i) {
        assert Linked(c, longer, i);
      }
    }
  }
}
