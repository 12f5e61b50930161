/** What the anchors protect. */
module AuditAnchorLaws {
  import opened Common
  import opened AuditAnchor

  // ----- Honest runs -----

  /** The anchor records a row of the log, and how many rows there were then. */
  predicate Records(log: seq<LogRow>, a: Anchor) {
    && 1 <= a.chainSeq <= |log| && log[a.chainSeq - 1].rowHash == a.rowHash && a.entryCount == a.chainSeq
  }

  predicate Honest(c: Crypto, db: Database) {
    && Table(db) && ChainOk(c, db.log)
    && forall i :: 0 <= i < |db.anchors| ==> Records(db.log, db.anchors[i])
  }

  lemma {:induction false} AnchorAtFinds(anchors: seq<Anchor>, chainSeq: int)
    ensures AnchorAt(anchors, chainSeq).Some? ==>
      AnchorAt(anchors, chainSeq).value in anchors && AnchorAt(anchors, chainSeq).value.chainSeq == chainSeq
    ensures AnchorAt(anchors, chainSeq).None? ==> forall i :: 0 <= i < |anchors| ==> anchors[i].chainSeq != chainSeq
  {
    if anchors != [] && anchors[|anchors| - 1].chainSeq != chainSeq {
      AnchorAtFinds(anchors[..|anchors| - 1], chainSeq);
    }
  }

  lemma {:induction false} AnchorAtIs(anchors: seq<Anchor>, i: nat)
    requires i < |anchors| && forall j, k :: 0 <= j < k < |anchors| ==> anchors[j].chainSeq < anchors[k].chainSeq
    ensures AnchorAt(anchors, anchors[i].chainSeq) == Some(anchors[i])
  {
    if i < |anchors| - 1 {
      AnchorAtIs(anchors[..|anchors| - 1], i);
    }
  }

  /** In a chain the row with a number is at its place. */
  lemma {:induction false} RowAtIs(c: Crypto, log: seq<LogRow>, chainSeq: int)
    requires ChainOk(c, log)
    ensures RowAt(log, chainSeq) == if 1 <= chainSeq <= |log| then Some(log[chainSeq - 1]) else None
  {
    if log != [] {
      assert Linked(c, log, |log| - 1);
      assert ChainOk(c, log[..|log| - 1]) by {
        assert log[..|log| - 1 + 1] == log;
        ChainOneMore(c, log, |log| - 1);
      }
      RowAtIs(c, log[..|log| - 1], chainSeq);
    }
  }

  lemma AppendKeepsHonest(c: Crypto, db: Database, payload: string)
    requires Honest(c, db)
    ensures Honest(c, Append(c, db, payload))
  {
    var after := Append(c, db, payload);
    var n := |db.log|;
    assert n > 0 ==> Linked(c, db.log, n - 1);
    assert after.log[..n] == db.log && after.log[..n + 1] == after.log;
    assert Linked(c, after.log, n);
    ChainOneMore(c, after.log, n);
    forall i, j | 0 <= i < j < |after.log| ensures after.log[i].chainSeq < after.log[j].chainSeq {
      assert Linked(c, after.log, i) && Linked(c, after.log, j);
    }
    forall i | 0 <= i < |after.anchors| ensures Records(after.log, after.anchors[i]) {
      assert Records(db.log, db.anchors[i]);
    }
  }

  lemma RecordKeepsHonest(c: Crypto, db: Database, x: RecordInput)
    requires Honest(c, db)
    ensures Honest(c, Record(db, x))
  {
    var after := Record(db, x);
    if after != db {
      var n := |db.log|;
      assert Linked(c, db.log, n - 1);
      AnchorAtFinds(db.anchors, n);
      forall i | 0 <= i < |db.anchors| ensures db.anchors[i].chainSeq < n {
        assert Records(db.log, db.anchors[i]);
      }
    }
  }

  /**
   * The tail of a log that is not empty is anchored once: an anchor that is there stays the only one, and otherwise
   * one is added with the number and hash of the tail, the time, and the first 160 characters of the name.
   */
  lemma TailIsAnchoredOnce(db: Database, x: RecordInput, y: RecordInput)
    requires db.log != []
    ensures var after, tail := Record(db, x), db.log[|db.log| - 1];
      && after.log == db.log && Record(after, y) == after
      && ((exists a :: a in db.anchors && a.chainSeq == tail.chainSeq) ==> after == db)
      && ((forall a :: a in db.anchors ==> a.chainSeq != tail.chainSeq) ==>
            exists a ::
              && after.anchors == db.anchors + [a] && a.id == x.id && a.chainSeq == tail.chainSeq
              && a.rowHash == tail.rowHash && a.entryCount == |db.log| && a.anchoredAt == x.now
              && a.anchoredBy <= x.anchoredBy
              && |a.anchoredBy| == (if |x.anchoredBy| < 160 then |x.anchoredBy| else 160))
  {
    var tail := db.log[|db.log| - 1].chainSeq;
    AnchorAtFinds(db.anchors, tail);
    AnchorAtFinds(Record(db, x).anchors, tail);
  }

  lemma {:induction false} RunKeepsHonest(c: Crypto, db: Database, steps: seq<Step>)
    requires Honest(c, db)
    ensures Honest(c, Run(c, db, steps))
    decreases |steps|
  {
    if steps != [] {
      match steps[0] {
        case AppendStep(payload) => AppendKeepsHonest(c, db, payload);
        case RecordStep(x) => RecordKeepsHonest(c, db, x);
      }
      RunKeepsHonest(c, Next(c, db, steps[0]), steps[1..]);
    }
  }

  lemma {:induction false} RunExtends(c: Crypto, db: Database, steps: seq<Step>)
    ensures db.log <= Run(c, db, steps).log && db.anchors <= Run(c, db, steps).anchors
    decreases |steps|
  {
    if steps != [] {
      RunExtends(c, Next(c, db, steps[0]), steps[1..]);
    }
  }

  // ----- What a clean check means -----

  /** The anchor and its log row are still there with the exported hash, and no rows were lost. */
  predicate Intact(db: Database, a: Anchor) {
    && AnchorAt(db.anchors, a.chainSeq).Some? && AnchorAt(db.anchors, a.chainSeq).value.rowHash == a.rowHash
    && RowAt(db.log, a.chainSeq).Some? && RowAt(db.log, a.chainSeq).value.rowHash == a.rowHash
    && |db.log| >= a.entryCount
  }

  lemma CheckIsClean(db: Database, a: Anchor)
    ensures Check(db, a) == [] <==> Intact(db, a)
  {
  }

  lemma {:induction false} CheckAllIsClean(db: Database, anchors: seq<Anchor>)
    ensures CheckAll(db, anchors) == [] <==> forall i :: 0 <= i < |anchors| ==> Intact(db, anchors[i])
  {
    if anchors != [] {
      var front, last := anchors[..|anchors| - 1], anchors[|anchors| - 1];
      CheckAllIsClean(db, front);
      CheckIsClean(db, last);
      assert (forall i :: 0 <= i < |anchors| ==> Intact(db, anchors[i])) <==>
        (forall i :: 0 <= i < |front| ==> Intact(db, front[i])) && Intact(db, last) by {
        forall i | 0 <= i < |front| ensures front[i] == anchors[i] {
        }
      }
    }
  }

  /** The document is in the known format, matches its digest, and carries the right signature if it is signed. */
  predicate Genuine(c: Crypto, doc: Document, key: Option<string>) {
    && doc.format == FORMAT && c.digest(doc.anchors) == doc.digest
    && (doc.signed ==> Signature(c, doc.digest, key).Some? && Signature(c, doc.digest, key) == doc.signature)
  }

  /**
   * For any database whatever, tampered with or not, the check is clean exactly when the document is genuine and
   * every exported anchor is intact: still stored, and its log row still there, both with the exported hash. What
   * is checked is the exported list, so an anchor deleted from the database is reported.
   */
  lemma VerifyIsCleanIff(c: Crypto, db: Database, doc: Document, key: Option<string>)
    ensures Verify(c, db, doc, key) == [] <==>
      Genuine(c, doc, key) && forall i :: 0 <= i < |doc.anchors| ==> Intact(db, doc.anchors[i])
  {
    CheckAllIsClean(db, doc.anchors);
  }

  /** Another signature for the same document. */
  function Resigned(doc: Document, signature: Option<string>): Document {
    doc.(signature := signature)
  }

  /**
   * Whether a signature is asked for is a field of the document itself: the signature has a say in the verdict
   * exactly when the document is in the known format, matches its digest and calls itself signed, and a key is given.
   */
  lemma SignatureCountsIff(c: Crypto, db: Database, doc: Document, key: Option<string>)
    ensures (exists s :: Verify(c, db, Resigned(doc, s), key) != Verify(c, db, doc, key)) <==>
      doc.format == FORMAT && c.digest(doc.anchors) == doc.digest && doc.signed && key.Some? && key.value != ""
  {
    if doc.format == FORMAT && c.digest(doc.anchors) == doc.digest && doc.signed && key.Some? && key.value != "" {
      var right := Resigned(doc, Signature(c, doc.digest, key));
      var wrong := Resigned(doc, None);
      FindingsAreNumbered(db, doc.anchors);
      assert Verify(c, db, right, key) == CheckAll(db, doc.anchors);
      assert Verify(c, db, wrong, key)[0].chainSeq.None?;
    }
  }

  lemma {:induction false} FindingsAreNumbered(db: Database, anchors: seq<Anchor>)
    ensures forall i :: 0 <= i < |CheckAll(db, anchors)| ==> CheckAll(db, anchors)[i].chainSeq.Some?
  {
    if anchors != [] {
      FindingsAreNumbered(db, anchors[..|anchors| - 1]);
    }
  }

  /**
   * So a document made without a key is judged by its anchors alone, under every key: a list of anchors rewritten
   * together with its digest, and with `signed` false, verifies clean exactly when the listed anchors are intact.
   */
  lemma UnsignedNeedsNoKey(c: Crypto, db: Database, anchors: seq<Anchor>, exporter: string, now: int,
                           key: Option<string>)
    ensures var doc := Export(c, Database(db.log, anchors), exporter, now, None);
      && Verify(c, db, doc, key) == CheckAll(db, anchors)
      && (Verify(c, db, doc, key) == [] <==> forall i :: 0 <= i < |anchors| ==> Intact(db, anchors[i]))
  {
    CheckAllIsClean(db, anchors);
  }

  lemma EmptyIsHonest(c: Crypto)
    ensures Honest(c, EMPTY)
  {
  }

  lemma AnchorStaysIntact(c: Crypto, db: Database, after: Database, i: nat)
    requires Honest(c, db) && Honest(c, after) && i < |db.anchors|
    requires db.log <= after.log && db.anchors <= after.anchors
    ensures Intact(after, db.anchors[i])
  {
    assert Records(db.log, db.anchors[i]) && after.anchors[i] == db.anchors[i];
    AnchorAtIs(after.anchors, i);
    RowAtIs(c, after.log, db.anchors[i].chainSeq);
  }

  /** An export of an honest database stays clean through every honest continuation, under the same key. */
  lemma HonestExportStaysClean(c: Crypto, before: seq<Step>, exporter: string, now: int, key: Option<string>,
                               later: seq<Step>)
    ensures var db := Run(c, EMPTY, before);
      Verify(c, Run(c, db, later), Export(c, db, exporter, now, key), key) == []
  {
    hide Verify, Honest, Intact;
    var db := Run(c, EMPTY, before);
    EmptyIsHonest(c);
    var after := Run(c, db, later);
    RunKeepsHonest(c, EMPTY, before);
    RunKeepsHonest(c, db, later);
    RunExtends(c, db, later);
    forall i | 0 <= i < |db.anchors| ensures Intact(after, db.anchors[i]) {
      AnchorStaysIntact(c, db, after, i);
    }
    VerifyIsCleanIff(c, after, Export(c, db, exporter, now, key), key);
  }

  // ----- What tampering cannot hide -----

  /** A row hash determines the previous hash and the contents. */
  ghost predicate CollisionFree(c: Crypto) {
    forall p, q, x, y :: c.row(p, x) == c.row(q, y) ==> p == q && x == y
  }

  /** Two valid chains that agree on one hash agree on everything up to it. */
  lemma {:induction false} SameHashSamePast(c: Crypto, a: seq<LogRow>, b: seq<LogRow>, k: nat)
    requires CollisionFree(c) && ChainOk(c, a) && ChainOk(c, b)
    requires k < |a| && k < |b| && a[k].rowHash == b[k].rowHash
    ensures a[..k + 1] == b[..k + 1]
  {
    assert Linked(c, a, k) && Linked(c, b, k);
    assert a[k] == b[k];
    if k > 0 {
      assert a[k - 1].rowHash == TailHash(a[..k]) == TailHash(b[..k]) == b[k - 1].rowHash;
      SameHashSamePast(c, a, b, k - 1);
    }
    assert a[..k + 1] == a[..k] + [a[k]] && b[..k + 1] == b[..k] + [b[k]];
  }

  /**
   * History is fixed: whatever was done to a database since an honest export, if its chain is valid and the export
   * verifies, then every row up to every exported anchor is as it was, in content and order.
   */
  lemma HistoryIsFixed(c: Crypto, before: seq<Step>, exporter: string, now: int, key: Option<string>, db: Database,
                       otherKey: Option<string>, i: nat)
    requires CollisionFree(c) && ChainOk(c, db.log)
    requires i < |Run(c, EMPTY, before).anchors|
    requires Verify(c, db, Export(c, Run(c, EMPTY, before), exporter, now, key), otherKey) == []
    ensures var past := Run(c, EMPTY, before);
      var n := past.anchors[i].chainSeq;
      0 <= n <= |past.log| && n <= |db.log| && db.log[..n] == past.log[..n]
  {
    var past := Run(c, EMPTY, before);
    RunKeepsHonest(c, EMPTY, before);
    hide Run, Verify, CollisionFree, ChainOk;
    CleanIsIntact(c, db, Export(c, past, exporter, now, key), otherKey, i);
    AnchorFixes(c, past, db, past.anchors[i]);
  }

  lemma CleanIsIntact(c: Crypto, db: Database, doc: Document, key: Option<string>, i: nat)
    requires i < |doc.anchors| && Verify(c, db, doc, key) == []
    ensures Intact(db, doc.anchors[i])
  {
    VerifyIsCleanIff(c, db, doc, key);
    hide Verify, Intact;
  }

  lemma AnchorFixes(c: Crypto, past: Database, db: Database, a: Anchor)
    requires CollisionFree(c) && ChainOk(c, past.log) && ChainOk(c, db.log) && Records(past.log, a) && Intact(db, a)
    ensures a.chainSeq <= |past.log| && a.chainSeq <= |db.log| && db.log[..a.chainSeq] == past.log[..a.chainSeq]
  {
    hide CollisionFree, ChainOk, RowAt, AnchorAt;
    RowAtIs(c, db.log, a.chainSeq);
    SameHashSamePast(c, past.log, db.log, a.chainSeq - 1);
  }

  /** The database after its tail and all anchors beyond have been deleted. */
  function Truncated(db: Database, m: nat): Database
    requires m <= |db.log|
  {
    Database(db.log[..m], AnchorsUpTo(db.anchors, m))
  }

  function AnchorsUpTo(anchors: seq<Anchor>, m: nat): (r: seq<Anchor>)
    ensures forall i :: 0 <= i < |r| ==> r[i] in anchors && r[i].chainSeq <= m
  {
    if anchors == [] then []
    else
      var last := anchors[|anchors| - 1];
      AnchorsUpTo(anchors[..|anchors| - 1], m) + if last.chainSeq <= m then [last] else []
  }

  lemma {:induction false} VerifyOwnIsClean(db: Database, anchors: seq<Anchor>)
    requires forall i :: 0 <= i < |anchors| ==> CheckOwn(db, anchors[i]) == []
    ensures VerifyOwn(db, anchors) == []
  {
    if anchors != [] {
      VerifyOwnIsClean(db, anchors[..|anchors| - 1]);
    }
  }

  lemma {:induction false} PrefixIsChain(c: Crypto, log: seq<LogRow>, m: nat)
    requires ChainOk(c, log) && m <= |log|
    ensures ChainOk(c, log[..m])
  {
    forall i | 0 <= i < m ensures Linked(c, log[..m], i) {
      assert Linked(c, log, i) && log[..m][..i] == log[..i];
    }
  }

  /**
   * Cutting the tail together with its anchors leaves both of the database's own checks clean, yet an export
   * that holds an anchor beyond the cut reports it.
   */
  lemma TruncationIsCaughtOnlyByExport(c: Crypto, before: seq<Step>, exporter: string, now: int, key: Option<string>,
                                       m: nat, i: nat)
    requires m <= |Run(c, EMPTY, before).log| && i < |Run(c, EMPTY, before).anchors|
    requires Run(c, EMPTY, before).anchors[i].chainSeq > m
    ensures var db := Run(c, EMPTY, before);
      var cut := Truncated(db, m);
      && ChainOk(c, cut.log) && VerifyOwn(cut, cut.anchors) == []
      && Verify(c, cut, Export(c, db, exporter, now, key), key) != []
  {
    var db := Run(c, EMPTY, before);
    var cut := Truncated(db, m);
    RunKeepsHonest(c, EMPTY, before);
    CutLooksClean(c, db, m);
    RowAtIs(c, cut.log, db.anchors[i].chainSeq);
    assert !Intact(cut, db.anchors[i]);
    VerifyIsCleanIff(c, cut, Export(c, db, exporter, now, key), key);
  }

  lemma CutLooksClean(c: Crypto, db: Database, m: nat)
    requires Honest(c, db) && m <= |db.log|
    ensures var cut := Truncated(db, m);
      ChainOk(c, cut.log) && VerifyOwn(cut, cut.anchors) == []
  {
    var cut := Truncated(db, m);
    PrefixIsChain(c, db.log, m);
    forall k | 0 <= k < |cut.anchors| ensures CheckOwn(cut, cut.anchors[k]) == [] {
      var a := cut.anchors[k];
      assert a in db.anchors && Records(db.log, a);
      RowAtIs(c, cut.log, a.chainSeq);
    }
    VerifyOwnIsClean(cut, cut.anchors);
  }
}
