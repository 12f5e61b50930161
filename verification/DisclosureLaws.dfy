/** What every run of submissions, decisions and acceptances keeps. */
module DisclosureLaws {
  import opened Common
  import opened Disclosure
  import opened LetterCase
  import P = ProductIdentity

  // ----- Normal forms -----

  /** A stored request is in normal form, under the hash it was submitted with. */
  predicate RowNormal(d: Digests, row: Request) {
    && Trimmed(row.locale) && IsLocale(row.locale)
    && Trimmed(row.reason) && 3 <= |row.reason| <= 500 && IdentityNormal(d, row.identity)
    && |row.documents| == COUNT
    && (forall i :: 0 <= i < COUNT ==> DraftNormal(d, row.documents[i], i))
    && row.snapshot == SnapshotHash(d, row.locale, row.identity, row.documents)
  }

  /** Normalising it again gives it back, unless its address has outgrown the bound: then it fails. */
  predicate IdentityNormal(d: Digests, x: P.Identity) {
    d.identity(x) == if |x.supportEmail| <= P.MAX_EMAIL then Some(x) else None
  }

  predicate DraftNormal(d: Digests, draft: Draft, t: DocType) {
    && draft.docType == t && Trimmed(draft.content) && ContentFits(draft.content)
    && draft.hash == d.content(draft.content)
  }

  lemma IdentityIsNormal(d: Digests, x: P.Identity)
    requires d.identity(x).Some?
    ensures IdentityNormal(d, d.identity(x).value)
    ensures var email := Trim(x.supportEmail);
      |d.identity(x).value.supportEmail| == |Lower(d.casing, email)| == |email| + Dotted(email)
  {
    var n := d.identity(x).value;
    assert P.Normalize(d.casing, x) == Some(n);
    P.NormalizedIsNormal(d.casing, x);
    P.NormalizeAgain(d.casing, n);
    LowerTwice(d.casing, Trim(x.supportEmail));
    hide P.Normalize, P.IsNormal;
  }

  lemma NormalizedIsNormal(d: Digests, s: Submission)
    requires Normalize(d, s).Some?
    ensures var n := Normalize(d, s).value;
      && Trimmed(n.locale) && IsLocale(n.locale) && Trimmed(n.reason) && 3 <= |n.reason| <= 500
      && IdentityNormal(d, n.identity)
      && |n.documents| == COUNT && forall i :: 0 <= i < COUNT ==> DraftNormal(d, n.documents[i], i)
  {
    TrimTrims(s.locale);
    TrimTrims(s.reason);
    IdentityIsNormal(d, s.identity);
    forall i | 0 <= i < COUNT ensures DraftNormal(d, Normalize(d, s).value.documents[i], i) {
      TrimTrims(s.documents[i]);
    }
  }

  lemma RowTypes(d: Digests, row: Request)
    requires RowNormal(d, row)
    ensures |row.documents| == COUNT && forall i :: 0 <= i < COUNT ==> row.documents[i].docType == i
  {
    assert forall i :: 0 <= i < COUNT ==> DraftNormal(d, row.documents[i], i);
  }

  lemma {:induction false} ContentsAre(documents: seq<Draft>, n: nat)
    requires n <= |documents| == COUNT && forall i :: 0 <= i < COUNT ==> documents[i].docType == i
    ensures forall i :: 0 <= i < n ==>
      i in Contents(documents[..n]) && Contents(documents[..n])[i] == documents[i].content
  {
    if n > 0 {
      ContentsAre(documents, n - 1);
      assert documents[..n][..n - 1] == documents[..n - 1];
    }
  }

  /** The address as it is stored, in lower case, is still within the bound that it met before. */
  predicate EmailStillFits(row: Request) {
    |row.identity.supportEmail| <= P.MAX_EMAIL
  }

  /** Normalising a stored request again gives it back, exactly if its address has not outgrown the bound. */
  lemma NormalAgain(d: Digests, row: Request)
    requires RowNormal(d, row)
    ensures Normalize(d, SubmissionOf(row)) ==
      if EmailStillFits(row) then Some(Normal(row.locale, row.reason, row.identity, row.documents)) else None
  {
    RowTypes(d, row);
    ContentsAre(row.documents, |row.documents|);
    assert row.documents[..|row.documents|] == row.documents;
    var contents := Contents(row.documents);
    NothingToTrim(row.locale);
    NothingToTrim(row.reason);
    forall t: DocType ensures t in contents && ContentFits(Trim(contents[t])) {
      assert t in contents && contents[t] == row.documents[t].content;
      assert DraftNormal(d, row.documents[t], t);
      NothingToTrim(row.documents[t].content);
    }
    forall i | 0 <= i < COUNT ensures Drafts(d, contents)[i] == row.documents[i] {
      assert DraftNormal(d, row.documents[i], i);
      NothingToTrim(row.documents[i].content);
      assert contents[i] == row.documents[i].content;
    }
    assert Drafts(d, contents) == row.documents;
  }

  lemma RecheckIs(d: Digests, row: Request)
    requires RowNormal(d, row)
    ensures Recheck(d, row) == if EmailStillFits(row) then None else Some(SubmissionInvalid)
    ensures EmailStillFits(row) ==> DraftsOf(d, row) == row.documents
  {
    NormalAgain(d, row);
  }

  // ----- The invariant -----

  predicate OnePending(requests: map<Id, Request>) {
    forall i, j :: i in requests && j in requests && requests[i].status == Pending && requests[j].status == Pending ==>
      i == j
  }

  predicate RowSound(d: Digests, row: Request) {
    && RowNormal(d, row)
    && (row.status == Pending <==> row.reviewedBy.None?) && (row.reviewedBy.Some? <==> row.reviewKey.Some?)
    && row.reviewedBy != Some(row.submittedBy)
  }

  predicate RequestsSound(d: Digests, b: Board) {
    && (forall id :: id in b.requests ==> RowSound(d, b.requests[id]))
    && (forall k :: k in b.byKey ==>
         b.byKey[k] in b.requests && (b.requests[b.byKey[k]].submittedBy, b.requests[b.byKey[k]].key) == k)
  }

  /** A bundle's request was approved by its publisher, who is not its submitter. */
  predicate BundleSound(requests: map<Id, Request>, bundle: Bundle) {
    && bundle.request in requests && requests[bundle.request].status == Approved
    && requests[bundle.request].reviewedBy == Some(bundle.publishedBy)
    && bundle.submittedBy == requests[bundle.request].submittedBy != bundle.publishedBy
  }

  /** Only the newest bundle is active. */
  predicate BundlesSound(b: Board) {
    && (forall i :: 0 <= i < |b.bundles| ==> (b.bundles[i].active <==> i == |b.bundles| - 1))
    && (forall i :: 0 <= i < |b.bundles| ==> BundleSound(b.requests, b.bundles[i]))
  }

  predicate VersionsDiffer(documents: seq<Document>) {
    forall i, j :: 0 <= i < j < |documents| ==>
      && documents[i].id != documents[j].id
      && (documents[i].docType == documents[j].docType ==> documents[i].version != documents[j].version)
  }

  predicate IsPublished(d: Digests, doc: Document, t: DocType, bundle: Id) {
    && doc.docType == t && doc.status == Active && doc.approved && doc.bundle == Some(bundle) && IsReadable(d, doc)
  }

  predicate IsTop(documents: seq<Document>, doc: Document) {
    forall j :: 0 <= j < |documents| && documents[j].docType == doc.docType ==> documents[j].version <= doc.version
  }

  /** The last seven documents are the bundle's, one of each type in order; nothing before them is active. */
  predicate NewestAre(d: Digests, documents: seq<Document>, bundle: Id) {
    var n := |documents| - COUNT;
    && n >= 0
    && (forall i :: 0 <= i < n ==> documents[i].status != Active)
    && (forall i :: n <= i < |documents| ==>
         && IsPublished(d, documents[i], i - n, bundle) && IsTop(documents, documents[i])
         && documents[i].effectiveAt == documents[n].effectiveAt)
  }

  predicate DocumentsSound(d: Digests, b: Board) {
    && VersionsDiffer(b.documents)
    && (b.bundles != [] ==> NewestAre(d, b.documents, b.bundles[|b.bundles| - 1].id))
  }

  predicate HasDocument(documents: seq<Document>, id: Id) {
    exists i :: 0 <= i < |documents| && documents[i].id == id
  }

  predicate AcceptancesSound(b: Board) {
    forall a :: a in b.acceptances ==> HasDocument(b.documents, a.1)
  }

  predicate Inv(d: Digests, b: Board) {
    && OnePending(b.requests) && RequestsSound(d, b) && BundlesSound(b) && DocumentsSound(d, b) && AcceptancesSound(b)
  }

  // ----- Publishing -----

  lemma {:induction false} AddedAfter(documents: seq<Document>, p: Publication, drafts: seq<Draft>, n: nat)
    requires n <= |drafts| <= |p.ids|
    ensures AddDocuments(documents, p, drafts, n)[..|documents|] == documents
  {
    if n > 0 {
      AddedAfter(documents, p, drafts, n - 1);
      var before := AddDocuments(documents, p, drafts, n - 1);
      assert AddDocuments(documents, p, drafts, n)[..|documents|] == before[..|documents|];
    }
  }

  lemma {:induction false} AddedAt(documents: seq<Document>, p: Publication, drafts: seq<Draft>, n: nat, k: nat)
    requires k < n <= |drafts| <= |p.ids|
    ensures var r := AddDocuments(documents, p, drafts, n);
      r[|documents| + k] == NewDocument(r[..|documents| + k], p, drafts[k], p.ids[k])
  {
    var before, r := AddDocuments(documents, p, drafts, n - 1), AddDocuments(documents, p, drafts, n);
    if k < n - 1 {
      AddedAt(documents, p, drafts, n - 1, k);
      assert r[..|documents| + k] == before[..|documents| + k];
    } else {
      assert r[..|documents| + k] == before;
    }
  }

  /** Old documents are retired in place; the new ones follow, one of each type in order. */
  lemma PublishedShape(b: Board, row: Request, f: Fresh)
    requires |row.documents| == |f.documents| == COUNT
    requires forall i :: 0 <= i < COUNT ==> row.documents[i].docType == i
    ensures var r, n := PublishedDocuments(b, row, row.documents, f), |b.documents|;
      && |r| == n + COUNT
      && (forall i :: 0 <= i < n ==> r[i] == RetireDocument(b.documents[i]))
      && (forall i :: n <= i < |r| ==>
           && r[i] == NewDocument(r[..i], Publication(f.bundle, row.locale, f.now, f.documents), row.documents[i - n],
                                  f.documents[i - n])
           && r[i].docType == i - n)
  {
    var p := Publication(f.bundle, row.locale, f.now, f.documents);
    var retired := RetireDocuments(b.documents);
    var r := PublishedDocuments(b, row, row.documents, f);
    AddedAfter(retired, p, row.documents, |row.documents|);
    forall i | |b.documents| <= i < |r|
      ensures r[i] == NewDocument(r[..i], p, row.documents[i - |b.documents|], f.documents[i - |b.documents|])
    {
      AddedAt(retired, p, row.documents, |row.documents|, i - |b.documents|);
    }
    forall i | 0 <= i < |b.documents| ensures r[i] == RetireDocument(b.documents[i]) {
      assert r[..|b.documents|][i] == retired[i];
    }
  }

  /** Each new document has a version above all others of its type. */
  lemma PublishedTop(b: Board, row: Request, f: Fresh, i: nat, j: nat)
    requires |row.documents| == |f.documents| == COUNT
    requires forall k :: 0 <= k < COUNT ==> row.documents[k].docType == k
    requires |b.documents| <= i < |b.documents| + COUNT && j < |b.documents| + COUNT && j != i
    requires var r := PublishedDocuments(b, row, row.documents, f); r[j].docType == r[i].docType
    ensures var r := PublishedDocuments(b, row, row.documents, f); r[j].version < r[i].version
  {
    PublishedShape(b, row, f);
    var r := PublishedDocuments(b, row, row.documents, f);
    assert j < i;
    var before := r[..i];
    assert before[j] == r[j];
    assert r[i].version == TopVersion(before, r[i].docType) + 1;
  }

  lemma PublishedPairDiffers(b: Board, row: Request, f: Fresh, i: nat, j: nat)
    requires |row.documents| == COUNT && VersionsDiffer(b.documents) && FreshFor(f, b)
    requires forall k :: 0 <= k < COUNT ==> row.documents[k].docType == k
    requires i < j < |b.documents| + COUNT
    ensures var r := PublishedDocuments(b, row, row.documents, f);
      r[i].id != r[j].id && (r[i].docType == r[j].docType ==> r[i].version != r[j].version)
  {
    var r, n := PublishedDocuments(b, row, row.documents, f), |b.documents|;
    PublishedShape(b, row, f);
    if j < n {
      assert b.documents[i].id != b.documents[j].id;
    } else {
      assert r[j].id == f.documents[j - n];
      if i >= n {
        assert r[i].id == f.documents[i - n];
      } else {
        assert b.documents[i].id !in f.documents && r[i].id == b.documents[i].id;
      }
      if r[i].docType == r[j].docType {
        PublishedTop(b, row, f, j, i);
      }
    }
  }

  lemma PublishedDiffer(b: Board, row: Request, f: Fresh)
    requires |row.documents| == COUNT && VersionsDiffer(b.documents) && FreshFor(f, b)
    requires forall i :: 0 <= i < COUNT ==> row.documents[i].docType == i
    ensures VersionsDiffer(PublishedDocuments(b, row, row.documents, f))
  {
    var r := PublishedDocuments(b, row, row.documents, f);
    forall i, j | 0 <= i < j < |r|
      ensures r[i].id != r[j].id && (r[i].docType == r[j].docType ==> r[i].version != r[j].version)
    {
      PublishedPairDiffers(b, row, f, i, j);
    }
  }

  lemma PublishedIs(d: Digests, b: Board, row: Request, f: Fresh, i: nat)
    requires RowNormal(d, row) && |f.documents| == COUNT && |b.documents| <= i < |b.documents| + COUNT
    ensures var r := PublishedDocuments(b, row, row.documents, f);
      IsPublished(d, r[i], i - |b.documents|, f.bundle) && IsTop(r, r[i]) && r[i].effectiveAt == f.now
  {
    RowTypes(d, row);
    PublishedShape(b, row, f);
    var r := PublishedDocuments(b, row, row.documents, f);
    assert DraftNormal(d, row.documents[i - |b.documents|], i - |b.documents|);
    forall j | 0 <= j < |r| && r[j].docType == r[i].docType ensures r[j].version <= r[i].version {
      if j != i {
        PublishedTop(b, row, f, i, j);
      }
    }
  }

  lemma PublishedAreNewest(d: Digests, b: Board, row: Request, f: Fresh)
    requires RowNormal(d, row) && |f.documents| == COUNT
    ensures NewestAre(d, PublishedDocuments(b, row, row.documents, f), f.bundle)
  {
    var r, n := PublishedDocuments(b, row, row.documents, f), |b.documents|;
    RowTypes(d, row);
    PublishedShape(b, row, f);
    forall i | n <= i < |r|
      ensures IsPublished(d, r[i], i - n, f.bundle) && IsTop(r, r[i]) && r[i].effectiveAt == f.now
    {
      PublishedIs(d, b, row, f, i);
    }
  }

  // ----- Steps -----

  lemma NewRowSound(d: Digests, b: Board, x: SubmitInput, newId: Id)
    requires Submit(d, b, x, newId).Ok?
    ensures Submit(d, b, x, newId).board == b || RowSound(d, Submit(d, b, x, newId).row)
  {
    NormalizedIsNormal(d, x.submission);
  }

  lemma SubmitKeepsRequests(d: Digests, b: Board, x: SubmitInput, newId: Id)
    requires OnePending(b.requests) && RequestsSound(d, b) && Submit(d, b, x, newId).Ok?
    ensures OnePending(Submit(d, b, x, newId).board.requests) && RequestsSound(d, Submit(d, b, x, newId).board)
  {
    hide Normalize, RowNormal;
    NewRowSound(d, b, x, newId);
  }

  lemma SubmitKeepsBundles(d: Digests, b: Board, x: SubmitInput, newId: Id)
    requires BundlesSound(b) && Submit(d, b, x, newId).Ok?
    ensures var after := Submit(d, b, x, newId).board;
      && BundlesSound(after)
      && after.bundles == b.bundles && after.documents == b.documents && after.acceptances == b.acceptances
  {
    var after := Submit(d, b, x, newId).board;
    forall i | 0 <= i < |after.bundles| ensures BundleSound(after.requests, after.bundles[i]) {
      assert BundleSound(b.requests, b.bundles[i]);
    }
  }

  lemma SubmitKeepsInv(d: Digests, b: Board, x: SubmitInput, newId: Id)
    requires Inv(d, b) && Submit(d, b, x, newId).Ok?
    ensures Inv(d, Submit(d, b, x, newId).board)
  {
    SubmitKeepsRequests(d, b, x, newId);
    SubmitKeepsBundles(d, b, x, newId);
    SameDocuments(d, b, Submit(d, b, x, newId).board);
  }

  lemma SameDocuments(d: Digests, b: Board, after: Board)
    requires DocumentsSound(d, b) && AcceptancesSound(b)
    requires after.bundles == b.bundles && after.documents == b.documents && after.acceptances == b.acceptances
    ensures DocumentsSound(d, after) && AcceptancesSound(after)
  {
  }

  /** Nothing but the integrity check stands between this decision and its effect. */
  predicate ReachesIntegrityCheck(b: Board, x: DecideInput) {
    && 3 <= |Trim(x.note)| <= 500 && x.request in b.requests
    && b.requests[x.request].status == Pending && b.requests[x.request].submittedBy != x.reviewer
  }

  /**
   * The stored request never mismatches its hash; a decision that gets as far as the check fails it exactly when
   * the stored address is longer than the bound.
   */
  lemma SnapshotNeverMismatches(d: Digests, b: Board, x: DecideInput, f: Fresh)
    requires RequestsSound(d, b)
    ensures Decide(d, b, x, f) != Err(SnapshotMismatch)
    ensures Decide(d, b, x, f) == Err(SubmissionInvalid) <==>
      ReachesIntegrityCheck(b, x) && !EmailStillFits(b.requests[x.request])
  {
    if x.request in b.requests {
      assert RowSound(d, b.requests[x.request]);
      RecheckIs(d, b.requests[x.request]);
    }
  }

  predicate Decides(d: Digests, b: Board, x: DecideInput, f: Fresh) {
    Decide(d, b, x, f).Ok? && x.request in b.requests && b.requests[x.request].status == Pending
  }

  /** An effective decision: the request is decided, and an approval publishes its documents. */
  lemma DecideShape(d: Digests, b: Board, x: DecideInput, f: Fresh)
    requires RequestsSound(d, b) && Decides(d, b, x, f)
    ensures var row := b.requests[x.request];
      && row.submittedBy != x.reviewer && RowSound(d, row) && |row.documents| == COUNT
      && Decide(d, b, x, f) == Conclude(b, x, row, row.documents, f)
      && (x.approve ==> FreshFor(f, b))
  {
    assert RowSound(d, b.requests[x.request]);
    RecheckIs(d, b.requests[x.request]);
  }

  lemma DecideKeepsDocuments(d: Digests, b: Board, x: DecideInput, f: Fresh)
    requires RequestsSound(d, b) && DocumentsSound(d, b) && AcceptancesSound(b) && Decides(d, b, x, f)
    ensures DocumentsSound(d, Decide(d, b, x, f).board) && AcceptancesSound(Decide(d, b, x, f).board)
  {
    hide Decide, Recheck, RowNormal, IsReadable;
    DecideShape(d, b, x, f);
    var after := Decide(d, b, x, f).board;
    if x.approve {
      var row := b.requests[x.request];
      RowTypes(d, row);
      PublishedDiffer(b, row, f);
      PublishedAreNewest(d, b, row, f);
      PublishedShape(b, row, f);
      forall a | a in after.acceptances ensures HasDocument(after.documents, a.1) {
        assert HasDocument(b.documents, a.1);
        var i :| 0 <= i < |b.documents| && b.documents[i].id == a.1;
        assert after.documents[i].id == a.1;
      }
    }
  }

  lemma DecidedIsSound(d: Digests, row: Request, x: DecideInput)
    requires RowSound(d, row) && row.submittedBy != x.reviewer
    ensures RowSound(d, Decided(row, x)) && Decided(row, x).status != Pending
  {
    hide Normalize, RowNormal;
    SameSubmission(d, row, x);
  }

  /** The parts of a request that its normal form depends on are not touched by a decision. */
  lemma SameSubmission(d: Digests, row: Request, x: DecideInput)
    ensures RowNormal(d, row) ==> RowNormal(d, Decided(row, x))
  {
  }

  lemma DecidedRequests(d: Digests, b: Board, x: DecideInput, f: Fresh)
    requires RequestsSound(d, b) && Decides(d, b, x, f)
    ensures var row, after := b.requests[x.request], Decide(d, b, x, f).board;
      after.requests == b.requests[x.request := Decided(row, x)] && after.byKey == b.byKey
  {
    hide Decide, Recheck, RowNormal, FreshFor, ReviewKeyUsed;
    DecideShape(d, b, x, f);
  }

  lemma DecideKeepsRequests(d: Digests, b: Board, x: DecideInput, f: Fresh)
    requires OnePending(b.requests) && RequestsSound(d, b) && Decides(d, b, x, f)
    ensures OnePending(Decide(d, b, x, f).board.requests) && RequestsSound(d, Decide(d, b, x, f).board)
  {
    hide Decide, RowSound, Decided;
    DecideShape(d, b, x, f);
    DecidedRequests(d, b, x, f);
    DecidedIsSound(d, b.requests[x.request], x);
    DecidedKeepsKey(b.requests[x.request], x);
  }

  lemma DecidedKeepsKey(row: Request, x: DecideInput)
    ensures Decided(row, x).submittedBy == row.submittedBy && Decided(row, x).key == row.key
  {
  }

  lemma DecideKeepsBundles(d: Digests, b: Board, x: DecideInput, f: Fresh)
    requires RequestsSound(d, b) && BundlesSound(b) && Decides(d, b, x, f)
    ensures BundlesSound(Decide(d, b, x, f).board)
  {
    hide Recheck, RowNormal;
    DecideShape(d, b, x, f);
    var after := Decide(d, b, x, f).board;
    forall i | 0 <= i < |after.bundles| ensures BundleSound(after.requests, after.bundles[i]) {
      if i < |b.bundles| {
        assert BundleSound(b.requests, b.bundles[i]);
      }
    }
  }

  lemma DecideKeepsInv(d: Digests, b: Board, x: DecideInput, f: Fresh)
    requires Inv(d, b) && Decides(d, b, x, f)
    ensures Inv(d, Decide(d, b, x, f).board)
  {
    DecideKeepsRequests(d, b, x, f);
    DecideKeepsBundles(d, b, x, f);
    DecideKeepsDocuments(d, b, x, f);
  }

  lemma {:induction false} CurrentMembers(documents: seq<Document>, now: int)
    ensures forall i :: 0 <= i < |CurrentDocuments(documents, now)| ==> CurrentDocuments(documents, now)[i] in documents
  {
    if documents != [] {
      CurrentMembers(documents[..|documents| - 1], now);
    }
  }

  lemma AcceptKeepsAcceptances(b: Board, user: Id, now: int)
    requires AcceptancesSound(b)
    ensures AcceptancesSound(RecordAcceptances(b, user, now))
  {
    CurrentMembers(b.documents, now);
    var after := RecordAcceptances(b, user, now);
    forall a | a in after.acceptances ensures HasDocument(after.documents, a.1) {
      if a !in b.acceptances {
        var rows := CurrentDocuments(b.documents, now);
        var i :| 0 <= i < |rows| && rows[i].id == a.1;
        assert rows[i] in b.documents;
      } else {
        assert HasDocument(b.documents, a.1);
      }
    }
  }

  lemma AcceptKeepsTables(d: Digests, b: Board, user: Id, now: int)
    requires RequestsSound(d, b) && BundlesSound(b) && DocumentsSound(d, b)
    ensures var after := RecordAcceptances(b, user, now);
      RequestsSound(d, after) && BundlesSound(after) && DocumentsSound(d, after)
  {
    hide RowNormal, IsReadable;
    var after := RecordAcceptances(b, user, now);
    forall i | 0 <= i < |after.bundles| ensures BundleSound(after.requests, after.bundles[i]) {
      assert BundleSound(b.requests, b.bundles[i]);
    }
    assert after.documents == b.documents && after.requests == b.requests;
  }

  lemma AcceptKeepsInv(d: Digests, b: Board, user: Id, now: int)
    requires Inv(d, b)
    ensures Inv(d, RecordAcceptances(b, user, now))
  {
    AcceptKeepsTables(d, b, user, now);
    AcceptKeepsAcceptances(b, user, now);
  }

  lemma NextKeepsInv(d: Digests, b: Board, s: Step)
    requires Inv(d, b)
    ensures Inv(d, Next(d, b, s))
  {
    match s
    case SubmitStep(x, newId) =>
      if Submit(d, b, x, newId).Ok? {
        SubmitKeepsInv(d, b, x, newId);
      }
    case DecideStep(x, f) =>
      if Decides(d, b, x, f) {
        DecideKeepsInv(d, b, x, f);
      }
    case AcceptStep(user, _, now) => AcceptKeepsInv(d, b, user, now);
  }

  /**
   * After any run there is at most one pending request and at most one active bundle, its publisher is not
   * its submitter, and versions and ids of documents stay unique.
   */
  lemma {:induction false} RunKeepsInv(d: Digests, b: Board, steps: seq<Step>)
    requires Inv(d, b)
    ensures Inv(d, Run(d, b, steps))
    decreases |steps|
  {
    if steps != [] {
      NextKeepsInv(d, b, steps[0]);
      RunKeepsInv(d, Next(d, b, steps[0]), steps[1..]);
    }
  }

  // ----- Requests that can never be decided -----

  /** A pending request that fails the integrity check at every decision. */
  predicate Jams(b: Board, id: Id) {
    id in b.requests && b.requests[id].status == Pending && !EmailStillFits(b.requests[id])
  }

  /** Whether it will can be told when it is submitted, from the address in lower case. */
  lemma SubmissionJamsIff(d: Digests, b: Board, x: SubmitInput, newId: Id)
    requires newId !in b.requests && Submit(d, b, x, newId).Ok? && newId in Submit(d, b, x, newId).board.requests
    ensures var email := Trim(x.submission.identity.supportEmail);
      && (Jams(Submit(d, b, x, newId).board, newId) <==> |Lower(d.casing, email)| > P.MAX_EMAIL)
      && (Jams(Submit(d, b, x, newId).board, newId) <==> |email| + Dotted(email) > P.MAX_EMAIL)
  {
    IdentityIsNormal(d, x.submission.identity);
  }

  lemma NextKeepsJam(d: Digests, b: Board, s: Step, id: Id)
    requires Inv(d, b) && Jams(b, id)
    ensures Next(d, b, s).requests == b.requests
  {
    match s
    case SubmitStep(_, _) =>
    case DecideStep(x, f) =>
      if Decides(d, b, x, f) {
        SnapshotNeverMismatches(d, b, x, f);
      }
    case AcceptStep(_, _, _) =>
  }

  /** Such a request stops the queue for good: no request is decided or accepted any more, whatever is tried. */
  lemma {:induction false} JamIsForEver(d: Digests, b: Board, steps: seq<Step>, id: Id)
    requires Inv(d, b) && Jams(b, id)
    ensures Run(d, b, steps).requests == b.requests
    decreases |steps|
  {
    if steps != [] {
      NextKeepsInv(d, b, steps[0]);
      NextKeepsJam(d, b, steps[0], id);
      JamIsForEver(d, Next(d, b, steps[0]), steps[1..], id);
    }
  }

  /** A complete submission whose address is 254 characters long, with a dotted capital I. */
  function LongSubmission(): Submission {
    var content := P.Repeated('x', MIN_CONTENT);
    Submission("en", "launch", P.Identity("Acme", "EU", P.LongEmail(), "a.co"),
               map[0 := content, 1 := content, 2 := content, 3 := content, 4 := content, 5 := content, 6 := content])
  }

  lemma LongSubmissionTexts()
    ensures var s := LongSubmission();
      && IsLocale(Trim(s.locale)) && 3 <= |Trim(s.reason)| <= 500 && DocumentsFit(s.documents)
  {
    NothingToTrim("en");
    NothingToTrim("launch");
    NothingToTrim(P.Repeated('x', MIN_CONTENT));
  }

  /** It is accepted, with an address that has outgrown the bound. */
  lemma LongSubmissionFits(d: Digests)
    ensures Normalize(d, LongSubmission()).Some?
    ensures |Lower(d.casing, Trim(LongSubmission().identity.supportEmail))| > P.MAX_EMAIL
  {
    hide P.Normalize, IsLocale, Trim, DocumentsFit, Lower;
    LongSubmissionTexts();
    P.LongIdentityFits(d.casing, "Acme", "EU");
    assert d.identity(LongSubmission().identity) == P.Normalize(d.casing, LongSubmission().identity);
  }

  /** And so it jams the queue of an empty board. */
  lemma LongSubmissionJams(d: Digests, actor: Id, key: string, newId: Id)
    ensures var out := Submit(d, EMPTY_BOARD, SubmitInput(actor, key, LongSubmission()), newId);
      out.Ok? && Jams(out.board, newId)
  {
    hide Normalize, Lower, Trim, LongSubmission;
    LongSubmissionFits(d);
    SubmissionJamsIff(d, EMPTY_BOARD, SubmitInput(actor, key, LongSubmission()), newId);
  }

  // ----- What is in force -----

  /**
   * Once a bundle is active, each type has exactly one active document: one of that bundle, with the highest
   * version of its type.
   */
  lemma OneActivePerType(d: Digests, b: Board, t: DocType)
    requires Inv(d, b) && b.bundles != []
    ensures exists i :: 0 <= i < |b.documents| && IsTheActive(b, t, i)
  {
    hide RequestsSound, BundlesSound, AcceptancesSound, IsReadable;
    var i := |b.documents| - COUNT + t;
    var doc := b.documents[i];
    assert IsPublished(d, doc, t, b.bundles[|b.bundles| - 1].id);
    forall j | 0 <= j < |b.documents| && j != i && b.documents[j].docType == t
      ensures b.documents[j].status != Active && b.documents[j].version < doc.version
    {
      assert b.documents[j].version <= doc.version;
      if j < i {
        assert b.documents[j].version != b.documents[i].version;
      }
    }
    assert IsTheActive(b, t, i);
  }

  predicate IsTheActive(b: Board, t: DocType, i: nat)
    requires i < |b.documents| && b.bundles != []
  {
    var doc := b.documents[i];
    && doc.docType == t && doc.status == Active && doc.bundle == Some(b.bundles[|b.bundles| - 1].id)
    && forall j :: 0 <= j < |b.documents| && j != i && b.documents[j].docType == t ==>
         b.documents[j].status != Active && b.documents[j].version < doc.version
  }

  lemma {:induction false} NoneCurrent(documents: seq<Document>, now: int)
    requires forall i :: 0 <= i < |documents| ==> !IsCurrent(documents[i], now)
    ensures CurrentDocuments(documents, now) == []
  {
    if documents != [] {
      NoneCurrent(documents[..|documents| - 1], now);
    }
  }

  lemma {:induction false} CurrentTail(documents: seq<Document>, n: nat, now: int)
    requires n <= |documents|
    requires forall i :: 0 <= i < n ==> !IsCurrent(documents[i], now)
    requires forall i :: n <= i < |documents| ==> IsCurrent(documents[i], now)
    ensures CurrentDocuments(documents, now) == documents[n..]
  {
    if |documents| == n {
      NoneCurrent(documents, now);
    } else {
      var front := documents[..|documents| - 1];
      CurrentTail(front, n, now);
      assert documents[n..] == front[n..] + [documents[|documents| - 1]];
    }
  }

  /** When a bundle's documents took effect. */
  function PublishedAt(b: Board): int
    requires |b.documents| >= COUNT
  {
    b.documents[|b.documents| - COUNT].effectiveAt
  }

  /** From its publication on, the documents in force are the bundle's seven, and the configuration is complete. */
  lemma BundleIsInForce(d: Digests, b: Board, now: int)
    requires DocumentsSound(d, b) && b.bundles != [] && now >= PublishedAt(b)
    ensures CurrentDocuments(b.documents, now) == b.documents[|b.documents| - COUNT..]
    ensures ConfigurationComplete(d, b.documents, now)
  {
    var n := |b.documents| - COUNT;
    var bundle := b.bundles[|b.bundles| - 1].id;
    forall i | n <= i < |b.documents| ensures IsCurrent(b.documents[i], now) && IsReadable(d, b.documents[i]) {
      assert IsPublished(d, b.documents[i], i - n, bundle);
    }
    CurrentTail(b.documents, n, now);
    var rows := b.documents[n..];
    forall t: DocType ensures HasType(rows, t) {
      assert IsPublished(d, b.documents[n + t], n + t - n, bundle);
      assert rows[t].docType == t;
    }
  }

  /** A rejection changes nothing but the request itself. */
  lemma RejectionChangesNothing(d: Digests, b: Board, x: DecideInput, f: Fresh, user: Id, now: int)
    requires RequestsSound(d, b) && Decides(d, b, x, f) && !x.approve
    ensures var after := Decide(d, b, x, f).board;
      && after.documents == b.documents && after.bundles == b.bundles && after.acceptances == b.acceptances
      && after.byKey == b.byKey && after.requests - {x.request} == b.requests - {x.request}
      && x.request in after.requests && after.requests[x.request].status == Rejected
    ensures ConsentComplete(d, Decide(d, b, x, f).board, user, now) <==> ConsentComplete(d, b, user, now)
  {
    DecideShape(d, b, x, f);
  }

  /** The user has yet to accept some document in force. */
  predicate Owes(b: Board, user: Id) {
    exists i :: 0 <= i < |b.documents| && b.documents[i].status == Active && (user, b.documents[i].id) !in b.acceptances
  }

  /** Publishing leaves every user owing: no one has consented to the new documents. */
  lemma PublishingResetsConsent(d: Digests, b: Board, x: DecideInput, f: Fresh, user: Id, now: int)
    requires Inv(d, b) && Decides(d, b, x, f) && x.approve && now >= f.now
    ensures var after := Decide(d, b, x, f).board;
      && ConfigurationComplete(d, after.documents, now) && !ConsentComplete(d, after, user, now) && Owes(after, user)
  {
    var after := Decide(d, b, x, f).board;
    DecideKeepsInv(d, b, x, f);
    NewDocumentOwed(d, b, x, f, user);
    BundleIsInForce(d, after, now);
    CompleteIffNothingOwed(d, after, user, now);
  }

  lemma NewDocumentOwed(d: Digests, b: Board, x: DecideInput, f: Fresh, user: Id)
    requires RequestsSound(d, b) && AcceptancesSound(b) && Decides(d, b, x, f) && x.approve
    ensures var after := Decide(d, b, x, f).board;
      Owes(after, user) && after.bundles != [] && |after.documents| >= COUNT && PublishedAt(after) == f.now
  {
    DecideShape(d, b, x, f);
    RowTypes(d, b.requests[x.request]);
    PublishedShape(b, b.requests[x.request], f);
    var after, n := Decide(d, b, x, f).board, |b.documents|;
    assert after.documents[n].id == f.documents[0];
    assert !HasDocument(b.documents, f.documents[0]);
    assert (user, f.documents[0]) !in after.acceptances;
  }

  predicate AcceptsFor(s: Step, user: Id) {
    s.AcceptStep? && s.user == user
  }

  lemma StillOwes(d: Digests, b: Board, s: Step, user: Id)
    requires Inv(d, b) && Owes(b, user) && !AcceptsFor(s, user)
    ensures Owes(Next(d, b, s), user)
  {
    hide Recheck, RowNormal, IsReadable;
    match s
    case SubmitStep(_, _) =>
    case DecideStep(x, f) =>
      if Decides(d, b, x, f) {
        DecideShape(d, b, x, f);
        if x.approve {
          PublishingResetsConsent(d, b, x, f, user, f.now);
        }
      }
    case AcceptStep(other, supplied, now) =>
      var i :| 0 <= i < |b.documents| && b.documents[i].status == Active && (user, b.documents[i].id) !in b.acceptances;
      assert Next(d, b, s).documents[i] == b.documents[i];
  }

  /**
   * No run without an acceptance of their own, however much is published or rejected in it, completes a user's
   * consent.
   */
  lemma {:induction false} ConsentNeedsAcceptance(d: Digests, b: Board, steps: seq<Step>, user: Id)
    requires Inv(d, b) && Owes(b, user) && forall i :: 0 <= i < |steps| ==> !AcceptsFor(steps[i], user)
    ensures Owes(Run(d, b, steps), user)
    decreases |steps|
  {
    if steps != [] {
      StillOwes(d, b, steps[0], user);
      NextKeepsInv(d, b, steps[0]);
      ConsentNeedsAcceptance(d, Next(d, b, steps[0]), steps[1..], user);
    }
  }

  /** With a bundle in force, consent is complete exactly when nothing is owed. */
  lemma CompleteIffNothingOwed(d: Digests, b: Board, user: Id, now: int)
    requires Inv(d, b) && b.bundles != [] && now >= PublishedAt(b)
    ensures ConsentComplete(d, b, user, now) <==> !Owes(b, user)
  {
    BundleIsInForce(d, b, now);
    var n := |b.documents| - COUNT;
    var rows := b.documents[n..];
    forall i | 0 <= i < |b.documents| && b.documents[i].status == Active
      ensures i >= n && rows[i - n] == b.documents[i]
    {
    }
    if !Owes(b, user) {
      forall i | 0 <= i < |rows| ensures (user, rows[i].id) in b.acceptances {
        assert IsPublished(d, b.documents[n + i], n + i - n, b.bundles[|b.bundles| - 1].id);
        assert rows[i] == b.documents[n + i];
      }
    }
  }

  /** Accepting the documents in force completes a user's consent and leaves everybody else's alone. */
  lemma AcceptingCompletesConsent(d: Digests, b: Board, user: Id, supplied: seq<Id>, now: int, other: Id, later: int)
    requires ConfigurationComplete(d, b.documents, now) && SuppliesCurrent(b, now, supplied)
    ensures var after := Next(d, b, AcceptStep(user, supplied, now));
      && ConsentComplete(d, after, user, now)
      && (other != user ==> (ConsentComplete(d, after, other, later) <==> ConsentComplete(d, b, other, later)))
  {
    var after := Next(d, b, AcceptStep(user, supplied, now));
    var rows := CurrentDocuments(b.documents, now);
    forall i | 0 <= i < |rows| ensures (user, rows[i].id) in after.acceptances {
      assert rows[i].id in CurrentIds(b, now);
    }
  }
}
