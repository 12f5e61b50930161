/** Which submissions and decisions go through, and that what is published is what was submitted. */
module DisclosureAnswers {
  import opened Common
  import opened Disclosure
  import opened DisclosureLaws
  import P = ProductIdentity

  // ----- Submitting -----

  predicate AllLower(s: string) {
    forall i :: 0 <= i < |s| ==> IsLower(s[i])
  }

  predicate AllUpper(s: string) {
    forall i :: 0 <= i < |s| ==> IsUpper(s[i])
  }

  /** Two small letters, and perhaps a hyphen and two capitals. */
  predicate IsTag(s: string) {
    || (|s| == 2 && AllLower(s))
    || (|s| == 5 && AllLower(s[..2]) && s[2] == '-' && AllUpper(s[3..]))
  }

  lemma TagIff(s: string)
    ensures IsLocale(s) <==> IsTag(s)
  {
    if |s| == 5 {
      var a, b := s[..2], s[3..];
      assert a[0] == s[0] && a[1] == s[1] && b[0] == s[3] && b[1] == s[4];
    }
  }

  /** All seven documents are there, each of 40 to 200000 characters once trimmed. */
  predicate IsComplete(documents: map<DocType, string>) {
    forall t: DocType :: t in documents && 40 <= |Trim(documents[t])| <= 200000
  }

  predicate IsAcceptable(d: Digests, s: Submission) {
    && IsTag(Trim(s.locale)) && 3 <= |Trim(s.reason)| <= 500 && d.identity(s.identity).Some?
    && IsComplete(s.documents)
  }

  lemma AcceptableIff(d: Digests, s: Submission)
    ensures Normalize(d, s).Some? <==> IsAcceptable(d, s)
  {
    hide Trim, IsLocale, IsTag;
    TagIff(Trim(s.locale));
  }

  /** The row holds just what was submitted, trimmed, with the digest of each document. */
  predicate Holds(d: Digests, s: Submission, row: Request)
    requires IsComplete(s.documents)
  {
    && row.locale == Trim(s.locale) && row.reason == Trim(s.reason) && d.identity(s.identity) == Some(row.identity)
    && |row.documents| == 7
    && forall t: DocType ::
         row.documents[t] == Draft(t, Trim(s.documents[t]), d.content(Trim(s.documents[t])))
  }

  /**
   * Under an unused key and with a new id a submission is accepted exactly if it is acceptable and nothing else is
   * pending; it then waits with just what was submitted.
   */
  lemma SubmittedIff(d: Digests, b: Board, x: SubmitInput, newId: Id)
    requires newId !in b.requests && (x.actor, x.key) !in b.byKey
    ensures var out := Submit(d, b, x, newId);
      && (out.Ok? <==>
            IsAcceptable(d, x.submission) && forall id :: id in b.requests ==> b.requests[id].status != Pending)
      && (out.Ok? ==>
            && out.id == newId && Holds(d, x.submission, out.row)
            && out.row.status == Pending && out.row.submittedBy == x.actor && out.row.key == x.key
            && out.row.reviewedBy.None? && out.row.reviewKey.None?
            && out.board == b.(requests := b.requests[newId := out.row], byKey := b.byKey[(x.actor, x.key) := newId]))
  {
    AcceptableIff(d, x.submission);
    if IsAcceptable(d, x.submission) {
      NormalHolds(d, x.submission);
    }
    hide Trim, Normalize, IsAcceptable, Drafts, SnapshotHash;
  }

  lemma NormalHolds(d: Digests, s: Submission)
    requires IsAcceptable(d, s) && Normalize(d, s).Some?
    ensures var n := Normalize(d, s).value;
      && n.locale == Trim(s.locale) && n.reason == Trim(s.reason) && d.identity(s.identity) == Some(n.identity)
      && forall t: DocType :: n.documents[t] == Draft(t, Trim(s.documents[t]), d.content(Trim(s.documents[t])))
  {
    hide Trim;
  }

  // ----- Requests over time -----

  /** What was submitted never changes, and a decision is final. */
  predicate Continues(r: Request, later: Request) {
    && later == r.(status := later.status, reviewedBy := later.reviewedBy, reviewKey := later.reviewKey,
                   reviewNote := later.reviewNote)
    && (r.status != Pending ==> later == r)
  }

  ghost predicate Extends(b: Board, later: Board) {
    && (forall id :: id in b.requests ==> id in later.requests && Continues(b.requests[id], later.requests[id]))
    && (forall k :: k in b.byKey && b.byKey[k] in b.requests ==> k in later.byKey && later.byKey[k] == b.byKey[k])
  }

  lemma SubmitExtends(d: Digests, b: Board, x: SubmitInput, newId: Id)
    ensures Submit(d, b, x, newId).Ok? ==> Extends(b, Submit(d, b, x, newId).board)
  {
    hide Normalize, SnapshotHash;
  }

  lemma DecideExtends(d: Digests, b: Board, x: DecideInput, f: Fresh)
    ensures Decide(d, b, x, f).Ok? ==> Extends(b, Decide(d, b, x, f).board)
  {
    hide Recheck, PublishedDocuments, RetireBundles, DraftsOf, FreshFor;
  }

  lemma NextExtends(d: Digests, b: Board, s: Step)
    ensures Extends(b, Next(d, b, s))
  {
    hide Submit, Decide, CurrentIds, ConfigurationComplete, SuppliesCurrent;
    match s
    case SubmitStep(x, newId) => SubmitExtends(d, b, x, newId);
    case DecideStep(x, f) => DecideExtends(d, b, x, f);
    case AcceptStep(_, _, _) =>
  }

  lemma {:induction false} RunExtends(d: Digests, b: Board, steps: seq<Step>)
    ensures Extends(b, Run(d, b, steps))
    decreases |steps|
  {
    hide Next;
    if steps != [] {
      NextExtends(d, b, steps[0]);
      RunExtends(d, Next(d, b, steps[0]), steps[1..]);
    }
  }

  /**
   * However much later, a submission under a used key is answered with its request as it stands by then, if it has
   * the same snapshot, and is refused otherwise.
   */
  lemma SubmitAgain(d: Digests, b: Board, x: SubmitInput, newId: Id, steps: seq<Step>, y: SubmitInput, otherId: Id)
    requires Submit(d, b, x, newId).Ok? && y.actor == x.actor && y.key == x.key && Normalize(d, y.submission).Some?
    ensures var out := Submit(d, b, x, newId);
      var later, n := Run(d, out.board, steps), Normalize(d, y.submission).value;
      && out.id in later.requests
      && Submit(d, later, y, otherId) ==
         if SnapshotHash(d, n.locale, n.identity, n.documents) == out.row.snapshot
         then Ok(later, out.id, later.requests[out.id]) else Err(PayloadMismatch)
  {
    hide Normalize, SnapshotHash, Run;
    var out := Submit(d, b, x, newId);
    RunExtends(d, out.board, steps);
    assert Continues(out.board.requests[out.id], Run(d, out.board, steps).requests[out.id]);
  }

  // ----- Deciding -----

  /** Everything new that a decision needs. */
  predicate IsNew(f: Fresh, b: Board) {
    && |f.documents| == 7 && (forall i, j :: 0 <= i < j < 7 ==> f.documents[i] != f.documents[j])
    && (forall i, k :: 0 <= i < |b.documents| && 0 <= k < 7 ==> b.documents[i].id != f.documents[k])
    && (forall i :: 0 <= i < |b.bundles| ==> b.bundles[i].id != f.bundle)
  }

  lemma FreshIff(f: Fresh, b: Board)
    ensures FreshFor(f, b) <==> IsNew(f, b)
  {
  }

  /**
   * On a sound board, under an unused key and with new identifiers: a pending request is decided exactly by somebody
   * other than its submitter, with a note of 3 to 500 characters, while its address still fits. That changes the
   * request's review alone; an approval publishes besides.
   */
  lemma DecidedIff(d: Digests, b: Board, x: DecideInput, f: Fresh)
    requires RequestsSound(d, b) && x.request in b.requests && b.requests[x.request].status == Pending && IsNew(f, b)
    requires forall id :: id in b.requests ==> b.requests[id].reviewKey != Some(x.key)
    ensures var row, out := b.requests[x.request], Decide(d, b, x, f);
      && (out.Ok? <==>
            && 3 <= |Trim(x.note)| <= 500 && row.submittedBy != x.reviewer && |row.identity.supportEmail| <= 254)
      && (out.Ok? ==>
            && out.id == x.request
            && out.row == row.(status := if x.approve then Approved else Rejected, reviewedBy := Some(x.reviewer),
                               reviewKey := Some(x.key), reviewNote := Trim(x.note))
            && out.board.requests == b.requests[x.request := out.row] && out.board.byKey == b.byKey
            && out.board.acceptances == b.acceptances
            && (!x.approve ==> out.board == b.(requests := out.board.requests)))
  {
    assert RowSound(d, b.requests[x.request]);
    RecheckIs(d, b.requests[x.request]);
    FreshIff(f, b);
    hide Recheck, DraftsOf, RequestsSound, RowSound, FreshFor, IsNew, PublishedDocuments, Trim;
  }

  /** A decided request is answered to who decided it so under that key, and to nobody else. */
  lemma DecideAgain(d: Digests, b: Board, x: DecideInput, f: Fresh)
    requires x.request in b.requests && b.requests[x.request].status != Pending
    requires 3 <= |Trim(x.note)| <= 500 && b.requests[x.request].submittedBy != x.reviewer
    ensures var row := b.requests[x.request];
      Decide(d, b, x, f) ==
        if row.reviewedBy == Some(x.reviewer) && row.reviewKey == Some(x.key)
           && (if x.approve then row.status == Approved else row.status == Rejected)
        then Ok(b, x.request, row) else Err(AlreadyDecided)
  {
  }

  // ----- Publishing -----

  /** The document of a type that an approval publishes: what the request holds, as the next version. */
  predicate Publishes(b: Board, row: Request, f: Fresh, t: DocType, documents: seq<Document>)
    requires |row.documents| == |f.documents| == 7 && |documents| == |b.documents| + 7
  {
    var doc := documents[|b.documents| + t];
    && doc.id == f.documents[t] && doc.docType == t && doc.content == Some(row.documents[t].content)
    && doc.hash == row.documents[t].hash && doc.locale == Some(row.locale) && doc.bundle == Some(f.bundle)
    && doc.status == Active && doc.approved && doc.effectiveAt == f.now
    && IsNextVersion(b.documents, t, doc.version)
  }

  /** One more than the highest so far. */
  predicate IsNextVersion(documents: seq<Document>, t: DocType, version: nat) {
    && (forall i :: 0 <= i < |documents| && documents[i].docType == t ==> documents[i].version < version)
    && (version == 1 || HasVersion(documents, t, version - 1))
  }

  predicate HasVersion(documents: seq<Document>, t: DocType, version: int) {
    exists i :: 0 <= i < |documents| && documents[i].docType == t && documents[i].version == version
  }

  lemma {:induction false} TopIsThere(documents: seq<Document>, t: DocType)
    ensures TopVersion(documents, t) == 0 || HasVersion(documents, t, TopVersion(documents, t))
  {
    if documents != [] {
      var n := |documents| - 1;
      var top := TopVersion(documents, t);
      TopIsThere(documents[..n], t);
      if top != 0 && !(documents[n].docType == t && documents[n].version == top) {
        var i :| 0 <= i < n && documents[..n][i].docType == t && documents[..n][i].version == top;
        assert documents[i].docType == t && documents[i].version == top;
      }
    }
  }

  /** Among the old and the new ones before it, a type's top version is that of the old ones. */
  lemma {:induction false} TopOfOld(was: seq<Document>, r: seq<Document>, n: nat, t: DocType)
    requires |was| <= n <= |r|
    requires forall i :: 0 <= i < |was| ==> r[i].docType == was[i].docType && r[i].version == was[i].version
    requires forall i :: |was| <= i < n ==> r[i].docType != t
    ensures TopVersion(r[..n], t) == TopVersion(was, t)
    decreases n
  {
    if n > |was| {
      assert r[..n][..n - 1] == r[..n - 1];
      TopOfOld(was, r, n - 1, t);
    } else if n > 0 {
      assert r[..n][..n - 1] == r[..n - 1];
      TopOfOld(was[..n - 1], r, n - 1, t);
    }
  }

  /**
   * An approval retires what was active, and publishes for each type exactly what the request holds, as the next
   * version; the new bundle names the request, its submitter and its reviewer.
   */
  lemma ApprovalPublishes(d: Digests, b: Board, x: DecideInput, f: Fresh)
    requires RequestsSound(d, b) && Decides(d, b, x, f) && x.approve
    ensures |b.requests[x.request].documents| == |f.documents| == 7
    ensures var row, after := b.requests[x.request], Decide(d, b, x, f).board;
      && |after.documents| == |b.documents| + 7
      && (forall i :: 0 <= i < |b.documents| ==>
            var was := b.documents[i];
            after.documents[i] == was.(status := if was.status == Active then Retired else was.status))
      && (forall t: DocType :: Publishes(b, row, f, t, after.documents))
      && |after.bundles| == |b.bundles| + 1
      && (forall i :: 0 <= i < |b.bundles| ==> after.bundles[i] == b.bundles[i].(active := false))
      && after.bundles[|b.bundles|] == Bundle(f.bundle, row.locale, x.request, row.submittedBy, x.reviewer, true)
  {
    hide Decide, Recheck, RowNormal, IsReadable, NewDocument, RequestsSound;
    DecideShape(d, b, x, f);
    var row, after := b.requests[x.request], Decide(d, b, x, f).board;
    RowTypes(d, row);
    PublishedShape(b, row, f);
    forall t: DocType ensures Publishes(b, row, f, t, after.documents) {
      NewIsPublished(b, row, f, t);
    }
  }

  lemma NewIsPublished(b: Board, row: Request, f: Fresh, t: DocType)
    requires |row.documents| == |f.documents| == 7
    requires forall i :: 0 <= i < 7 ==> row.documents[i].docType == i
    ensures Publishes(b, row, f, t, PublishedDocuments(b, row, row.documents, f))
  {
    hide TopVersion, IsNextVersion;
    PublishedShape(b, row, f);
    var r, n := PublishedDocuments(b, row, row.documents, f), |b.documents| + t;
    TopOfOld(b.documents, r, n, t);
    TopIsNext(b.documents, t);
  }

  lemma TopIsNext(documents: seq<Document>, t: DocType)
    ensures IsNextVersion(documents, t, TopVersion(documents, t) + 1)
  {
    TopIsThere(documents, t);
  }

  /**
   * From the submission to what is in force: once it is approved, however much later, the documents in force are the
   * submitted texts, trimmed, under the submitted locale, with their digests.
   */
  lemma SubmittedIsInForce(d: Digests, b: Board, x: SubmitInput, newId: Id, between: seq<Step>, y: DecideInput,
                           f: Fresh,
                           now: int, t: DocType)
    requires Inv(d, b) && newId !in b.requests && (x.actor, x.key) !in b.byKey && Submit(d, b, x, newId).Ok?
    requires y.request == newId && y.approve && Decides(d, Run(d, Submit(d, b, x, newId).board, between), y, f)
    requires now >= f.now
    ensures IsComplete(x.submission.documents)
    ensures var later := Run(d, Submit(d, b, x, newId).board, between);
      var rows := CurrentDocuments(Decide(d, later, y, f).board.documents, now);
      && |rows| == 7 && rows[t].docType == t && rows[t].content == Some(Trim(x.submission.documents[t]))
      && rows[t].hash == d.content(Trim(x.submission.documents[t])) && rows[t].locale == Some(Trim(x.submission.locale))
  {
    hide Submit, Decide, Run, Normalize, Recheck, IsAcceptable, RowNormal, Trim;
    var first := Submit(d, b, x, newId).board;
    var later := Run(d, first, between);
    SubmittedIff(d, b, x, newId);
    AcceptableIsComplete(d, x.submission);
    SubmitKeepsInv(d, b, x, newId);
    RunKeepsInv(d, first, between);
    RunExtends(d, first, between);
    assert Continues(first.requests[newId], later.requests[newId]);
    InForceAfter(d, later, y, f, now, t);
  }

  lemma AcceptableIsComplete(d: Digests, s: Submission)
    requires IsAcceptable(d, s)
    ensures IsComplete(s.documents)
  {
  }

  lemma InForceAfter(d: Digests, b: Board, y: DecideInput, f: Fresh, now: int, t: DocType)
    requires Inv(d, b) && Decides(d, b, y, f) && y.approve && now >= f.now
    ensures |b.requests[y.request].documents| == 7
    ensures var rows, row := CurrentDocuments(Decide(d, b, y, f).board.documents, now), b.requests[y.request];
      && |rows| == 7 && rows[t].docType == t && rows[t].content == Some(row.documents[t].content)
      && rows[t].hash == row.documents[t].hash && rows[t].locale == Some(row.locale)
  {
    hide Decide, RowNormal, Recheck, IsReadable, RequestsSound, BundlesSound, AcceptancesSound, OnePending;
    ApprovalPublishes(d, b, y, f);
    DecideKeepsInv(d, b, y, f);
    var after := Decide(d, b, y, f).board;
    var n := |b.documents|;
    assert Publishes(b, b.requests[y.request], f, 0, after.documents);
    assert Publishes(b, b.requests[y.request], f, t, after.documents);
    assert PublishedAt(after) <= now;
    BundleIsInForce(d, after, now);
    assert after.documents[n..][t] == after.documents[n + t];
  }

  // ----- Review keys -----

  /** No two requests were decided under one key. */
  predicate ReviewKeysDiffer(requests: map<Id, Request>) {
    forall i, j :: i in requests && j in requests && i != j && requests[i].reviewKey.Some? ==>
      requests[i].reviewKey != requests[j].reviewKey
  }

  /** A key that decided one request cannot decide another. */
  lemma UsedKeyIsRefused(d: Digests, b: Board, x: DecideInput, f: Fresh, other: Id)
    requires other in b.requests && b.requests[other].reviewKey == Some(x.key)
    requires x.request in b.requests && b.requests[x.request].status == Pending
    ensures Decide(d, b, x, f).Err?
  {
    hide Recheck, DraftsOf, FreshFor;
  }

  predicate PendingHaveNoKey(requests: map<Id, Request>) {
    forall id :: id in requests && requests[id].status == Pending ==> requests[id].reviewKey.None?
  }

  lemma NextKeepsKeys(d: Digests, b: Board, s: Step)
    requires ReviewKeysDiffer(b.requests) && PendingHaveNoKey(b.requests)
    ensures ReviewKeysDiffer(Next(d, b, s).requests) && PendingHaveNoKey(Next(d, b, s).requests)
  {
    hide Normalize, Recheck, DraftsOf, FreshFor, PublishedDocuments, RetireBundles, CurrentIds, ConfigurationComplete,
      SuppliesCurrent, SnapshotHash;
    match s
    case SubmitStep(_, _) =>
    case DecideStep(x, f) =>
      if Decide(d, b, x, f).Ok? && b.requests[x.request].status == Pending {
        assert forall id :: id in b.requests ==> b.requests[id].reviewKey != Some(x.key);
      }
    case AcceptStep(_, _, _) =>
  }

  /** Over every run, one key decides one request. */
  lemma {:induction false} RunKeepsKeys(d: Digests, b: Board, steps: seq<Step>)
    requires ReviewKeysDiffer(b.requests) && PendingHaveNoKey(b.requests)
    ensures ReviewKeysDiffer(Run(d, b, steps).requests) && PendingHaveNoKey(Run(d, b, steps).requests)
    decreases |steps|
  {
    hide Next, ReviewKeysDiffer, PendingHaveNoKey;
    if steps != [] {
      NextKeepsKeys(d, b, steps[0]);
      RunKeepsKeys(d, Next(d, b, steps[0]), steps[1..]);
    }
  }

  // ----- What a complete configuration is -----

  /** In force: active, approved, and from now or before. */
  predicate InForce(doc: Document, now: int) {
    doc.status == Active && doc.approved && now >= doc.effectiveAt
  }

  function InForceCount(documents: seq<Document>, now: int): nat {
    if documents == [] then 0
    else
      InForceCount(documents[..|documents| - 1], now) + if InForce(documents[|documents| - 1], now) then 1 else 0
  }

  /** There is content of allowed length, it has the stored digest, and its language is known. */
  predicate CanBeRead(d: Digests, doc: Document) {
    && doc.content.Some? && 40 <= |Trim(doc.content.value)| && |doc.content.value| <= 200000
    && d.content(doc.content.value) == doc.hash && doc.locale.Some? && IsTag(doc.locale.value)
  }

  predicate InForceOf(documents: seq<Document>, now: int, t: DocType) {
    exists i :: 0 <= i < |documents| && documents[i].docType == t && InForce(documents[i], now)
  }

  lemma {:induction false} CurrentAre(documents: seq<Document>, now: int)
    ensures |CurrentDocuments(documents, now)| == InForceCount(documents, now)
    ensures forall doc :: doc in CurrentDocuments(documents, now) <==> doc in documents && InForce(doc, now)
  {
    if documents != [] {
      var n := |documents| - 1;
      CurrentAre(documents[..n], now);
      assert documents == documents[..n] + [documents[n]];
    }
  }

  lemma TypeIff(documents: seq<Document>, now: int, t: DocType)
    ensures HasType(CurrentDocuments(documents, now), t) <==> InForceOf(documents, now, t)
  {
    CurrentAre(documents, now);
    hide CurrentDocuments;
    var rows := CurrentDocuments(documents, now);
    if HasType(rows, t) {
      var i :| 0 <= i < |rows| && rows[i].docType == t;
      assert rows[i] in documents;
      var k :| 0 <= k < |documents| && documents[k] == rows[i];
    }
    if InForceOf(documents, now, t) {
      var k :| 0 <= k < |documents| && documents[k].docType == t && InForce(documents[k], now);
      assert documents[k] in rows;
      var i :| 0 <= i < |rows| && rows[i] == documents[k];
    }
  }

  /** The configuration is complete exactly if seven documents are in force, one of each type, and all can be read. */
  lemma CompleteIff(d: Digests, documents: seq<Document>, now: int)
    ensures ConfigurationComplete(d, documents, now) <==>
      && InForceCount(documents, now) == 7 && (forall t: DocType :: InForceOf(documents, now, t))
      && forall i :: 0 <= i < |documents| && InForce(documents[i], now) ==> CanBeRead(d, documents[i])
  {
    CurrentAre(documents, now);
    forall t: DocType ensures HasType(CurrentDocuments(documents, now), t) <==> InForceOf(documents, now, t) {
      TypeIff(documents, now, t);
    }
    var rows := CurrentDocuments(documents, now);
    forall doc ensures IsReadable(d, doc) <==> CanBeRead(d, doc) {
      if doc.locale.Some? {
        TagIff(doc.locale.value);
      }
    }
    hide CurrentDocuments, IsReadable, CanBeRead, InForceCount, HasType, InForceOf, InForce;
    if forall i :: 0 <= i < |rows| ==> IsReadable(d, rows[i]) {
      forall i | 0 <= i < |documents| && InForce(documents[i], now) ensures CanBeRead(d, documents[i]) {
        assert documents[i] in rows;
        var k :| 0 <= k < |rows| && rows[k] == documents[i];
      }
    }
    if forall i :: 0 <= i < |documents| && InForce(documents[i], now) ==> CanBeRead(d, documents[i]) {
      forall k | 0 <= k < |rows| ensures IsReadable(d, rows[k]) {
        assert rows[k] in rows;
        var i :| 0 <= i < |documents| && documents[i] == rows[k];
      }
    }
  }
}
