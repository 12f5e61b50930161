/**
 * Publishing legal documents: one person submits a bundle of seven documents, another decides.
 *
 * An approved bundle retires everything that was active and becomes what users must consent to.
 */
module Disclosure {
  import opened Common
  import opened LetterCase
  import P = ProductIdentity

  const COUNT := 7

  /** A required document type, by its position in the list of required types. */
  type DocType = i: nat | i < COUNT

  // ----- Submissions -----

  const MIN_CONTENT := 40
  const MAX_CONTENT := 200000

  /** What is submitted: `documents` may lack a type. */
  datatype Submission = Submission(locale: string, reason: string, identity: P.Identity,
                                   documents: map<DocType, string>)

  datatype Draft = Draft(docType: DocType, content: string, hash: string)

  datatype Normal = Normal(locale: string, reason: string, identity: P.Identity, documents: seq<Draft>)

  datatype Snapshot = Snapshot(locale: string, identity: P.Identity, hashes: seq<string>)

  /**
   * The two digests, the mapping to lower case and the normaliser of the product identity, as functions. The last is
   * spelled out in `ProductIdentity`; here only what it answers matters.
   */
  datatype Functions = Functions(content: string -> string, snapshot: Snapshot -> string, casing: Casing,
                                 identity: P.Identity -> Option<P.Identity>)

  ghost predicate IsSpelledOut(f: Functions) {
    forall x: P.Identity {:trigger P.Normalize(f.casing, x)} :: f.identity(x) == P.Normalize(f.casing, x)
  }

  type Digests = f: Functions | IsSpelledOut(f) ghost witness
    var casing: Casing := Table(AsciiSimple, (s, i) => false);
    Functions(s => s, s => "", casing, x => P.Normalize(casing, x))

  /** The pattern `[a-z]{2}(-[A-Z]{2})?`. */
  predicate IsLocale(s: string) {
    && (|s| == 2 || |s| == 5) && IsLower(s[0]) && IsLower(s[1])
    && (|s| == 5 ==> s[2] == '-' && IsUpper(s[3]) && IsUpper(s[4]))
  }

  predicate ContentFits(s: string) {
    MIN_CONTENT <= |s| <= MAX_CONTENT
  }

  /** Every required type is there, with a content of allowed length. */
  predicate DocumentsFit(documents: map<DocType, string>) {
    forall t: DocType :: t in documents && ContentFits(Trim(documents[t]))
  }

  function Drafts(d: Digests, documents: map<DocType, string>): (drafts: seq<Draft>)
    requires DocumentsFit(documents)
    ensures |drafts| == COUNT
  {
    seq(COUNT, i requires 0 <= i < COUNT =>
      var content := Trim(documents[i]);
      Draft(i, content, d.content(content)))
  }

  function Normalize(d: Digests, s: Submission): (n: Option<Normal>)
    ensures n.Some? ==> |n.value.documents| == COUNT
  {
    var locale, reason := Trim(s.locale), Trim(s.reason);
    var identity := d.identity(s.identity);
    if !IsLocale(locale) || !(3 <= |reason| <= 500) || identity.None? || !DocumentsFit(s.documents) then None
    else Some(Normal(locale, reason, identity.value, Drafts(d, s.documents)))
  }

  function SnapshotHash(d: Digests, locale: string, identity: P.Identity, documents: seq<Draft>): string {
    d.snapshot(Snapshot(locale, identity, seq(|documents|, i requires 0 <= i < |documents| => documents[i].hash)))
  }

  // ----- Tables -----

  datatype RequestStatus = Pending | Approved | Rejected

  datatype Request = Request(
    locale: string, reason: string, identity: P.Identity, documents: seq<Draft>, snapshot: string,
      status: RequestStatus,
    submittedBy: Id, key: string, reviewedBy: Option<Id>, reviewKey: Option<string>, reviewNote: string)

  datatype Bundle = Bundle(id: Id, locale: string, request: Id, submittedBy: Id, publishedBy: Id, active: bool)

  datatype DocStatus = Drafted | Active | Retired

  datatype Document = Document(
    id: Id, docType: DocType, version: nat, hash: string, status: DocStatus, approved: bool, effectiveAt: int,
    locale: Option<string>, content: Option<string>, bundle: Option<Id>)

  /** `byKey` is the unique index on (submitter, idempotency key); acceptances are (user, document) pairs. */
  datatype Board = Board(
    requests: map<Id, Request>, byKey: map<(Id, string), Id>, bundles: seq<Bundle>, documents: seq<Document>,
    acceptances: set<(Id, Id)>)

  const EMPTY_BOARD := Board(map[], map[], [], [], {})

  datatype Error =
    | SubmissionInvalid
    | PayloadMismatch
    | ReviewPending
    | NoteInvalid
    | RequestNotFound
    | SelfApproval
    | AlreadyDecided
    | SnapshotMismatch
    | ConstraintViolation
    | ConfigurationIncomplete
    | AcceptanceRequired

  datatype Outcome = Ok(board: Board, id: Id, row: Request) | Err(error: Error)

  predicate AnyPending(requests: map<Id, Request>) {
    exists id :: id in requests && requests[id].status == Pending
  }

  datatype SubmitInput = SubmitInput(actor: Id, key: string, submission: Submission)

  function Submit(d: Digests, b: Board, x: SubmitInput, newId: Id): Outcome {
    match Normalize(d, x.submission)
    case None => Err(SubmissionInvalid)
    case Some(n) =>
      var snapshot := SnapshotHash(d, n.locale, n.identity, n.documents);
      if (x.actor, x.key) in b.byKey && b.byKey[(x.actor, x.key)] in b.requests then
        var id := b.byKey[(x.actor, x.key)];
        if b.requests[id].snapshot == snapshot then Ok(b, id, b.requests[id]) else Err(PayloadMismatch)
      else if AnyPending(b.requests) then Err(ReviewPending)
      else if newId in b.requests then Err(ConstraintViolation)
      else
        var row := Request(n.locale, n.reason, n.identity, n.documents, snapshot, Pending, x.actor, x.key, None, None,
                           "");
        Ok(b.(requests := b.requests[newId := row], byKey := b.byKey[(x.actor, x.key) := newId]), newId, row)
  }

  function RetireDocument(doc: Document): Document {
    if doc.status == Active then doc.(status := Retired) else doc
  }

  function RetireDocuments(documents: seq<Document>): (r: seq<Document>)
    ensures |r| == |documents|
  {
    seq(|documents|, i requires 0 <= i < |documents| => RetireDocument(documents[i]))
  }

  function RetireBundles(bundles: seq<Bundle>): (r: seq<Bundle>)
    ensures |r| == |bundles|
  {
    seq(|bundles|, i requires 0 <= i < |bundles| => bundles[i].(active := false))
  }

  /** The highest version of a type so far, or 0. */
  function TopVersion(documents: seq<Document>, t: DocType): (v: nat)
    ensures forall i :: 0 <= i < |documents| && documents[i].docType == t ==> documents[i].version <= v
  {
    if documents == [] then 0
    else
      var n := |documents| - 1;
      var before := TopVersion(documents[..n], t);
      if documents[n].docType == t && documents[n].version > before then documents[n].version else before
  }

  datatype Publication = Publication(bundle: Id, locale: string, now: int, ids: seq<Id>)

  function NewDocument(documents: seq<Document>, p: Publication, draft: Draft, id: Id): Document {
    Document(id, draft.docType, TopVersion(documents, draft.docType) + 1, draft.hash, Active, true, p.now,
             Some(p.locale), Some(draft.content), Some(p.bundle))
  }

  /** The documents after the first `n` drafts have been inserted. */
  function AddDocuments(documents: seq<Document>, p: Publication, drafts: seq<Draft>, n: nat): (r: seq<Document>)
    requires n <= |drafts| <= |p.ids|
    ensures |r| == |documents| + n
  {
    if n == 0 then documents
    else
      var before := AddDocuments(documents, p, drafts, n - 1);
      before + [NewDocument(before, p, drafts[n - 1], p.ids[n - 1])]
  }

  datatype DecideInput = DecideInput(request: Id, reviewer: Id, approve: bool, note: string, key: string)

  /** Identifiers and time of a decision: a bundle id, one id for each document, and the clock. */
  datatype Fresh = Fresh(bundle: Id, documents: seq<Id>, now: int)

  /** New identifiers collide with nothing, as primary keys require. */
  predicate FreshFor(f: Fresh, b: Board) {
    && |f.documents| == COUNT && Distinct(f.documents)
    && (forall i :: 0 <= i < |b.documents| ==> b.documents[i].id !in f.documents)
    && (forall i :: 0 <= i < |b.bundles| ==> b.bundles[i].id != f.bundle)
  }

  predicate ReviewKeyUsed(requests: map<Id, Request>, key: string) {
    exists id :: id in requests && requests[id].reviewKey == Some(key)
  }

  function Contents(documents: seq<Draft>): map<DocType, string> {
    if documents == [] then map[]
    else
      var last := documents[|documents| - 1];
      Contents(documents[..|documents| - 1])[last.docType := last.content]
  }

  function SubmissionOf(row: Request): Submission {
    Submission(row.locale, row.reason, row.identity, Contents(row.documents))
  }

  predicate SameDecision(row: Request, x: DecideInput) {
    && row.reviewedBy == Some(x.reviewer) && row.reviewKey == Some(x.key)
    && x.approve == (row.status == Approved)
  }

  function Decided(row: Request, x: DecideInput): Request {
    row.(status := if x.approve then Approved else Rejected, reviewedBy := Some(x.reviewer), reviewKey := Some(x.key),
         reviewNote := Trim(x.note))
  }

  function PublishedDocuments(b: Board, row: Request, drafts: seq<Draft>, f: Fresh): seq<Document>
    requires |drafts| == |f.documents| == COUNT
  {
    AddDocuments(RetireDocuments(b.documents), Publication(f.bundle, row.locale, f.now, f.documents), drafts, |drafts|)
  }

  function Publish(b: Board, id: Id, row: Request, drafts: seq<Draft>, reviewer: Id, f: Fresh): Board
    requires |drafts| == |f.documents| == COUNT
  {
    b.(bundles := RetireBundles(b.bundles) + [Bundle(f.bundle, row.locale, id, row.submittedBy, reviewer, true)],
       documents := PublishedDocuments(b, row, drafts, f))
  }

  /** The integrity check of a stored request: it must still normalise to something of the same hash. */
  function Recheck(d: Digests, row: Request): Option<Error> {
    match Normalize(d, SubmissionOf(row))
    case None => Some(SubmissionInvalid)
    case Some(n) =>
      if SnapshotHash(d, n.locale, n.identity, n.documents) != row.snapshot then Some(SnapshotMismatch) else None
  }

  /** The documents a request publishes. */
  function DraftsOf(d: Digests, row: Request): (drafts: seq<Draft>)
    requires Recheck(d, row).None?
    ensures |drafts| == COUNT
  {
    Normalize(d, SubmissionOf(row)).value.documents
  }

  /** The decision on a request that is pending and sound. */
  function Conclude(b: Board, x: DecideInput, row: Request, drafts: seq<Draft>, f: Fresh): Outcome
    requires |drafts| == COUNT
  {
    if x.approve && !FreshFor(f, b) then Err(ConstraintViolation)
    else if ReviewKeyUsed(b.requests, x.key) then Err(ConstraintViolation)
    else
      var published := if x.approve then Publish(b, x.request, row, drafts, x.reviewer, f) else b;
      var decided := Decided(row, x);
      Ok(published.(requests := b.requests[x.request := decided]), x.request, decided)
  }

  function Decide(d: Digests, b: Board, x: DecideInput, f: Fresh): Outcome {
    if !(3 <= |Trim(x.note)| <= 500) then Err(NoteInvalid)
    else if x.request !in b.requests then Err(RequestNotFound)
    else
      var row := b.requests[x.request];
      if row.submittedBy == x.reviewer then Err(SelfApproval)
      else if row.status != Pending then
        if SameDecision(row, x) then Ok(b, x.request, row) else Err(AlreadyDecided)
      else
        match Recheck(d, row)
        case Some(e) => Err(e)
        case None => Conclude(b, x, row, DraftsOf(d, row), f)
  }

  // ----- Consent -----

  predicate IsReadable(d: Digests, doc: Document) {
    && doc.content.Some? && |Trim(doc.content.value)| >= MIN_CONTENT && |doc.content.value| <= MAX_CONTENT
    && doc.locale.Some? && IsLocale(doc.locale.value) && d.content(doc.content.value) == doc.hash
  }

  predicate IsCurrent(doc: Document, now: int) {
    doc.status == Active && doc.effectiveAt <= now && doc.approved
  }

  /** The documents in force. */
  function CurrentDocuments(documents: seq<Document>, now: int): seq<Document> {
    if documents == [] then []
    else
      var n := |documents| - 1;
      CurrentDocuments(documents[..n], now) + if IsCurrent(documents[n], now) then [documents[n]] else []
  }

  predicate HasType(rows: seq<Document>, t: DocType) {
    exists i :: 0 <= i < |rows| && rows[i].docType == t
  }

  predicate ConfigurationComplete(d: Digests, documents: seq<Document>, now: int) {
    var rows := CurrentDocuments(documents, now);
    && |rows| == COUNT && (forall t: DocType :: HasType(rows, t))
    && forall i :: 0 <= i < |rows| ==> IsReadable(d, rows[i])
  }

  predicate AcceptedAll(rows: seq<Document>, acceptances: set<(Id, Id)>, user: Id) {
    forall i :: 0 <= i < |rows| ==> (user, rows[i].id) in acceptances
  }

  predicate ConsentComplete(d: Digests, b: Board, user: Id, now: int) {
    ConfigurationComplete(d, b.documents, now) && AcceptedAll(CurrentDocuments(b.documents, now), b.acceptances, user)
  }

  function CurrentIds(b: Board, now: int): set<Id> {
    var rows := CurrentDocuments(b.documents, now);
    set i | 0 <= i < |rows| :: rows[i].id
  }

  /** Both compare the sorted, duplicate-free list of supplied ids with the sorted list of current ids. */
  predicate SuppliesCurrent(b: Board, now: int, supplied: seq<Id>) {
    (set id | id in supplied) == CurrentIds(b, now)
  }

  function RecordAcceptances(b: Board, user: Id, now: int): Board {
    b.(acceptances := b.acceptances + set id | id in CurrentIds(b, now) :: (user, id))
  }

  // ----- Runs -----

  datatype Step =
    | SubmitStep(submit: SubmitInput, newId: Id)
    | DecideStep(decide: DecideInput, ids: Fresh)
    | AcceptStep(user: Id, supplied: seq<Id>, now: int)

  function Next(d: Digests, b: Board, s: Step): Board {
    match s
    case SubmitStep(x, newId) => (match Submit(d, b, x, newId) case Ok(next, _, _) => next case Err(_) => b)
    case DecideStep(x, f) => (match Decide(d, b, x, f) case Ok(next, _, _) => next case Err(_) => b)
    case AcceptStep(user, supplied, now) =>
      if ConfigurationComplete(d, b.documents, now) && SuppliesCurrent(b, now, supplied)
      then RecordAcceptances(b, user, now) else b
  }

  function Run(d: Digests, b: Board, steps: seq<Step>): Board
    decreases |steps|
  {
    if steps == [] then b else Run(d, Next(d, b, steps[0]), steps[1..])
  }
}
