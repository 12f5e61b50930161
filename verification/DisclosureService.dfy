/** The disclosure service, changing its tables statement by statement. */
module DisclosureService {
  import opened Common
  import opened Disclosure

  datatype Response = Success(id: Id, row: Request) | Failure(error: Error)

  ghost predicate Performs(before: Board, after: Board, r: Response, o: Outcome) {
    match o
    case Ok(board, id, row) => after == board && r == Success(id, row)
    case Err(error) => after == before && r == Failure(error)
  }

  class CommercialDisclosureService {
    const digests: Digests
    var requests: map<Id, Request>
    var byKey: map<(Id, string), Id>
    var bundles: seq<Bundle>
    var documents: seq<Document>
    var acceptances: set<(Id, Id)>

    constructor (digests: Digests)
      ensures this.digests == digests && State() == EMPTY_BOARD
    {
      this.digests := digests;
      requests, byKey, bundles, documents, acceptances := map[], map[], [], [], {};
    }

    function State(): Board
      reads this
    {
      Board(requests, byKey, bundles, documents, acceptances)
    }

    method SubmitCommercialDisclosure(x: SubmitInput, newId: Id) returns (r: Response)
      modifies this
      ensures Performs(old(State()), State(), r, Submit(digests, old(State()), x, newId))
    {
      var normalized := Normalize(digests, x.submission);
      if normalized.None? {
        return Failure(SubmissionInvalid);
      }
      var n := normalized.value;
      var snapshot := SnapshotHash(digests, n.locale, n.identity, n.documents);
      if (x.actor, x.key) in byKey && byKey[(x.actor, x.key)] in requests {
        var id := byKey[(x.actor, x.key)];
        if requests[id].snapshot != snapshot {
          return Failure(PayloadMismatch);
        }
        return Success(id, requests[id]);
      }
      if AnyPending(requests) {
        return Failure(ReviewPending);
      }
      if newId in requests {
        return Failure(ConstraintViolation);
      }
      var row := Request(n.locale, n.reason, n.identity, n.documents, snapshot, Pending, x.actor, x.key, None, None,
                         "");
      requests := requests[newId := row];
      byKey := byKey[(x.actor, x.key) := newId];
      return Success(newId, row);
    }

    /** Inserts one document for each draft, each with the next version of its type. */
    method InsertDocuments(p: Publication, drafts: seq<Draft>)
      requires |drafts| <= |p.ids|
      modifies `documents
      ensures documents == AddDocuments(old(documents), p, drafts, |drafts|)
    {
      for i := 0 to |drafts|
        invariant documents == AddDocuments(old(documents), p, drafts, i)
      {
        documents := documents + [NewDocument(documents, p, drafts[i], p.ids[i])];
      }
    }

    method DecideCommercialDisclosure(x: DecideInput, f: Fresh) returns (r: Response)
      modifies this
      ensures Performs(old(State()), State(), r, Decide(digests, old(State()), x, f))
    {
      var note := Trim(x.note);
      if |note| < 3 || |note| > 500 {
        return Failure(NoteInvalid);
      }
      if x.request !in requests {
        return Failure(RequestNotFound);
      }
      var row := requests[x.request];
      if row.submittedBy == x.reviewer {
        return Failure(SelfApproval);
      }
      if row.status != Pending {
        if SameDecision(row, x) {
          return Success(x.request, row);
        }
        return Failure(AlreadyDecided);
      }
      var checked := Recheck(digests, row);
      if checked.Some? {
        return Failure(checked.value);
      }
      if (x.approve && !FreshFor(f, State())) || ReviewKeyUsed(requests, x.key) {
        return Failure(ConstraintViolation);
      }
      if x.approve {
        var drafts := DraftsOf(digests, row);
        documents := RetireDocuments(documents);
        bundles := RetireBundles(bundles)
          + [Bundle(f.bundle, row.locale, x.request, row.submittedBy, x.reviewer, true)];
        InsertDocuments(Publication(f.bundle, row.locale, f.now, f.documents), drafts);
      }
      var decided := row.(status := if x.approve then Approved else Rejected, reviewedBy := Some(x.reviewer),
                          reviewKey := Some(x.key), reviewNote := note);
      requests := requests[x.request := decided];
      return Success(x.request, decided);
    }

    /** One acceptance row for each document in force, unless it is there already. */
    method InsertAcceptances(user: Id, now: int)
      modifies `acceptances
      ensures State() == RecordAcceptances(old(State()), user, now)
    {
      var rows := CurrentDocuments(documents, now);
      for i := 0 to |rows|
        invariant acceptances == old(acceptances) + set k | 0 <= k < i :: (user, rows[k].id)
      {
        acceptances := acceptances + {(user, rows[i].id)};
      }
      assert acceptances == old(acceptances) + set id | id in CurrentIds(old(State()), now) :: (user, id);
    }
  }
}
