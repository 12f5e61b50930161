/**
 * Commercial idempotency records: a key of an operation is claimed for one request, and a completed
 * request answers every repetition of it.
 */
module Idempotency {
  import opened Common

  /** The operations that claim keys; each has one name in the table. */
  datatype Operation = OrderCreate | OrderEvidence | OrderSubmit | OrderDecision | LegalAccept

  datatype SubjectType = UserSubject | OrderSubject

  datatype Stage = CreateStage | EvidenceStage | SubmitStage | DecisionStage | AcceptStage

  datatype SourceType = PlanVersionSource | PaymentEvidenceSource | OrderSource | LegalBundleSource

  /** `decision` is the verdict, for a decision. */
  datatype Descriptor = Descriptor(
    operation: Operation, key: string, actor: Id, subjectType: SubjectType, subjectId: Id, resourceId: Option<string>,
    stage: Stage, decision: Option<bool>, payloadHash: string, sourceType: Option<SourceType>,
    sourceId: Option<string>, currency: Option<string>)

  /** A record is completed once it has a response. */
  datatype Record<R> = Record(descriptor: Descriptor, response: Option<R>)

  type Records<R> = map<(Operation, string), Record<R>>

  function Slot(d: Descriptor): (Operation, string) {
    (d.operation, d.key)
  }

  datatype Claim<R> = Collision | Replay(response: R) | Proceed(records: Records<R>)

  /** Inserts a pending record unless there is one, and looks at what is there. */
  function ClaimKey<R>(records: Records<R>, d: Descriptor): Claim<R> {
    var claimed := if Slot(d) in records then records else records[Slot(d) := Record(d, None)];
    if claimed[Slot(d)].descriptor != d then Collision
    else match claimed[Slot(d)].response
      case Some(response) => Replay(response)
      case None => Proceed(claimed)
  }

  /** Completes a pending record; anything else is left alone. */
  function CompleteKey<R>(records: Records<R>, slot: (Operation, string), response: R): Records<R> {
    if slot in records && records[slot].response.None?
    then records[slot := records[slot].(response := Some(response))] else records
  }

  /** Completed records of `a` are the same in `b`. */
  ghost predicate Keeps<R(!new)>(a: Records<R>, b: Records<R>) {
    forall slot :: slot in a && a[slot].response.Some? ==> slot in b && b[slot] == a[slot]
  }

  lemma CompletingKeeps<R(!new)>(records: Records<R>, d: Descriptor, response: R)
    requires ClaimKey(records, d).Proceed?
    ensures Keeps(records, CompleteKey(ClaimKey(records, d).records, Slot(d), response))
  {
  }

  /** After a claim is completed, its descriptor gets the response back and any other is turned away. */
  lemma CompletedAnswers<R(!new)>(records: Records<R>, d: Descriptor, response: R, later: Records<R>, e: Descriptor)
    requires ClaimKey(records, d).Proceed? && Slot(e) == Slot(d)
    requires Keeps(CompleteKey(ClaimKey(records, d).records, Slot(d), response), later)
    ensures ClaimKey(later, e) == if e == d then Replay(response) else Collision
  {
    var done := CompleteKey(ClaimKey(records, d).records, Slot(d), response);
    assert Slot(d) in done && done[Slot(d)].response.Some?;
  }
}
