/** The adjustment service, changing its tables statement by statement. */
module AdjustmentService {
  import opened Common
  import opened Adjustments
  import C = Credits
  import opened CreditService

  datatype Response = Done(reply: Reply) | Failed(error: Error)

  ghost predicate Achieves(before: Office, after: Office, r: Response, out: Outcome) {
    match out
    case Ok(office, reply) => after == office && r == Done(reply)
    case Err(error) => after == before && r == Failed(error)
  }

  class CreditAdjustmentService {
    const credits: AiCreditService
    var requests: map<Id, Request>
    var byKey: map<(Id, string), Id>
    var decisions: map<string, Decision>

    constructor (credits: AiCreditService)
      ensures this.credits == credits && State() == Office(credits.State(), map[], map[], map[])
    {
      this.credits := credits;
      requests, byKey, decisions := map[], map[], map[];
    }

    function State(): Office
      reads this, credits
    {
      Office(credits.State(), requests, byKey, decisions)
    }

    method SubmitCreditAdjustment(x: SubmitInput, newId: Id) returns (r: Response)
      modifies this
      ensures Achieves(old(State()), State(), r, Submit(old(State()), x, newId))
    {
      var amount, reason, key := ParseDelta(x.amountDelta), Bounded(x.reason, 3, 500), Bounded(x.key, 8, 160);
      if amount.None? {
        return Failed(DeltaInvalid);
      }
      if reason.None? {
        return Failed(ReasonInvalid);
      }
      if |Trim(x.evidence)| > 500 {
        return Failed(EvidenceInvalid);
      }
      if key.None? {
        return Failed(KeyInvalid);
      }
      var slot := (x.actor, key.value);
      if slot in byKey && byKey[slot] in requests {
        var id := byKey[slot];
        var row := requests[id];
        if row.user != x.customer || row.amount != amount.value || row.reason != reason.value
          || row.evidence != Trim(x.evidence) {
          return Failed(KeyConflict);
        }
        return Done(Submitted(id, row.status, true));
      }
      if PendingFor(requests, x.customer) || newId in requests {
        return Failed(AlreadyPending);
      }
      requests := requests[newId :=
        Request(x.customer, amount.value, reason.value, Trim(x.evidence), Pending, x.actor, key.value, None)];
      byKey := byKey[slot := newId];
      return Done(Submitted(newId, Pending, false));
    }

    method DecideCreditAdjustment(x: DecideInput) returns (r: Response)
      modifies this, credits
      ensures Achieves(old(State()), State(), r, Decide(old(State()), x))
    {
      var note, key := Bounded(x.note, 3, 500), Bounded(x.key, 8, 160);
      if note.None? {
        return Failed(NoteInvalid);
      }
      if key.None? {
        return Failed(KeyInvalid);
      }
      if key.value in decisions && decisions[key.value].request in requests {
        if decisions[key.value] != Decision(x.adjustment, x.actor, x.approve) {
          return Failed(KeyConflict);
        }
        return Done(Decided(x.adjustment, requests[x.adjustment].status, true));
      }
      if x.adjustment !in requests {
        return Failed(NotFound);
      }
      var row := requests[x.adjustment];
      if row.requestedBy == x.actor {
        return Failed(SelfReview);
      }
      if row.status != Pending {
        return Failed(StateConflict);
      }
      if x.approve {
        var moved := credits.ApplyAdjustment(AdjustInputOf(x, row));
        if moved.Failure? {
          return Failed(if moved.error == C.Insufficient then BalanceInsufficient else Constraint(moved.error));
        }
      }
      var status := if x.approve then Approved else Rejected;
      decisions := decisions[key.value := Decision(x.adjustment, x.actor, x.approve)];
      requests := requests[x.adjustment := row.(status := status, decidedBy := Some(x.actor))];
      return Done(Decided(x.adjustment, status, false));
    }
  }
}
