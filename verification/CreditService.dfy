/**
 * The credit service itself: tables updated in place, with rollback on failure.
 *
 * Each method moves the tables exactly as its operation in `Credits` says, so every
 * sequence of calls keeps the invariant of `CreditLaws`.
 */
module CreditService {
  import opened Common
  import opened Credits

  class AiCreditService {
    var accounts: map<Id, Account>
    var reservations: map<Id, Reservation>
    var byKey: map<string, Id>
    var ledger: seq<Entry>

    function State(): Book
      reads this
    {
      Book(accounts, reservations, byKey, ledger)
    }

    constructor ()
      ensures State() == EMPTY_BOOK
    {
      accounts, reservations, byKey, ledger := map[], map[], map[], [];
    }

    method Rollback(saved: Book)
      modifies this
      ensures State() == saved
    {
      accounts, reservations, byKey, ledger := saved.accounts, saved.reservations, saved.byKey, saved.ledger;
    }

    method MutateAiCredits(m: Mutation) returns (r: Response)
      modifies this
      ensures Performs(old(State()), State(), r, Mutate(old(State()), m))
    {
      if !ValidMutation(m.kind, m.delta) {
        return Failure(MutationInvalid);
      }
      var prior := EntryByKey(ledger, m.key);
      if prior.Some? {
        if !SameContext(prior.value.mutation, m) {
          return Failure(KeyCollision);
        }
        return Success(Posted(prior.value.balance, false));
      }
      var saved := State();
      if m.user !in accounts {
        accounts := accounts[m.user := Account(Balance(0, 0), 1)];
      }
      var account := accounts[m.user];
      var applied := ApplyDelta(account.balance, m.delta);
      if applied.None? {
        Rollback(saved);
        return Failure(Insufficient);
      }
      accounts := accounts[m.user := Account(applied.value, account.version + 1)];
      if SourceTaken(ledger, m) {
        Rollback(saved);
        return Failure(ConstraintViolation);
      }
      ledger := ledger + [Entry(m, applied.value)];
      r := Success(Posted(applied.value, true));
    }

    method Reserve(input: ReserveInput, newId: Id) returns (r: Response)
      modifies this
      ensures Performs(old(State()), State(), r, Hold(old(State()), input, newId))
    {
      if input.credits <= 0 {
        return Failure(AmountInvalid);
      }
      if input.key in byKey && byKey[input.key] in reservations {
        var id := byKey[input.key];
        if !SameReserve(reservations[id], EntryOf(ledger, Kind.Reserve, id), input) {
          return Failure(KeyCollision);
        }
        return Success(Held(id, false));
      }
      if newId in reservations {
        return Failure(ConstraintViolation);
      }
      var saved := State();
      reservations := reservations[newId := Reservation(input.user, input.credits, None, Reserved, input.key,
                                                        input.expiresAt)];
      byKey := byKey[input.key := newId];
      var posted := MutateAiCredits(ReserveMutation(input, newId));
      if posted.Failure? {
        Rollback(saved);
        return posted;
      }
      r := Success(Held(newId, true));
    }

    method Settle(input: SettleInput) returns (r: Response)
      modifies this
      ensures Performs(old(State()), State(), r, Charge(old(State()), input))
    {
      if input.usage.source != "provider_metering" || IsBlank(input.usage.usageId) {
        return Failure(UsageNotReliable);
      }
      if input.reservation !in reservations {
        return Failure(ReservationNotFound);
      }
      var row := reservations[input.reservation];
      match ResolveTransition(row.status, Settled)
      case Replay =>
        if !SameSettle(EntryOf(ledger, Kind.Settle, input.reservation), input) {
          return Failure(KeyCollision);
        }
        return Success(Charged(input.reservation,
                               if row.settled.Some? then row.settled.value else input.usage.credits, false));
      case Conflict =>
        return Failure(StateConflict);
      case Proceed =>
        var plan := PlanSettlement(row.estimated, input.usage.credits);
        if plan.None? {
          return Failure(ReservationExceeded);
        }
        var posted := MutateAiCredits(SettleMutation(input, row.user, plan.value));
        if posted.Failure? {
          return posted;
        }
        reservations := reservations[input.reservation := row.(status := Settled,
                                                               settled := Some(input.usage.credits))];
        return Success(Charged(input.reservation, input.usage.credits, true));
    }

    method ReleaseHold(input: ReleaseInput) returns (r: Response)
      modifies this
      ensures Performs(old(State()), State(), r, Free(old(State()), input))
    {
      if input.reservation !in reservations {
        return Failure(ReservationNotFound);
      }
      var row := reservations[input.reservation];
      match ResolveTransition(row.status, Released)
      case Replay =>
        if !SameRelease(EntryOf(ledger, Kind.Release, input.reservation), input, row.estimated) {
          return Failure(KeyCollision);
        }
        return Success(Freed(input.reservation, false));
      case Conflict =>
        return Failure(StateConflict);
      case Proceed =>
        var posted := MutateAiCredits(ReleaseMutation(input, row.user, PlanRelease(row.estimated)));
        if posted.Failure? {
          return posted;
        }
        reservations := reservations[input.reservation := row.(status := Released)];
        return Success(Freed(input.reservation, true));
    }

    /** The approving half of a credit adjustment decision. */
    method ApplyAdjustment(input: AdjustInput) returns (r: Response)
      modifies this
      ensures Performs(old(State()), State(), r, AdjustBalance(old(State()), input))
    {
      var saved := State();
      var balance;
      if input.user !in accounts {
        if input.amount < 0 {
          return Failure(Insufficient);
        }
        balance := Balance(input.amount, 0);
        accounts := accounts[input.user := Account(balance, 1)];
      } else {
        var account := accounts[input.user];
        balance := account.balance.(available := account.balance.available + input.amount);
        if balance.available < 0 {
          return Failure(Insufficient);
        }
        accounts := accounts[input.user := Account(balance, account.version + 1)];
      }
      var m := AdjustMutation(input);
      if input.amount == 0 || EntryByKey(ledger, m.key).Some? || SourceTaken(ledger, m) {
        Rollback(saved);
        return Failure(ConstraintViolation);
      }
      ledger := ledger + [Entry(m, balance)];
      r := Success(Posted(balance, true));
    }
  }
}
