/** Manual credit adjustments: one person asks, another decides, and an approval moves the balance once. */
module Adjustments {
  import opened Common
  import Decimal
  import C = Credits

  // ----- Amounts -----

  const MAXIMUM := 999999999999

  /** The pattern `-?[1-9]\d{0,11}` after trimming, read as an integer. */
  function ParseDelta(value: string): Option<int> {
    var raw := Trim(value);
    var negative := raw != "" && raw[0] == '-';
    var digits := if negative then raw[1..] else raw;
    if 1 <= |digits| <= 12 && Decimal.AllDigits(digits) && digits[0] != '0'
    then Some(if negative then -(Decimal.ToNat(digits) as int) else Decimal.ToNat(digits)) else None
  }

  /** An amount as a person writes it. */
  function WrittenDelta(n: int): string {
    if n < 0 then "-" + Decimal.Digits(-n) else Decimal.Digits(n)
  }

  lemma {:induction false} FirstDigit(n: nat)
    requires n > 0
    ensures Decimal.Digits(n) != "" && Decimal.Digits(n)[0] != '0'
  {
    if n >= 10 {
      FirstDigit(n / 10);
    }
  }

  lemma DigitsStep(m: nat, d: nat)
    requires m > 0 && d < 10
    ensures Decimal.Digits(10 * m + d) == Decimal.Digits(m) + [Decimal.CharOf(d)]
  {
    assert (10 * m + d) / 10 == m && (10 * m + d) % 10 == d;
  }

  lemma DigitIsChar(c: char)
    requires IsDigit(c)
    ensures Decimal.DigitOf(c) < 10 && Decimal.CharOf(Decimal.DigitOf(c)) == c
    ensures Decimal.Digits(Decimal.DigitOf(c)) == [c] && Decimal.ToNat([c]) == Decimal.DigitOf(c)
  {
    assert [c][..0] == "";
  }

  lemma {:induction false} DigitsOfRead(digits: string)
    requires digits != "" && Decimal.AllDigits(digits) && digits[0] != '0'
    ensures Decimal.Digits(Decimal.ToNat(digits)) == digits
  {
    var n := |digits| - 1;
    DigitIsChar(digits[n]);
    if n == 0 {
      assert digits == [digits[0]];
    } else {
      DigitsOfRead(digits[..n]);
      DigitsBound(digits[..n]);
      assert Decimal.ToNat(digits) == 10 * Decimal.ToNat(digits[..n]) + Decimal.DigitOf(digits[n]);
      hide Decimal.ToNat, Decimal.Digits;
      DigitsStep(Decimal.ToNat(digits[..n]), Decimal.DigitOf(digits[n]));
      assert digits == digits[..n] + [digits[n]];
    }
  }

  lemma ReadIsWritten(value: string, n: int)
    requires ParseDelta(value) == Some(n)
    ensures Trim(value) == WrittenDelta(n)
  {
    hide Trim, Decimal.ToNat, Decimal.Digits;
    var raw := Trim(value);
    var digits := if raw != "" && raw[0] == '-' then raw[1..] else raw;
    DigitsOfRead(digits);
    DigitsBound(digits);
    assert raw != "" && raw[0] == '-' ==> raw == "-" + raw[1..];
  }

  /** What is read is exactly the written form of a number in range, a minus sign meaning a negative one. */
  lemma DeltaReadIff(value: string, n: int)
    ensures ParseDelta(value) == Some(n) <==>
      Trim(value) == WrittenDelta(n) && n != 0 && -MAXIMUM <= n <= MAXIMUM
  {
    hide ParseDelta, Trim, WrittenDelta;
    if ParseDelta(value) == Some(n) {
      DeltaInRange(value);
      ReadIsWritten(value, n);
    }
    if Trim(value) == WrittenDelta(n) && n != 0 && -MAXIMUM <= n <= MAXIMUM {
      WrittenIsRead(value, n);
    }
  }

  lemma WrittenIsRead(value: string, n: int)
    requires Trim(value) == WrittenDelta(n) && n != 0 && -MAXIMUM <= n <= MAXIMUM
    ensures ParseDelta(value) == Some(n)
  {
    var m := if n < 0 then -n else n;
    TwelveDigits();
    Decimal.DigitsRead(m);
    Decimal.DigitsShort(m, 12, MAXIMUM + 1);
    FirstDigit(m);
    assert n < 0 ==> ("-" + Decimal.Digits(m))[1..] == Decimal.Digits(m);
    assert n > 0 ==> IsDigit(Decimal.Digits(m)[0]);
  }

  /** Surrounding white space does not matter, and any such text has that form. */
  lemma DeltaRoundTrip(before: string, n: int, after: string)
    requires IsBlank(before) && IsBlank(after) && n != 0 && -MAXIMUM <= n <= MAXIMUM
    ensures ParseDelta(before + WrittenDelta(n) + after) == Some(n)
  {
    var m := if n < 0 then -n else n;
    Decimal.DigitsRead(m);
    var text := WrittenDelta(n);
    assert IsDigit(text[|text| - 1]) && (text[0] == '-' || IsDigit(text[0]));
    TrimCuts(before, text, after);
    DeltaReadIff(before + text + after, n);
  }

  lemma TwelveDigits()
    ensures Decimal.Power10(12) == MAXIMUM + 1
  {
    assert Decimal.Power10(6) == 1000000;
    assert Decimal.Power10(9) == 1000 * Decimal.Power10(6);
    assert Decimal.Power10(12) == 1000 * Decimal.Power10(9);
  }

  /** The pattern alone keeps the amount from being zero or out of range; the later range check never fires. */
  lemma DeltaInRange(value: string)
    requires ParseDelta(value).Some?
    ensures ParseDelta(value).value != 0 && -MAXIMUM <= ParseDelta(value).value <= MAXIMUM
  {
    var raw := Trim(value);
    var digits := if raw != "" && raw[0] == '-' then raw[1..] else raw;
    DigitsBound(digits);
    TwelveDigits();
    PowersGrow(|digits|, 12);
  }

  lemma {:induction false} DigitsBound(digits: string)
    requires Decimal.AllDigits(digits)
    ensures Decimal.ToNat(digits) < Decimal.Power10(|digits|)
    ensures digits != "" && digits[0] != '0' ==> Decimal.ToNat(digits) > 0
  {
    if digits != "" {
      DigitsBound(digits[..|digits| - 1]);
    }
  }

  lemma {:induction false} PowersGrow(m: nat, n: nat)
    requires m <= n
    ensures Decimal.Power10(m) <= Decimal.Power10(n)
    decreases n
  {
    if m < n {
      PowersGrow(m, n - 1);
    }
  }

  function Bounded(value: string, minimum: nat, maximum: nat): Option<string> {
    if minimum <= |Trim(value)| <= maximum then Some(Trim(value)) else None
  }

  // ----- Tables -----

  datatype Status = Pending | Approved | Rejected

  datatype Request = Request(
    user: Id, amount: int, reason: string, evidence: string, status: Status, requestedBy: Id, key: string,
    decidedBy: Option<Id>)

  datatype Decision = Decision(request: Id, reviewer: Id, approve: bool)

  /** `byKey` and the keys of `decisions` are unique indexes on idempotency keys. */
  datatype Office = Office(
    book: C.Book, requests: map<Id, Request>, byKey: map<(Id, string), Id>, decisions: map<string, Decision>)

  datatype Error =
    | DeltaInvalid
    | ReasonInvalid
    | EvidenceInvalid
    | KeyInvalid
    | NoteInvalid
    | KeyConflict
    | AlreadyPending
    | NotFound
    | SelfReview
    | StateConflict
    | BalanceInsufficient
    | Constraint(error: C.Error)

  datatype Reply = Submitted(id: Id, status: Status, replayed: bool)
    | Decided(decided: Id, outcome: Status, again: bool)

  datatype Outcome = Ok(office: Office, reply: Reply) | Err(error: Error)

  datatype SubmitInput = SubmitInput(
    actor: Id, customer: Id, amountDelta: string, reason: string, evidence: string, key: string)

  predicate PendingFor(requests: map<Id, Request>, user: Id) {
    exists r :: r in requests && requests[r].user == user && requests[r].status == Pending
  }

  function Submit(o: Office, x: SubmitInput, newId: Id): Outcome {
    var amount, reason, key := ParseDelta(x.amountDelta), Bounded(x.reason, 3, 500), Bounded(x.key, 8, 160);
    if amount.None? then Err(DeltaInvalid)
    else if reason.None? then Err(ReasonInvalid)
    else if |Trim(x.evidence)| > 500 then Err(EvidenceInvalid)
    else if key.None? then Err(KeyInvalid)
    else
      var row := Request(x.customer, amount.value, reason.value, Trim(x.evidence), Pending, x.actor, key.value, None);
      var slot := (x.actor, key.value);
      if slot in o.byKey && o.byKey[slot] in o.requests then
        var id := o.byKey[slot];
        var was := o.requests[id];
        if was.user == row.user && was.amount == row.amount && was.reason == row.reason && was.evidence == row.evidence
        then Ok(o, Submitted(id, was.status, true)) else Err(KeyConflict)
      else if PendingFor(o.requests, x.customer) || newId in o.requests then Err(AlreadyPending)
      else Ok(o.(requests := o.requests[newId := row], byKey := o.byKey[slot := newId]),
              Submitted(newId, Pending, false))
  }

  datatype DecideInput = DecideInput(
    actor: Id, adjustment: Id, approve: bool, note: string, key: string, requestId: string)

  function AdjustInputOf(x: DecideInput, row: Request): C.AdjustInput {
    C.AdjustInput(row.user, row.amount, x.adjustment, x.requestId, x.actor)
  }

  function Concluded(o: Office, x: DecideInput, row: Request, key: string, book: C.Book): Outcome {
    var status := if x.approve then Approved else Rejected;
    Ok(Office(book, o.requests[x.adjustment := row.(status := status, decidedBy := Some(x.actor))], o.byKey,
              o.decisions[key := Decision(x.adjustment, x.actor, x.approve)]),
       Decided(x.adjustment, status, false))
  }

  function Decide(o: Office, x: DecideInput): Outcome {
    var note, key := Bounded(x.note, 3, 500), Bounded(x.key, 8, 160);
    if note.None? then Err(NoteInvalid)
    else if key.None? then Err(KeyInvalid)
    else if key.value in o.decisions && o.decisions[key.value].request in o.requests then
      if o.decisions[key.value] == Decision(x.adjustment, x.actor, x.approve)
      then Ok(o, Decided(x.adjustment, o.requests[x.adjustment].status, true)) else Err(KeyConflict)
    else if x.adjustment !in o.requests then Err(NotFound)
    else
      var row := o.requests[x.adjustment];
      if row.requestedBy == x.actor then Err(SelfReview)
      else if row.status != Pending then Err(StateConflict)
      else if !x.approve then Concluded(o, x, row, key.value, o.book)
      else
        match C.AdjustBalance(o.book, AdjustInputOf(x, row))
        case Err(e) => Err(if e == C.Insufficient then BalanceInsufficient else Constraint(e))
        case Ok(book, _) => Concluded(o, x, row, key.value, book)
  }

  // ----- Runs -----

  const SOURCE := "ops_credit_adjustment"

  /** The last is another service at work on the same book. */
  datatype Step =
    | SubmitStep(submit: SubmitInput, newId: Id)
    | DecideStep(decide: DecideInput)
    | CreditStep(credit: C.Step)

  /** Other services neither adjust nor use this service's sources and keys. */
  predicate ForeignEntry(e: C.Entry) {
    e.mutation.kind != C.Adjust && e.mutation.sourceType != SOURCE && !("credit-adjustment:" <= e.mutation.key)
  }

  predicate Foreign(before: seq<C.Entry>, after: seq<C.Entry>) {
    before <= after && forall i :: |before| <= i < |after| ==> ForeignEntry(after[i])
  }

  function Next(o: Office, s: Step): Office {
    match s
    case SubmitStep(x, newId) => (match Submit(o, x, newId) case Ok(next, _) => next case Err(_) => o)
    case DecideStep(x) => (match Decide(o, x) case Ok(next, _) => next case Err(_) => o)
    case CreditStep(c) =>
      var book := C.Next(o.book, c);
      if Foreign(o.book.ledger, book.ledger) then o.(book := book) else o
  }

  function Run(o: Office, steps: seq<Step>): Office
    decreases |steps|
  {
    if steps == [] then o else Run(Next(o, steps[0]), steps[1..])
  }
}
