/** The e-wallet disbursement actions: initiating a payment of a loan's
    amount to a mobile wallet, completing it (which marks the loan
    disbursed), and marking it failed. */
module EwalletViews {
  import opened Common
  import opened Text
  import opened Loans

  /** An e-wallet payment row. `providerResponse` is the provider's reply,
      kept as opaque text. */
  datatype EwalletPayment = EwalletPayment(
    id: nat,
    loan: nat,
    customer: nat,
    provider: string,
    phoneNumber: string,
    recipientName: string,
    transactionId: string,
    amount: Cents,
    status: string,
    providerTransactionId: string,
    initiatedBy: UserId,
    completedAt: Option<Timestamp>,
    failedAt: Option<Timestamp>,
    failureReason: string,
    providerResponse: string)

  /** Whether `s` starts with `EW-<id>-`. */
  predicate HasRefPrefix(s: string, id: nat) {
    var d := NatToString(id);
    |s| > 3 + |d| && s[..3] == "EW-" && s[3..3 + |d|] == d && s[3 + |d|] == '-'
  }

  /** The provider reference `EW-<payment id>-<timestamp>`; `stamp` is the
      text of `timezone.now().timestamp()`. */
  function TransactionRef(id: nat, stamp: string): (s: string)
    ensures HasRefPrefix(s, id)
    ensures s[4 + |NatToString(id)|..] == stamp
  {
    var s := "EW-" + NatToString(id) + "-" + stamp;
    assert s[3..3 + |NatToString(id)|] == NatToString(id);
    s
  }

  /** A digit string followed by `-` at the start of `t` is determined by `t`:
      the first `-` ends it. */
  lemma DigitsBeforeDash(d1: string, d2: string, t: string)
    requires AllDigits(d1) && |d1| < |t| && t[..|d1|] == d1 && t[|d1|] == '-'
    requires AllDigits(d2) && |d2| < |t| && t[..|d2|] == d2 && t[|d2|] == '-'
    ensures d1 == d2
  {
    forall i | 0 <= i < |d1|
      ensures t[i] != '-'
    {
      assert t[i] == t[..|d1|][i] && IsDigit(d1[i]);
    }
    forall i | 0 <= i < |d2|
      ensures t[i] != '-'
    {
      assert t[i] == t[..|d2|][i] && IsDigit(d2[i]);
    }
    assert |d1| == |d2|;
  }

  /** A reference names one payment: the id after `EW-` reads back. */
  lemma RefPrefixNamesOnePayment(s: string, id1: nat, id2: nat)
    requires HasRefPrefix(s, id1) && HasRefPrefix(s, id2)
    ensures id1 == id2
  {
    var d1, d2 := NatToString(id1), NatToString(id2);
    var t := s[3..];
    assert t[..|d1|] == s[3..3 + |d1|] && t[|d1|] == s[3 + |d1|];
    assert t[..|d2|] == s[3..3 + |d2|] && t[|d2|] == s[3 + |d2|];
    DigitsBeforeDash(d1, d2, t);
    NatToStringInjective(id1, id2);
  }

  /** Different payments get different references, whatever the timestamps. */
  lemma TransactionRefsAreDistinct(id1: nat, id2: nat, stamp1: string, stamp2: string)
    requires id1 != id2
    ensures TransactionRef(id1, stamp1) != TransactionRef(id2, stamp2)
  {
    if TransactionRef(id1, stamp1) == TransactionRef(id2, stamp2) {
      RefPrefixNamesOnePayment(TransactionRef(id1, stamp1), id1, id2);
    }
  }

  /** `initiate_payment` as written: the create passes no `transaction_id`,
      so the row gets the field's empty default, and the unique index on
      `transaction_id` rejects it (an uncaught `IntegrityError`, a 500) as
      soon as another row already holds that value. Gives the response and
      the payments afterwards, for a loan that was found. */
  function InitiateAsWritten(payments: map<nat, EwalletPayment>, id: nat, loan: Loan, recipient: string,
                             provider: string, phoneNumber: string, actor: UserId, stamp: string)
    : (r: (Result<EwalletPayment>, map<nat, EwalletPayment>))
    ensures r.0.Err? <==> exists k :: k in payments && payments[k].transactionId == ""
    ensures r.0.Err? ==> r.0.error == InternalError && r.1 == payments
    ensures r.0.Ok? ==> r.0.value.transactionId == "" && r.1 == payments[id := r.0.value]
  {
    if exists k :: k in payments && payments[k].transactionId == "" then (Err(InternalError), payments)
    else
      var p := EwalletPayment(id, loan.id, loan.customer, provider, phoneNumber, recipient, "", loan.amount,
                              "PROCESSING", TransactionRef(id, stamp), actor, None, None, "", "{}");
      (Ok(p), payments[id := p])
  }

  /** As written, only the first e-wallet payment can ever be initiated: once
      one exists, every later initiation fails and stores nothing. */
  lemma SecondInitiationFails(payments: map<nat, EwalletPayment>, id1: nat, id2: nat, loan1: Loan, loan2: Loan,
                              recipient1: string, recipient2: string, provider1: string, provider2: string,
                              phone1: string, phone2: string, actor1: UserId, actor2: UserId, stamp1: string,
                              stamp2: string)
    requires InitiateAsWritten(payments, id1, loan1, recipient1, provider1, phone1, actor1, stamp1).0.Ok?
    ensures var after := InitiateAsWritten(payments, id1, loan1, recipient1, provider1, phone1, actor1, stamp1).1;
            InitiateAsWritten(after, id2, loan2, recipient2, provider2, phone2, actor2, stamp2) == (Err(InternalError), after)
  {
    var after := InitiateAsWritten(payments, id1, loan1, recipient1, provider1, phone1, actor1, stamp1).1;
    assert id1 in after && after[id1].transactionId == "";
  }

  /** A payment after `complete_payment`. */
  function Completed(p: EwalletPayment, response: Option<string>, now: Timestamp): EwalletPayment {
    p.(status := "COMPLETED", completedAt := Some(now), providerResponse := response.GetOr("{}"))
  }

  /** A payment after `mark_failed`. */
  function Failed(p: EwalletPayment, reason: Option<string>, response: Option<string>, now: Timestamp): EwalletPayment {
    p.(status := "FAILED", failedAt := Some(now), failureReason := reason.GetOr("Payment failed"),
       providerResponse := response.GetOr("{}"))
  }

  /** Neither action checks the current status: a failed payment can still be
      completed and a completed one marked failed, the later action deciding
      the status while the earlier one's timestamp stays. */
  lemma NoTransitionGuard(p: EwalletPayment, reason: Option<string>, response: Option<string>, t1: Timestamp,
                          t2: Timestamp)
    ensures Completed(Failed(p, reason, response, t1), response, t2).status == "COMPLETED"
    ensures Completed(Failed(p, reason, response, t1), response, t2).failedAt == Some(t1)
    ensures Failed(Completed(p, response, t1), reason, response, t2).status == "FAILED"
    ensures Failed(Completed(p, response, t1), reason, response, t2).completedAt == Some(t1)
  {
  }

  /** A reference made for a payment id above every stored one matches no stored transaction id. */
  lemma FreshRefIsUnused(payments: map<nat, EwalletPayment>, id: nat, stamp: string)
    requires forall k :: k in payments ==> k < id && HasRefPrefix(payments[k].transactionId, k)
    ensures forall k :: k in payments ==> payments[k].transactionId != TransactionRef(id, stamp)
  {
    forall k | k in payments
      ensures payments[k].transactionId != TransactionRef(id, stamp)
    {
      if payments[k].transactionId == TransactionRef(id, stamp) {
        RefPrefixNamesOnePayment(TransactionRef(id, stamp), k, id);
      }
    }
  }

  /** The loans, their customers and the e-wallet payments. */
  class EwalletLedger {
    var loans: map<nat, Loan>
    var customers: map<nat, Customer>
    var payments: map<nat, EwalletPayment>
    var nextId: nat

    /** Ids are below the counter, every payment's transaction id names that
        payment, and every payment's loan and every loan's customer exist. */
    ghost predicate Valid()
      reads this
    {
      (forall k :: k in payments ==>
         k < nextId && payments[k].id == k && HasRefPrefix(payments[k].transactionId, k) && payments[k].loan in loans) &&
      (forall k :: k in loans ==> loans[k].id == k && loans[k].customer in customers)
    }

    constructor (loans: map<nat, Loan>, customers: map<nat, Customer>)
      requires forall k :: k in loans ==> loans[k].id == k && loans[k].customer in customers
      ensures Valid() && this.loans == loans && this.customers == customers && payments == map[] && nextId == 1
    {
      this.loans := loans;
      this.customers := customers;
      payments := map[];
      nextId := 1;
    }

    /** `initiate_payment`: a 400 unless loan, provider and phone number are
        all truthy (a JSON `0` loan id is not); loan id text `int()` rejects
        raises (500); an unknown loan is a 404. Otherwise a payment of the loan's amount is created
        as `PENDING` for the loan's customer, named after the customer unless
        a recipient is given, and then set to `PROCESSING` with its reference.
        The source passes no `transaction_id` (see `InitiateAsWritten`); here
        the payment's reference is its transaction id, so the unique index
        always accepts the new row. */
    method InitiatePayment(loanParam: Option<IdValue>, provider: Option<string>, phoneNumber: Option<string>,
                           recipientName: Option<string>, actor: UserId, stamp: string)
      returns (r: Result<EwalletPayment>)
      requires Valid()
      modifies this
      ensures Valid()
      ensures !(GivenValue(loanParam) && Given(provider) && Given(phoneNumber)) ==> r == Err(BadRequest)
      ensures GivenValue(loanParam) && Given(provider) && Given(phoneNumber) ==>
                (IdOf(loanParam.value).None? <==> r == Err(InternalError)) &&
                (r == Err(NotFound) <==> IdOf(loanParam.value).Some? && IdOf(loanParam.value).value !in old(loans))
      ensures r.Err? ==> payments == old(payments) && nextId == old(nextId)
      ensures loans == old(loans) && customers == old(customers)
      ensures r.Ok? ==>
                var loan := old(loans)[IdOf(loanParam.value).value];
                var id := old(nextId);
                r.value == EwalletPayment(id, loan.id, loan.customer, provider.value, phoneNumber.value,
                                          if Given(recipientName) then recipientName.value
                                          else FullName(old(customers)[loan.customer]),
                                          TransactionRef(id, stamp), loan.amount, "PROCESSING",
                                          TransactionRef(id, stamp), actor, None, None, "", "{}") &&
                id !in old(payments) && payments == old(payments)[id := r.value] && nextId == id + 1
      ensures r.Ok? ==> forall k :: k in old(payments) ==> old(payments)[k].transactionId != r.value.transactionId
    {
      if !(GivenValue(loanParam) && Given(provider) && Given(phoneNumber)) {
        return Err(BadRequest);
      }
      var parsed := IdOf(loanParam.value);
      if parsed.None? {
        return Err(InternalError);
      }
      if parsed.value < 0 || parsed.value !in loans {
        return Err(NotFound);
      }
      var loan := loans[parsed.value];
      var name := if Given(recipientName) then recipientName.value else FullName(customers[loan.customer]);
      var id := nextId;
      var payment := EwalletPayment(id, loan.id, loan.customer, provider.value, phoneNumber.value, name,
                                    TransactionRef(id, stamp), loan.amount, "PENDING", "", actor, None, None, "", "{}");
      FreshRefIsUnused(payments, id, stamp);
      // The row is created and then saved again with the provider's
      // answer; only the state after the second save is observable.
      payment := payment.(status := "PROCESSING");
      payment := payment.(providerTransactionId := TransactionRef(id, stamp));
      payments := payments[id := payment];
      nextId := nextId + 1;
      r := Ok(payment);
    }

    /** `complete_payment`: 404 for a missing payment; otherwise the payment
        is completed, whatever its status was, and its loan is marked
        `DISBURSED`. The clock is read twice, so the completion time `now` and
        the disbursement date `disbursedAt` are two time parameters. */
    method CompletePayment(id: nat, response: Option<string>, now: Timestamp, disbursedAt: Timestamp)
      returns (r: Result<EwalletPayment>)
      requires Valid()
      modifies this
      ensures Valid()
      ensures id !in old(payments) <==> r == Err(NotFound)
      ensures r.Err? ==> payments == old(payments) && loans == old(loans)
      ensures r.Ok? ==>
                var p := old(payments)[id];
                r.value == Completed(p, response, now) && payments == old(payments)[id := r.value] &&
                loans == old(loans)[p.loan := old(loans)[p.loan].(status := "DISBURSED", disbursementDate := Some(disbursedAt))]
      ensures customers == old(customers) && nextId == old(nextId)
    {
      if id !in payments {
        return Err(NotFound);
      }
      var payment := payments[id];
      payment := payment.(status := "COMPLETED");
      payment := payment.(completedAt := Some(now));
      payment := payment.(providerResponse := response.GetOr("{}"));
      payments := payments[id := payment];
      var loan := loans[payment.loan];
      loan := loan.(status := "DISBURSED");
      loan := loan.(disbursementDate := Some(disbursedAt));
      loans := loans[payment.loan := loan];
      r := Ok(payment);
    }

    /** `mark_failed`: 404 for a missing payment; otherwise the payment is
        failed, whatever its status was, with the reason defaulting to
        `Payment failed`; the loan is not touched. */
    method MarkFailed(id: nat, reason: Option<string>, response: Option<string>, now: Timestamp)
      returns (r: Result<EwalletPayment>)
      requires Valid()
      modifies this
      ensures Valid()
      ensures id !in old(payments) <==> r == Err(NotFound)
      ensures r.Err? ==> payments == old(payments)
      ensures r.Ok? ==> r.value == Failed(old(payments)[id], reason, response, now) && payments == old(payments)[id := r.value]
      ensures loans == old(loans) && customers == old(customers) && nextId == old(nextId)
    {
      if id !in payments {
        return Err(NotFound);
      }
      var payment := payments[id];
      payment := payment.(status := "FAILED");
      payment := payment.(failedAt := Some(now));
      payment := payment.(failureReason := reason.GetOr("Payment failed"));
      payment := payment.(providerResponse := response.GetOr("{}"));
      payments := payments[id := payment];
      r := Ok(payment);
    }
  }
}
