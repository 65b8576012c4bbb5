/** The loan payment actions: processing a payment against a loan (a
    completed payment row, the balance decrement, closure at zero and the
    repayment percentage) and listing a loan's payments. */
module PaymentViews {
  import opened Common
  import opened Text
  import opened Loans

  /** A payment row. `transactionId` is the `uuid4()` text the caller supplies. */
  datatype Payment = Payment(
    id: nat,
    loan: nat,
    customer: nat,
    paymentMethod: Option<nat>,
    amount: Cents,
    paymentType: string,
    status: string,
    transactionId: string,
    processedAt: Option<Timestamp>)

  /** `int(a / b)` for exact decimals and `b > 0`: the quotient truncated toward zero. */
  function TruncDiv(a: int, b: int): (q: int)
    requires b > 0
    ensures a >= 0 ==> q >= 0 && q * b <= a < (q + 1) * b
    ensures a < 0 ==> q <= 0 && (q - 1) * b < a <= q * b
  {
    if a >= 0 then DivBounds(a, b); a / b else DivBounds(-a, b); -((-a) / b)
  }

  /** Euclidean division of a non-negative number brackets it between two multiples. */
  lemma DivBounds(n: nat, b: int)
    requires b > 0
    ensures n / b >= 0 && n / b * b <= n < (n / b + 1) * b
  {
    assert n == n / b * b + n % b;
    assert (n / b + 1) * b == n / b * b + b;
  }

  /** Cancelling a positive factor from a strict product inequality. */
  lemma CancelLess(x: int, y: int, b: int)
    requires b > 0 && x * b < y * b
    ensures x < y
  {
  }

  /** A larger dividend never gives a smaller truncated quotient. */
  lemma TruncDivMonotone(a: int, a': int, b: int)
    requires b > 0 && a <= a'
    ensures TruncDiv(a, b) <= TruncDiv(a', b)
  {
    var q, q' := TruncDiv(a, b), TruncDiv(a', b);
    if a >= 0 {
      CancelLess(q, q' + 1, b);
    } else if a' < 0 {
      CancelLess(q - 1, q', b);
    }
  }

  /** `repayment_progress = int((total - remaining) / total * 100)` */
  function Progress(total: Cents, remaining: Cents): int
    requires total > 0
  {
    TruncDiv(100 * (total - remaining), total)
  }

  /** The loan after a payment of `amount`: the balance drops by exactly the
      amount unless that reaches zero or below, in which case it is clamped to
      zero and the loan is closed; the percentage is recomputed only for a
      positive total. Nothing else changes. */
  function Settled(loan: Loan, amount: Cents): (r: Loan)
    ensures loan.remainingBalance - amount > 0 ==>
              r.remainingBalance == loan.remainingBalance - amount && r.status == loan.status
    ensures loan.remainingBalance - amount <= 0 ==> r.remainingBalance == 0 && r.status == "CLOSED"
    ensures loan.totalAmount > 0 ==> r.repaymentProgress == Progress(loan.totalAmount, r.remainingBalance)
    ensures loan.totalAmount <= 0 ==> r.repaymentProgress == loan.repaymentProgress
    ensures r.(remainingBalance := loan.remainingBalance, status := loan.status,
               repaymentProgress := loan.repaymentProgress) == loan
  {
    var balance := loan.remainingBalance - amount;
    var l := if balance <= 0 then loan.(remainingBalance := 0, status := "CLOSED") else loan.(remainingBalance := balance);
    if l.totalAmount > 0 then l.(repaymentProgress := Progress(l.totalAmount, l.remainingBalance)) else l
  }

  /** The loan update of `process_payment`, step by step as the view makes
      it: it settles the loan as `Settled` says. */
  method ApplyPayment(loan: Loan, amount: Cents) returns (l: Loan)
    ensures l == Settled(loan, amount)
  {
    l := loan.(remainingBalance := loan.remainingBalance - amount);
    if l.remainingBalance <= 0 {
      l := l.(remainingBalance := 0, status := "CLOSED");
    }
    if l.totalAmount > 0 {
      var paid := l.totalAmount - l.remainingBalance;
      l := l.(repaymentProgress := TruncDiv(paid * 100, l.totalAmount));
    }
  }

  /** While the balance stays within the total, the percentage is between 0
      and 100, and it is 100 exactly when nothing remains. */
  lemma ProgressBounds(total: Cents, remaining: Cents)
    requires total > 0 && 0 <= remaining <= total
    ensures 0 <= Progress(total, remaining) <= 100
    ensures Progress(total, remaining) == 100 <==> remaining == 0
  {
    var q := Progress(total, remaining);
    CancelLess(q, 101, total);
    if remaining == 0 {
      CancelLess(99, q, total);
    } else {
      CancelLess(q, 100, total);
    }
  }

  /** A smaller balance never shows a smaller percentage. */
  lemma ProgressMonotone(total: Cents, remaining: Cents, remaining': Cents)
    requires total > 0 && remaining' <= remaining
    ensures Progress(total, remaining) <= Progress(total, remaining')
  {
    TruncDivMonotone(100 * (total - remaining), 100 * (total - remaining'), total);
  }

  /** Two payments that both leave a positive balance have the same effect
      as one payment of their sum. */
  lemma SettledComposes(loan: Loan, a: Cents, b: Cents)
    requires loan.remainingBalance - a - b > 0 && loan.remainingBalance - a > 0
    ensures Settled(Settled(loan, a), b) == Settled(loan, a + b)
  {
  }

  /** A payment that reaches zero closes the loan at 100 percent; a closed
      loan with nothing left stays closed at zero under any further
      non-negative payment. */
  lemma ClosingPaysInFull(loan: Loan, amount: Cents, more: Cents)
    requires loan.totalAmount > 0 && loan.remainingBalance - amount <= 0 && more >= 0
    ensures Settled(loan, amount).repaymentProgress == 100
    ensures Settled(Settled(loan, amount), more).status == "CLOSED"
    ensures Settled(Settled(loan, amount), more).remainingBalance == 0
  {
    ProgressBounds(loan.totalAmount, 0);
  }

  /** `Loan.objects.get(id=loan_id)`: a missing `loan_id` or an id naming no
      loan, a negative one included, is `Loan.DoesNotExist` (404); text that
      is not a number raises the `ValueError` the generic handler turns into
      a 400. */
  function LoanLookup(loans: map<nat, Loan>, loanParam: Option<string>): (r: Result<nat>)
    ensures r.Ok? <==> loanParam.Some? && ParseInt(loanParam.value).Some? && ParseInt(loanParam.value).value in loans
    ensures r.Ok? ==> r.value as int == ParseInt(loanParam.value).value
    ensures r.Ok? ==> r.value in loans
    ensures r.Err? ==> (r.error == BadRequest <==> loanParam.Some? && ParseInt(loanParam.value).None?)
    ensures r.Err? ==> r.error != InternalError
  {
    if loanParam.None? then Err(NotFound)
    else match ParseInt(loanParam.value)
      case None => Err(BadRequest)
      case Some(k) => if k >= 0 && k in loans then Ok(k as nat) else Err(NotFound)
  }

  /** `loan_payments` as intended, the serializer rendering the model's
      `transaction_reference`: the ids of the payments of one loan; a missing
      `loan_id` is a 400. */
  function LoanPayments(payments: map<nat, Payment>, loanParam: Option<string>): (r: Result<set<nat>>)
    ensures !Given(loanParam) ==> r == Err(BadRequest)
    ensures r.Ok? <==> RequiredId(loanParam).Ok?
    ensures r.Ok? ==> forall k :: k in r.value <==> k in payments && payments[k].loan == RequiredId(loanParam).value
  {
    match RequiredId(loanParam)
    case Err(e) => Err(e)
    case Ok(id) => Ok(set k | k in payments && payments[k].loan == id)
  }

  /** `loan_payments` as written: the serializer's field list names
      `reference_number`, which the payment model does not have, so only a
      loan without payments is answered (with `[]`); any other is a 500. */
  function LoanPaymentsAsWritten(payments: map<nat, Payment>, loanParam: Option<string>): (r: Result<set<nat>>)
    ensures r.Ok? ==> r == LoanPayments(payments, loanParam) && r.value == {}
    ensures LoanPayments(payments, loanParam).Err? ==> r == LoanPayments(payments, loanParam)
    ensures LoanPayments(payments, loanParam).Ok? ==> (r.Ok? <==> LoanPayments(payments, loanParam).value == {})
  {
    RenderedWithUnknownField(LoanPayments(payments, loanParam))
  }

  /** The discrepancy of the serializer: as written, a loan with any payment
      is a 500, where the intended listing answers with that payment. */
  lemma PaymentListingFailsOnAnyRow(payments: map<nat, Payment>, loanParam: Option<string>, k: nat)
    requires RequiredId(loanParam).Ok?
    requires k in payments && payments[k].loan == RequiredId(loanParam).value
    ensures k in LoanPayments(payments, loanParam).value
    ensures LoanPaymentsAsWritten(payments, loanParam) == Err(InternalError)
  {
  }

  /** The loan and payment tables. */
  class PaymentLedger {
    var loans: map<nat, Loan>
    var payments: map<nat, Payment>
    var nextPaymentId: nat

    ghost predicate Valid()
      reads this
    {
      forall k :: k in payments ==> k < nextPaymentId && payments[k].id == k
    }

    constructor (loans: map<nat, Loan>)
      ensures Valid() && this.loans == loans && payments == map[] && nextPaymentId == 1
    {
      this.loans := loans;
      payments := map[];
      nextPaymentId := 1;
    }

    /** `process_payment` as intended, the serializer rendering the model's
        `transaction_reference`. `amount` is the decoded `Decimal(amount)`, `None`
        when it is missing or not a decimal. The loan is fetched first; a bad
        amount then fails before anything is written. Otherwise a payment is
        created as `PROCESSING`, completed, and the loan is settled. */
    method ProcessPayment(loanParam: Option<string>, amount: Option<Cents>, paymentMethod: Option<nat>,
                          paymentType: Option<string>, transactionUuid: string, now: Timestamp)
      returns (r: Result<Payment>)
      requires Valid()
      modifies this
      ensures Valid()
      ensures r.Ok? <==> LoanLookup(old(loans), loanParam).Ok? && amount.Some?
      ensures LoanLookup(old(loans), loanParam).Err? ==> r == Err(LoanLookup(old(loans), loanParam).error)
      ensures LoanLookup(old(loans), loanParam).Ok? && amount.None? ==> r == Err(BadRequest)
      ensures r.Err? ==> loans == old(loans) && payments == old(payments) && nextPaymentId == old(nextPaymentId)
      ensures r.Ok? ==>
                var k := LoanLookup(old(loans), loanParam).value;
                var id := old(nextPaymentId);
                r.value == Payment(id, k, old(loans)[k].borrower, paymentMethod, amount.value,
                                   paymentType.GetOr("REGULAR"), "COMPLETED", transactionUuid, Some(now)) &&
                id !in old(payments) && payments == old(payments)[id := r.value] && nextPaymentId == id + 1 &&
                loans == old(loans)[k := Settled(old(loans)[k], amount.value)]
    {
      var lookup := LoanLookup(loans, loanParam);
      if lookup.Err? {
        return Err(lookup.error);
      }
      var k := lookup.value;
      assert k in loans;
      var loan := loans[k];
      if amount.None? {
        return Err(BadRequest);
      }
      var id := nextPaymentId;
      var payment := Payment(id, k, loan.borrower, paymentMethod, amount.value, paymentType.GetOr("REGULAR"),
                             "PROCESSING", transactionUuid, None);
      payments := payments[id := payment];
      nextPaymentId := nextPaymentId + 1;
      payment := payment.(status := "COMPLETED", processedAt := Some(now));
      payments := payments[id := payment];

      loan := ApplyPayment(loan, amount.value);
      loans := loans[k := loan];
      r := Ok(payment);
    }

    /** `process_payment` as written: everything `ProcessPayment` does is
        saved, then rendering the payment raises on the serializer's unknown
        `reference_number`, and the view's generic handler answers that with
        a 400. Every payment that goes through is answered 400 while the
        completed payment and the settled loan stay. */
    method ProcessPaymentAsWritten(loanParam: Option<string>, amount: Option<Cents>, paymentMethod: Option<nat>,
                                   paymentType: Option<string>, transactionUuid: string, now: Timestamp)
      returns (r: Result<Payment>)
      requires Valid()
      modifies this
      ensures Valid()
      ensures r.Err?
      ensures LoanLookup(old(loans), loanParam).Err? ==> r == Err(LoanLookup(old(loans), loanParam).error)
      ensures LoanLookup(old(loans), loanParam).Ok? ==> r == Err(BadRequest)
      ensures LoanLookup(old(loans), loanParam).Err? || amount.None? ==>
                loans == old(loans) && payments == old(payments) && nextPaymentId == old(nextPaymentId)
      ensures LoanLookup(old(loans), loanParam).Ok? && amount.Some? ==>
                var k := LoanLookup(old(loans), loanParam).value;
                var id := old(nextPaymentId);
                id !in old(payments) && nextPaymentId == id + 1 &&
                payments == old(payments)[id := Payment(id, k, old(loans)[k].borrower, paymentMethod, amount.value,
                                                        paymentType.GetOr("REGULAR"), "COMPLETED", transactionUuid,
                                                        Some(now))] &&
                loans == old(loans)[k := Settled(old(loans)[k], amount.value)]
    {
      var intended := ProcessPayment(loanParam, amount, paymentMethod, paymentType, transactionUuid, now);
      r := if intended.Ok? then Err(BadRequest) else intended;
    }
  }
}
