/** A scheduled loan repayment and the computed fields its serializer adds:
    whether it is overdue and what remains to be paid. */
module RepaymentSerializer {
  import opened Common
  import opened Loans

  /** The four repayment statuses of the schema. */
  datatype RepaymentStatus = Pending | OnTime | Late | Missed

  /** The stored status text. */
  function StatusCode(s: RepaymentStatus): (t: string)
    ensures s == Pending <==> t == "PENDING"
  {
    match s
    case Pending => "PENDING"
    case OnTime => "ON_TIME"
    case Late => "LATE"
    case Missed => "MISSED"
  }

  /** Distinct statuses are stored as distinct texts, so filtering by text
      selects exactly one status. */
  lemma StatusCodeInjective(s: RepaymentStatus, t: RepaymentStatus)
    ensures StatusCode(s) == StatusCode(t) <==> s == t
  {
  }

  /** A repayment row; `borrower` is the id of the loan's borrower. */
  datatype Repayment = Repayment(
    id: nat,
    loan: nat,
    borrower: nat,
    dueDate: Day,
    amountDue: Cents,
    amountPaid: Cents,
    status: RepaymentStatus,
    paymentDate: Option<Day>,
    paymentMethod: Option<string>)

  /** `get_loan_borrower_name`, given the loan's borrower, a customer: the
      serializer's own formatting agrees with `Customer.full_name`. */
  function BorrowerName(borrower: Customer): (s: string)
    ensures s == FullName(borrower)
  {
    PersonName(borrower.firstName, borrower.lastName)
  }

  /** `get_is_overdue`: due before today and still pending. A repayment is
      never overdue on or before its due date, paid or not. */
  predicate IsOverdue(r: Repayment, today: Day)
    ensures IsOverdue(r, today) ==> r.status == Pending
    ensures today <= r.dueDate ==> !IsOverdue(r, today)
  {
    r.dueDate < today && r.status == Pending
  }

  /** `get_remaining_balance`: the exact difference of the two amounts. */
  function RemainingBalance(r: Repayment): (b: Cents)
    ensures b + r.amountPaid == r.amountDue
    ensures b == 0 <==> r.amountPaid == r.amountDue
    ensures b < 0 <==> r.amountPaid > r.amountDue
  {
    r.amountDue - r.amountPaid
  }

  /** A repayment stops being overdue once its status leaves `PENDING`, and
      only a pending row can become overdue as the days pass. */
  lemma OverdueOnlyWhilePending(r: Repayment, today: Day, later: Day)
    requires today <= later
    ensures r.status != Pending ==> !IsOverdue(r, later)
    ensures IsOverdue(r, today) ==> IsOverdue(r, later)
  {
  }
}
