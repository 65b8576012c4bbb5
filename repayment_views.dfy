/** The repayment REST actions: the filtered listing, the upcoming and
    overdue lists, marking a repayment paid, and the summary statistics. */
module RepaymentViews {
  import opened Common
  import opened Text
  import opened RepaymentSerializer

  /** The listing's query parameters `status`, `loan_id` and `overdue`. */
  datatype Query = Query(status: Option<string>, loanId: Option<string>, overdue: Option<string>)

  /** Whether a row passes the `get_queryset` filters for a loan id that has
      already been read as a number. */
  predicate Matches(r: Repayment, q: Query, loan: Option<int>, today: Day) {
    (Given(q.status) ==> StatusCode(r.status) == q.status.value) &&
    (loan.Some? ==> r.loan == loan.value) &&
    (q.overdue == Some("true") ==> IsOverdue(r, today))
  }

  /** `get_queryset`: each filter applies only when its parameter is truthy
      (`overdue` only when it is exactly `'true'`); a `loan_id` that is not a
      number makes the lookup raise, a 500. */
  function Listing(rows: map<nat, Repayment>, q: Query, today: Day): (r: Result<set<nat>>)
    ensures r.Err? <==> Given(q.loanId) && ParseInt(q.loanId.value).None?
    ensures r.Err? ==> r.error == InternalError
    ensures r.Ok? ==> r.value <= rows.Keys
    ensures r.Ok? && !Given(q.status) && !Given(q.loanId) && q.overdue != Some("true") ==> r.value == rows.Keys
    ensures r.Ok? ==> forall k :: k in rows ==> (k in r.value <==>
              (Given(q.status) ==> StatusCode(rows[k].status) == q.status.value) &&
              (Given(q.loanId) ==> Some(rows[k].loan as int) == ParseInt(q.loanId.value)) &&
              (q.overdue == Some("true") ==> IsOverdue(rows[k], today)))
  {
    if Given(q.loanId) && ParseInt(q.loanId.value).None? then Err(InternalError)
    else
      var loan := if Given(q.loanId) then ParseInt(q.loanId.value) else None;
      Ok(set k | k in rows && Matches(rows[k], q, loan, today))
  }

  /** `upcoming`: the listing narrowed to pending rows due within thirty days
      of today, past-due ones included. */
  function Upcoming(rows: map<nat, Repayment>, q: Query, today: Day): (r: Result<set<nat>>)
    ensures r.Ok? <==> Listing(rows, q, today).Ok?
    ensures r.Ok? ==> forall k :: k in r.value <==>
              k in Listing(rows, q, today).value && rows[k].status == Pending && rows[k].dueDate <= today + 30
  {
    match Listing(rows, q, today)
    case Err(e) => Err(e)
    case Ok(ks) => Ok(set k | k in ks && rows[k].status == Pending && rows[k].dueDate <= today + 30)
  }

  /** `overdue`: the listing narrowed to pending rows due before today. */
  function Overdue(rows: map<nat, Repayment>, q: Query, today: Day): (r: Result<set<nat>>)
    ensures r.Ok? <==> Listing(rows, q, today).Ok?
    ensures r.Ok? ==> forall k :: k in r.value <==>
              k in Listing(rows, q, today).value && rows[k].status == Pending && rows[k].dueDate < today
  {
    match Listing(rows, q, today)
    case Err(e) => Err(e)
    case Ok(ks) => Ok(set k | k in ks && IsOverdue(rows[k], today))
  }

  /** The overdue list is exactly the rows the serializer flags as overdue
      (with no other filter), every overdue row is also upcoming, and
      `?overdue=true` on the listing gives the overdue list. */
  lemma OverdueAgreesEverywhere(rows: map<nat, Repayment>, q: Query, today: Day)
    requires Listing(rows, q, today).Ok?
    ensures Overdue(rows, q, today).value <= Upcoming(rows, q, today).value
    ensures Overdue(rows, Query(None, None, None), today).value == set k | k in rows && IsOverdue(rows[k], today)
    ensures Listing(rows, q.(overdue := Some("true")), today).value == Overdue(rows, q, today).value
  {
    var plain := Query(None, None, None);
    assert Listing(rows, plain, today).value == rows.Keys;
    var withFlag := q.(overdue := Some("true"));
    assert Listing(rows, withFlag, today).value == Overdue(rows, q, today).value by {
      forall k | k in Overdue(rows, q, today).value
        ensures k in Listing(rows, withFlag, today).value
      {
        var loan := if Given(q.loanId) then ParseInt(q.loanId.value) else None;
        assert Matches(rows[k], q, loan, today);
      }
    }
  }

  /** The total of `f` over the selected rows (`aggregate(Sum(...))`). */
  ghost function SumOf(rows: map<nat, Repayment>, sel: set<nat>, f: Repayment -> int): int
    requires sel <= rows.Keys
    decreases sel
  {
    if sel == {} then 0
    else
      var k :| k in sel;
      f(rows[k]) + SumOf(rows, sel - {k}, f)
  }

  /** The sum does not depend on the order its terms are taken in. */
  lemma {:induction false} SumOfRemove(rows: map<nat, Repayment>, sel: set<nat>, f: Repayment -> int, j: nat)
    requires sel <= rows.Keys && j in sel
    ensures SumOf(rows, sel, f) == f(rows[j]) + SumOf(rows, sel - {j}, f)
    decreases sel
  {
    var k :| k in sel && SumOf(rows, sel, f) == f(rows[k]) + SumOf(rows, sel - {k}, f);
    if k != j {
      SumOfRemove(rows, sel - {k}, f, j);
      SumOfRemove(rows, sel - {j}, f, k);
      assert sel - {k} - {j} == sel - {j} - {k};
    }
  }

  /** Sums over disjoint selections add up. */
  lemma {:induction false} SumOfUnion(rows: map<nat, Repayment>, a: set<nat>, b: set<nat>, f: Repayment -> int)
    requires a <= rows.Keys && b <= rows.Keys && a !! b
    ensures SumOf(rows, a + b, f) == SumOf(rows, a, f) + SumOf(rows, b, f)
    decreases a
  {
    if a != {} {
      var k :| k in a;
      SumOfRemove(rows, a + b, f, k);
      SumOfRemove(rows, a, f, k);
      assert a + b - {k} == (a - {k}) + b;
      SumOfUnion(rows, a - {k}, b, f);
    } else {
      assert a + b == b;
    }
  }

  /** `str(total or 0)`: a zero total, or no rows at all, is the plain `'0'`
      because a zero decimal is falsy; any other total is the exact decimal. */
  function TotalText(c: Cents): (s: string)
    ensures s == "0" <==> c == 0
    ensures c != 0 ==> ParseDecimal(s) == Some(c)
  {
    if c == 0 then "0" else DecimalStringRoundTrip(c); DecimalString(c)
  }

  /** The `stats` response. */
  datatype Stats = Stats(totalDue: string, totalPaid: string, overdueCount: nat, onTimeCount: nat,
                         lateCount: nat, missedCount: nat)

  function WithStatus(rows: map<nat, Repayment>, sel: set<nat>, s: RepaymentStatus): set<nat> {
    set k | k in sel && k in rows && rows[k].status == s
  }

  /** `stats` over the listing: the amount due of the pending rows, the amount
      paid of the others, and the number of overdue, on-time, late and missed rows. */
  ghost function StatsOf(rows: map<nat, Repayment>, q: Query, today: Day): (r: Result<Stats>)
    ensures r.Ok? <==> Listing(rows, q, today).Ok?
    ensures r.Err? ==> r.error == Listing(rows, q, today).error
  {
    match Listing(rows, q, today)
    case Err(e) => Err(e)
    case Ok(ks) =>
      var pending := WithStatus(rows, ks, Pending);
      Ok(Stats(TotalText(SumOf(rows, pending, (r: Repayment) => r.amountDue)),
               TotalText(SumOf(rows, ks - pending, (r: Repayment) => r.amountPaid)),
               |Overdue(rows, q, today).value|,
               |WithStatus(rows, ks, OnTime)|, |WithStatus(rows, ks, Late)|, |WithStatus(rows, ks, Missed)|))
  }

  /** Every row of a selection has exactly one of the four statuses. */
  lemma WithStatusPartition(rows: map<nat, Repayment>, ks: set<nat>)
    requires ks <= rows.Keys
    ensures |WithStatus(rows, ks, Pending)| + |WithStatus(rows, ks, OnTime)| + |WithStatus(rows, ks, Late)| +
            |WithStatus(rows, ks, Missed)| == |ks|
  {
    var p, o, l, m := WithStatus(rows, ks, Pending), WithStatus(rows, ks, OnTime), WithStatus(rows, ks, Late),
                      WithStatus(rows, ks, Missed);
    var po := p + o;
    var pol := po + l;
    assert p !! o && |po| == |p| + |o|;
    assert po !! l && |pol| == |po| + |l|;
    assert pol !! m && |pol + m| == |pol| + |m|;
    WithStatusCover(rows, ks);
  }

  lemma WithStatusCover(rows: map<nat, Repayment>, ks: set<nat>)
    requires ks <= rows.Keys
    ensures ks == WithStatus(rows, ks, Pending) + WithStatus(rows, ks, OnTime) + WithStatus(rows, ks, Late) +
                  WithStatus(rows, ks, Missed)
  {
    forall k | k in ks
      ensures k in WithStatus(rows, ks, rows[k].status)
    {
    }
  }

  /** The counts partition the listing: on-time, late and missed rows plus the
      pending ones are all of it, and the overdue rows are among the pending. */
  lemma StatusCountsPartition(rows: map<nat, Repayment>, q: Query, today: Day)
    requires Listing(rows, q, today).Ok?
    ensures var ks := Listing(rows, q, today).value;
            var s := StatsOf(rows, q, today).value;
            s.onTimeCount + s.lateCount + s.missedCount + |WithStatus(rows, ks, Pending)| == |ks| &&
            s.overdueCount <= |WithStatus(rows, ks, Pending)|
  {
    var ks := Listing(rows, q, today).value;
    var s := StatsOf(rows, q, today).value;
    var p := WithStatus(rows, ks, Pending);
    WithStatusPartition(rows, ks);
    assert s.onTimeCount == |WithStatus(rows, ks, OnTime)| && s.lateCount == |WithStatus(rows, ks, Late)| &&
           s.missedCount == |WithStatus(rows, ks, Missed)|;
    var o := Overdue(rows, q, today).value;
    assert s.overdueCount == |o|;
    assert o <= p;
    SubsetCard(o, p);
  }

  lemma SubsetCard(a: set<nat>, b: set<nat>)
    requires a <= b
    ensures |a| <= |b|
  {
    assert b == a + (b - a);
  }

  /** The amount due plus the amount paid, over the whole listing, is the
      sum over the pending rows of what is due and over the rest of what was
      paid; with no pending row nothing is due. */
  lemma TotalsSplitTheListing(rows: map<nat, Repayment>, q: Query, today: Day)
    requires Listing(rows, q, today).Ok?
    ensures var ks := Listing(rows, q, today).value;
            var pending := WithStatus(rows, ks, Pending);
            var f := (r: Repayment) => if r.status == Pending then r.amountDue else r.amountPaid;
            SumOf(rows, ks, f) ==
              SumOf(rows, pending, (r: Repayment) => r.amountDue) + SumOf(rows, ks - pending, (r: Repayment) => r.amountPaid)
    ensures WithStatus(rows, Listing(rows, q, today).value, Pending) == {} ==> StatsOf(rows, q, today).value.totalDue == "0"
  {
    var ks := Listing(rows, q, today).value;
    var pending := WithStatus(rows, ks, Pending);
    var f := (r: Repayment) => if r.status == Pending then r.amountDue else r.amountPaid;
    SumOfUnion(rows, pending, ks - pending, f);
    assert ks == pending + (ks - pending);
    SumOfSame(rows, pending, f, (r: Repayment) => r.amountDue);
    SumOfSame(rows, ks - pending, f, (r: Repayment) => r.amountPaid);
  }

  /** Two summands that agree on every selected row give the same sum. */
  lemma {:induction false} SumOfSame(rows: map<nat, Repayment>, sel: set<nat>, f: Repayment -> int, g: Repayment -> int)
    requires sel <= rows.Keys && forall k :: k in sel ==> f(rows[k]) == g(rows[k])
    ensures SumOf(rows, sel, f) == SumOf(rows, sel, g)
    decreases sel
  {
    if sel != {} {
      var k :| k in sel && SumOf(rows, sel, f) == f(rows[k]) + SumOf(rows, sel - {k}, f);
      SumOfRemove(rows, sel, g, k);
      SumOfSame(rows, sel - {k}, f, g);
    }
  }

  /** The row after `mark_paid` with the payment date already a date:
      `amount_paid` defaults to the amount due, and the status is `ON_TIME`
      when paid on or before the due date, else `LATE`. */
  function Paid(r: Repayment, paymentDate: Day, amountPaid: Option<Cents>, paymentMethod: Option<string>): (p: Repayment)
    ensures p.status == OnTime <==> paymentDate <= r.dueDate
    ensures p.status == Late <==> paymentDate > r.dueDate
    ensures amountPaid.None? ==> RemainingBalance(p) == 0
    ensures p.paymentDate == Some(paymentDate) && p.paymentMethod == paymentMethod
    ensures p.(amountPaid := r.amountPaid, status := r.status, paymentDate := r.paymentDate,
               paymentMethod := r.paymentMethod) == r
  {
    r.(amountPaid := amountPaid.GetOr(r.amountDue),
       paymentDate := Some(paymentDate),
       paymentMethod := paymentMethod,
       status := if paymentDate <= r.dueDate then OnTime else Late)
  }

  /** The `amount_paid` of a `mark_paid` request as it arrives: absent (the
      amount due is used), JSON `null`, a JSON integer, a JSON number with a
      fraction (`cents` is what the decimal column rounds it to), or text
      (`asDecimal` is what the column reads it as, `None` when it is not a
      decimal). */
  datatype AmountInput =
    | AmountDefault
    | AmountNull
    | AmountInteger(whole: int)
    | AmountFloat(cents: Cents)
    | AmountText(text: string, asDecimal: Option<Cents>)

  /** Whether the save gets through: a null or an unreadable text amount is
      rejected by the column before anything is written. */
  predicate AmountSaves(a: AmountInput) {
    !a.AmountNull? && !(a.AmountText? && a.asDecimal.None?)
  }

  /** The amount the saved row holds, `None` meaning the amount due. */
  function SavedAmount(a: AmountInput): Option<Cents>
    requires AmountSaves(a)
  {
    match a
    case AmountDefault => None
    case AmountInteger(w) => Some(w * 100)
    case AmountFloat(c) => Some(c)
    case AmountText(_, d) => d
  }

  /** Whether the response serializer can compute `amount_due - amount_paid`:
      only the default `Decimal` and an `int` subtract from a `Decimal`; a
      `float` or a `str` raises `TypeError`. */
  predicate AmountSerializes(a: AmountInput) {
    a.AmountDefault? || a.AmountInteger?
  }

  /** `mark_paid` as written: the `payment_date` a client supplies arrives as
      text, and comparing that text with the due date raises, a 500 with
      nothing saved; only the default, today's date, gets through. The
      amount is assigned as it arrives: a null or unreadable one fails the
      save (a 500, nothing written), and a fraction or a text one is saved
      but fails the response serializer (a 500 after the row has changed). */
  function MarkPaidAsWritten(rows: map<nat, Repayment>, id: nat, paymentDateText: Option<string>,
                             amount: AmountInput, paymentMethod: Option<string>, today: Day)
    : (r: (Result<Repayment>, map<nat, Repayment>))
    ensures id !in rows ==> r == (Err(NotFound), rows)
    ensures r.0.Ok? <==> id in rows && paymentDateText.None? && AmountSaves(amount) && AmountSerializes(amount)
    ensures r.0.Err? && (paymentDateText.Some? || !AmountSaves(amount)) ==> r.1 == rows
    ensures r.1.Keys == rows.Keys && forall k :: k in rows && k != id ==> r.1[k] == rows[k]
    ensures r.1 != rows ==> id in rows && r.1 == rows[id := Paid(rows[id], today, SavedAmount(amount), paymentMethod)]
    ensures r.0.Ok? ==> r.1 == rows[id := r.0.value]
  {
    if id !in rows then (Err(NotFound), rows)
    else if paymentDateText.Some? then (Err(InternalError), rows)
    else if !AmountSaves(amount) then (Err(InternalError), rows)
    else
      var p := Paid(rows[id], today, SavedAmount(amount), paymentMethod);
      if AmountSerializes(amount) then (Ok(p), rows[id := p])
      else (Err(InternalError), rows[id := p])
  }

  /** The discrepancy: a client that sends any `payment_date`, even the due
      date itself, gets a 500 and the repayment stays unpaid. */
  lemma SuppliedPaymentDateFails(rows: map<nat, Repayment>, id: nat, text: string, amount: AmountInput,
                                 paymentMethod: Option<string>, today: Day)
    requires id in rows && rows[id].status == Pending
    ensures MarkPaidAsWritten(rows, id, Some(text), amount, paymentMethod, today).0 == Err(InternalError)
    ensures MarkPaidAsWritten(rows, id, Some(text), amount, paymentMethod, today).1[id].status == Pending
  {
  }

  /** The second discrepancy: `{"amount_paid": "150.00"}` is saved, so the
      repayment is now paid, yet the client is told the request failed. */
  lemma TextAmountFailsAfterSave(rows: map<nat, Repayment>, id: nat, text: string, cents: Cents,
                                 paymentMethod: Option<string>, today: Day)
    requires id in rows && rows[id].status == Pending
    ensures MarkPaidAsWritten(rows, id, None, AmountText(text, Some(cents)), paymentMethod, today).0 == Err(InternalError)
    ensures var after := MarkPaidAsWritten(rows, id, None, AmountText(text, Some(cents)), paymentMethod, today).1;
            after[id].status != Pending && after[id].amountPaid == cents && after[id].paymentDate == Some(today)
  {
  }

  /** The request form of an already decoded amount: the default, or a JSON
      integer when the amount is whole. */
  function AmountAsSent(amountPaid: Option<Cents>): (a: AmountInput)
    requires amountPaid.None? || amountPaid.value % 100 == 0
    ensures AmountSaves(a) && AmountSerializes(a) && SavedAmount(a) == amountPaid
  {
    if amountPaid.None? then AmountDefault else AmountInteger(amountPaid.value / 100)
  }

  /** The repayment table. */
  class RepaymentTable {
    var rows: map<nat, Repayment>

    constructor (rows: map<nat, Repayment>)
      ensures this.rows == rows
    {
      this.rows := rows;
    }

    /** `mark_paid` with the supplied payment date read as a date: a missing
        row is a 404; otherwise the row is updated as `Paid` says, with
        today's date when none is supplied. */
    method MarkPaid(id: nat, paymentDate: Option<Day>, amountPaid: Option<Cents>, paymentMethod: Option<string>,
                    today: Day) returns (r: Result<Repayment>)
      modifies this
      ensures id !in old(rows) <==> r == Err(NotFound)
      ensures r.Err? ==> rows == old(rows)
      ensures r.Ok? ==> r.value == Paid(old(rows)[id], paymentDate.GetOr(today), amountPaid, paymentMethod) &&
                        rows == old(rows)[id := r.value]
      ensures paymentDate.None? && (amountPaid.None? || amountPaid.value % 100 == 0) ==>
                var asWritten := MarkPaidAsWritten(old(rows), id, None, AmountAsSent(amountPaid), paymentMethod, today);
                r == asWritten.0 && rows == asWritten.1
    {
      if id !in rows {
        return Err(NotFound);
      }
      var repayment := rows[id];
      var date := paymentDate.GetOr(today);
      repayment := repayment.(amountPaid := amountPaid.GetOr(repayment.amountDue));
      repayment := repayment.(paymentDate := Some(date));
      repayment := repayment.(paymentMethod := paymentMethod);
      if date <= repayment.dueDate {
        repayment := repayment.(status := OnTime);
      } else {
        repayment := repayment.(status := Late);
      }
      rows := rows[id := repayment];
      r := Ok(repayment);
    }
  }

  /** A repayment marked paid on time with the default amount has nothing
      remaining and is no longer overdue, whatever the day. */
  lemma PaidInFullIsSettled(r: Repayment, date: Day, paymentMethod: Option<string>, later: Day)
    ensures RemainingBalance(Paid(r, date, None, paymentMethod)) == 0
    ensures !IsOverdue(Paid(r, date, None, paymentMethod), later)
  {
  }
}
