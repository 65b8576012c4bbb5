/** The customer and loan records the REST rules read and update. Only the
    fields those rules touch are kept. */
module Loans {
  import opened Common

  /** A customer: the name fields and the blacklist flag. */
  datatype Customer = Customer(id: nat, firstName: string, lastName: string, isBlacklisted: bool)

  /** A person's display name: first name, one space, last name. */
  function PersonName(first: string, last: string): (s: string)
    ensures |s| == |first| + 1 + |last|
    ensures s[..|first|] == first && s[|first|] == ' ' && s[|first| + 1..] == last
  {
    first + " " + last
  }

  /** `Customer.full_name` */
  function FullName(c: Customer): (s: string)
    ensures |s| == |c.firstName| + 1 + |c.lastName| && s[|c.firstName|] == ' '
    ensures s[..|c.firstName|] == c.firstName && s[|c.firstName| + 1..] == c.lastName
  {
    PersonName(c.firstName, c.lastName)
  }

  /** The position of the first space in `s`, if any. */
  function FirstSpace(s: string): (r: Option<nat>)
    ensures r.Some? ==> r.value < |s| && s[r.value] == ' ' && ' ' !in s[..r.value]
    ensures r.None? ==> ' ' !in s
  {
    if |s| == 0 then None
    else if s[0] == ' ' then Some(0)
    else match FirstSpace(s[1..])
      case None => None
      case Some(i) => Some(i + 1)
  }

  /** The name splits back into its parts when the first name has no space:
      the text before the first space is the first name and the rest, after
      that space, is the last name. */
  lemma PersonNameSplits(first: string, last: string)
    requires ' ' !in first
    ensures FirstSpace(PersonName(first, last)) == Some(|first|)
    ensures PersonName(first, last)[..|first|] == first && PersonName(first, last)[|first| + 1..] == last
  {
    var s := PersonName(first, last);
    assert s[..|first|] == first;
  }

  /** A loan. Besides the declared `borrower` and `amount`, the views read and
      write `customer`, `remaining_balance`, `total_amount`, `status`,
      `repayment_progress` and `disbursement_date`, which the loan schema does
      not declare; they are kept here as plain fields. */
  datatype Loan = Loan(
    id: nat,
    borrower: nat,
    customer: nat,
    amount: Cents,
    remainingBalance: Cents,
    totalAmount: Cents,
    status: string,
    repaymentProgress: int,
    disbursementDate: Option<Timestamp>)
}
