/** A customer's saved payment methods: the masked label the serializer
    shows, the listing of a customer's active methods, and choosing the single
    default method. */
module PaymentMethods {
  import opened Common
  import opened Text

  /** A payment method row. `kind` is the model's `payment_type`, which the
      serializer, as intended, branches on; the optional text fields are
      `None` when null. */
  datatype PaymentMethod = PaymentMethod(
    id: nat,
    customer: nat,
    kind: string,
    cardType: Option<string>,
    cardLastFour: Option<string>,
    bankName: Option<string>,
    accountNumber: Option<string>,
    mobileProvider: Option<string>,
    mobileNumber: Option<string>,
    isDefault: bool,
    isActive: bool)

  /** How an f-string shows an optional text field: `None` prints as `None`. */
  function Shown(s: Option<string>): string {
    s.GetOr("None")
  }

  /** `s[-4:]`: the last four characters, or all of a shorter text. */
  function LastFour(s: string): (r: string)
    ensures |r| == if |s| < 4 then |s| else 4
    ensures r == s[|s| - |r|..]
  {
    if |s| <= 4 then s else s[|s| - 4..]
  }

  /** The mask between the name and the visible digits. */
  const Mask: string := " \U{2022}\U{2022}\U{2022}\U{2022} "

  /** `get_display_name`. A bank account with no account number cannot be
      sliced and the serializer raises; that is `None` here. */
  function DisplayName(m: PaymentMethod): (r: Option<string>)
    ensures r.None? <==> m.kind == "BANK_ACCOUNT" && m.accountNumber.None?
    ensures m.kind == "CARD" ==> r == Some(Shown(m.cardType) + Mask + Shown(m.cardLastFour))
    ensures m.kind != "CARD" && m.kind != "BANK_ACCOUNT" ==>
              r == Some(Shown(m.mobileProvider) + " - " + Shown(m.mobileNumber))
  {
    if m.kind == "CARD" then Some(Shown(m.cardType) + Mask + Shown(m.cardLastFour))
    else if m.kind == "BANK_ACCOUNT" then
      if m.accountNumber.None? then None
      else Some(Shown(m.bankName) + Mask + LastFour(m.accountNumber.value))
    else Some(Shown(m.mobileProvider) + " - " + Shown(m.mobileNumber))
  }

  /** A bank label reveals at most four characters of the account number: what
      follows the mask is the account number's tail of at most four
      characters, all of it when the number is that short. */
  lemma BankLabelMasksAccount(m: PaymentMethod)
    requires m.kind == "BANK_ACCOUNT" && m.accountNumber.Some?
    ensures var text := DisplayName(m).value;
            var prefix := Shown(m.bankName) + Mask;
            var acct := m.accountNumber.value;
            |text| <= |prefix| + 4 && text[..|prefix|] == prefix &&
            text[|prefix|..] == acct[|acct| - |text[|prefix|..]|..] &&
            (|acct| <= 4 ==> text[|prefix|..] == acct)
  {
    var prefix := Shown(m.bankName) + Mask;
    var text := DisplayName(m).value;
    assert text == prefix + LastFour(m.accountNumber.value);
    assert text[|prefix|..] == LastFour(m.accountNumber.value);
  }

  /** `customer_methods` as intended, the serializer's type field on the
      model's `payment_type`: the ids of the customer's active methods; a
      missing `customer_id` is a 400. */
  function CustomerMethods(rows: map<nat, PaymentMethod>, customerParam: Option<string>): (r: Result<set<nat>>)
    ensures !Given(customerParam) ==> r == Err(BadRequest)
    ensures r.Ok? <==> RequiredId(customerParam).Ok?
    ensures r.Ok? ==> forall k :: k in r.value <==>
              k in rows && rows[k].customer == RequiredId(customerParam).value && rows[k].isActive
  {
    match RequiredId(customerParam)
    case Err(e) => Err(e)
    case Ok(c) => Ok(set k | k in rows && rows[k].customer == c && rows[k].isActive)
  }

  /** `customer_methods` as written: the serializer's field list names
      `type`, which the payment method model does not have (its field is
      `payment_type`), so only a customer without active methods is answered
      (with `[]`); any other is a 500. */
  function CustomerMethodsAsWritten(rows: map<nat, PaymentMethod>, customerParam: Option<string>): (r: Result<set<nat>>)
    ensures r.Ok? ==> r == CustomerMethods(rows, customerParam) && r.value == {}
    ensures CustomerMethods(rows, customerParam).Err? ==> r == CustomerMethods(rows, customerParam)
    ensures CustomerMethods(rows, customerParam).Ok? ==> (r.Ok? <==> CustomerMethods(rows, customerParam).value == {})
  {
    RenderedWithUnknownField(CustomerMethods(rows, customerParam))
  }

  /** The discrepancy of the serializer: as written, a customer with any
      active method is a 500, where the intended listing answers with it. */
  lemma MethodListingFailsOnAnyRow(rows: map<nat, PaymentMethod>, customerParam: Option<string>, k: nat)
    requires RequiredId(customerParam).Ok?
    requires k in rows && rows[k].customer == RequiredId(customerParam).value && rows[k].isActive
    ensures k in CustomerMethods(rows, customerParam).value
    ensures CustomerMethodsAsWritten(rows, customerParam) == Err(InternalError)
  {
  }

  /** `filter(customer=c, is_default=True).update(is_default=False)` */
  function ClearDefaults(rows: map<nat, PaymentMethod>, c: nat): (r: map<nat, PaymentMethod>)
    ensures r.Keys == rows.Keys
    ensures forall k :: k in rows ==> r[k] == if rows[k].customer == c then rows[k].(isDefault := false) else rows[k]
  {
    map k | k in rows :: if rows[k].customer == c && rows[k].isDefault then rows[k].(isDefault := false) else rows[k]
  }

  /** Every customer has at most one default method. */
  predicate SingleDefault(rows: map<nat, PaymentMethod>) {
    forall j, k ::
      (j in rows && k in rows && rows[j].isDefault && rows[k].isDefault && rows[j].customer == rows[k].customer) ==> j == k
  }

  /** The methods after `set_default` on an existing method. */
  function WithDefault(rows: map<nat, PaymentMethod>, id: nat): map<nat, PaymentMethod>
    requires id in rows
  {
    var cleared := ClearDefaults(rows, rows[id].customer);
    cleared[id := cleared[id].(isDefault := true)]
  }

  /** After `set_default` the chosen method is the customer's only default,
      every other field of every row is as before, other customers' methods
      are untouched, and the single-default rule holds if it held before. */
  lemma SetDefaultEffect(rows: map<nat, PaymentMethod>, id: nat)
    requires id in rows
    ensures var after := WithDefault(rows, id);
            after.Keys == rows.Keys && after[id] == rows[id].(isDefault := true) &&
            (forall k :: k in rows && rows[k].customer == rows[id].customer && k != id ==> !after[k].isDefault) &&
            (forall k :: k in rows && rows[k].customer != rows[id].customer ==> after[k] == rows[k]) &&
            (forall k :: k in rows ==> after[k].(isDefault := rows[k].isDefault) == rows[k]) &&
            (SingleDefault(rows) ==> SingleDefault(after))
  {
    if SingleDefault(rows) {
      SetDefaultKeepsSingle(rows, id);
    }
  }

  lemma SetDefaultKeepsSingle(rows: map<nat, PaymentMethod>, id: nat)
    requires id in rows && SingleDefault(rows)
    ensures SingleDefault(WithDefault(rows, id))
  {
    var after := WithDefault(rows, id);
    forall j, k | j in after && k in after && after[j].isDefault && after[k].isDefault &&
                  after[j].customer == after[k].customer
      ensures j == k
    {
      assert rows[j].customer == after[j].customer && rows[k].customer == after[k].customer;
    }
  }

  /** The payment method table. */
  class PaymentMethodTable {
    var rows: map<nat, PaymentMethod>

    constructor (rows: map<nat, PaymentMethod>)
      ensures this.rows == rows
    {
      this.rows := rows;
    }

    /** `set_default` as intended: 404 for a missing method; otherwise clear
        the customer's defaults in bulk, then mark the chosen method default. */
    method SetDefault(id: nat) returns (r: Result<PaymentMethod>)
      modifies this
      ensures id !in old(rows) <==> r == Err(NotFound)
      ensures id in old(rows) <==> r.Ok?
      ensures r.Err? ==> rows == old(rows)
      ensures r.Ok? ==> rows == WithDefault(old(rows), id) && r.value == rows[id] && r.value.isDefault
    {
      if id !in rows {
        return Err(NotFound);
      }
      var pm := rows[id];
      rows := ClearDefaults(rows, pm.customer);
      pm := pm.(isDefault := true);
      rows := rows[id := pm];
      r := Ok(pm);
    }

    /** `set_default` as written: the defaults are changed and saved exactly
        as `SetDefault` does, then rendering the method raises on the
        serializer's unknown `type` field, so every existing method is
        answered 500 while the new default stays. */
    method SetDefaultAsWritten(id: nat) returns (r: Result<PaymentMethod>)
      modifies this
      ensures r == Err(if id in old(rows) then InternalError else NotFound)
      ensures id !in old(rows) ==> rows == old(rows)
      ensures id in old(rows) ==> rows == WithDefault(old(rows), id) && rows[id].isDefault
    {
      var intended := SetDefault(id);
      r := if intended.Ok? then Err(InternalError) else intended;
    }
  }
}
