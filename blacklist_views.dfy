/** The risk and identity REST actions: the blacklist check, removal and
    statistics; recording a credit bureau check; the manual document review;
    and biometric verification. */
module BlacklistViews {
  import opened Common
  import opened Text
  import opened Loans

  datatype Severity = Low | Medium | High | Critical

  datatype Reason = LoanDefault | Fraud | CreditBureau | Manual | IdentityTheft | MultipleDefaults

  function SeverityCode(s: Severity): string {
    match s
    case Low => "LOW"
    case Medium => "MEDIUM"
    case High => "HIGH"
    case Critical => "CRITICAL"
  }

  function ReasonCode(r: Reason): string {
    match r
    case LoanDefault => "DEFAULT"
    case Fraud => "FRAUD"
    case CreditBureau => "CREDIT_BUREAU"
    case Manual => "MANUAL"
    case IdentityTheft => "IDENTITY_THEFT"
    case MultipleDefaults => "MULTIPLE_DEFAULTS"
  }

  /** `get_reason_display()`: the label of the reason choice. */
  function ReasonLabel(r: Reason): string {
    match r
    case LoanDefault => "Loan Default"
    case Fraud => "Fraudulent Activity"
    case CreditBureau => "Credit Bureau Flag"
    case Manual => "Manual Blacklist"
    case IdentityTheft => "Identity Theft"
    case MultipleDefaults => "Multiple Defaults"
  }

  /** The choice lists in their declared order. */
  const SeverityChoices: seq<Severity> := [Low, Medium, High, Critical]
  const ReasonChoices: seq<Reason> := [LoanDefault, Fraud, CreditBureau, Manual, IdentityTheft, MultipleDefaults]

  /** Every severity and every reason is in its choice list exactly once, so
      the statistics have one key per choice. */
  lemma ChoiceListsAreComplete(s: Severity, r: Reason)
    ensures s in SeverityChoices && r in ReasonChoices
    ensures forall i, j :: 0 <= i < j < |SeverityChoices| ==> SeverityCode(SeverityChoices[i]) != SeverityCode(SeverityChoices[j])
    ensures forall i, j :: 0 <= i < j < |ReasonChoices| ==> ReasonCode(ReasonChoices[i]) != ReasonCode(ReasonChoices[j])
  {
  }

  /** A blacklist row. `customer` is the linked customer, if any. */
  datatype Entry = Entry(
    id: nat,
    saIdNumber: string,
    customer: Option<nat>,
    reason: Reason,
    severity: Severity,
    amountOwed: Cents,
    isActive: bool,
    removedBy: Option<UserId>,
    removedAt: Option<Timestamp>,
    removalReason: string,
    blacklistedAt: Timestamp)

  /** The `check_blacklist` reply. */
  datatype CheckReply =
    | Blacklisted(severity: string, reason: string, blacklistedAt: Timestamp, amountOwed: string)
    | NotBlacklisted

  predicate ActiveFor(e: Entry, saId: string) {
    e.saIdNumber == saId && e.isActive
  }

  /** The reply for one matching row: its severity code, reason label, date
      and the exact amount owed. */
  function ReplyFor(e: Entry): (r: CheckReply)
    ensures r.Blacklisted? && ParseDecimal(r.amountOwed) == Some(e.amountOwed)
  {
    DecimalStringRoundTrip(e.amountOwed);
    Blacklisted(SeverityCode(e.severity), ReasonLabel(e.reason), e.blacklistedAt, DecimalString(e.amountOwed))
  }

  /** `check_blacklist`: a missing SA id is a 400; otherwise blacklisted
      exactly when an active row has that SA id, and then the reply describes
      such a row (`.first()` of the matches). */
  ghost function CheckBlacklist(entries: map<nat, Entry>, saParam: Option<string>): (r: Result<CheckReply>)
    ensures r.Err? <==> !Given(saParam)
    ensures r.Err? ==> r.error == BadRequest
    ensures r.Ok? ==> (r.value.Blacklisted? <==> exists k :: k in entries && ActiveFor(entries[k], saParam.value))
    ensures r.Ok? && r.value.Blacklisted? ==>
              exists k :: k in entries && ActiveFor(entries[k], saParam.value) && r.value == ReplyFor(entries[k])
  {
    if !Given(saParam) then Err(BadRequest)
    else if exists k :: k in entries && ActiveFor(entries[k], saParam.value) then
      var k :| k in entries && ActiveFor(entries[k], saParam.value);
      Ok(ReplyFor(entries[k]))
    else Ok(NotBlacklisted)
  }

  /** The SA id column is unique. */
  predicate UniqueSaIds(entries: map<nat, Entry>) {
    forall j, k :: j in entries && k in entries && entries[j].saIdNumber == entries[k].saIdNumber ==> j == k
  }

  /** The row after `remove_from_blacklist`. */
  function Removed(e: Entry, actor: UserId, reason: Option<string>, now: Timestamp): Entry {
    e.(isActive := false, removedBy := Some(actor), removedAt := Some(now), removalReason := reason.GetOr(""))
  }

  /** With unique SA ids, once a row is removed the check for its SA id says
      not blacklisted, the row itself is kept, and checks for other SA ids
      are unaffected. */
  lemma RemovalClearsCheck(entries: map<nat, Entry>, id: nat, actor: UserId, reason: Option<string>, now: Timestamp,
                           other: string)
    requires UniqueSaIds(entries) && id in entries && other != entries[id].saIdNumber
    ensures var after := entries[id := Removed(entries[id], actor, reason, now)];
            after.Keys == entries.Keys &&
            (entries[id].saIdNumber != "" ==> CheckBlacklist(after, Some(entries[id].saIdNumber)) == Ok(NotBlacklisted)) &&
            (other != "" ==> (CheckBlacklist(after, Some(other)).value.Blacklisted? <==>
                              CheckBlacklist(entries, Some(other)).value.Blacklisted?))
  {
    var after := entries[id := Removed(entries[id], actor, reason, now)];
    var sa := entries[id].saIdNumber;
    forall k | k in after && after[k].saIdNumber == sa
      ensures !after[k].isActive
    {
      assert entries[k].saIdNumber == sa;
    }
    if other != "" {
      assert (exists k :: k in after && ActiveFor(after[k], other)) ==> (exists k :: k in entries && ActiveFor(entries[k], other));
      if exists k :: k in entries && ActiveFor(entries[k], other) {
        var k :| k in entries && ActiveFor(entries[k], other);
        assert k in after && ActiveFor(after[k], other);
      }
    }
  }

  function ActiveWithSeverity(entries: map<nat, Entry>, s: Severity): set<nat> {
    set k | k in entries && entries[k].isActive && entries[k].severity == s
  }

  function ActiveWithReason(entries: map<nat, Entry>, r: Reason): set<nat> {
    set k | k in entries && entries[k].isActive && entries[k].reason == r
  }

  function ActiveEntries(entries: map<nat, Entry>): set<nat> {
    set k | k in entries && entries[k].isActive
  }

  /** The four severity counts add up to the number of active rows. */
  lemma SeverityCountsAddUp(entries: map<nat, Entry>)
    ensures |ActiveWithSeverity(entries, Low)| + |ActiveWithSeverity(entries, Medium)| +
            |ActiveWithSeverity(entries, High)| + |ActiveWithSeverity(entries, Critical)| == |ActiveEntries(entries)|
  {
    var l, m, h, c := ActiveWithSeverity(entries, Low), ActiveWithSeverity(entries, Medium),
                      ActiveWithSeverity(entries, High), ActiveWithSeverity(entries, Critical);
    assert ActiveEntries(entries) == l + m + h + c;
    assert l !! m && |l + m| == |l| + |m|;
    assert (l + m) !! h && |l + m + h| == |l + m| + |h|;
    assert (l + m + h) !! c && |l + m + h + c| == |l + m + h| + |c|;
  }

  /** The active rows whose reason is one of `rs`. */
  function ActiveWithReasonIn(entries: map<nat, Entry>, rs: set<Reason>): set<nat> {
    set k | k in entries && entries[k].isActive && entries[k].reason in rs
  }

  lemma AddReason(entries: map<nat, Entry>, rs: set<Reason>, r: Reason, grown: set<Reason>)
    requires r !in rs && grown == rs + {r}
    ensures |ActiveWithReasonIn(entries, grown)| ==
            |ActiveWithReasonIn(entries, rs)| + |ActiveWithReason(entries, r)|
  {
    var before, part := ActiveWithReasonIn(entries, rs), ActiveWithReason(entries, r);
    assert ActiveWithReasonIn(entries, grown) == before + part;
    assert before !! part;
  }

  lemma EveryActiveEntryHasAReason(entries: map<nat, Entry>, all: set<Reason>)
    requires all == {LoanDefault, Fraud, CreditBureau, Manual, IdentityTheft, MultipleDefaults}
    ensures ActiveWithReasonIn(entries, all) == ActiveEntries(entries)
  {
    forall k | k in ActiveEntries(entries)
      ensures k in ActiveWithReasonIn(entries, all)
    {
      match entries[k].reason
      case LoanDefault =>
      case Fraud =>
      case CreditBureau =>
      case Manual =>
      case IdentityTheft =>
      case MultipleDefaults =>
    }
  }

  /** The per-reason counts of the statistics add up to the active total:
      every active entry has exactly one of the six reasons. */
  lemma ReasonCountsAddUp(entries: map<nat, Entry>)
    ensures |ActiveWithReason(entries, LoanDefault)| + |ActiveWithReason(entries, Fraud)| +
            |ActiveWithReason(entries, CreditBureau)| + |ActiveWithReason(entries, Manual)| +
            |ActiveWithReason(entries, IdentityTheft)| + |ActiveWithReason(entries, MultipleDefaults)| ==
            |ActiveEntries(entries)|
  {
    var s0: set<Reason> := {};
    var s1 := s0 + {LoanDefault};
    var s2 := s1 + {Fraud};
    var s3 := s2 + {CreditBureau};
    var s4 := s3 + {Manual};
    var s5 := s4 + {IdentityTheft};
    var s6 := s5 + {MultipleDefaults};
    assert ActiveWithReasonIn(entries, s0) == {};
    AddReason(entries, s0, LoanDefault, s1);
    AddReason(entries, s1, Fraud, s2);
    AddReason(entries, s2, CreditBureau, s3);
    AddReason(entries, s3, Manual, s4);
    AddReason(entries, s4, IdentityTheft, s5);
    AddReason(entries, s5, MultipleDefaults, s6);
    EveryActiveEntryHasAReason(entries, s6);
  }

  /** The blacklist and the customers it links to. */
  class BlacklistTable {
    var entries: map<nat, Entry>
    var customers: map<nat, Customer>

    /** A linked customer exists. */
    ghost predicate Valid()
      reads this
    {
      forall k :: k in entries && entries[k].customer.Some? ==> entries[k].customer.value in customers
    }

    constructor (entries: map<nat, Entry>, customers: map<nat, Customer>)
      requires forall k :: k in entries && entries[k].customer.Some? ==> entries[k].customer.value in customers
      ensures Valid() && this.entries == entries && this.customers == customers
    {
      this.entries := entries;
      this.customers := customers;
    }

    /** `remove_from_blacklist`: 404 for a missing row; otherwise the row is
        kept but deactivated with who, when and why, and a linked customer's
        blacklist flag is cleared. */
    method RemoveFromBlacklist(id: nat, actor: UserId, reason: Option<string>, now: Timestamp) returns (r: Result<Entry>)
      requires Valid()
      modifies this
      ensures Valid()
      ensures id !in old(entries) <==> r == Err(NotFound)
      ensures r.Err? ==> entries == old(entries) && customers == old(customers)
      ensures r.Ok? ==> r.value == Removed(old(entries)[id], actor, reason, now) && entries == old(entries)[id := r.value]
      ensures r.Ok? && old(entries)[id].customer.None? ==> customers == old(customers)
      ensures r.Ok? && old(entries)[id].customer.Some? ==>
                var c := old(entries)[id].customer.value;
                customers == old(customers)[c := old(customers)[c].(isBlacklisted := false)]
    {
      if id !in entries {
        return Err(NotFound);
      }
      var entry := entries[id];
      entry := entry.(isActive := false);
      entry := entry.(removedBy := Some(actor));
      entry := entry.(removedAt := Some(now));
      entry := entry.(removalReason := reason.GetOr(""));
      entries := entries[id := entry];
      if entry.customer.Some? {
        var c := entry.customer.value;
        var customer := customers[c];
        customer := customer.(isBlacklisted := false);
        customers := customers[c := customer];
      }
      r := Ok(entry);
    }

    /** `statistics`: the number of active rows, and one count of active rows
        per severity code and per reason code. */
    method Statistics() returns (total: nat, bySeverity: map<string, nat>, byReason: map<string, nat>)
      ensures total == |ActiveEntries(entries)|
      ensures bySeverity.Keys == set j | 0 <= j < |SeverityChoices| :: SeverityCode(SeverityChoices[j])
      ensures forall j :: 0 <= j < |SeverityChoices| ==>
                bySeverity[SeverityCode(SeverityChoices[j])] == |ActiveWithSeverity(entries, SeverityChoices[j])|
      ensures byReason.Keys == set j | 0 <= j < |ReasonChoices| :: ReasonCode(ReasonChoices[j])
      ensures forall j :: 0 <= j < |ReasonChoices| ==>
                byReason[ReasonCode(ReasonChoices[j])] == |ActiveWithReason(entries, ReasonChoices[j])|
    {
      total := |ActiveEntries(entries)|;
      bySeverity := SeverityCounts();
      byReason := ReasonCounts();
    }

    /** The `by_severity` loop: one key per severity choice, in order. */
    method SeverityCounts() returns (counts: map<string, nat>)
      ensures counts.Keys == set j | 0 <= j < |SeverityChoices| :: SeverityCode(SeverityChoices[j])
      ensures forall j :: 0 <= j < |SeverityChoices| ==>
                counts[SeverityCode(SeverityChoices[j])] == |ActiveWithSeverity(entries, SeverityChoices[j])|
    {
      counts := map[];
      for i := 0 to |SeverityChoices|
        invariant counts.Keys == set j | 0 <= j < i :: SeverityCode(SeverityChoices[j])
        invariant forall j :: 0 <= j < i ==>
                    counts[SeverityCode(SeverityChoices[j])] == |ActiveWithSeverity(entries, SeverityChoices[j])|
      {
        var s := SeverityChoices[i];
        ChoiceListsAreComplete(s, LoanDefault);
        counts := counts[SeverityCode(s) := |ActiveWithSeverity(entries, s)|];
        assert (set j | 0 <= j < i + 1 :: SeverityCode(SeverityChoices[j])) ==
               (set j | 0 <= j < i :: SeverityCode(SeverityChoices[j])) + {SeverityCode(s)};
      }
    }

    /** The `by_reason` loop: one key per reason choice, in order. */
    method ReasonCounts() returns (counts: map<string, nat>)
      ensures counts.Keys == set j | 0 <= j < |ReasonChoices| :: ReasonCode(ReasonChoices[j])
      ensures forall j :: 0 <= j < |ReasonChoices| ==>
                counts[ReasonCode(ReasonChoices[j])] == |ActiveWithReason(entries, ReasonChoices[j])|
    {
      counts := map[];
      for i := 0 to |ReasonChoices|
        invariant counts.Keys == set j | 0 <= j < i :: ReasonCode(ReasonChoices[j])
        invariant forall j :: 0 <= j < i ==>
                    counts[ReasonCode(ReasonChoices[j])] == |ActiveWithReason(entries, ReasonChoices[j])|
      {
        var r := ReasonChoices[i];
        ChoiceListsAreComplete(Low, r);
        counts := counts[ReasonCode(r) := |ActiveWithReason(entries, r)|];
        assert (set j | 0 <= j < i + 1 :: ReasonCode(ReasonChoices[j])) ==
               (set j | 0 <= j < i :: ReasonCode(ReasonChoices[j])) + {ReasonCode(r)};
      }
    }
  }

  /** The customer a created row refers to: an absent value or empty text is
      stored as `NULL`; text that is not a number raises `ValueError`, and an
      id naming no customer breaks the foreign key, `IntegrityError`; both
      are 500s with nothing stored. */
  function StoredCustomer(customerParam: Option<IdValue>, customers: set<nat>): (r: Result<Option<nat>>)
    ensures r.Err? ==> r.error == InternalError
    ensures r == Ok(None) <==> customerParam.None? || customerParam == Some(IdText(""))
    ensures r.Ok? && r.value.Some? <==>
              customerParam.Some? && customerParam != Some(IdText("")) && IdOf(customerParam.value).Some? &&
              IdOf(customerParam.value).value in customers
    ensures r.Ok? && r.value.Some? ==> IdOf(customerParam.value) == Some(r.value.value as int)
  {
    match customerParam
    case None => Ok(None)
    case Some(v) =>
      if v == IdText("") then Ok(None)
      else match IdOf(v)
        case None => Err(InternalError)
        case Some(n) => if n >= 0 && n in customers then Ok(Some(n as nat)) else Err(InternalError)
  }

  /** A credit bureau check row. */
  datatype CreditCheck = CreditCheck(
    id: nat,
    saIdNumber: string,
    customer: Option<nat>,
    bureauProvider: string,
    checkType: string,
    status: string,
    result: string,
    creditScore: int,
    requestedBy: UserId,
    ipAddress: Option<string>)

  /** The credit bureau checks, and the ids of the customers their foreign
      key may refer to. */
  class CreditCheckTable {
    var rows: map<nat, CreditCheck>
    var nextId: nat
    var customers: set<nat>

    ghost predicate Valid()
      reads this
    {
      forall k :: k in rows ==> k < nextId
    }

    constructor (customers: set<nat>)
      ensures Valid() && rows == map[] && nextId == 1 && this.customers == customers
    {
      rows := map[];
      nextId := 1;
      this.customers := customers;
    }

    /** `perform_check`: a missing SA id is a 400 and records nothing; a
        `customer_id` that `StoredCustomer` rejects is a 500 and records
        nothing; otherwise a fixed successful result is recorded: TransUnion,
        a standard check, `GOOD`, score 650. */
    method PerformCheck(saParam: Option<string>, customerParam: Option<IdValue>, actor: UserId,
                        ipAddress: Option<string>)
      returns (r: Result<CreditCheck>)
      requires Valid()
      modifies this`rows, this`nextId
      ensures Valid()
      ensures r == Err(BadRequest) <==> !Given(saParam)
      ensures Given(saParam) ==> (r.Err? <==> StoredCustomer(customerParam, customers).Err?)
      ensures r.Err? ==> rows == old(rows) && nextId == old(nextId)
      ensures r.Ok? ==> r.value == CreditCheck(old(nextId), saParam.value, StoredCustomer(customerParam, customers).value,
                                               "TransUnion", "STANDARD", "SUCCESS", "GOOD", 650, actor, ipAddress) &&
                        old(nextId) !in old(rows) && rows == old(rows)[old(nextId) := r.value] &&
                        nextId == old(nextId) + 1
    {
      if !Given(saParam) {
        return Err(BadRequest);
      }
      var customer := StoredCustomer(customerParam, customers);
      if customer.Err? {
        return Err(customer.error);
      }
      var check := CreditCheck(nextId, saParam.value, customer.value, "TransUnion", "STANDARD", "SUCCESS", "GOOD", 650,
                               actor, ipAddress);
      rows := rows[nextId := check];
      nextId := nextId + 1;
      r := Ok(check);
    }
  }

  /** A document verification row with its review fields. */
  datatype Document = Document(
    id: nat,
    customer: nat,
    status: string,
    reviewedBy: Option<UserId>,
    reviewedAt: Option<Timestamp>,
    reviewNotes: string)

  /** A reviewed document: the new status, the reviewer, the time and the notes. */
  function Reviewed(d: Document, status: string, actor: UserId, notes: string, now: Timestamp): (r: Document)
    ensures r.status == status && r.reviewedBy == Some(actor) && r.reviewedAt == Some(now) && r.reviewNotes == notes
    ensures r.id == d.id && r.customer == d.customer
  {
    d.(status := status, reviewedBy := Some(actor), reviewedAt := Some(now), reviewNotes := notes)
  }

  /** The document verifications. */
  class DocumentTable {
    var rows: map<nat, Document>

    constructor (rows: map<nat, Document>)
      ensures this.rows == rows
    {
      this.rows := rows;
    }

    /** `verify_document`: 404 for a missing row; otherwise `VERIFIED`, notes
        defaulting to empty. */
    method VerifyDocument(id: nat, actor: UserId, notes: Option<string>, now: Timestamp) returns (r: Result<Document>)
      modifies this
      ensures id !in old(rows) <==> r == Err(NotFound)
      ensures r.Err? ==> rows == old(rows)
      ensures r.Ok? ==> r.value == Reviewed(old(rows)[id], "VERIFIED", actor, notes.GetOr(""), now) &&
                        rows == old(rows)[id := r.value]
    {
      if id !in rows {
        return Err(NotFound);
      }
      var document := rows[id];
      document := document.(status := "VERIFIED");
      document := document.(reviewedBy := Some(actor));
      document := document.(reviewedAt := Some(now));
      document := document.(reviewNotes := notes.GetOr(""));
      rows := rows[id := document];
      r := Ok(document);
    }

    /** `reject_document`: 404 for a missing row; otherwise `REJECTED`, notes
        defaulting to `Document rejected`. */
    method RejectDocument(id: nat, actor: UserId, notes: Option<string>, now: Timestamp) returns (r: Result<Document>)
      modifies this
      ensures id !in old(rows) <==> r == Err(NotFound)
      ensures r.Err? ==> rows == old(rows)
      ensures r.Ok? ==> r.value == Reviewed(old(rows)[id], "REJECTED", actor, notes.GetOr("Document rejected"), now) &&
                        rows == old(rows)[id := r.value]
    {
      if id !in rows {
        return Err(NotFound);
      }
      var document := rows[id];
      document := document.(status := "REJECTED");
      document := document.(reviewedBy := Some(actor));
      document := document.(reviewedAt := Some(now));
      document := document.(reviewNotes := notes.GetOr("Document rejected"));
      rows := rows[id := document];
      r := Ok(document);
    }
  }

  /** The last review wins: verifying a rejected document, or rejecting a
      verified one, leaves only the later decision, reviewer and notes. */
  lemma LastReviewWins(d: Document, s1: string, s2: string, by1: UserId, by2: UserId, n1: string, n2: string,
                       t1: Timestamp, t2: Timestamp)
    ensures Reviewed(Reviewed(d, s1, by1, n1, t1), s2, by2, n2, t2) == Reviewed(d, s2, by2, n2, t2)
  {
  }

  /** A stored biometric template. */
  datatype Biometric = Biometric(
    id: nat,
    customer: nat,
    biometricType: string,
    hash: string,
    isActive: bool,
    lastUsed: Option<Timestamp>)

  predicate Candidate(b: Biometric, customer: int, biometricType: string) {
    b.customer == customer && b.biometricType == biometricType && b.isActive
  }

  /** The stored biometric templates. */
  class BiometricTable {
    var rows: map<nat, Biometric>

    constructor (rows: map<nat, Biometric>)
      ensures this.rows == rows
    {
      this.rows := rows;
    }

    /** `verify_biometric`: a 400 unless customer, type and hash are all
        truthy; a 500 when the customer is text that is not a number; a 404
        (not verified) when the customer has no active template of that
        type; otherwise verified exactly when the stored hash equals the given
        one, and only a successful match records `last_used`. */
    method VerifyBiometric(customerParam: Option<IdValue>, biometricType: Option<string>, hash: Option<string>,
                           now: Timestamp)
      returns (r: Result<bool>)
      modifies this
      ensures !(customerParam.Some? && TruthyId(customerParam.value) && Given(biometricType) && Given(hash)) <==>
                r == Err(BadRequest)
      ensures r == Err(InternalError) <==>
                customerParam.Some? && TruthyId(customerParam.value) && Given(biometricType) && Given(hash) &&
                IdOf(customerParam.value).None?
      ensures r == Err(NotFound) <==>
                customerParam.Some? && TruthyId(customerParam.value) && Given(biometricType) && Given(hash) &&
                IdOf(customerParam.value).Some? &&
                !exists k :: k in old(rows) && Candidate(old(rows)[k], IdOf(customerParam.value).value, biometricType.value)
      ensures r.Err? ==> rows == old(rows)
      ensures r.Ok? ==>
                exists k :: k in old(rows) && Candidate(old(rows)[k], IdOf(customerParam.value).value, biometricType.value) &&
                            r.value == (old(rows)[k].hash == hash.value) &&
                            rows == if r.value then old(rows)[k := old(rows)[k].(lastUsed := Some(now))] else old(rows)
    {
      if !(customerParam.Some? && TruthyId(customerParam.value) && Given(biometricType) && Given(hash)) {
        return Err(BadRequest);
      }
      var customer := IdOf(customerParam.value);
      if customer.None? {
        return Err(InternalError);
      }
      if !exists k :: k in rows && Candidate(rows[k], customer.value, biometricType.value) {
        return Err(NotFound);
      }
      var k :| k in rows && Candidate(rows[k], customer.value, biometricType.value);
      var stored := rows[k];
      var verified := stored.hash == hash.value;
      if verified {
        stored := stored.(lastUsed := Some(now));
        rows := rows[k := stored];
      }
      r := Ok(verified);
    }
  }
}
