/** The computed fields of the notification serializer: the signed rand
    amount and the relative age of a notification. */
module NotificationSerializer {
  import opened Common
  import opened Text

  /** `format(amount, ',.2f')` of an exact two-place decimal: a `-` for a
      negative amount, the whole part with thousands separators, a point and
      two digits. */
  function Money(c: Cents): (s: string)
    ensures |s| >= 4 && s[|s| - 3] == '.'
  {
    var a: nat := if c < 0 then -c else c;
    (if c < 0 then "-" else "") + Grouped(NatToString(a / 100)) + "." + [Digit(a % 100 / 10), Digit(a % 10)]
  }

  /** `get_formatted_amount`: nothing for a missing or zero amount, else
      `+R 1,234.50` for a positive amount and `R -1,234.50` for a negative one. */
  function FormattedAmount(amount: Option<Cents>): (r: Option<string>)
    ensures r.None? <==> amount.None? || amount.value == 0
    ensures r.Some? ==> |r.value| > 0 && (r.value[0] == '+' <==> amount.value > 0)
    ensures r.Some? && amount.value > 0 ==> r.value == "+R " + Money(amount.value)
    ensures r.Some? && amount.value < 0 ==> r.value == "R " + Money(amount.value)
  {
    if amount.Some? && amount.value != 0 then
      Some((if amount.value > 0 then "+" else "") + "R " + Money(amount.value))
    else None
  }

  lemma UngroupedSingle(c: char)
    ensures Ungrouped([c]) == if c == ',' then [] else [c]
  {
    assert [c][..0] == [];
  }

  lemma UngroupedFraction(frac: string)
    requires AllDigits(frac)
    ensures Ungrouped("." + frac) == "." + frac
  {
    UngroupedAppend(".", frac);
    UngroupedSingle('.');
    UngroupedDigits(frac);
  }

  lemma UngroupedSign(sign: string)
    requires sign == "" || sign == "-"
    ensures Ungrouped(sign) == sign
  {
    if sign != "" {
      UngroupedSingle('-');
    }
  }

  lemma UngroupSignedGroups(sign: string, whole: string)
    requires sign == "" || sign == "-"
    requires AllDigits(whole)
    ensures Ungrouped(sign + Grouped(whole)) == sign + whole
  {
    UngroupedSign(sign);
    UngroupGrouped(whole);
    UngroupedAppend(sign, Grouped(whole));
  }

  lemma UngroupMoneyParts(sign: string, whole: string, frac: string)
    requires sign == "" || sign == "-"
    requires AllDigits(whole) && AllDigits(frac)
    ensures Ungrouped(sign + Grouped(whole) + "." + frac) == sign + whole + "." + frac
  {
    var head := sign + Grouped(whole);
    var tail := "." + frac;
    UngroupSignedGroups(sign, whole);
    UngroupedFraction(frac);
    UngroupedAppend(head, tail);
    assert sign + Grouped(whole) + "." + frac == head + tail;
    assert sign + whole + "." + frac == (sign + whole) + tail;
  }

  /** The separators are the only thing grouping adds: dropping them from
      `Money(c)` gives `str()` of the decimal, which reads back as `c`. */
  lemma MoneyReadsBack(c: Cents)
    ensures Ungrouped(Money(c)) == DecimalString(c)
    ensures ParseDecimal(Ungrouped(Money(c))) == Some(c)
  {
    var a: nat := if c < 0 then -c else c;
    var sign := if c < 0 then "-" else "";
    var whole := NatToString(a / 100);
    var frac := [Digit(a % 100 / 10), Digit(a % 10)];
    assert Money(c) == sign + Grouped(whole) + "." + frac;
    UngroupMoneyParts(sign, whole, frac);
    assert DecimalString(c) == sign + whole + "." + frac;
    DecimalStringRoundTrip(c);
  }

  /** The amount in a formatted label is exact: after the prefix, the text
      reads back as the stored amount. */
  lemma FormattedAmountReadsBack(c: Cents)
    requires c != 0
    ensures var s := FormattedAmount(Some(c)).value;
            var prefix := if c > 0 then 3 else 2;
            |s| > prefix && ParseDecimal(Ungrouped(s[prefix..])) == Some(c)
  {
    var s := FormattedAmount(Some(c)).value;
    var prefix := if c > 0 then 3 else 2;
    assert s[prefix..] == Money(c);
    MoneyReadsBack(c);
  }

  /** The age buckets of `get_time_ago`, for an age in whole seconds. */
  datatype Age = JustNow | MinutesAgo(minutes: nat) | HoursAgo(hours: nat) | OnDate

  /** `get_time_ago`'s thresholds: under a minute, under an hour (whole
      minutes), under a day (whole hours), else the creation date. */
  function AgeBucket(seconds: int): (a: Age)
    ensures a.JustNow? <==> seconds < 60
    ensures a.MinutesAgo? <==> 60 <= seconds < 3600
    ensures a.HoursAgo? <==> 3600 <= seconds < 86400
    ensures a.OnDate? <==> 86400 <= seconds
    ensures a.MinutesAgo? ==> 1 <= a.minutes <= 59 && a.minutes * 60 <= seconds < (a.minutes + 1) * 60
    ensures a.HoursAgo? ==> 1 <= a.hours <= 23 && a.hours * 3600 <= seconds < (a.hours + 1) * 3600
  {
    if seconds < 60 then JustNow
    else if seconds < 3600 then MinutesAgo(seconds / 60)
    else if seconds < 86400 then HoursAgo(seconds / 3600)
    else OnDate
  }

  /** The label: `createdOn` is the creation date as `strftime("%b %d, %Y")` renders it. */
  function TimeAgo(seconds: int, createdOn: string): (t: string)
    ensures seconds < 60 ==> t == "Just now"
    ensures 86400 <= seconds ==> t == createdOn
    ensures 60 <= seconds < 3600 ==>
              |t| > 5 && t[|t| - 5..] == "m ago" && ParseNat(t[..|t| - 5]) == Some(seconds / 60)
    ensures 3600 <= seconds < 86400 ==>
              |t| > 5 && t[|t| - 5..] == "h ago" && ParseNat(t[..|t| - 5]) == Some(seconds / 3600)
  {
    match AgeBucket(seconds)
    case JustNow => "Just now"
    case MinutesAgo(m) =>
      ParseNatToString(m);
      assert (NatToString(m) + "m ago")[..|NatToString(m)|] == NatToString(m);
      NatToString(m) + "m ago"
    case HoursAgo(h) =>
      ParseNatToString(h);
      assert (NatToString(h) + "h ago")[..|NatToString(h)|] == NatToString(h);
      NatToString(h) + "h ago"
    case OnDate => createdOn
  }

  /** An older notification never shows a smaller relative age within the
      same unit, and the label's number reads back as that age. */
  lemma TimeAgoIsMonotone(s: int, t: int)
    requires s <= t
    ensures AgeBucket(s).MinutesAgo? && AgeBucket(t).MinutesAgo? ==> AgeBucket(s).minutes <= AgeBucket(t).minutes
    ensures AgeBucket(s).HoursAgo? && AgeBucket(t).HoursAgo? ==> AgeBucket(s).hours <= AgeBucket(t).hours
    ensures AgeBucket(s).MinutesAgo? ==> ParseNat(TimeAgo(s, "")[..|TimeAgo(s, "")| - 5]) == Some(AgeBucket(s).minutes)
  {
    if AgeBucket(s).MinutesAgo? {
      var m := AgeBucket(s).minutes;
      assert TimeAgo(s, "")[..|TimeAgo(s, "")| - 5] == NatToString(m);
      ParseNatToString(m);
    }
  }
}
