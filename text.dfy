/** The text renderings the core relies on: decimal digits of an id
    (f-strings such as `f'chat_{id}'`), `str()` of an exact two-place decimal,
    and the thousands separators of the `,` format specifier; each with the
    parser that undoes it. */
module Text {
  import opened Common

  predicate IsDigit(c: char) {
    '0' <= c <= '9'
  }

  predicate AllDigits(s: string) {
    forall i :: 0 <= i < |s| ==> IsDigit(s[i])
  }

  function Digit(d: nat): (c: char)
    requires d < 10
    ensures IsDigit(c)
  {
    ('0' as int + d) as char
  }

  function DigitValue(c: char): (d: nat)
    requires IsDigit(c)
    ensures d < 10 && Digit(d) == c
  {
    c as int - '0' as int
  }

  /** `str(n)` for a non-negative integer: its decimal digits, no leading zero. */
  function NatToString(n: nat): (s: string)
    ensures 1 <= |s| && AllDigits(s)
    ensures s[0] == '0' ==> n == 0
    decreases n
  {
    if n < 10 then [Digit(n)] else NatToString(n / 10) + [Digit(n % 10)]
  }

  /** The value of a string of decimal digits (leading zeros allowed, as `int()` allows them). */
  function DigitsValue(s: string): nat
    requires AllDigits(s)
    decreases |s|
  {
    if s == [] then 0 else DigitsValue(s[..|s| - 1]) * 10 + DigitValue(s[|s| - 1])
  }

  /** `int(s)` restricted to ASCII digits; anything else is not a number. */
  function ParseNat(s: string): Option<nat> {
    if s != [] && AllDigits(s) then Some(DigitsValue(s)) else None
  }

  /** The whitespace `int()` strips around a number: space and the ASCII
      control characters Python counts as whitespace. */
  predicate IsSpace(c: char) {
    c == ' ' || 9 <= c as int <= 13 || 28 <= c as int <= 31
  }

  predicate AllSpace(s: string) {
    forall i :: 0 <= i < |s| ==> IsSpace(s[i])
  }

  /** `s.strip()` for the whitespace above. */
  function StripSpace(s: string): (r: string)
    ensures |r| <= |s|
    ensures r != [] ==> !IsSpace(r[0]) && !IsSpace(r[|r| - 1])
    decreases |s|
  {
    if s != [] && IsSpace(s[0]) then StripSpace(s[1..])
    else if s != [] && IsSpace(s[|s| - 1]) then StripSpace(s[..|s| - 1])
    else s
  }

  /** Digits with single underscores between them, as `int()` accepts
      them (`1_000`): no leading, trailing or doubled underscore. */
  predicate DigitGroups(s: string) {
    s != [] && IsDigit(s[0]) && IsDigit(s[|s| - 1]) &&
    (forall i :: 0 <= i < |s| ==> IsDigit(s[i]) || s[i] == '_') &&
    (forall i :: 0 <= i < |s| - 1 ==> !DoubleUnderscoreAt(s, i))
  }

  predicate DoubleUnderscoreAt(s: string, i: int)
    requires 0 <= i < |s| - 1
  {
    s[i] == '_' && s[i + 1] == '_'
  }

  /** The digits of `s`, its underscores removed. */
  function DropUnderscores(s: string): (r: string)
    ensures (forall i :: 0 <= i < |s| ==> IsDigit(s[i]) || s[i] == '_') ==> AllDigits(r)
    decreases |s|
  {
    if s == [] then [] else DropUnderscores(s[..|s| - 1]) + (if s[|s| - 1] == '_' then [] else [s[|s| - 1]])
  }

  /** `int(s)` on text: surrounding whitespace is ignored, a `+` or `-` may
      lead, and the digits may be grouped with underscores; anything else
      raises `ValueError`, here `None`. Plain digit strings read as `ParseNat`
      reads them. */
  function ParseInt(s: string): Option<int> {
    ParseSignedGroups(StripSpace(s))
  }

  /** An optional `+` or `-`, then digit groups. */
  function ParseSignedGroups(t: string): Option<int> {
    if t != [] && t[0] == '-' then Negated(GroupsValue(t[1..]))
    else if t != [] && t[0] == '+' then GroupsValue(t[1..])
    else GroupsValue(t)
  }

  /** The value of digit groups, or `None` for anything else. */
  function GroupsValue(body: string): Option<int> {
    if DigitGroups(body) then Some(DigitsValue(DropUnderscores(body)) as int) else None
  }

  function Negated(v: Option<int>): Option<int> {
    match v
    case Some(n) => Some(-n)
    case None => None
  }

  /** A required id parameter of a REST request: absent or empty is answered
      400; text `int()` rejects makes the ORM lookup raise, which is answered
      500; any other text is the id it denotes, which may be negative and then
      names no row. */
  function RequiredId(param: Option<string>): (r: Result<int>)
    ensures !Given(param) <==> r == Err(BadRequest)
    ensures Given(param) && ParseInt(param.value).None? <==> r == Err(InternalError)
    ensures r.Ok? ==> Given(param) && ParseInt(param.value) == Some(r.value)
  {
    if !Given(param) then Err(BadRequest)
    else match ParseInt(param.value)
      case Some(n) => Ok(n)
      case None => Err(InternalError)
  }

  /** An id in a decoded JSON body: a number, or text. */
  datatype IdValue = IdNumber(n: int) | IdText(text: string)

  /** Python truthiness of the value: `0` and `''` are falsy, `'0'` is not. */
  predicate TruthyId(v: IdValue) {
    match v
    case IdNumber(n) => n != 0
    case IdText(t) => t != ""
  }

  /** A key that is present with a truthy value. */
  predicate GivenValue(v: Option<IdValue>) {
    v.Some? && TruthyId(v.value)
  }

  /** The integer the ORM reads the value as (`int(value)`); text `int()`
      rejects makes the lookup raise `ValueError`, here `None`. */
  function IdOf(v: IdValue): Option<int> {
    match v
    case IdNumber(n) => Some(n)
    case IdText(t) => ParseInt(t)
  }

  /** A required id in a decoded JSON body: absent or falsy (`0` as much as
      `''`) is answered 400; text `int()` rejects makes the ORM lookup raise,
      which is answered 500; otherwise the id the value denotes. */
  function RequiredIdValue(v: Option<IdValue>): (r: Result<int>)
    ensures !GivenValue(v) <==> r == Err(BadRequest)
    ensures GivenValue(v) && IdOf(v.value).None? <==> r == Err(InternalError)
    ensures r.Ok? ==> GivenValue(v) && IdOf(v.value) == Some(r.value)
  {
    if !GivenValue(v) then Err(BadRequest)
    else match IdOf(v.value)
      case Some(n) => Ok(n)
      case None => Err(InternalError)
  }

  /** Text in a body is read as the same text in a query string, and a
      non-zero JSON number is its own id; but a JSON `0` is falsy and so
      missing, where the text `"0"` names the id 0. */
  lemma BodyIdsAgreeWithQueryIds(t: string, n: int)
    ensures RequiredIdValue(Some(IdText(t))) == RequiredId(Some(t))
    ensures n != 0 ==> RequiredIdValue(Some(IdNumber(n))) == Ok(n)
    ensures RequiredIdValue(Some(IdNumber(0))) == Err(BadRequest)
    ensures RequiredId(Some("0")) == Ok(0)
  {
    ParseNatToString(0);
    ParseIntExtendsParseNat(NatToString(0));
  }

  function LowerChar(c: char): char {
    if 'A' <= c <= 'Z' then (c as int + 32) as char else c
  }

  /** `str.lower()` on the ASCII letters. */
  function LowerAscii(s: string): (r: string)
    ensures |r| == |s| && forall i :: 0 <= i < |s| ==> r[i] == LowerChar(s[i])
  {
    seq(|s|, i requires 0 <= i < |s| => LowerChar(s[i]))
  }

  lemma {:induction false} DigitsOfNatToString(n: nat)
    ensures DigitsValue(NatToString(n)) == n
    decreases n
  {
    if n >= 10 {
      var s := NatToString(n);
      assert s[..|s| - 1] == NatToString(n / 10);
      DigitsOfNatToString(n / 10);
    }
  }

  /** Parsing undoes rendering. */
  lemma ParseNatToString(n: nat)
    ensures ParseNat(NatToString(n)) == Some(n)
  {
    DigitsOfNatToString(n);
  }

  /** Distinct ids render differently, so id-derived names never collide. */
  lemma NatToStringInjective(a: nat, b: nat)
    requires NatToString(a) == NatToString(b)
    ensures a == b
  {
    ParseNatToString(a);
    ParseNatToString(b);
  }

  /** `str(Decimal)` of a two-place decimal: an optional `-`, the whole part,
      a point and exactly two digits (`'1234.50'`, `'-0.05'`, `'0.00'`). */
  function DecimalString(c: Cents): (s: string)
    ensures |s| >= 4 && s[|s| - 3] == '.'
  {
    var a: nat := if c < 0 then -c else c;
    (if c < 0 then "-" else "") + NatToString(a / 100) + "." + [Digit(a % 100 / 10), Digit(a % 10)]
  }

  /** Reads back the unsigned part `<digits>.<two digits>` of a decimal string, in cents. */
  function ParseUnsigned(body: string): Option<nat> {
    if |body| < 4 || body[|body| - 3] != '.' then None
    else
      var whole := body[..|body| - 3];
      var frac := body[|body| - 2..];
      if whole == [] || !AllDigits(whole) || !AllDigits(frac) then None
      else Some(DigitsValue(whole) * 100 + DigitsValue(frac))
  }

  /** Reads back a string of the shape `DecimalString` produces. */
  function ParseDecimal(s: string): Option<Cents> {
    if |s| > 0 && s[0] == '-' then
      match ParseUnsigned(s[1..])
      case Some(a) => Some(-(a as int))
      case None => None
    else ParseUnsigned(s)
  }

  lemma FractionDigits(a: nat)
    ensures AllDigits([Digit(a % 100 / 10), Digit(a % 10)])
    ensures DigitsValue([Digit(a % 100 / 10), Digit(a % 10)]) == a % 100
  {
    var frac := [Digit(a % 100 / 10), Digit(a % 10)];
    assert frac[..1] == [Digit(a % 100 / 10)];
    assert frac[..1][..0] == [];
    assert DigitValue(frac[0]) == a % 100 / 10 && DigitValue(frac[1]) == a % 10;
    assert DigitsValue(frac[..1]) == a % 100 / 10;
  }

  lemma ParseBody(whole: string, frac: string)
    requires whole != [] && AllDigits(whole) && |frac| == 2 && AllDigits(frac)
    ensures ParseUnsigned(whole + "." + frac) == Some(DigitsValue(whole) * 100 + DigitsValue(frac))
  {
    var body := whole + "." + frac;
    assert body[..|body| - 3] == whole;
    assert body[|body| - 2..] == frac;
  }

  /** The unsigned part of `DecimalString`: whole part, point, two digits. */
  function UnsignedDecimal(a: nat): string {
    NatToString(a / 100) + "." + [Digit(a % 100 / 10), Digit(a % 10)]
  }

  lemma UnsignedDecimalReadsBack(a: nat)
    ensures UnsignedDecimal(a) != [] && UnsignedDecimal(a)[0] != '-'
    ensures ParseUnsigned(UnsignedDecimal(a)) == Some(a)
  {
    var whole := NatToString(a / 100);
    DigitsOfNatToString(a / 100);
    FractionDigits(a);
    ParseBody(whole, [Digit(a % 100 / 10), Digit(a % 10)]);
    assert UnsignedDecimal(a)[0] == whole[0] && IsDigit(whole[0]);
    assert a / 100 * 100 + a % 100 == a;
  }

  lemma ParseSigned(body: string, v: nat)
    requires body != [] && body[0] != '-' && ParseUnsigned(body) == Some(v)
    ensures ParseDecimal(body) == Some(v)
    ensures ParseDecimal("-" + body) == Some(-(v as int))
  {
    assert ("-" + body)[1..] == body;
  }

  /** The decimal string keeps the exact amount: reading it back gives the
      same number of cents, for every amount, so no rounding ever happens. */
  lemma DecimalStringRoundTrip(c: Cents)
    ensures ParseDecimal(DecimalString(c)) == Some(c)
  {
    var a: nat := if c < 0 then -c else c;
    UnsignedDecimalReadsBack(a);
    ParseSigned(UnsignedDecimal(a), a);
    if c < 0 {
      assert DecimalString(c) == "-" + UnsignedDecimal(a);
    } else {
      assert DecimalString(c) == UnsignedDecimal(a);
    }
  }

  /** The digits of `s` with a `,` between every group of three, counted from
      the right: what `format(x, ',')` does to the whole part. */
  function Grouped(s: string): (r: string)
    decreases |s|
  {
    if |s| <= 3 then s else Grouped(s[..|s| - 3]) + "," + s[|s| - 3..]
  }

  /** `s` with every `,` removed. */
  function Ungrouped(s: string): string
    decreases |s|
  {
    if s == [] then [] else Ungrouped(s[..|s| - 1]) + (if s[|s| - 1] == ',' then [] else [s[|s| - 1]])
  }

  lemma {:induction false} UngroupedAppend(a: string, b: string)
    ensures Ungrouped(a + b) == Ungrouped(a) + Ungrouped(b)
    decreases |b|
  {
    if b == [] {
      assert a + b == a;
    } else {
      assert (a + b)[..|a + b| - 1] == a + b[..|b| - 1];
      UngroupedAppend(a, b[..|b| - 1]);
    }
  }

  lemma {:induction false} UngroupedDigits(s: string)
    requires AllDigits(s)
    ensures Ungrouped(s) == s
    decreases |s|
  {
    if s != [] {
      assert s == s[..|s| - 1] + [s[|s| - 1]];
      UngroupedDigits(s[..|s| - 1]);
    }
  }

  lemma UngroupedComma()
    ensures Ungrouped(",") == []
  {
    assert ","[..0] == [];
  }

  lemma UngroupedJoin(g: string, tail: string)
    requires AllDigits(tail)
    ensures Ungrouped(g + "," + tail) == Ungrouped(g) + tail
  {
    UngroupedAppend(g + ",", tail);
    UngroupedAppend(g, ",");
    UngroupedComma();
    UngroupedDigits(tail);
  }

  /** Removing the separators gives the digits back: grouping only inserts commas. */
  lemma {:induction false} UngroupGrouped(s: string)
    requires AllDigits(s)
    ensures Ungrouped(Grouped(s)) == s
    decreases |s|
  {
    if |s| > 3 {
      var head, tail := s[..|s| - 3], s[|s| - 3..];
      assert AllDigits(head) && AllDigits(tail);
      UngroupGrouped(head);
      UngroupedJoin(Grouped(head), tail);
      assert head + tail == s;
    } else {
      UngroupedDigits(s);
    }
  }

  lemma {:induction false} StripSpaceAround(pre: string, x: string, post: string)
    requires AllSpace(pre) && AllSpace(post)
    requires x != [] && !IsSpace(x[0]) && !IsSpace(x[|x| - 1])
    ensures StripSpace(pre + x + post) == x
    decreases |pre| + |post|
  {
    var s := pre + x + post;
    if pre != [] {
      assert s[0] == pre[0];
      assert s[1..] == pre[1..] + x + post;
      StripSpaceAround(pre[1..], x, post);
    } else if post != [] {
      assert s == x + post && s[0] == x[0] && s[|s| - 1] == post[|post| - 1];
      assert s[..|s| - 1] == [] + x + post[..|post| - 1];
      StripSpaceAround([], x, post[..|post| - 1]);
    } else {
      assert s == x;
    }
  }

  lemma {:induction false} StripAllSpace(s: string)
    requires AllSpace(s)
    ensures StripSpace(s) == []
    decreases |s|
  {
    if s != [] {
      StripAllSpace(s[1..]);
    }
  }

  lemma {:induction false} DropUnderscoresOfDigits(s: string)
    requires AllDigits(s)
    ensures DropUnderscores(s) == s
    decreases |s|
  {
    if s != [] {
      DropUnderscoresOfDigits(s[..|s| - 1]);
      assert s == s[..|s| - 1] + [s[|s| - 1]];
    }
  }

  lemma {:induction false} DropUnderscoresAppend(a: string, b: string)
    ensures DropUnderscores(a + b) == DropUnderscores(a) + DropUnderscores(b)
    decreases |b|
  {
    if b == [] {
      assert a + b == a;
    } else {
      assert (a + b)[..|a + b| - 1] == a + b[..|b| - 1];
      DropUnderscoresAppend(a, b[..|b| - 1]);
    }
  }

  lemma PlainDigitGroups(d: string)
    requires d != [] && AllDigits(d)
    ensures DigitGroups(d) && DropUnderscores(d) == d
  {
    DropUnderscoresOfDigits(d);
  }

  lemma PlainGroupsValue(d: string)
    requires d != [] && AllDigits(d)
    ensures GroupsValue(d) == Some(DigitsValue(d) as int)
  {
    PlainDigitGroups(d);
  }

  lemma UnsignedGroups(d: string)
    requires d != [] && AllDigits(d)
    ensures ParseSignedGroups(d) == Some(DigitsValue(d) as int)
  {
    PlainGroupsValue(d);
  }

  /** A leading sign is read off and the rest is read as digit groups. */
  lemma SignPrefix(c: char, d: string)
    requires c == '+' || c == '-'
    ensures ParseSignedGroups([c] + d) == if c == '-' then Negated(GroupsValue(d)) else GroupsValue(d)
  {
    var t := [c] + d;
    assert t[0] == c;
    assert t[1..] == d;
  }

  lemma SignedGroups(c: char, d: string, v: int)
    requires c == '+' || c == '-'
    requires GroupsValue(d) == Some(v)
    ensures ParseSignedGroups([c] + d) == Some(if c == '-' then -v else v)
  {
    SignPrefix(c, d);
  }

  lemma DigitsAfterStrip(s: string, d: string)
    requires d != [] && AllDigits(d) && StripSpace(s) == d
    ensures ParseInt(s) == Some(DigitsValue(d) as int)
  {
    UnsignedGroups(d);
  }

  lemma SignedDigitsAfterStrip(s: string, c: char, d: string)
    requires c == '+' || c == '-'
    requires d != [] && AllDigits(d) && StripSpace(s) == [c] + d
    ensures ParseInt(s) == Some(if c == '-' then -(DigitsValue(d) as int) else DigitsValue(d) as int)
  {
    PlainGroupsValue(d);
    SignedGroups(c, d, DigitsValue(d) as int);
  }

  /** Plain digit strings read as `ParseNat` reads them. */
  lemma ParseIntExtendsParseNat(s: string)
    requires ParseNat(s).Some?
    ensures ParseInt(s) == Some(ParseNat(s).value as int)
  {
    assert StripSpace(s) == s;
    DigitsAfterStrip(s, s);
  }

  /** `int()` reads a rendered id back with any surrounding whitespace. */
  lemma ParseIntPadded(n: nat, pre: string, post: string)
    requires AllSpace(pre) && AllSpace(post)
    ensures ParseInt(pre + NatToString(n) + post) == Some(n as int)
  {
    var d := NatToString(n);
    StripSpaceAround(pre, d, post);
    DigitsAfterStrip(pre + d + post, d);
    ParseNatToString(n);
  }

  /** `int()` reads a rendered id with a leading `+` as the id and with a
      leading `-` as its negation. */
  lemma ParseIntSigned(n: nat, c: char, pre: string, post: string)
    requires c == '+' || c == '-'
    requires AllSpace(pre) && AllSpace(post)
    ensures ParseInt(pre + [c] + NatToString(n) + post) == Some(if c == '-' then -(n as int) else n as int)
  {
    var d := NatToString(n);
    assert pre + [c] + d + post == pre + ([c] + d) + post;
    StripSpaceAround(pre, [c] + d, post);
    SignedDigitsAfterStrip(pre + ([c] + d) + post, c, d);
    ParseNatToString(n);
  }

  /** Blank text is not a number. */
  lemma BlankIsNotANumber(s: string)
    requires AllSpace(s)
    ensures ParseInt(s) == None
  {
    StripAllSpace(s);
  }

  lemma UnderscoreGroups(a: string, b: string)
    requires a != [] && b != [] && AllDigits(a) && AllDigits(b)
    ensures DigitGroups(a + "_" + b)
  {
    var s := a + "_" + b;
    forall i | 0 <= i < |s|
      ensures IsDigit(s[i]) || s[i] == '_'
      ensures i < |s| - 1 && s[i] == '_' ==> s[i + 1] != '_'
    {
      if i < |a| {
        assert s[i] == a[i];
      } else if i > |a| {
        assert s[i] == b[i - |a| - 1];
      }
    }
  }

  lemma DropUnderscoreBetween(a: string, b: string)
    requires AllDigits(a) && AllDigits(b)
    ensures DropUnderscores(a + "_" + b) == a + b
  {
    DropUnderscoresOfDigits(a);
    DropUnderscoresOfDigits(b);
    DropLoneUnderscore();
    DropUnderscoresAppend("_", b);
    assert DropUnderscores("_" + b) == b;
    DropUnderscoresAppend(a, "_" + b);
    assert a + "_" + b == a + ("_" + b);
  }

  lemma DropLoneUnderscore()
    ensures DropUnderscores("_") == []
  {
    assert "_"[..0] == [];
    assert DropUnderscores([]) == [];
  }

  /** An underscore between two digit groups is ignored: `int('1_000') == 1000`. */
  lemma UnderscoreJoinsGroups(a: string, b: string)
    requires a != [] && b != [] && AllDigits(a) && AllDigits(b)
    ensures ParseInt(a + "_" + b) == Some(DigitsValue(a + b) as int)
  {
    var s := a + "_" + b;
    assert s[0] == a[0] && s[|s| - 1] == b[|b| - 1];
    assert StripSpace(s) == s;
    UnderscoreGroups(a, b);
    DropUnderscoreBetween(a, b);
  }
}
