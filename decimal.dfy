/** Decimal amount strings, as the application reads them in two different ways:
    `Number(s)` (used for the "greater than zero" tests and for comparing route amounts)
    and ethers' `parseUnits(s, decimals)` (the exact conversion to integer minor units used
    for balances, allowances and transaction values). */
module Decimal {
  import opened Wrappers
  import opened Text

  /** A decimal literal: sign, digits before the point, digits after it. */
  datatype Decimal = Decimal(negative: bool, whole: string, fraction: string)
  {
    predicate Valid() { AllDigits(whole) && AllDigits(fraction) }

    /** All digits, without the point; the literal denotes Mantissa() / 10^|fraction|. */
    function Digits(): (r: string)
      requires Valid()
      ensures AllDigits(r)
    {
      whole + fraction
    }
  }

  /** Splits an unsigned literal at its decimal point: both parts must be digits and
      there may be at most one point. */
  function SplitPoint(body: string): (r: Option<(string, string)>)
    ensures r.Some? ==> AllDigits(r.value.0) && AllDigits(r.value.1)
    ensures r.Some? ==> body == r.value.0 + (if '.' in body then "." else "") + r.value.1
    ensures AllDigits(body) ==> r == Some((body, ""))
  {
    match IndexOf(body, '.')
    case None => if AllDigits(body) then Some((body, "")) else None
    case Some(k) =>
      if AllDigits(body[..k]) && AllDigits(body[k + 1..]) then
        assert body == body[..k] + "." + body[k + 1..];
        Some((body[..k], body[k + 1..]))
      else None
  }

  /** `Number(s)` restricted to plain decimal literals: the empty string is 0, an optional
      `+` or `-` sign may precede `digits[.digits]` (either side may be empty, not both),
      and anything else is `NaN` (`None`). */
  function JsNumber(s: string): (r: Option<Decimal>)
    ensures r.Some? ==> r.value.Valid()
    ensures s == "" ==> r == Some(Decimal(false, "", ""))
    ensures r.Some? && s != "" ==>
      |r.value.whole| + |r.value.fraction| > 0 && (r.value.negative <==> s[0] == '-') &&
      s == SignOf(s) + r.value.whole + (if '.' in s then "." else "") + r.value.fraction
  {
    if s == "" then Some(Decimal(false, "", ""))
    else
      var negative := s[0] == '-';
      var body := if s[0] == '-' || s[0] == '+' then s[1..] else s;
      match SplitPoint(body)
      case None => None
      case Some(parts) =>
        if |parts.0| + |parts.1| == 0 then None
        else
          SignedShape(s, body, parts.0, parts.1);
          Some(Decimal(negative, parts.0, parts.1))
  }

  /** A signed literal is its sign followed by its unsigned body, so it has a point exactly
      when the body does. */
  lemma SignedShape(s: string, body: string, whole: string, fraction: string)
    requires s != "" && body == (if s[0] == '-' || s[0] == '+' then s[1..] else s)
    requires body == whole + (if '.' in body then "." else "") + fraction
    ensures s == SignOf(s) + whole + (if '.' in s then "." else "") + fraction
  {
    if s[0] == '-' || s[0] == '+' {
      assert s == [s[0]] + body;
      assert '.' in s <==> '.' in body by {
        if '.' in s { var k :| 0 <= k < |s| && s[k] == '.'; assert k > 0 && body[k - 1] == '.'; }
        if '.' in body { var k :| 0 <= k < |body| && body[k] == '.'; assert s[k + 1] == '.'; }
      }
      assert SignOf(s) == [s[0]];
      var mid := if '.' in body then "." else "";
      assert (if '.' in s then "." else "") == mid;
      assert [s[0]] + (whole + mid + fraction) == [s[0]] + whole + mid + fraction;
    } else {
      assert SignOf(s) == [] && body == s;
    }
  }

  /** `Number(s) > 0`: a literal that is not negative and has a non-zero digit.
      `NaN > 0` is false. */
  predicate IsPositiveNumber(s: string)
  {
    match JsNumber(s)
    case None => false
    case Some(d) => !d.negative && DigitsValue(d.Digits()) > 0
  }

  /** `Number(s) <= 0`; false for `NaN`, so it is NOT the negation of IsPositiveNumber. */
  predicate IsNonPositiveNumber(s: string)
  {
    match JsNumber(s)
    case None => false
    case Some(d) => d.negative || DigitsValue(d.Digits()) == 0
  }

  /** The exact rational value of a literal. */
  function Value(d: Decimal): real
    requires d.Valid()
  {
    var magnitude := DigitsValue(d.Digits()) as real / Pow10(|d.fraction|) as real;
    if d.negative then -magnitude else magnitude
  }

  /** The sign character a literal starts with, if any. */
  function SignOf(s: string): string
  {
    if s != "" && (s[0] == '-' || s[0] == '+') then [s[0]] else ""
  }

  /** Digits with at most one point split back into the digits on either side. */
  lemma SplitPointLiteral(whole: string, point: bool, fraction: string)
    requires AllDigits(whole) && AllDigits(fraction)
    requires !point ==> fraction == ""
    ensures SplitPoint(whole + (if point then "." else "") + fraction) == Some((whole, fraction))
  {
    var body := whole + (if point then "." else "") + fraction;
    assert '.' !in whole;
    if point {
      IndexOfAfterPrefix(whole, '.', fraction);
      assert body == whole + ['.'] + fraction;
      assert body[..|whole|] == whole && body[|whole| + 1..] == fraction;
    } else {
      assert body == whole;
    }
  }

  /** Every plain decimal literal is a number: an optional sign, then digits with at most
      one point, not all of them empty, reads back as exactly those parts. */
  lemma JsNumberReadsLiteral(sign: string, whole: string, point: bool, fraction: string)
    requires sign == "" || sign == "-" || sign == "+"
    requires AllDigits(whole) && AllDigits(fraction) && |whole| + |fraction| > 0
    requires !point ==> fraction == ""
    ensures JsNumber(sign + whole + (if point then "." else "") + fraction) == Some(Decimal(sign == "-", whole, fraction))
  {
    var body := whole + (if point then "." else "") + fraction;
    SplitPointLiteral(whole, point, fraction);
    var s := sign + body;
    assert s == sign + whole + (if point then "." else "") + fraction;
    assert body != [];
    SignedBody(sign, body);
    assert JsNumber(s) == Some(Decimal(s[0] == '-', whole, fraction));
  }

  /** Removing the sign of `sign + body` gives back `body`, when the body starts with a
      digit or the point. */
  lemma SignedBody(sign: string, body: string)
    requires sign == "" || sign == "-" || sign == "+"
    requires body != [] && (IsDigit(body[0]) || body[0] == '.')
    ensures var s := sign + body;
      s != [] && (s[0] == '-' <==> sign == "-") &&
      (if s[0] == '-' || s[0] == '+' then s[1..] else s) == body
  {
    var s := sign + body;
    if sign == "" {
      assert s == body;
    } else {
      assert s[0] == sign[0] && s[1..] == body;
    }
  }

  /** `Number(a) > Number(b)`: false as soon as either side is `NaN`. */
  predicate NumberGreater(a: string, b: string)
  {
    JsNumber(a).Some? && JsNumber(b).Some? && Value(JsNumber(a).value) > Value(JsNumber(b).value)
  }

  lemma NumberGreaterIrreflexive(a: string)
    ensures !NumberGreater(a, a)
  {
  }

  lemma NumberGreaterTransitive(a: string, b: string, c: string)
    requires NumberGreater(a, b) && NumberGreater(b, c)
    ensures NumberGreater(a, c)
  {
  }

  /** Two numeric literals are comparable: one is greater or their values are equal. */
  lemma NumberGreaterTotal(a: string, b: string)
    requires JsNumber(a).Some? && JsNumber(b).Some?
    ensures NumberGreater(a, b) || NumberGreater(b, a) || Value(JsNumber(a).value) == Value(JsNumber(b).value)
  {
  }

  /** `count` zero digits. */
  function Zeros(count: nat): (r: string)
    ensures |r| == count && AllDigits(r)
    ensures forall i :: 0 <= i < count ==> r[i] == '0'
  {
    seq(count, i => '0')
  }

  /** The literal grammar of ethers' `parseUnits`: `-?[0-9]*\.?[0-9]*` with at least
      one digit (no `+`, and the empty string is refused). */
  function UnitsLiteral(s: string): (r: Option<Decimal>)
    ensures r.Some? ==> r.value.Valid() && |r.value.Digits()| > 0
  {
    var negative := |s| > 0 && s[0] == '-';
    var body := if negative then s[1..] else s;
    match SplitPoint(body)
    case None => None
    case Some(parts) =>
      if |parts.0| + |parts.1| == 0 then None else Some(Decimal(negative, parts.0, parts.1))
  }

  /** Scales a literal by 10^decimals; fraction digits beyond `decimals` must all be zero
      ("too many decimals" otherwise). */
  function Scale(d: Decimal, decimals: nat): (r: Option<int>)
    requires d.Valid()
    ensures r.Some? <==> forall i :: decimals <= i < |d.fraction| ==> d.fraction[i] == '0'
    ensures |d.fraction| <= decimals ==> r.Some?
  {
    if |d.fraction| > decimals && exists i :: decimals <= i < |d.fraction| && d.fraction[i] != '0' then None
    else
      var scaled := if |d.fraction| <= decimals then d.fraction + Zeros(decimals - |d.fraction|) else d.fraction[..decimals];
      var magnitude: int := DigitsValue(d.whole + scaled);
      Some(if d.negative then -magnitude else magnitude)
  }

  /** Stands for the message of any error parseUnits throws. ethers words it by the fault
      (a malformed literal, too many decimals); the model does not reproduce that text. */
  const UnitsErrorMessage := "invalid decimal value"

  /** ethers' `parseUnits(s, decimals)`: the literal scaled to integer minor units, exactly;
      `None` where ethers throws. */
  function Units(s: string, decimals: nat): (r: Option<int>)
    ensures r.Some? ==> UnitsLiteral(s).Some?
  {
    match UnitsLiteral(s)
    case None => None
    case Some(d) => Scale(d, decimals)
  }

  /** Both parsers read an unsigned-or-minus, non-empty literal the same way. */
  lemma UnitsLiteralAgrees(s: string)
    requires s != "" && s[0] != '+'
    ensures UnitsLiteral(s) == JsNumber(s)
  {
  }

  /** A literal with a `+` sign is a number for `Number` but not for parseUnits. */
  lemma UnitsRefusesPlus(s: string)
    requires s != "" && s[0] == '+'
    ensures UnitsLiteral(s).None?
  {
  }

  /** For a literal with at most `decimals` fraction digits, the scaled value is exactly
      its digits read as one integer and shifted by the missing places. */
  lemma ScaleExact(d: Decimal, decimals: nat)
    requires d.Valid() && |d.fraction| <= decimals
    ensures var m := DigitsValue(d.Digits()) * Pow10(decimals - |d.fraction|);
            Scale(d, decimals) == Some(if d.negative then -m else m)
  {
    var pad := Zeros(decimals - |d.fraction|);
    DigitsValueAppend(d.whole + d.fraction, pad);
    DigitsValueZero(pad);
    assert d.whole + (d.fraction + pad) == d.whole + d.fraction + pad;
  }

  /** Scaling keeps the sign: a non-negative literal with a non-zero digit scales to a
      positive number of units, whichever digits are dropped. */
  lemma ScalePositive(d: Decimal, decimals: nat)
    requires d.Valid() && !d.negative && DigitsValue(d.Digits()) > 0 && Scale(d, decimals).Some?
    ensures Scale(d, decimals).value > 0
  {
    if |d.fraction| <= decimals {
      ScaleExact(d, decimals);
    } else {
      var kept := d.whole + d.fraction[..decimals];
      var dropped := d.fraction[decimals..];
      assert forall i :: 0 <= i < |dropped| ==> dropped[i] == '0' by {
        forall i | 0 <= i < |dropped| ensures dropped[i] == '0' {
          assert d.fraction[decimals + i] == dropped[i];
        }
      }
      assert d.Digits() == kept + dropped;
      DigitsValueAppend(kept, dropped);
      DigitsValueZero(dropped);
    }
  }

  /** A positive amount (`Number(s) > 0`) that parseUnits accepts converts to a positive
      number of minor units. */
  lemma UnitsPositive(s: string, decimals: nat)
    requires IsPositiveNumber(s) && Units(s, decimals).Some?
    ensures Units(s, decimals).value > 0
  {
    if s[0] == '+' {
      UnitsRefusesPlus(s);
    } else {
      UnitsLiteralAgrees(s);
      ScalePositive(JsNumber(s).value, decimals);
    }
  }

  /** A number within the precision accepted by parseUnits always converts: a literal that
      `Number` reads, that is not empty, not `+`-signed, and has at most `decimals`
      fraction digits. */
  lemma UnitsDefined(s: string, decimals: nat)
    requires JsNumber(s).Some? && s != "" && s[0] != '+'
    requires |JsNumber(s).value.fraction| <= decimals
    ensures Units(s, decimals).Some?
  {
    UnitsLiteralAgrees(s);
  }
}
