/** scientificToDecimal of lib/stats.ts: the text of a number with its exponent written out.

    The text is split at the letter and at the point, as the source does. What the result means is
    said by reading it as a decimal: digits over a power of ten. */
module Scientific {
  import opened Wrappers
  import opened JsString
  import opened Json
  import JsonText

  const DOT: CodeUnit := 46
  const ZERO: CodeUnit := 48
  const LOWER_E: CodeUnit := 101
  const UPPER_E: CodeUnit := 69
  const PLUS: CodeUnit := 43
  const DASH: CodeUnit := 45

  predicate AreDigits(s: Str) {
    forall i :: 0 <= i < |s| ==> IsDigit(s[i])
  }

  /** A text without an exponent, or digits, perhaps more after a point, and a signed non-zero exponent. */
  datatype NumberText = Plain(text: Str) | Exponential(whole: Str, fraction: Str, e: int)

  ghost predicate WellFormed(whole: Str, fraction: Str, e: int) {
    whole != [] && AreDigits(whole) && AreDigits(fraction) && e != 0
  }

  /** The texts that numbers have (Number::toString, section 6.1.6.1.20 of ECMA-262): with an exponent there
      is one digit before the point. */
  ghost predicate IsNumber(n: NumberText) {
    match n
    case Plain(text) => LOWER_E !in text && UPPER_E !in text
    case Exponential(whole, fraction, e) => WellFormed(whole, fraction, e) && |whole| == 1
  }

  function Coefficient(whole: Str, fraction: Str): Str {
    if fraction == [] then whole else whole + [DOT] + fraction
  }

  function Exponent(e: int): Str {
    if e < 0 then [DASH] + Digits(-e) else [PLUS] + Digits(e)
  }

  function Text(n: NumberText): Str {
    match n
    case Plain(text) => text
    case Exponential(whole, fraction, e) => Coefficient(whole, fraction) + [LOWER_E] + Exponent(e)
  }

  // ----- splitting and reading -----------------------------------------------

  function Split(t: Str, separator: CodeUnit): (parts: seq<Str>)
    ensures parts != []
  {
    if t == [] then [[]]
    else
      var before := Split(t[..|t| - 1], separator);
      if t[|t| - 1] == separator then before + [[]]
      else before[..|before| - 1] + [before[|before| - 1] + [t[|t| - 1]]]
  }

  lemma {:induction false} SplitNone(t: Str, separator: CodeUnit)
    requires separator !in t
    ensures Split(t, separator) == [t]
  {
    if t != [] {
      var front := t[..|t| - 1];
      assert forall u :: u in front ==> u in t;
      SplitNone(front, separator);
      assert t[|t| - 1] in t && t == t[..|t| - 1] + [t[|t| - 1]];
    }
  }

  lemma {:induction false} SplitOnce(a: Str, b: Str, separator: CodeUnit)
    requires separator !in a && separator !in b
    ensures Split(a + [separator] + b, separator) == [a, b]
  {
    var t := a + [separator] + b;
    if b == [] {
      SplitNone(a, separator);
      assert t[..|t| - 1] == a;
    } else {
      var front := b[..|b| - 1];
      assert forall u :: u in front ==> u in b;
      SplitOnce(a, front, separator);
      assert t[..|t| - 1] == a + [separator] + front;
      assert t[|t| - 1] == b[|b| - 1] && b[|b| - 1] in b && b == b[..|b| - 1] + [b[|b| - 1]];
    }
  }

  /** `Number(e)` for the exponent texts that numbers have. */
  function ReadExponent(t: Str): int {
    if t != [] && t[0] == DASH then -DigitsValue(t[1..])
    else if t != [] && t[0] == PLUS then DigitsValue(t[1..])
    else DigitsValue(t)
  }

  lemma ReadsExponent(e: int)
    ensures ReadExponent(Exponent(e)) == e && LOWER_E !in Exponent(e)
  {
    var n := if e < 0 then -e else e;
    JsonText.DigitsRoundTrip(n);
    assert Exponent(e)[1..] == Digits(n);
    forall i | 0 <= i < |Exponent(e)| ensures Exponent(e)[i] != LOWER_E {
      if i > 0 { assert Exponent(e)[i] == Digits(n)[i - 1] && IsDigit(Digits(n)[i - 1]); }
    }
  }

  /** A signed decimal without exponent: digits over ten to the number of digits after the point. */
  datatype Decimal = Decimal(negative: bool, digits: nat, places: nat)

  lemma {:induction false} DigitsValueNonNegative(s: Str)
    requires AreDigits(s)
    ensures DigitsValue(s) >= 0
  {
    if s != [] { DigitsValueNonNegative(s[..|s| - 1]); }
  }

  /** Reads digits with at most one point among them, after an optional minus sign. */
  function ReadDecimal(t: Str): Option<Decimal> {
    var negative := t != [] && t[0] == DASH;
    var parts := Split(if negative then t[1..] else t, DOT);
    if |parts| > 2 || parts[0] == [] || !AreDigits(parts[0]) then None
    else if |parts| == 1 then
      DigitsValueNonNegative(parts[0]);
      Some(Decimal(negative, DigitsValue(parts[0]), 0))
    else if parts[1] == [] || !AreDigits(parts[1]) then None
    else
      DigitsValueNonNegative(parts[0] + parts[1]);
      Some(Decimal(negative, DigitsValue(parts[0] + parts[1]), |parts[1]|))
  }

  function Signed(negative: bool, r: Str): Str {
    if negative then [DASH] + r else r
  }

  function Pow10(n: nat): nat {
    if n == 0 then 1 else 10 * Pow10(n - 1)
  }

  /** digits / 10^places equals c * 10^exponent. */
  predicate SameValue(digits: nat, places: nat, c: int, exponent: int) {
    if exponent >= 0 then digits == c * Pow10(exponent) * Pow10(places)
      else digits * Pow10(-exponent) == c * Pow10(places)
  }

  // ----- digits --------------------------------------------------------------

  function Zeros(n: nat): (z: Str)
    ensures |z| == n && AreDigits(z)
  {
    seq(n, i requires 0 <= i < n => ZERO)
  }

  lemma {:induction false} DigitsConcat(a: Str, b: Str)
    ensures DigitsValue(a + b) == DigitsValue(a) * Pow10(|b|) + DigitsValue(b)
  {
    if b == [] {
      assert a + b == a;
    } else {
      DigitsConcat(a, b[..|b| - 1]);
      assert (a + b)[..|a + b| - 1] == a + b[..|b| - 1];
      assert DigitsValue(a) * (10 * Pow10(|b| - 1)) == 10 * (DigitsValue(a) * Pow10(|b| - 1));
    }
  }

  lemma {:induction false} ZerosValue(n: nat)
    ensures DigitsValue(Zeros(n)) == 0
  {
    if n > 0 {
      ZerosValue(n - 1);
      assert Zeros(n)[..n - 1] == Zeros(n - 1);
    }
  }

  lemma DigitsHave(s: Str, u: CodeUnit)
    requires AreDigits(s) && !IsDigit(u)
    ensures u !in s
  {
  }

  /** Digits without a point. */
  lemma ReadsWhole(whole: Str, negative: bool)
    requires whole != [] && AreDigits(whole)
    ensures DigitsValue(whole) >= 0
    ensures ReadDecimal(Signed(negative, whole)) == Some(Decimal(negative, DigitsValue(whole), 0))
  {
    var t := Signed(negative, whole);
    assert negative ==> t[1..] == whole;
    assert !negative ==> t == whole && IsDigit(t[0]);
    DigitsHave(whole, DOT);
    SplitNone(whole, DOT);
    DigitsValueNonNegative(whole);
  }

  /** Digits around a point. */
  lemma ReadsPoint(whole: Str, places: Str, negative: bool)
    requires whole != [] && places != [] && AreDigits(whole) && AreDigits(places)
    ensures DigitsValue(whole + places) >= 0
    ensures ReadDecimal(Signed(negative, whole + [DOT] + places))
      == Some(Decimal(negative, DigitsValue(whole + places), |places|))
  {
    var body := whole + [DOT] + places;
    var t := Signed(negative, body);
    assert negative ==> t[1..] == body;
    assert !negative ==> t == body && t[0] == whole[0];
    DigitsHave(whole, DOT);
    DigitsHave(places, DOT);
    SplitOnce(whole, places, DOT);
    DigitsValueNonNegative(whole + places);
  }

  // ----- the function --------------------------------------------------------

  predicate SignsThenDigit(t: Str) {
    t != [] && (IsDigit(t[0]) || ((t[0] == PLUS || t[0] == DASH) && SignsThenDigit(t[1..])))
  }

  predicate ExponentAt(t: Str, i: nat)
    requires 0 < i < |t|
  {
    && (t[i] == LOWER_E || t[i] == UPPER_E)
    && (IsDigit(t[i - 1]) || (i > 1 && t[i - 1] == DOT && IsDigit(t[i - 2])))
    && SignsThenDigit(t[i + 1..])
  }

  /** Digits, perhaps a point, perhaps more digits, the letter, signs, a digit: what the pattern finds. */
  predicate IsScientific(t: Str) {
    exists i :: 0 < i < |t| && ExponentAt(t, i)
  }

  lemma PlainIsNotScientific(t: Str)
    requires LOWER_E !in t && UPPER_E !in t
    ensures !IsScientific(t)
  {
    forall i | 0 < i < |t| ensures !ExponentAt(t, i) {
      assert t[i] in t;
    }
  }

  lemma ExponentialIsScientific(whole: Str, fraction: Str, e: int)
    requires WellFormed(whole, fraction, e)
    ensures IsScientific(Text(Exponential(whole, fraction, e)))
  {
    var t, c := Text(Exponential(whole, fraction, e)), Coefficient(whole, fraction);
    assert t[|c| - 1] == c[|c| - 1] && t[|c| + 1..] == Exponent(e);
    JsonText.DigitsRoundTrip(if e < 0 then -e else e);
    assert Exponent(e)[1..] == Digits(if e < 0 then -e else e);
    assert ExponentAt(t, |c|);
  }

  lemma LowerDigits(s: Str)
    requires forall i :: 0 <= i < |s| ==>
      IsDigit(s[i]) || s[i] == DOT || s[i] == LOWER_E || s[i] == PLUS || s[i] == DASH
    ensures ToLower(s) == s
  {
  }

  /** The text splits at the letter into the coefficient and the exponent. */
  lemma SplitText(whole: Str, fraction: Str, e: int)
    requires WellFormed(whole, fraction, e)
    ensures Split(ToLower(Text(Exponential(whole, fraction, e))), LOWER_E) ==
      [Coefficient(whole, fraction), Exponent(e)]
  {
    var c := Coefficient(whole, fraction);
    JsonText.DigitsRoundTrip(if e < 0 then -e else e);
    ReadsExponent(e);
    LowerDigits(c + [LOWER_E] + Exponent(e));
    forall i | 0 <= i < |c| ensures c[i] != LOWER_E {}
    SplitOnce(c, Exponent(e), LOWER_E);
  }

  lemma SplitCoefficient(whole: Str, fraction: Str)
    requires AreDigits(whole) && AreDigits(fraction)
    ensures Split(Coefficient(whole, fraction), DOT) == if fraction == [] then [whole] else [whole, fraction]
  {
    DigitsHave(whole, DOT);
    DigitsHave(fraction, DOT);
    if fraction == [] { SplitNone(whole, DOT); } else { SplitOnce(whole, fraction, DOT); }
  }

  /** `slice(0, l)` and `slice(l)` for a negative l. */
  function TakeTo(s: Str, l: int): Str
    requires l < 0
  {
    if |s| + l < 0 then [] else s[..|s| + l]
  }

  function DropTo(s: Str, l: int): Str
    requires l < 0
  {
    if |s| + l < 0 then s else s[|s| + l..]
  }

  function Join(parts: seq<Str>): Str {
    if parts == [] then [] else Join(parts[..|parts| - 1]) + parts[|parts| - 1]
  }

  /** The digits with the point moved. When the exponent is negative but shorter than the digits before the
      point, the cut is as many digits from the left as the exponent says, not from the right. */
  function Expanded(whole: Str, fraction: Str, e: int): Str {
    if e < 0 && -e < |whole| then whole[..-e] + [DOT] + (whole[-e..] + fraction)
    else if e < 0 then [ZERO] + [DOT] + (Zeros(-e - |whole|) + (whole + fraction))
    else if e < |fraction| then (whole + fraction[..e]) + [DOT] + fraction[e..]
    else whole + fraction + Zeros(e - |fraction|)
  }

  lemma JoinCoefficient(whole: Str, fraction: Str)
    ensures Join(if fraction == [] then [whole] else [whole, fraction]) == whole + fraction
  {
    assert [whole][..0] == [] && [whole, fraction][..1] == [whole];
    assert Join([whole]) == whole;
  }

  method WriteOut(num: Str, ghost whole: Str, ghost fraction: Str, ghost exponent: int) returns (r: Str)
    requires WellFormed(whole, fraction, exponent) && num == Text(Exponential(whole, fraction, exponent))
    ensures r == Expanded(whole, fraction, exponent)
  {
    SplitText(whole, fraction, exponent);
    ReadsExponent(exponent);
    SplitCoefficient(whole, fraction);
    JoinCoefficient(whole, fraction);
    var parts := Split(ToLower(num), LOWER_E);
    var e := ReadExponent(parts[|parts| - 1]);
    var coeff := Split(parts[0], DOT);
    if e < 0 {
      r := Shrink(coeff, -e);
    } else {
      r := Grow(coeff, e);
    }
  }

  method Shrink(coeff: seq<Str>, zeros: int) returns (r: Str)
    requires 1 <= |coeff| <= 2 && zeros > 0 && coeff[0] != []
    ensures var fraction := if |coeff| == 2 then coeff[1] else [];
      Join(coeff) == coeff[0] + fraction ==> r == Expanded(coeff[0], fraction, -zeros)
  {
    var l := zeros - |coeff[0]|;
    if l < 0 {
      r := TakeTo(coeff[0], l) + [DOT] + (DropTo(coeff[0], l) + if |coeff| == 2 then coeff[1] else []);
    } else {
      r := [ZERO] + [DOT] + (Zeros(l) + Join(coeff));
    }
  }

  method Grow(coeff: seq<Str>, zeros: int) returns (r: Str)
    requires 1 <= |coeff| <= 2 && zeros > 0
    ensures var fraction := if |coeff| == 2 then coeff[1] else [];
      Join(coeff) == coeff[0] + fraction ==> r == Expanded(coeff[0], fraction, zeros)
  {
    var l := zeros;
    var dec := if |coeff| > 1 then coeff[1] else [];
    if dec != [] {
      l := l - |dec|;
    }
    if l < 0 {
      r := (coeff[0] + TakeTo(dec, l)) + [DOT] + DropTo(dec, l);
    } else {
      r := Join(coeff) + Zeros(l);
    }
  }

  /** What the text says: the coefficient times ten to the exponent, with the sign. */
  ghost predicate Says(r: Str, negative: bool, whole: Str, fraction: Str, e: int) {
    match ReadDecimal(r)
    case Some(d) => d.negative == negative &&
      SameValue(d.digits, d.places, DigitsValue(whole + fraction), e - |fraction|)
    case None => false
  }

  /** The same digits with as many places as the exponent takes away. */
  lemma SameDigits(c: nat, places: nat, exponent: int)
    requires places == -exponent
    ensures SameValue(c, places, c, exponent)
  {
  }

  lemma PointSays(negative: bool, left: Str, right: Str, whole: Str, fraction: Str, e: int)
    requires left != [] && right != [] && AreDigits(left) && AreDigits(right)
    requires DigitsValue(left + right) == DigitsValue(whole + fraction) && |right| == |fraction| - e
    ensures Says(Signed(negative, left + [DOT] + right), negative, whole, fraction, e)
  {
    ReadsPoint(left, right, negative);
    SameDigits(DigitsValue(left + right), |right|, e - |fraction|);
  }

  lemma LeadingZeros(digits: Str, n: nat)
    requires AreDigits(digits)
    ensures DigitsValue([ZERO] + (Zeros(n) + digits)) == DigitsValue(digits) && AreDigits(Zeros(n) + digits)
  {
    assert [ZERO] + (Zeros(n) + digits) == Zeros(n + 1) + digits;
    DigitsConcat(Zeros(n + 1), digits);
    ZerosValue(n + 1);
  }

  lemma SmallSays(negative: bool, whole: Str, fraction: Str, e: int)
    requires WellFormed(whole, fraction, e) && e < 0 && |whole| <= -e
    ensures Says(Signed(negative, Expanded(whole, fraction, e)), negative, whole, fraction, e)
  {
    LeadingZeros(whole + fraction, -e - |whole|);
    PointSays(negative, [ZERO], Zeros(-e - |whole|) + (whole + fraction), whole, fraction, e);
  }

  lemma ShiftedSays(negative: bool, whole: Str, fraction: Str, e: int)
    requires WellFormed(whole, fraction, e) && 0 < e < |fraction|
    ensures Says(Signed(negative, Expanded(whole, fraction, e)), negative, whole, fraction, e)
  {
    assert whole + fraction[..e] + fraction[e..] == whole + fraction;
    PointSays(negative, whole + fraction[..e], fraction[e..], whole, fraction, e);
  }

  lemma WholeSays(negative: bool, whole: Str, fraction: Str, e: int)
    requires WellFormed(whole, fraction, e) && e >= |fraction| && e > 0
    ensures Says(Signed(negative, Expanded(whole, fraction, e)), negative, whole, fraction, e)
  {
    var zeros := Zeros(e - |fraction|);
    ReadsWhole(whole + fraction + zeros, negative);
    DigitsConcat(whole + fraction, zeros);
    ZerosValue(e - |fraction|);
  }

  /** The output has no exponent left, keeps the sign, and reads as coefficient times ten to the exponent. */
  method ScientificToDecimal(negative: bool, n: NumberText) returns (r: Str)
    requires IsNumber(n)
    ensures n.Plain? ==> r == Signed(negative, n.text)
    ensures n.Exponential? ==> Says(r, negative, n.whole, n.fraction, n.e)
  {
    var num := Text(n);
    if n.Plain? { PlainIsNotScientific(num); } else { ExponentialIsScientific(n.whole, n.fraction, n.e); }
    if IsScientific(num) {
      num := WriteOut(num, n.whole, n.fraction, n.e);
      if n.e < 0 {
        SmallSays(negative, n.whole, n.fraction, n.e);
      } else if n.e < |n.fraction| {
        ShiftedSays(negative, n.whole, n.fraction, n.e);
      } else {
        WholeSays(negative, n.whole, n.fraction, n.e);
      }
    }
    r := Signed(negative, num);
  }
}
