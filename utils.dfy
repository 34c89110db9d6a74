/** The numeric and string helpers of the charts: clamping, linear mapping,
    the "Last N Minutes/Seconds" label, and the value formatter with its
    precision and unit logic. Numbers are exact reals; the float rounding of
    the source is not modelled. */
module Utils {
  import opened Wrappers

  /** `clamp`: `min` below the interval, `max` above it, else the input. */
  function Clamp(input: real, min: real, max: real): (r: real)
    ensures r == input || r == min || r == max
    ensures min <= max ==> min <= r <= max
    ensures min <= input <= max ==> r == input
    ensures input < min ==> r == min
    ensures !(input < min) && input > max ==> r == max
  {
    if input < min then min else if input > max then max else input
  }

  /** Clamping twice to the same interval is clamping once. */
  lemma {:induction false} ClampIdempotent(x: real, min: real, max: real)
    requires min <= max
    ensures Clamp(Clamp(x, min, max), min, max) == Clamp(x, min, max)
  {
  }

  /** `map`: the linear map of `[inMin, inMax]` onto `[outMin, outMax]`,
      clamped to the output interval. */
  function Map(current: real, inMin: real, inMax: real, outMin: real, outMax: real): (r: real)
    requires inMin != inMax
    ensures outMin <= outMax ==> outMin <= r <= outMax
    ensures var mapped := (current - inMin) * (outMax - outMin) / (inMax - inMin) + outMin;
      && (outMin <= mapped <= outMax ==> r == mapped)
      && r == Clamp(mapped, outMin, outMax)
  {
    var mapped := (current - inMin) * (outMax - outMin) / (inMax - inMin) + outMin;
    Clamp(mapped, outMin, outMax)
  }

  /** `Number.EPSILON`, 2 to the power -52. */
  const EPSILON: real := 1.0 / 4503599627370496.0

  /** `Number.MAX_VALUE`, (2^53 - 1) * 2^971. */
  const MAX_VALUE: real := 179769313486231570814527423731704356798070567525844996598917476803157260780028538760589558632766878171540458953514382464234321326889464182768467546703537516986049910576551282076245490090389328944075868508455133942304583236903222948165808559332123348274797826204144723168738177180919299881250404026184124858368.0

  /** `isSimilarFloat`: the two numbers differ by at most `EPSILON`. */
  predicate IsSimilarFloat(a: real, b: real): (r: bool)
    ensures r <==> (if a >= b then a - b else b - a) <= EPSILON
    ensures r <==> -EPSILON <= b - a <= EPSILON
  {
    -EPSILON <= a - b <= EPSILON
  }

  /** `forceSmallToZero`: a number within `EPSILON` of 0 becomes 0; any other
      number is kept. */
  function ForceSmallToZero(n: real): (r: real)
    ensures r == 0.0 <==> IsSimilarFloat(n, 0.0)
    ensures r != 0.0 ==> r == n
  {
    if IsSimilarFloat(n, 0.0) then 0.0 else n
  }

  function Min(a: real, b: real): real { if a <= b then a else b }
  function Max(a: real, b: real): real { if a >= b then a else b }

  /** `clampNumber`: the number (small ones forced to 0) kept between the two
      bounds, whichever order they come in; a missing bound is the largest
      finite double on its side. */
  function ClampNumber(num: real, a: Option<real>, b: Option<real>): (r: real)
    ensures var lo, hi := a.GetOr(-MAX_VALUE), b.GetOr(MAX_VALUE);
      && Min(lo, hi) <= r <= Max(lo, hi)
      && (Min(lo, hi) <= ForceSmallToZero(num) <= Max(lo, hi) ==> r == ForceSmallToZero(num))
      && (ForceSmallToZero(num) < Min(lo, hi) ==> r == Min(lo, hi))
      && (ForceSmallToZero(num) > Max(lo, hi) ==> r == Max(lo, hi))
  {
    var lo, hi := a.GetOr(-MAX_VALUE), b.GetOr(MAX_VALUE);
    Max(Min(ForceSmallToZero(num), Max(lo, hi)), Min(lo, hi))
  }

  /** The order of the two bounds does not matter. */
  lemma ClampNumberSymmetric(num: real, a: real, b: real)
    ensures ClampNumber(num, Some(a), Some(b)) == ClampNumber(num, Some(b), Some(a))
  {
  }

  // ---- decimal numerals (`Number.prototype.toString` on integers) ----

  predicate IsDigit(c: char) { '0' <= c <= '9' }

  predicate AllDigits(s: string) { forall i :: 0 <= i < |s| ==> IsDigit(s[i]) }

  function DigitChar(d: int): (c: char)
    requires 0 <= d < 10
    ensures IsDigit(c) && c as int - '0' as int == d
  {
    ('0' as int + d) as char
  }

  /** The decimal numeral of a natural number, without leading zeros. */
  function NatToString(n: nat): (s: string)
    ensures |s| > 0 && AllDigits(s)
    decreases n
  {
    if n < 10 then [DigitChar(n)] else NatToString(n / 10) + [DigitChar(n % 10)]
  }

  function IntToString(n: int): (s: string)
    ensures |s| > 0 && (n >= 0 ==> AllDigits(s)) && (n < 0 ==> s[0] == '-' && AllDigits(s[1..]) && |s| > 1)
  {
    if n < 0 then "-" + NatToString(-n) else NatToString(n)
  }

  function ParseNat(s: string): nat
    requires AllDigits(s)
    decreases |s|
  {
    if s == [] then 0 else ParseNat(s[..|s| - 1]) * 10 + (s[|s| - 1] as int - '0' as int)
  }

  /** Reads back a numeral in the form `IntToString` writes. */
  function ParseInt(s: string): Option<int> {
    if |s| > 1 && s[0] == '-' && AllDigits(s[1..]) then Some(0 - ParseNat(s[1..]))
    else if |s| > 0 && AllDigits(s) then Some(ParseNat(s))
    else None
  }

  lemma {:induction false} ParseNatToString(n: nat)
    ensures ParseNat(NatToString(n)) == n
    decreases n
  {
    if n >= 10 {
      ParseNatToString(n / 10);
      var s := NatToString(n);
      assert s[..|s| - 1] == NatToString(n / 10);
    }
  }

  lemma {:induction false} ParseIntToString(n: int)
    ensures ParseInt(IntToString(n)) == Some(n)
  {
    if n < 0 {
      ParseNatToString(-n);
      assert IntToString(n)[1..] == NatToString(-n);
    } else {
      ParseNatToString(n);
    }
  }

  // ---- the time-range label ----

  const MINUTES: string := " Minutes"
  const SECONDS: string := " Seconds"

  /** `formatLatestTime`: whole minutes when the seconds divide by 60, else
      seconds. (The remainder test agrees with JavaScript's `%` for negative
      inputs too: both are zero exactly on multiples of 60.) */
  function FormatLatestTime(seconds: int): (s: string)
    ensures |s| >= 14 && s[..5] == "Last "
    ensures seconds % 60 == 0 ==> s[|s| - 8..] == MINUTES && s[5..|s| - 8] == IntToString(seconds / 60)
    ensures seconds % 60 != 0 ==> s[|s| - 8..] == SECONDS && s[5..|s| - 8] == IntToString(seconds)
  {
    var n := if seconds % 60 == 0 then seconds / 60 else seconds;
    var u := if seconds % 60 == 0 then MINUTES else SECONDS;
    var s := "Last " + IntToString(n) + u;
    assert s[..5] == "Last " && s[5..|s| - 8] == IntToString(n) && s[|s| - 8..] == u;
    s
  }

  /** Reads a label back to the number of seconds it names. */
  function ParseLatestTime(s: string): Option<int> {
    if |s| < 14 || s[..5] != "Last " then None
    else
      var body := s[5..];
      var numeral := body[..|body| - 8];
      var unit := body[|body| - 8..];
      match ParseInt(numeral)
      case None => None
      case Some(n) =>
        if unit == MINUTES then Some(n * 60) else if unit == SECONDS then Some(n) else None
  }

  /** Slicing a slice is slicing the original. */
  lemma SliceOfSlice<T>(s: seq<T>, i: nat, j: nat)
    requires i + j <= |s|
    ensures s[i..][..j] == s[i..i + j] && s[i..][j..] == s[i + j..]
  {
  }

  /** The label names exactly the time range it was made from, so no two
      ranges share a label; a multiple of 60 is shown in minutes. */
  lemma {:induction false} LatestTimeRoundTrip(seconds: int)
    ensures ParseLatestTime(FormatLatestTime(seconds)) == Some(seconds)
    ensures seconds % 60 == 0 <==> FormatLatestTime(seconds)[|FormatLatestTime(seconds)| - 8..] == MINUTES
  {
    var s := FormatLatestTime(seconds);
    var n := if seconds % 60 == 0 then seconds / 60 else seconds;
    ParseIntToString(n);
    SliceOfSlice(s, 5, |s| - 13);
    assert MINUTES != SECONDS by {
      assert MINUTES[1] != SECONDS[1];
    }
    if seconds % 60 == 0 {
      assert n * 60 == seconds;
    }
  }

  lemma NumeralExamples()
    ensures IntToString(2) == "2" && IntToString(90) == "90"
  {
    assert DigitChar(9) == '9' && DigitChar(0) == '0';
    assert NatToString(90) == NatToString(9) + [DigitChar(0)];
  }

  /** For instance, 120 seconds reads "Last 2 Minutes" and 90 "Last 90 Seconds". */
  lemma LatestTimeExamples()
    ensures FormatLatestTime(120) == "Last 2 Minutes"
    ensures FormatLatestTime(90) == "Last 90 Seconds"
  {
    NumeralExamples();
    assert FormatLatestTime(120) == "Last " + IntToString(2) + MINUTES;
    assert FormatLatestTime(90) == "Last " + IntToString(90) + SECONDS;
  }

  // ---- forcePrecision ----

  function Repeat(c: char, n: nat): (s: string)
    ensures |s| == n && forall i :: 0 <= i < n ==> s[i] == c
  {
    seq(n, _ => c)
  }

  /** `lastIndexOf`: the position of the last `c`, or -1. */
  function LastIndexOf(s: string, c: char): (r: int)
    ensures -1 <= r < |s|
    ensures r >= 0 ==> s[r] == c
    ensures forall k :: r < k < |s| ==> s[k] != c
    decreases |s|
  {
    if |s| == 0 then -1
    else if s[|s| - 1] == c then |s| - 1
    else LastIndexOf(s[..|s| - 1], c)
  }

  /** The properties of `LastIndexOf` determine it. */
  lemma LastIndexOfIs(s: string, c: char, p: int)
    requires -1 <= p < |s| && (p >= 0 ==> s[p] == c)
    requires forall k :: p < k < |s| ==> s[k] != c
    ensures LastIndexOf(s, c) == p
  {
  }

  /** The text with a decimal point appended when it has none. */
  function WithPoint(s: string): (t: string)
    ensures LastIndexOf(t, '.') >= 0
    ensures LastIndexOf(s, '.') >= 0 ==> t == s
    ensures LastIndexOf(s, '.') < 0 ==> t == s + "."
  {
    if LastIndexOf(s, '.') == -1 then
      var t := s + ".";
      assert t[|t| - 1] == '.';
      t
    else s
  }

  /** The string logic of `forcePrecision` on the decimal text of a non-zero
      number: a point is appended when none is present, then the digits after
      the last point are cut (without rounding) or padded with '0' until
      exactly `precision` of them remain. */
  function ForcePrecisionText(nAsString: string, precision: nat): (r: string)
    ensures LastIndexOf(r, '.') == |r| - 1 - precision
    ensures var t := WithPoint(nAsString);
      (|r| <= |t| && r == t[..|r|]) || (|r| > |t| && r == t + Repeat('0', |r| - |t|))
    ensures var t := WithPoint(nAsString); var p := LastIndexOf(t, '.');
      |r| > p && r[..p + 1] == t[..p + 1]
  {
    var t := WithPoint(nAsString);
    var decimal := LastIndexOf(t, '.') + 1;
    var digitsAfterDecimal := |t| - decimal;
    if digitsAfterDecimal > precision then
      var r := t[..|t| - (digitsAfterDecimal - precision)];
      LastIndexOfIs(r, '.', decimal - 1);
      r
    else if digitsAfterDecimal < precision then
      var r := t + Repeat('0', precision - digitsAfterDecimal);
      assert forall k :: |t| <= k < |r| ==> r[k] == '0';
      LastIndexOfIs(r, '.', decimal - 1);
      r
    else t
  }

  /** Forcing the precision of an already forced text changes nothing. */
  lemma {:induction false} ForcePrecisionTextIdempotent(s: string, precision: nat)
    ensures ForcePrecisionText(ForcePrecisionText(s, precision), precision) == ForcePrecisionText(s, precision)
  {
    var r := ForcePrecisionText(s, precision);
    assert WithPoint(r) == r;
  }

  /** `forcePrecision(n, precision)`, where `nAsString` is the decimal text of
      `n`: zero (to within `Number.EPSILON`) is written as "0" followed by a
      point and `precision` zeros when `precision` is positive. */
  function ForcePrecision(n: real, nAsString: string, precision: nat): (r: string)
    ensures precision > 0 ==> LastIndexOf(r, '.') == |r| - 1 - precision
    ensures IsSimilarFloat(n, 0.0) ==>
      && |r| == (if precision > 0 then precision + 2 else 1)
      && r[0] == '0' && (forall k :: 0 < k < |r| ==> r[k] == (if k == 1 then '.' else '0'))
    ensures !IsSimilarFloat(n, 0.0) ==> r == ForcePrecisionText(nAsString, precision)
  {
    if IsSimilarFloat(n, 0.0) then
      var r := "0" + (if precision > 0 then "." else "") + Repeat('0', precision);
      assert precision > 0 ==> r[1] == '.' && forall k :: 1 < k < |r| ==> r[k] == '0';
      if precision > 0 then LastIndexOfIs(r, '.', 1); r else r
    else ForcePrecisionText(nAsString, precision)
  }

  /** With precision 0 a zero is written "0", but any other number keeps the
      point it was given: 5 is written "5." and 2.75 is cut to "2.". */
  lemma PrecisionZeroKeepsPoint()
    ensures ForcePrecision(0.0, "0", 0) == "0"
    ensures ForcePrecision(5.0, "5", 0) == "5."
    ensures ForcePrecision(2.75, "2.75", 0) == "2."
    ensures ForcePrecision(2.75, "2.75", 1) == "2.7"
    ensures ForcePrecision(2.5, "2.5", 3) == "2.500"
  {
    assert LastIndexOf("5", '.') == -1;
    assert LastIndexOf("2.75", '.') == 1;
    assert LastIndexOf("2.5", '.') == 1;
  }

  // ---- units and the formatter ----

  datatype UnitPrefix = Milli | NoPrefix | Kilo | Mega

  /** The enum's numeric values. */
  function Factor(p: UnitPrefix): (f: real)
    ensures f > 0.0
  {
    match p
    case Milli => 1000.0
    case NoPrefix => 1.0
    case Kilo => 0.001
    case Mega => 0.000001
  }

  datatype FormatOptions = FormatOptions(
    currentPrefix: Option<UnitPrefix>,
    desiredPrefix: Option<UnitPrefix>,
    units: Option<string>,
    spaceBeforeUnit: Option<bool>,
    precision: Option<nat>,
    max: Option<real>,
    min: Option<real>)

  function CurrentFactor(options: Option<FormatOptions>): real {
    if options.Some? && options.value.currentPrefix.Some? then Factor(options.value.currentPrefix.value) else 1.0
  }

  function DesiredFactor(options: Option<FormatOptions>): real {
    if options.Some? && options.value.desiredPrefix.Some? then Factor(options.value.desiredPrefix.value) else 1.0
  }

  /** `convert`: rescales a value from its current prefix to the desired one
      (a missing prefix counts as 1). */
  function Convert(value: real, options: Option<FormatOptions>): (r: real)
    ensures r * CurrentFactor(options) == value * DesiredFactor(options)
  {
    value / CurrentFactor(options) * DesiredFactor(options)
  }

  /** `getSIDisplayUnits`: the SI symbol of a prefix, empty for none. */
  function GetSIDisplayUnits(transformUnit: UnitPrefix): (r: string)
    ensures |r| <= 1
    ensures r == "" <==> transformUnit == NoPrefix
  {
    match transformUnit
    case Milli => "m"
    case Kilo => "k"
    case Mega => "M"
    case NoPrefix => ""
  }

  predicate HasUnits(options: Option<FormatOptions>) {
    options.Some? && options.value.units.Some? && options.value.units.value != ""
  }

  /** `getUnits`: empty without units; otherwise an optional space (on unless
      turned off), the SI symbol of the desired prefix, then the units. */
  function GetUnits(options: Option<FormatOptions>): (r: string)
    ensures r == "" <==> !HasUnits(options)
    ensures HasUnits(options) ==> var u := options.value.units.value;
      && |u| <= |r| <= |u| + 2 && r[|r| - |u|..] == u
      && (options.value.spaceBeforeUnit != Some(false) ==> r[0] == ' ')
      && (options.value.spaceBeforeUnit == Some(false) && options.value.desiredPrefix.GetOr(NoPrefix) == NoPrefix ==> r == u)
    ensures HasUnits(options) ==>
      r[..|r| - |options.value.units.value|]
        == (if options.value.spaceBeforeUnit == Some(false) then "" else " ")
           + GetSIDisplayUnits(options.value.desiredPrefix.GetOr(NoPrefix))
  {
    if HasUnits(options) then
      var o := options.value;
      var space := if o.spaceBeforeUnit.None? || o.spaceBeforeUnit == Some(true) then " " else "";
      var r := space + GetSIDisplayUnits(o.desiredPrefix.GetOr(NoPrefix)) + o.units.value;
      assert o.spaceBeforeUnit != Some(false) ==> space == " " by {
        if o.spaceBeforeUnit.Some? && o.spaceBeforeUnit != Some(false) {
          assert o.spaceBeforeUnit.value != false;
        }
      }
      assert space != "" ==> r[0] == space[0];
      r
    else ""
  }

  const DEFAULT_PRECISION: nat := 2

  /** `options?.precision || DEFAULT_PRECISION`: 0 is falsy, so it too gives
      the default. */
  function PrecisionOf(options: Option<FormatOptions>): (p: nat)
    ensures p > 0
    ensures options.Some? && options.value.precision.Some? && options.value.precision.value != 0 ==>
      p == options.value.precision.value
    ensures (options.None? || options.value.precision.GetOr(0) == 0) ==> p == DEFAULT_PRECISION
  {
    if options.Some? && options.value.precision.Some? && options.value.precision.value != 0
    then options.value.precision.value else DEFAULT_PRECISION
  }

  /** The number `format` writes: the value, small ones forced to 0,
      converted to the desired prefix and clamped to the options' bounds. */
  function FormattedNumber(value: real, options: Option<FormatOptions>): real {
    ClampNumber(Convert(ForceSmallToZero(value), options),
      if options.Some? then options.value.min else None,
      if options.Some? then options.value.max else None)
  }

  /** `format`: "-" for an undefined value; otherwise the converted, clamped
      value written with the forced precision, then the units. `toText` is
      the decimal text of a number, which this model takes as given. */
  function Format(value: Option<real>, options: Option<FormatOptions>, toText: real -> string): (r: string)
    ensures value.None? ==> r == "-"
    ensures value.Some? ==> var u := GetUnits(options); |r| > |u| && r[|r| - |u|..] == u
    ensures value.Some? ==> var x := FormattedNumber(value.value, options);
      r[..|r| - |GetUnits(options)|] == ForcePrecision(x, toText(x), PrecisionOf(options))
  {
    if value.None? then "-"
    else
      var clamped := FormattedNumber(value.value, options);
      var text := ForcePrecision(clamped, toText(clamped), PrecisionOf(options));
      var u := GetUnits(options);
      assert (text + u)[|text + u| - |u|..] == u;
      assert (text + u)[..|text + u| - |u|] == text;
      text + u
  }

  /** The options `formatWattsToKilo` passes. */
  const WattsToKilo: FormatOptions := FormatOptions(None, Some(Kilo), Some("W"), None, Some(2), None, None)

  /** Asking for precision 0 gets the default precision instead. */
  lemma {:induction false} ZeroPrecisionIsDefault(v: real, o: FormatOptions, toText: real -> string)
    ensures Format(Some(v), Some(o.(precision := Some(0))), toText)
         == Format(Some(v), Some(o.(precision := None)), toText)
  {
    var o0, o1 := Some(o.(precision := Some(0))), Some(o.(precision := None));
    assert PrecisionOf(o0) == PrecisionOf(o1) == DEFAULT_PRECISION;
    assert GetUnits(o0) == GetUnits(o1);
    assert CurrentFactor(o0) == CurrentFactor(o1) && DesiredFactor(o0) == DesiredFactor(o1);
    assert Convert(ForceSmallToZero(v), o0) == Convert(ForceSmallToZero(v), o1);
  }

  /** `formatWattsToKilo` ends in " kW" and an undefined value reads "-". */
  lemma {:induction false} WattsToKiloUnits(v: real, toText: real -> string)
    ensures GetUnits(Some(WattsToKilo)) == " kW"
    ensures var r := Format(Some(v), Some(WattsToKilo), toText); r[|r| - 3..] == " kW"
    ensures Format(None, Some(WattsToKilo), toText) == "-"
  {
  }
}
