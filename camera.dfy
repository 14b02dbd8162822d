/** The camera parameters of static/app.js: the three fixed value lists, the
    session's current settings, the shutter-text parser, the exposure factor
    relative to f/5.6, 1/125 s, ISO 400, and the depth-of-field blur radius.
    Apertures are exact rationals (`real`), so 1.8 is 9/5. */
module Camera {
  import opened Text

  const ApertureValues: seq<real> := [1.8, 2.0, 2.8, 4.0, 5.6, 8.0, 11.0, 14.0, 16.0, 18.0, 22.0]
  const ShutterValues: seq<string> :=
    ["1/4", "1/8", "1/15", "1/30", "1/60", "1/125", "1/250", "1/500", "1/1000", "1/2000", "1/3000", "1/4000", "1/8000"]
  const IsoValues: seq<nat> := [200, 400, 800, 1600, 3200, 6400]

  /** The denominators the shutter texts stand for, in the same order. */
  const ShutterDenominators: seq<nat> := [4, 8, 15, 30, 60, 125, 250, 500, 1000, 2000, 3000, 4000, 8000]

  /** The baseline the exposure factor is relative to. */
  const BaseAperture: real := 5.6
  const BaseShutterValue: real := 125.0
  const BaseIso: real := 400.0

  /** Limits of the depth-of-field interpolation. */
  const MaxBlur: real := 3.0
  const MinAperture: real := 1.8
  const MaxAperture: real := 22.0

  datatype Params = Params(aperture: real, shutter: string, iso: nat)

  /** The settings a session starts with. */
  const InitialParams := Params(5.6, "1/125", 400)

  /** Every field holds a value of its list. */
  predicate ValidParams(p: Params)
  {
    p.aperture in ApertureValues && p.shutter in ShutterValues && p.iso in IsoValues
  }

  /** `parseShutterFraction`: the number after the slash of a text with exactly
      one slash, and 1 (a whole-second exposure) for any other text. */
  function ParseShutterFraction(shutter: string): (n: Number)
    ensures Count(shutter, '/') != 1 ==> n == Num(1)
  {
    var parts := Split(shutter, '/');
    if |parts| == 2 then ParseFloat(parts[1]) else Num(1)
  }

  /** A fraction `num/digits` yields the value of its digits. */
  lemma {:induction false} ShutterFractionOf(num: string, digits: string)
    requires '/' !in num
    requires digits != [] && AllDigits(digits)
    ensures ParseShutterFraction(num + "/" + digits) == Num(DigitsValue(digits))
  {
    SplitAfterPart(num, digits, '/');
    SplitWithoutSeparator(digits, '/');
    ParseFloatOfDigits(digits);
  }

  /** The text `1/n` the shutter list writes for the denominator `n`. */
  function ShutterText(n: nat): string
  {
    "1/" + DecimalText(n)
  }

  /** Parsing a shutter text gives back its denominator. */
  lemma ShutterTextParses(n: nat)
    ensures ParseShutterFraction(ShutterText(n)) == Num(n)
  {
    assert ShutterText(n) == "1" + "/" + DecimalText(n);
    ShutterFractionOf("1", DecimalText(n));
    DecimalTextValue(n);
  }

  /** The shutter list is the list of texts of the denominators. */
  lemma ShutterValuesAreTexts()
    ensures forall i :: 0 <= i < |ShutterValues| ==> ShutterValues[i] == ShutterText(ShutterDenominators[i])
  {
    forall i | 0 <= i < |ShutterValues|
      ensures ShutterValues[i] == ShutterText(ShutterDenominators[i])
    {
      if i == 0 {
        ShutterText4();
      } else if i == 1 {
        ShutterText8();
      } else if i == 2 {
        ShutterText15();
      } else if i == 3 {
        ShutterText30();
      } else if i == 4 {
        ShutterText60();
      } else if i == 5 {
        ShutterText125();
      } else if i == 6 {
        ShutterText250();
      } else if i == 7 {
        ShutterText500();
      } else if i == 8 {
        ShutterText1000();
      } else if i == 9 {
        ShutterText2000();
      } else if i == 10 {
        ShutterText3000();
      } else if i == 11 {
        ShutterText4000();
      } else if i == 12 {
        ShutterText8000();
      }
    }
  }

  // The text of each listed denominator, one at a time (each is a separate
  // proof so that the solver compares one pair of strings at once).

  lemma ShutterText4()
    ensures ShutterText(4) == "1/4"
  {
  }

  lemma ShutterText8()
    ensures ShutterText(8) == "1/8"
  {
  }

  lemma ShutterText15()
    ensures ShutterText(15) == "1/15"
  {
    DecimalTextAppend(1, 5);
  }

  lemma ShutterText30()
    ensures ShutterText(30) == "1/30"
  {
    DecimalTextAppend(3, 0);
  }

  lemma ShutterText60()
    ensures ShutterText(60) == "1/60"
  {
    DecimalTextAppend(6, 0);
  }

  lemma ShutterText125()
    ensures ShutterText(125) == "1/125"
  {
    DecimalTextAppend(1, 2);
    DecimalTextAppend(12, 5);
  }

  lemma ShutterText250()
    ensures ShutterText(250) == "1/250"
  {
    DecimalTextAppend(2, 5);
    DecimalTextAppend(25, 0);
  }

  lemma ShutterText500()
    ensures ShutterText(500) == "1/500"
  {
    DecimalTextAppend(5, 0);
    DecimalTextAppend(50, 0);
  }

  lemma ShutterText1000()
    ensures ShutterText(1000) == "1/1000"
  {
    DecimalTextAppend(1, 0);
    DecimalTextAppend(10, 0);
    DecimalTextAppend(100, 0);
  }

  lemma ShutterText2000()
    ensures ShutterText(2000) == "1/2000"
  {
    DecimalTextAppend(2, 0);
    DecimalTextAppend(20, 0);
    DecimalTextAppend(200, 0);
  }

  lemma ShutterText3000()
    ensures ShutterText(3000) == "1/3000"
  {
    DecimalTextAppend(3, 0);
    DecimalTextAppend(30, 0);
    DecimalTextAppend(300, 0);
  }

  lemma ShutterText4000()
    ensures ShutterText(4000) == "1/4000"
  {
    DecimalTextAppend(4, 0);
    DecimalTextAppend(40, 0);
    DecimalTextAppend(400, 0);
  }

  lemma ShutterText8000()
    ensures ShutterText(8000) == "1/8000"
  {
    DecimalTextAppend(8, 0);
    DecimalTextAppend(80, 0);
    DecimalTextAppend(800, 0);
  }
  /** Writing one more digit after a number appends it to its decimal text. */
  lemma DecimalTextAppend(n: nat, d: nat)
    requires n >= 1 && d < 10
    ensures DecimalText(10 * n + d) == DecimalText(n) + [DigitChar(d)]
  {
  }

  /** Every listed shutter text yields its listed denominator. */
  lemma ShutterValuesParse()
    ensures forall i :: 0 <= i < |ShutterValues| ==>
      ParseShutterFraction(ShutterValues[i]) == Num(ShutterDenominators[i])
  {
    ShutterValuesAreTexts();
    forall i | 0 <= i < |ShutterValues|
      ensures ParseShutterFraction(ShutterValues[i]) == Num(ShutterDenominators[i])
    {
      ShutterTextParses(ShutterDenominators[i]);
    }
  }

  /** The shutter text of `p` yields a positive denominator and the aperture
      is positive, so every division of the exposure factor is by a non-zero
      number (otherwise the factor is `Infinity` or `NaN`). */
  predicate FactorDefined(p: Params)
  {
    p.aperture > 0.0 && ParseShutterFraction(p.shutter).Num? && ParseShutterFraction(p.shutter).value > 0
  }

  /** The denominator the shutter text of `p` yields: for a listed shutter
      text, the listed denominator. */
  function Denominator(p: Params): (d: real)
    requires FactorDefined(p)
    ensures d > 0.0
    ensures forall i :: 0 <= i < |ShutterValues| && p.shutter == ShutterValues[i] ==> d == ShutterDenominators[i] as real
  {
    ShutterValuesParse();
    ParseShutterFraction(p.shutter).value as real
  }

  /** The exposure formula on numbers: the aperture term (5.6 / f)^2, the
      shutter term 125 / denominator and the ISO term iso / 400, multiplied. */
  function FactorOf(aperture: real, denominator: real, iso: real): (f: real)
    requires aperture > 0.0 && denominator > 0.0
    ensures iso >= 0.0 ==> (f > 0.0 <==> iso > 0.0)
  {
    var apertureTerm := BaseAperture / aperture;
    var shutterTerm := BaseShutterValue / denominator;
    var isoTerm := iso / BaseIso;
    PositiveQuotient(BaseAperture, aperture);
    PositiveQuotient(BaseShutterValue, denominator);
    if iso >= 0.0 then ProductSign(apertureTerm, shutterTerm, isoTerm); apertureTerm * apertureTerm * shutterTerm * isoTerm
    else apertureTerm * apertureTerm * shutterTerm * isoTerm
  }

  /** `calculateExposureFactor` for the settings `p`; positive exactly when the ISO is. */
  function ExposureFactor(p: Params): (f: real)
    requires FactorDefined(p)
    ensures f > 0.0 <==> p.iso > 0
  {
    FactorOf(p.aperture, Denominator(p), p.iso as real)
  }

  lemma ProductSign(a: real, s: real, i: real)
    requires a > 0.0 && s > 0.0 && i >= 0.0
    ensures a * a * s * i > 0.0 <==> i > 0.0
  {
    assert a * a > 0.0;
    assert a * a * s > 0.0;
  }

  /** Every combination of listed values has a finite, positive factor. */
  lemma ValidParamsFactor(p: Params)
    requires ValidParams(p)
    ensures FactorDefined(p) && ExposureFactor(p) > 0.0
  {
    assert p.aperture > 0.0 by {
      assert forall a :: a in ApertureValues ==> a >= MinAperture;
    }
    assert p.iso > 0 by {
      assert forall v :: v in IsoValues ==> v >= 200;
    }
    var i :| 0 <= i < |ShutterValues| && ShutterValues[i] == p.shutter;
    assert ShutterDenominators[i] > 0 by {
      assert forall j :: 0 <= j < |ShutterDenominators| ==> ShutterDenominators[j] > 0;
    }
    assert ParseShutterFraction(p.shutter) == Num(ShutterDenominators[i]) by {
      ShutterValuesAreTexts();
      ShutterTextParses(ShutterDenominators[i]);
    }
  }

  /** The baseline f/5.6, 1/125 s, ISO 400 has factor exactly 1. */
  lemma BaselineFactor()
    ensures FactorDefined(InitialParams) && ExposureFactor(InitialParams) == 1.0
  {
    assert InitialParams.shutter == ShutterText(125);
    ShutterTextParses(125);
    assert Denominator(InitialParams) == 125.0;
  }

  /** Halving the f-number, the rest fixed, quadruples the factor. */
  lemma HalvedApertureQuadruples(p: Params)
    requires FactorDefined(p)
    ensures FactorDefined(p.(aperture := p.aperture / 2.0))
    ensures ExposureFactor(p.(aperture := p.aperture / 2.0)) == 4.0 * ExposureFactor(p)
  {
    FactorOfHalved(p.aperture, Denominator(p), p.iso as real);
  }

  lemma FactorOfHalved(aperture: real, d: real, iso: real)
    requires aperture > 0.0 && d > 0.0
    ensures FactorOf(aperture / 2.0, d, iso) == 4.0 * FactorOf(aperture, d, iso)
  {
    var a, s, i := BaseAperture / aperture, BaseShutterValue / d, iso / BaseIso;
    assert FactorOf(aperture, d, iso) == a * a * s * i;
    HalvedDivisor(BaseAperture, aperture);
    assert FactorOf(aperture / 2.0, d, iso) == (2.0 * a) * (2.0 * a) * s * i;
    DoubledSquare(a, s, i);
  }

  /** A smaller f-number, the rest fixed, raises the factor (for a positive ISO). */
  lemma WiderApertureBrightens(p: Params, wider: real)
    requires FactorDefined(p) && p.iso > 0
    requires 0.0 < wider < p.aperture
    ensures FactorDefined(p.(aperture := wider))
    ensures ExposureFactor(p.(aperture := wider)) > ExposureFactor(p)
  {
    FactorApertureAntitone(wider, p.aperture, Denominator(p), p.iso as real);
  }

  /** A larger shutter denominator (a faster shutter), the rest fixed, lowers the factor. */
  lemma FasterShutterDarkens(p: Params, faster: string)
    requires FactorDefined(p) && p.iso > 0
    requires FactorDefined(p.(shutter := faster))
    requires ParseShutterFraction(faster).value > ParseShutterFraction(p.shutter).value
    ensures ExposureFactor(p.(shutter := faster)) < ExposureFactor(p)
  {
    FactorShutterAntitone(p.aperture, Denominator(p), Denominator(p.(shutter := faster)), p.iso as real);
  }

  /** A higher ISO, the rest fixed, raises the factor. */
  lemma HigherIsoBrightens(p: Params, higher: nat)
    requires FactorDefined(p) && higher > p.iso
    ensures ExposureFactor(p.(iso := higher)) > ExposureFactor(p)
  {
    FactorIsoMonotone(p.aperture, Denominator(p), p.iso as real, higher as real);
  }

  lemma FactorApertureAntitone(wide: real, narrow: real, d: real, iso: real)
    requires 0.0 < wide < narrow && d > 0.0 && iso > 0.0
    ensures FactorOf(wide, d, iso) > FactorOf(narrow, d, iso)
  {
    var a, b := BaseAperture / narrow, BaseAperture / wide;
    var s, i := BaseShutterValue / d, iso / BaseIso;
    QuotientAntitone(BaseAperture, wide, narrow);
    PositiveQuotient(BaseAperture, narrow);
    PositiveQuotient(BaseShutterValue, d);
    SquareMonotone(a, b);
    ScaleMonotone(a * a, b * b, s * i);
  }

  lemma FactorShutterAntitone(aperture: real, d1: real, d2: real, iso: real)
    requires aperture > 0.0 && 0.0 < d1 < d2 && iso > 0.0
    ensures FactorOf(aperture, d2, iso) < FactorOf(aperture, d1, iso)
  {
    var a, i := BaseAperture / aperture, iso / BaseIso;
    var s1, s2 := BaseShutterValue / d1, BaseShutterValue / d2;
    QuotientAntitone(BaseShutterValue, d1, d2);
    PositiveQuotient(BaseAperture, aperture);
    assert a * a > 0.0;
    ScaleMonotone(s2, s1, a * a * i);
    assert a * a * s1 * i == s1 * (a * a * i);
    assert a * a * s2 * i == s2 * (a * a * i);
  }

  lemma FactorIsoMonotone(aperture: real, d: real, low: real, high: real)
    requires aperture > 0.0 && d > 0.0 && low < high
    ensures FactorOf(aperture, d, low) < FactorOf(aperture, d, high)
  {
    var a, s := BaseAperture / aperture, BaseShutterValue / d;
    PositiveQuotient(BaseAperture, aperture);
    PositiveQuotient(BaseShutterValue, d);
    assert a * a * s > 0.0;
    ScaleMonotone(low / BaseIso, high / BaseIso, a * a * s);
    assert a * a * s * (low / BaseIso) == (low / BaseIso) * (a * a * s);
    assert a * a * s * (high / BaseIso) == (high / BaseIso) * (a * a * s);
  }

  lemma PositiveQuotient(x: real, y: real)
    requires x > 0.0 && y > 0.0
    ensures x / y > 0.0
  {
  }

  lemma QuotientAntitone(x: real, y: real, z: real)
    requires x > 0.0 && 0.0 < y < z
    ensures x / z < x / y
  {
    assert x / z * z == x == x / y * y;
  }

  lemma HalvedDivisor(x: real, y: real)
    requires y > 0.0
    ensures x / (y / 2.0) == 2.0 * (x / y)
  {
  }

  lemma DoubledSquare(a: real, s: real, i: real)
    ensures (2.0 * a) * (2.0 * a) * s * i == 4.0 * (a * a * s * i)
  {
  }

  lemma SquareMonotone(a: real, b: real)
    requires 0.0 < a < b
    ensures a * a < b * b
  {
    assert a * a < a * b;
  }

  lemma ScaleMonotone(x: real, y: real, k: real)
    requires x < y && k > 0.0
    ensures x * k < y * k
  {
  }

  /** `calculateBlurAmount`: the aperture's place between f/22 and f/1.8,
      scaled to three pixels and rounded down; within that range it is 0..3. */
  function BlurRadius(aperture: real): (r: int)
    ensures MinAperture <= aperture <= MaxAperture ==> 0 <= r <= 3
  {
    var normalized := (MaxAperture - aperture) / (MaxAperture - MinAperture);
    (normalized * MaxBlur).Floor
  }

  /** The widest aperture blurs by 3 pixels, the narrowest not at all. */
  lemma BlurAtLimits()
    ensures BlurRadius(MinAperture) == 3 && BlurRadius(MaxAperture) == 0
  {
  }

  /** Stopping down never increases the blur. */
  lemma BlurNonIncreasing(a: real, b: real)
    requires a <= b
    ensures BlurRadius(b) <= BlurRadius(a)
  {
    var x, y := (MaxAperture - a) / (MaxAperture - MinAperture) * MaxBlur, (MaxAperture - b) / (MaxAperture - MinAperture) * MaxBlur;
    assert y <= x;
  }

  /** The session's `currentParams`, updated in place by the pickers. */
  class Session {
    var aperture: real
    var shutter: string
    var iso: nat

    function Current(): Params
      reads this
    {
      Params(aperture, shutter, iso)
    }

    ghost predicate Valid()
      reads this
    {
      ValidParams(Current())
    }

    constructor ()
      ensures Current() == InitialParams && Valid()
    {
      aperture, shutter, iso := 5.6, "1/125", 400;
      new;
      assert shutter == ShutterValues[5];
    }

    /** `selectApertureByIndex`: the aperture becomes the picked list entry. */
    method SelectApertureByIndex(index: nat)
      requires index < |ApertureValues|
      modifies this
      ensures Current() == old(Current()).(aperture := ApertureValues[index])
      ensures old(Valid()) ==> Valid()
    {
      aperture := ApertureValues[index];
    }

    /** `selectShutterByIndex`: the shutter becomes the picked list entry. */
    method SelectShutterByIndex(index: nat)
      requires index < |ShutterValues|
      modifies this
      ensures Current() == old(Current()).(shutter := ShutterValues[index])
      ensures old(Valid()) ==> Valid()
    {
      shutter := ShutterValues[index];
    }

    /** `selectISOByIndex`: the ISO becomes the picked list entry. */
    method SelectIsoByIndex(index: nat)
      requires index < |IsoValues|
      modifies this
      ensures Current() == old(Current()).(iso := IsoValues[index])
      ensures old(Valid()) ==> Valid()
    {
      iso := IsoValues[index];
    }

    /** `updateParameter` as the scroll pickers call it: `paramType` names the
        field and the value is entry `index` of that field's list; any other
        name changes nothing. */
    method UpdateParameter(paramType: string, index: nat)
      requires paramType == "aperture" ==> index < |ApertureValues|
      requires paramType == "shutter" ==> index < |ShutterValues|
      requires paramType == "iso" ==> index < |IsoValues|
      modifies this
      ensures paramType == "aperture" ==> Current() == old(Current()).(aperture := ApertureValues[index])
      ensures paramType == "shutter" ==> Current() == old(Current()).(shutter := ShutterValues[index])
      ensures paramType == "iso" ==> Current() == old(Current()).(iso := IsoValues[index])
      ensures paramType !in {"aperture", "shutter", "iso"} ==> Current() == old(Current())
      ensures old(Valid()) ==> Valid()
    {
      if paramType == "aperture" {
        aperture := ApertureValues[index];
      } else if paramType == "shutter" {
        shutter := ShutterValues[index];
      } else if paramType == "iso" {
        iso := IsoValues[index];
      }
    }
  }
}
