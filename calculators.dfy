/**
 * The health trackers: BMI, BMR (Harris-Benedict, as revised by Roza and
 * Shizgal in 1984) and waist-to-hip ratio, over reals. An input is the result
 * of `parseFloat` on the text field: `None` stands for NaN.
 */
module Calculators {
  import opened Wrappers

  /** JavaScript truthiness of a parsed number: NaN and zero are falsy. */
  predicate Truthy(x: Option<real>) {
    x.Some? && x.value != 0.0
  }

  /** Body mass index from kilograms and centimetres. */
  function Bmi(weightKg: real, heightCm: real): (r: real)
    requires heightCm != 0.0
    ensures r * (heightCm / 100.0) * (heightCm / 100.0) == weightKg
    ensures weightKg > 0.0 ==> r > 0.0
  {
    var m := heightCm / 100.0;
    assert m != 0.0 && m * m > 0.0;
    weightKg / (m * m)
  }

  datatype Sex = M | F

  /** Basal metabolic rate in kcal/day from kilograms, centimetres and years. */
  function Bmr(sex: Sex, weightKg: real, heightCm: real, ageYears: real): real {
    if sex == M then 88.362 + 13.397 * weightKg + 4.799 * heightCm - 5.677 * ageYears
    else 447.593 + 9.247 * weightKg + 3.098 * heightCm - 4.330 * ageYears
  }

  /** Waist-to-hip ratio. */
  function Whr(waist: real, hip: real): (r: real)
    requires hip != 0.0
    ensures r * hip == waist
  {
    waist / hip
  }

  /** More weight or height, or fewer years, never lowers the BMR. */
  lemma BmrMonotone(sex: Sex, w1: real, w2: real, h1: real, h2: real, a1: real, a2: real)
    requires w1 <= w2 && h1 <= h2 && a2 <= a1
    ensures Bmr(sex, w1, h1, a1) <= Bmr(sex, w2, h2, a2)
  {
  }

  datatype BmiBand = Underweight | HealthyZone | Overweight | Obese

  function BmiBandOf(bmi: real): BmiBand {
    if bmi < 18.5 then Underweight
    else if bmi < 25.0 then HealthyZone
    else if bmi < 30.0 then Overweight
    else Obese
  }

  function BmiRank(b: BmiBand): nat {
    match b
    case Underweight => 0
    case HealthyZone => 1
    case Overweight => 2
    case Obese => 3
  }

  /** Each BMI band is the half-open interval the labels promise; together they cover every value once. */
  lemma BmiBandIntervals(bmi: real)
    ensures BmiBandOf(bmi) == Underweight <==> bmi < 18.5
    ensures BmiBandOf(bmi) == HealthyZone <==> 18.5 <= bmi < 25.0
    ensures BmiBandOf(bmi) == Overweight <==> 25.0 <= bmi < 30.0
    ensures BmiBandOf(bmi) == Obese <==> 30.0 <= bmi
  {
  }

  /** A larger BMI never falls in an earlier band. */
  lemma BmiBandMonotone(x: real, y: real)
    requires x <= y
    ensures BmiRank(BmiBandOf(x)) <= BmiRank(BmiBandOf(y))
  {
  }

  datatype WhrBand = HealthyBalance | ModerateRisk | HighAlert

  function WhrBandOf(whr: real): WhrBand {
    if whr < 0.85 then HealthyBalance
    else if whr < 0.95 then ModerateRisk
    else HighAlert
  }

  function WhrRank(b: WhrBand): nat {
    match b
    case HealthyBalance => 0
    case ModerateRisk => 1
    case HighAlert => 2
  }

  lemma WhrBandIntervals(whr: real)
    ensures WhrBandOf(whr) == HealthyBalance <==> whr < 0.85
    ensures WhrBandOf(whr) == ModerateRisk <==> 0.85 <= whr < 0.95
    ensures WhrBandOf(whr) == HighAlert <==> 0.95 <= whr
  {
  }

  lemma WhrBandMonotone(x: real, y: real)
    requires x <= y
    ensures WhrRank(WhrBandOf(x)) <= WhrRank(WhrBandOf(y))
  {
  }

  /** A result panel is rendered when its result is truthy. */
  predicate ResultShown(result: Option<real>) {
    Truthy(result)
  }

  /** No result, no panel; a BMI or ratio computed from non-zero inputs is non-zero, so its panel shows. */
  lemma CalculatedResultsShown(w: real, h: real)
    requires w != 0.0 && h != 0.0
    ensures !ResultShown(None)
    ensures ResultShown(Some(Bmi(w, h)))
    ensures ResultShown(Some(Whr(w, h)))
  {
  }

  /** The page's state: the parsed inputs and the three results. */
  class Trackers {
    var bmiWeight: Option<real>
    var bmiHeight: Option<real>
    var bmiResult: Option<real>
    var bmrWeight: Option<real>
    var bmrHeight: Option<real>
    var bmrAge: Option<real>
    var bmrGender: Sex
    var bmrResult: Option<real>
    var waist: Option<real>
    var hip: Option<real>
    var whrResult: Option<real>

    /** Empty fields parse to NaN; no result yet; gender 'm'. */
    constructor ()
      ensures bmiWeight == bmiHeight == bmrWeight == bmrHeight == bmrAge == waist == hip == None
      ensures bmiResult == bmrResult == whrResult == None && bmrGender == M
    {
      bmiWeight, bmiHeight, bmiResult := None, None, None;
      bmrWeight, bmrHeight, bmrAge, bmrGender, bmrResult := None, None, None, M, None;
      waist, hip, whrResult := None, None, None;
    }

    /** `calculateBMI`: the height is converted to metres and both must be truthy. */
    method CalculateBMI()
      modifies this`bmiResult
      ensures Truthy(bmiWeight) && Truthy(bmiHeight) ==> bmiResult == Some(Bmi(bmiWeight.value, bmiHeight.value))
      ensures !(Truthy(bmiWeight) && Truthy(bmiHeight)) ==> bmiResult == old(bmiResult)
    {
      var w := bmiWeight;
      var h := if bmiHeight.Some? then Some(bmiHeight.value / 100.0) else None;
      assert Truthy(h) <==> Truthy(bmiHeight);
      if Truthy(w) && Truthy(h) {
        bmiResult := Some(w.value / (h.value * h.value));
        assert bmiResult.value == Bmi(bmiWeight.value, bmiHeight.value);
      }
    }

    /** `calculateBMR`: every input must be truthy; the gender picks the coefficients. */
    method CalculateBMR()
      modifies this`bmrResult
      ensures Truthy(bmrWeight) && Truthy(bmrHeight) && Truthy(bmrAge) ==>
        bmrResult == Some(Bmr(bmrGender, bmrWeight.value, bmrHeight.value, bmrAge.value))
      ensures !(Truthy(bmrWeight) && Truthy(bmrHeight) && Truthy(bmrAge)) ==> bmrResult == old(bmrResult)
    {
      if Truthy(bmrWeight) && Truthy(bmrHeight) && Truthy(bmrAge) {
        var w, h, a := bmrWeight.value, bmrHeight.value, bmrAge.value;
        if bmrGender == M {
          bmrResult := Some(88.362 + (13.397 * w) + (4.799 * h) - (5.677 * a));
        } else {
          bmrResult := Some(447.593 + (9.247 * w) + (3.098 * h) - (4.330 * a));
        }
      }
    }

    /** `calculateWHR`: both measurements must be truthy. */
    method CalculateWHR()
      modifies this`whrResult
      ensures Truthy(waist) && Truthy(hip) ==> whrResult == Some(Whr(waist.value, hip.value))
      ensures !(Truthy(waist) && Truthy(hip)) ==> whrResult == old(whrResult)
    {
      if Truthy(waist) && Truthy(hip) {
        whrResult := Some(waist.value / hip.value);
      }
    }

    /** The Male and Female buttons. */
    method SetGender(sex: Sex)
      modifies this`bmrGender
      ensures bmrGender == sex
    {
      bmrGender := sex;
    }
  }
}
