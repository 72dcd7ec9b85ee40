/**
 * The body-transformation forecast of the calculator: the straight-line
 * arithmetic that turns validated biometrics into a current and a projected
 * body composition. Numbers are exact reals; `Math.round` is modelled as
 * rounding half up, `Math.min`/`Math.max` as Min/Max.
 */
module Forecast {

  datatype Goal = WeightLoss | MuscleGain | Complex
  datatype Gender = Male | Female
  datatype Activity = Beginner | Moderate | Advanced

  /** The parsed calculator inputs; duration is in months (the form offers 1, 3 and 6). */
  datatype Profile = Profile(
    goal: Goal,
    gender: Gender,
    age: int,
    height: int,
    weight: real,
    activity: Activity,
    duration: nat)

  /** The inclusive ranges the validator enforces before anything is computed. */
  predicate InRange(p: Profile) {
    && 16 <= p.age <= 70
    && 140 <= p.height <= 220
    && 40.0 <= p.weight <= 200.0
  }

  function Min(x: real, y: real): (r: real)
    ensures r <= x && r <= y && (r == x || r == y)
  {
    if x <= y then x else y
  }

  function Max(x: real, y: real): (r: real)
    ensures r >= x && r >= y && (r == x || r == y)
  {
    if x >= y then x else y
  }

  /** `Math.round`: the nearest integer, halves rounded towards +infinity. */
  function Round(x: real): (n: int)
    ensures x - 0.5 < n as real <= x + 0.5
  {
    (x + 0.5).Floor
  }

  /** A number with at most one decimal place. */
  predicate WholeTenths(x: real) {
    (x * 10.0).Floor as real == x * 10.0
  }

  /** `Math.round(x * 10) / 10`: rounding to one decimal place. */
  function Round1(x: real): (r: real)
    ensures x - 0.05 < r <= x + 0.05
    ensures r * 10.0 == Round(x * 10.0) as real
    ensures WholeTenths(r)
  {
    Round(x * 10.0) as real / 10.0
  }

  /** Rounding to tenths never goes below a value that is itself a whole number of tenths. */
  lemma Round1AtLeast(x: real, k: int)
    requires k as real / 10.0 <= x
    ensures k as real / 10.0 <= Round1(x)
  {
    assert k as real <= x * 10.0;
    assert k as real <= x * 10.0 + 0.5;
    assert k <= (x * 10.0 + 0.5).Floor;
  }

  /** Rounding to tenths never goes above a value that is itself a whole number of tenths. */
  lemma Round1AtMost(x: real, k: int)
    requires x <= k as real / 10.0
    ensures Round1(x) <= k as real / 10.0
  {
    assert x * 10.0 <= k as real;
    assert (x * 10.0 + 0.5).Floor <= k;
  }

  /** Mifflin–St Jeor basal metabolic rate. */
  function Bmr(gender: Gender, weight: real, height: int, age: int): real
  {
    var base := 10.0 * weight + 6.25 * height as real - 5.0 * age as real;
    if gender == Male then base + 5.0 else base - 161.0
  }

  /** The female formula is the male one less 166 kcal (the constant -161 instead of +5). */
  lemma FemaleBmrOffset(weight: real, height: int, age: int)
    ensures Bmr(Female, weight, height, age) == Bmr(Male, weight, height, age) - 166.0
  {
  }

  function ActivityMultiplier(a: Activity): (m: real)
    ensures 1.2 <= m <= 1.55
  {
    match a
    case Beginner => 1.2
    case Moderate => 1.375
    case Advanced => 1.55
  }

  /** Total daily energy expenditure: BMR scaled by the activity multiplier, to the nearest integer. */
  function Tdee(p: Profile): (kcal: int)
    ensures var e := Bmr(p.gender, p.weight, p.height, p.age) * ActivityMultiplier(p.activity);
            e - 0.5 < kcal as real <= e + 0.5
  {
    Round(Bmr(p.gender, p.weight, p.height, p.age) * ActivityMultiplier(p.activity))
  }

  /** Body-mass index: weight over the square of the height in metres. */
  function Bmi(weight: real, height: int): (b: real)
    requires height > 0
    ensures var m := height as real / 100.0; b * (m * m) == weight
  {
    var m := height as real / 100.0;
    weight / (m * m)
  }

  /** The lowest and highest current fat percentage the estimate may report. */
  function FatRange(gender: Gender): (bounds: (real, real))
  {
    if gender == Male then (8.0, 35.0) else (15.0, 42.0)
  }

  /**
   * Current body-fat estimate: a gender baseline (20% male, 28% female) moved
   * by 0.1 per year of age above or below 25 and by 0.8 per BMI point above
   * or below 22, then clamped to the gender's range.
   */
  function FatPercentEstimate(gender: Gender, age: int, bmi: real): (f: real)
    ensures FatRange(gender).0 <= f <= FatRange(gender).1
    ensures var raw := (if gender == Male then 20.0 else 28.0) + (age - 25) as real * 0.1 + (bmi - 22.0) * 0.8;
            FatRange(gender).0 <= raw <= FatRange(gender).1 ==> f == raw
  {
    var (lo, hi) := FatRange(gender);
    var base := if gender == Male then 20.0 else 28.0;
    Max(lo, Min(hi, base + (age - 25) as real * 0.1 + (bmi - 22.0) * 0.8))
  }

  /** Muscle mass taken as 45% of lean mass (weight minus fat mass). */
  function MuscleMass(weight: real, fatPercent: real): (m: real)
    ensures 0.0 <= weight && 0.0 <= fatPercent <= 100.0 ==> 0.0 <= m <= 0.45 * weight
  {
    (weight - weight * (fatPercent / 100.0)) * 0.45
  }

  function CurrentFatPercent(p: Profile): (f: real)
    requires InRange(p)
    ensures FatRange(p.gender).0 <= f <= FatRange(p.gender).1
  {
    FatPercentEstimate(p.gender, p.age, Bmi(p.weight, p.height))
  }

  function CurrentMuscleMass(p: Profile): real
    requires InRange(p)
  {
    MuscleMass(p.weight, CurrentFatPercent(p))
  }

  /** For every validated profile the current muscle estimate is positive. */
  lemma CurrentMusclePositive(p: Profile)
    requires InRange(p)
    ensures CurrentMuscleMass(p) >= 10.44
  {
    var f, w := CurrentFatPercent(p), p.weight;
    var share := f / 100.0;
    assert share <= 0.42;
    assert w * share <= w * 0.42 by {
      assert w * (0.42 - share) >= 0.0;
    }
    assert CurrentMuscleMass(p) == (w - w * share) * 0.45;
    assert w - w * share >= 0.58 * w;
  }

  function Weeks(duration: nat): nat {
    duration * 4
  }

  /** Weight loss for the weightLoss goal: 0.5 kg a week, at most 15% of body weight. */
  function WeightLossAmount(duration: nat, weight: real): (loss: real)
    ensures loss <= 0.5 * Weeks(duration) as real && loss <= weight * 0.15
    ensures loss == 0.5 * Weeks(duration) as real || loss == weight * 0.15
  {
    Min(0.5 * Weeks(duration) as real, weight * 0.15)
  }

  /** Muscle gain for the muscleGain goal: 0.25 kg a week, at most 6 kg. */
  function MuscleGainAmount(duration: nat): (gain: real)
    ensures 0.0 <= gain <= 6.0 && gain <= 0.25 * Weeks(duration) as real
    ensures gain == 0.25 * Weeks(duration) as real || gain == 6.0
  {
    Min(0.25 * Weeks(duration) as real, 6.0)
  }

  /** Weight loss for the complex goal: 0.35 kg a week, at most 10% of body weight. */
  function RecompositionLoss(duration: nat, weight: real): (loss: real)
    ensures loss <= 0.35 * Weeks(duration) as real && loss <= weight * 0.1
    ensures loss == 0.35 * Weeks(duration) as real || loss == weight * 0.1
  {
    Min(0.35 * Weeks(duration) as real, weight * 0.1)
  }

  /** Muscle gain for the complex goal: 0.1 kg a week, at most 2 kg. */
  function RecompositionGain(duration: nat): (gain: real)
    ensures 0.0 <= gain <= 2.0 && gain <= 0.1 * Weeks(duration) as real
    ensures gain == 0.1 * Weeks(duration) as real || gain == 2.0
  {
    Min(0.1 * Weeks(duration) as real, 2.0)
  }

  /** The computed deltas the localized summary sentence is rendered from. */
  datatype Summary =
    | LossSummary(months: nat, loss: real)
    | GainSummary(months: nat, gain: real)
    | RecompositionSummary(months: nat, loss: real, gain: real)

  /** The unrounded projection of one goal. */
  datatype Target = Target(weight: real, fatPercent: real, muscleMass: real, summary: Summary)

  function Project(goal: Goal, duration: nat, weight: real, fat: real, muscle: real): Target
  {
    match goal
    case WeightLoss =>
      var loss := WeightLossAmount(duration, weight);
      Target(weight - loss, fat - loss * 0.8, muscle - loss * 0.1, LossSummary(duration, loss))
    case MuscleGain =>
      var gain := MuscleGainAmount(duration);
      Target(weight + gain * 1.3, fat - 0.5, muscle + gain, GainSummary(duration, gain))
    case Complex =>
      var loss := RecompositionLoss(duration, weight);
      var gain := RecompositionGain(duration);
      Target(weight - loss + gain * 0.5, fat - loss * 0.7, muscle + gain, RecompositionSummary(duration, loss, gain))
  }

  /**
   * weightLoss: the loss is 0.5 kg a week capped at 15% of body weight; the
   * target weight stays in [0.85 w, w), fat drops by 0.8 and muscle by 0.1
   * per kilogram lost.
   */
  lemma WeightLossProjection(duration: nat, weight: real, fat: real, muscle: real)
    requires weight > 0.0 && duration >= 1
    ensures var loss := WeightLossAmount(duration, weight);
            var t := Project(WeightLoss, duration, weight, fat, muscle);
            && loss == (if 2.0 * duration as real <= 0.15 * weight then 2.0 * duration as real else 0.15 * weight)
            && 0.85 * weight <= t.weight < weight
            && t.weight == weight - loss
            && t.fatPercent == fat - 0.8 * loss
            && t.muscleMass == muscle - 0.1 * loss
  {
  }

  /** The weight-loss amount never decreases as the duration grows. */
  lemma WeightLossMonotone(d1: nat, d2: nat, weight: real, fat: real, muscle: real)
    requires d1 <= d2
    ensures WeightLossAmount(d1, weight) <= WeightLossAmount(d2, weight)
    ensures Project(WeightLoss, d2, weight, fat, muscle).weight <= Project(WeightLoss, d1, weight, fat, muscle).weight
  {
    assert 0.5 * Weeks(d1) as real <= 0.5 * Weeks(d2) as real;
  }

  /**
   * muscleGain: 0.25 kg of muscle a week up to 6 kg; weight rises by 1.3
   * times the muscle gained, muscle by exactly the gain, fat% falls by 0.5.
   */
  lemma MuscleGainProjection(duration: nat, weight: real, fat: real, muscle: real)
    ensures var gain := MuscleGainAmount(duration);
            var t := Project(MuscleGain, duration, weight, fat, muscle);
            && 0.0 <= gain <= 6.0
            && (duration <= 6 ==> gain == duration as real)
            && weight <= t.weight <= weight + 7.8
            && t.weight == weight + 1.3 * gain
            && t.muscleMass == muscle + gain
            && t.fatPercent == fat - 0.5
  {
  }

  /** Muscle gain, and with it the projected weight, never decreases with the duration. */
  lemma MuscleGainMonotone(d1: nat, d2: nat, weight: real, fat: real, muscle: real)
    requires d1 <= d2
    ensures MuscleGainAmount(d1) <= MuscleGainAmount(d2)
    ensures Project(MuscleGain, d1, weight, fat, muscle).weight <= Project(MuscleGain, d2, weight, fat, muscle).weight
  {
    assert 0.25 * Weeks(d1) as real <= 0.25 * Weeks(d2) as real;
  }

  /**
   * complex: loss 0.35 kg a week capped at 10% of body weight, gain 0.1 kg a
   * week capped at 2 kg; target weight is w - loss + gain/2, fat% drops by
   * 0.7 per kilogram lost, muscle rises by the gain.
   */
  lemma RecompositionProjection(duration: nat, weight: real, fat: real, muscle: real)
    requires weight > 0.0
    ensures var loss := RecompositionLoss(duration, weight);
            var gain := RecompositionGain(duration);
            var t := Project(Complex, duration, weight, fat, muscle);
            && 0.0 <= loss <= 0.1 * weight
            && 0.0 <= gain <= 2.0
            && 0.9 * weight <= t.weight <= weight + 1.0
            && t.weight == weight - loss + 0.5 * gain
            && t.fatPercent == fat - 0.7 * loss
            && t.muscleMass == muscle + gain
  {
  }

  /** Both recomposition amounts never decrease with the duration. */
  lemma RecompositionMonotone(d1: nat, d2: nat, weight: real)
    requires d1 <= d2
    ensures RecompositionLoss(d1, weight) <= RecompositionLoss(d2, weight)
    ensures RecompositionGain(d1) <= RecompositionGain(d2)
  {
    assert 0.35 * Weeks(d1) as real <= 0.35 * Weeks(d2) as real;
    assert 0.1 * Weeks(d1) as real <= 0.1 * Weeks(d2) as real;
  }

  /** One set of displayed body-composition figures. */
  datatype Composition = Composition(weight: real, fatPercent: real, muscleMass: real)

  /** What one calculation stores: current and forecast figures, the summary deltas, the TDEE. */
  datatype Results = Results(current: Composition, forecast: Composition, summary: Summary, tdee: int)

  /** The display floor for the forecast fat percentage. */
  function FatFloor(gender: Gender): (floor: real)
    ensures floor < FatRange(gender).0
  {
    if gender == Male then 6.0 else 14.0
  }

  /** The current figures: weight as entered, fat% and muscle mass rounded to tenths. */
  function CurrentComposition(p: Profile): (c: Composition)
    requires InRange(p)
    ensures c.weight == p.weight
    ensures FatRange(p.gender).0 <= c.fatPercent <= FatRange(p.gender).1
    ensures c.muscleMass > 0.0
    ensures CurrentFatPercent(p) - 0.05 < c.fatPercent <= CurrentFatPercent(p) + 0.05
    ensures CurrentMuscleMass(p) - 0.05 < c.muscleMass <= CurrentMuscleMass(p) + 0.05
  {
    var fat := CurrentFatPercent(p);
    CurrentMusclePositive(p);
    Round1AtLeast(fat, if p.gender == Male then 80 else 150);
    Round1AtMost(fat, if p.gender == Male then 350 else 420);
    Round1AtLeast(CurrentMuscleMass(p), 104);
    Composition(p.weight, Round1(fat), Round1(CurrentMuscleMass(p)))
  }

  /** The forecast figures: each rounded to tenths, fat% floored at the display floor first. */
  function ForecastComposition(gender: Gender, t: Target): (c: Composition)
    ensures c.fatPercent >= FatFloor(gender)
    ensures WholeTenths(c.weight) && WholeTenths(c.fatPercent) && WholeTenths(c.muscleMass)
    ensures t.weight - 0.05 < c.weight <= t.weight + 0.05
    ensures t.muscleMass - 0.05 < c.muscleMass <= t.muscleMass + 0.05
    ensures var f := Max(FatFloor(gender), t.fatPercent); f - 0.05 < c.fatPercent <= f + 0.05
  {
    var f := Max(FatFloor(gender), t.fatPercent);
    Round1AtLeast(f, if gender == Male then 60 else 140);
    Composition(Round1(t.weight), Round1(f), Round1(t.muscleMass))
  }

  /** The projection of a validated profile from its current estimates. */
  function ProfileTarget(p: Profile): Target
    requires InRange(p)
  {
    Project(p.goal, p.duration, p.weight, CurrentFatPercent(p), CurrentMuscleMass(p))
  }

  /**
   * The whole calculation for a validated profile. The current weight is
   * shown as entered; every other figure is rounded to one decimal place and
   * lies within 0.05 of its unrounded value; the forecast fat percentage is
   * floored at 6 (male) or 14 (female) before rounding.
   */
  function CalculateResults(p: Profile): (r: Results)
    requires InRange(p)
    ensures r.current.weight == p.weight
    ensures FatRange(p.gender).0 <= r.current.fatPercent <= FatRange(p.gender).1
    ensures r.current.muscleMass > 0.0
    ensures r.forecast.fatPercent >= FatFloor(p.gender)
    ensures var t := ProfileTarget(p);
            && t.weight - 0.05 < r.forecast.weight <= t.weight + 0.05
            && t.muscleMass - 0.05 < r.forecast.muscleMass <= t.muscleMass + 0.05
            && r.summary == t.summary
    ensures r.tdee == Tdee(p)
    ensures r.current == CurrentComposition(p) && r.forecast == ForecastComposition(p.gender, ProfileTarget(p))
  {
    var t := ProfileTarget(p);
    Results(CurrentComposition(p), ForecastComposition(p.gender, t), t.summary, Tdee(p))
  }

  /**
   * Worked example: a 30-year-old man, 180 cm, 90 kg, moderate activity,
   * losing weight for 3 months has BMR 1880, TDEE 2585 and a forecast weight
   * of 84 kg (0.5 kg a week for 12 weeks, under the 13.5 kg cap).
   */
  lemma WorkedExample()
    ensures var p := Profile(WeightLoss, Male, 30, 180, 90.0, Moderate, 3);
            && Bmr(Male, 90.0, 180, 30) == 1880.0
            && Tdee(p) == 2585
            && CalculateResults(p).forecast.weight == 84.0
  {
    var p := Profile(WeightLoss, Male, 30, 180, 90.0, Moderate, 3);
    assert Bmr(Male, 90.0, 180, 30) * ActivityMultiplier(Moderate) == 2585.0;
    assert WeightLossAmount(3, 90.0) == 6.0;
    assert Round(84.0 * 10.0) == 840;
  }
}
