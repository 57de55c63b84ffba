/** The calorie calculator: range checks on the entered body metrics, then
    the Mifflin-St Jeor estimate of basal metabolic rate (BMR), its scaling
    by an activity multiplier to total daily energy expenditure (TDEE), a
    goal- and pace-dependent calorie target, and the split of that target
    into grams of protein, fat and carbohydrate. All arithmetic is over
    `real`; the class `CalculatorForm` at the end holds the form's state
    slots and runs `validateForm` and `calculate` over them. */
module CalorieCalculator {
  import opened Wrappers

  datatype Sex = Male | Female

  datatype UnitSystem = Metric | Imperial

  /** The five activity levels of the selector, from "1.2" to "1.9". */
  datatype ActivityLevel = Sedentary | Light | Moderate | High | Extreme

  datatype Goal = Lose | Maintain | Gain

  datatype Pace = ModeratePace | AggressivePace

  /** A `type="number"` input: either empty or holding the text of a
      number. `value` is what `parseFloat` reads from that text; `intPart` is
      what `parseInt` reads, `None` standing for `NaN`. The two disagree on
      texts without a digit before the point (".5" and "-.5" give `NaN`) and
      on exponent notation ("2e1" gives 2). */
  datatype Entry = Blank | Number(value: real, intPart: Option<int>)

  /** The fields that can carry a validation error. */
  datatype Field = AgeField | HeightField | WeightField | ActivityField | GoalField

  /** What the form holds when the user presses "calculate". */
  datatype Form = Form(
    sex: Sex, age: Entry, height: Entry, weight: Entry,
    activity: Option<ActivityLevel>, goal: Option<Goal>, pace: Pace, unit: UnitSystem)

  /** The numbers the estimate is computed from, once the form is valid:
      `age` is already `parseInt`-ed, height and weight are as entered (in
      the selected unit system). */
  datatype Inputs = Inputs(
    sex: Sex, age: int, height: real, weight: real,
    unit: UnitSystem, activity: ActivityLevel, goal: Goal, pace: Pace)

  /** The displayed result; every figure is rounded to a whole number. */
  datatype CalcResult = CalcResult(bmr: int, tdee: int, targetCalories: int, protein: int, fat: int, carbs: int)

  /** What the result card shows after a successful validation: the figures,
      or `NaN` in every one of them when the age parsed to `NaN`. */
  datatype Shown = Figures(figures: CalcResult) | AllNaN

  datatype Ratios = Ratios(protein: real, fat: real, carbs: real)

  // ---------------------------------------------------------------------
  // Tables
  // ---------------------------------------------------------------------

  /** `activityLevels[].value`, read with `parseFloat`. */
  function Multiplier(a: ActivityLevel): (m: real)
    ensures 1.2 <= m <= 1.9
  {
    match a
    case Sedentary => 1.2
    case Light => 1.375
    case Moderate => 1.55
    case High => 1.725
    case Extreme => 1.9
  }

  /** `goals[].modifier`. */
  function GoalModifier(g: Goal): real
  {
    match g
    case Lose => -0.2
    case Maintain => 0.0
    case Gain => 0.15
  }

  /** `paces[].modifier`. */
  function PaceModifier(p: Pace): real
  {
    match p
    case ModeratePace => 1.0
    case AggressivePace => 1.5
  }

  /** `goalObj.modifier * paceObj.modifier`: a deficit for losing, a surplus
      for gaining, none for maintaining whatever the pace. */
  function CalorieModifier(g: Goal, p: Pace): (m: real)
    ensures g == Lose ==> -0.3 <= m <= -0.2
    ensures g == Maintain ==> m == 0.0
    ensures g == Gain ==> 0.15 <= m <= 0.225
    ensures p == AggressivePace ==> m == 1.5 * GoalModifier(g)
  {
    GoalModifier(g) * PaceModifier(p)
  }

  /** The share of the calorie target given to each macronutrient. */
  function MacroRatios(g: Goal): (r: Ratios)
    ensures r.protein + r.fat + r.carbs == 1.0
    ensures 0.0 < r.protein && 0.0 < r.fat && 0.0 < r.carbs
    ensures g == Lose ==> r.protein > r.fat && r.protein > r.carbs
  {
    match g
    case Lose => Ratios(0.40, 0.30, 0.30)
    case Gain => Ratios(0.30, 0.25, 0.45)
    case Maintain => Ratios(0.30, 0.30, 0.40)
  }

  // ---------------------------------------------------------------------
  // Number handling
  // ---------------------------------------------------------------------

  /** `Math.round`: the nearest integer, halves rounded up. */
  function Round(x: real): (r: int)
    ensures x - 0.5 < r as real <= x + 0.5
  {
    (x + 0.5).Floor
  }

  /** Rounding never reverses an order. */
  lemma RoundMonotone(x: real, y: real)
    requires x <= y
    ensures Round(x) <= Round(y)
  {
  }

  /** `parseInt` of a number written in plain decimal digits with a digit
      before the point: the integer part, truncated toward zero. */
  function Truncate(v: real): (n: int)
    ensures 0.0 <= v ==> n as real <= v < n as real + 1.0
    ensures v < 0.0 ==> n as real - 1.0 < v <= n as real
  {
    if 0.0 <= v then v.Floor else -((-v).Floor)
  }

  /** The entry of a number typed in plain decimal digits with a digit
      before the point. */
  function Plain(v: real): Entry
  {
    Number(v, Some(Truncate(v)))
  }

  /** JavaScript's `n < bound` on a parsed integer: false for `NaN`. */
  predicate Below(n: Option<int>, bound: int)
  {
    n.Some? && n.value < bound
  }

  /** JavaScript's `n > bound` on a parsed integer: false for `NaN`. */
  predicate Above(n: Option<int>, bound: int)
  {
    n.Some? && n.value > bound
  }

  /** Height in centimetres: inches times 2.54 in imperial mode. */
  function Centimetres(unit: UnitSystem, h: real): real
  {
    if unit == Imperial then h * 2.54 else h
  }

  /** Weight in kilograms: pounds times 0.453592 in imperial mode. */
  function Kilograms(unit: UnitSystem, w: real): real
  {
    if unit == Imperial then w * 0.453592 else w
  }

  /** Imperial figures are converted with the fixed factors; metric ones
      pass through, and so does nothing else. */
  lemma UnitConversion(h: real, w: real)
    ensures Centimetres(Metric, h) == h && Kilograms(Metric, w) == w
    ensures Centimetres(Imperial, h) == 2.54 * h && Kilograms(Imperial, w) == 0.453592 * w
  {
  }

  // ---------------------------------------------------------------------
  // The estimate
  // ---------------------------------------------------------------------

  /** The Mifflin-St Jeor equation. */
  function Bmr(sex: Sex, kg: real, cm: real, age: int): real
  {
    if sex == Male then 10.0 * kg + 6.25 * cm - 5.0 * age as real + 5.0
    else 10.0 * kg + 6.25 * cm - 5.0 * age as real - 161.0
  }

  /** For the same body, the female equation is exactly 166 kcal below the
      male one. */
  lemma BmrSexOffset(kg: real, cm: real, age: int)
    ensures Bmr(Male, kg, cm, age) - Bmr(Female, kg, cm, age) == 166.0
  {
  }

  /** The estimate grows with weight and height and falls with age. */
  lemma BmrMonotone(sex: Sex, kg: real, cm: real, age: int, kg': real, cm': real, age': int)
    requires kg <= kg' && cm <= cm' && age' <= age
    ensures Bmr(sex, kg, cm, age) <= Bmr(sex, kg', cm', age')
  {
  }

  /** The BMR of the inputs, converted to metric first. */
  function BmrOf(i: Inputs): real
  {
    Bmr(i.sex, Kilograms(i.unit, i.weight), Centimetres(i.unit, i.height), i.age)
  }

  /** `bmr * activityMultiplier`. */
  function Tdee(bmr: real, a: ActivityLevel): real
  {
    bmr * Multiplier(a)
  }

  /** The TDEE of the inputs. */
  function TdeeOf(i: Inputs): real
  {
    Tdee(BmrOf(i), i.activity)
  }

  /** `Math.round(tdee * (1 + calorieModifier))`. */
  function Target(tdee: real, g: Goal, p: Pace): int
  {
    Round(tdee * (1.0 + CalorieModifier(g, p)))
  }

  /** The displayed figures from a BMR, its TDEE, the calorie target and
      the macro split. */
  function Assemble(bmr: real, tdee: real, target: int, ratios: Ratios): CalcResult
  {
    CalcResult(
      Round(bmr), Round(tdee), target,
      Grams(target, ratios.protein, 4.0),
      Grams(target, ratios.fat, 9.0),
      Grams(target, ratios.carbs, 4.0))
  }

  /** Whole grams of a macronutrient that supplies `share` of the target at
      `kcalPerGram`. */
  function Grams(target: int, share: real, kcalPerGram: real): int
    requires 0.0 < kcalPerGram
  {
    Round(target as real * share / kcalPerGram)
  }

  /** What `calculate` displays for valid inputs. */
  function Estimate(i: Inputs): CalcResult
  {
    Assemble(BmrOf(i), TdeeOf(i), Target(TdeeOf(i), i.goal, i.pace), MacroRatios(i.goal))
  }

  /** For a non-negative TDEE the target is non-negative; maintaining
      targets the rounded TDEE whatever the pace; losing never targets more
      and gaining never less; and an aggressive pace moves the target at
      least as far as a moderate one. */
  lemma TargetOrdering(tdee: real, g: Goal, p: Pace)
    requires 0.0 <= tdee
    ensures 0 <= Target(tdee, g, p)
    ensures g == Maintain ==> Target(tdee, g, p) == Round(tdee)
    ensures g == Lose ==> Target(tdee, g, p) <= Round(tdee)
    ensures g == Gain ==> Target(tdee, g, p) >= Round(tdee)
    ensures g == Lose ==> Target(tdee, g, AggressivePace) <= Target(tdee, g, ModeratePace)
    ensures g == Gain ==> Target(tdee, g, AggressivePace) >= Target(tdee, g, ModeratePace)
  {
    match g
    case Maintain =>
      assert CalorieModifier(g, p) == 0.0;
    case Lose =>
      LoseTargets(tdee);
    case Gain =>
      GainTargets(tdee);
  }

  /** Losing scales the TDEE by 0.8 at a moderate pace and by 0.7 at an
      aggressive one. */
  lemma LoseTargets(tdee: real)
    requires 0.0 <= tdee
    ensures 0 <= Target(tdee, Lose, AggressivePace)
    ensures Target(tdee, Lose, AggressivePace) <= Target(tdee, Lose, ModeratePace) <= Round(tdee)
  {
    assert Target(tdee, Lose, ModeratePace) == Round(tdee * 0.8);
    assert Target(tdee, Lose, AggressivePace) == Round(tdee * 0.7);
    RoundMonotone(tdee * 0.7, tdee * 0.8);
    RoundMonotone(tdee * 0.8, tdee);
  }

  /** Gaining scales the TDEE by 1.15 at a moderate pace and by 1.225 at an
      aggressive one. */
  lemma GainTargets(tdee: real)
    requires 0.0 <= tdee
    ensures 0 <= Round(tdee)
    ensures Round(tdee) <= Target(tdee, Gain, ModeratePace) <= Target(tdee, Gain, AggressivePace)
  {
    assert Target(tdee, Gain, ModeratePace) == Round(tdee * 1.15);
    assert Target(tdee, Gain, AggressivePace) == Round(tdee * 1.225);
    RoundMonotone(tdee, tdee * 1.15);
    RoundMonotone(tdee * 1.15, tdee * 1.225);
  }

  /** The same ordering on the displayed figures: maintaining shows the TDEE
      as the target (and the pace changes nothing); for a non-negative TDEE
      losing shows a target no higher than the TDEE and gaining one no
      lower. */
  lemma GoalOrdering(i: Inputs)
    requires 0.0 <= TdeeOf(i)
    ensures i.goal == Maintain ==> Estimate(i).targetCalories == Estimate(i).tdee
    ensures i.goal == Maintain ==> Estimate(i.(pace := ModeratePace)) == Estimate(i.(pace := AggressivePace))
    ensures i.goal == Lose ==> Estimate(i).targetCalories <= Estimate(i).tdee
    ensures i.goal == Gain ==> Estimate(i).targetCalories >= Estimate(i).tdee
  {
    TargetOrdering(TdeeOf(i), i.goal, i.pace);
    if i.goal == Maintain {
      var steady, hard := i.(pace := ModeratePace), i.(pace := AggressivePace);
      assert TdeeOf(steady) == TdeeOf(i) && TdeeOf(hard) == TdeeOf(i);
      TargetOrdering(TdeeOf(i), i.goal, ModeratePace);
      TargetOrdering(TdeeOf(i), i.goal, AggressivePace);
    }
  }

  /** A non-negative target gives non-negative macro grams, and the grams
      account for the target to within 8.5 kcal (4 kcal per gram of protein
      and carbohydrate, 9 per gram of fat; three independent roundings). */
  lemma MacrosAccountForTarget(i: Inputs)
    ensures var r := Estimate(i);
      -8.5 < (4 * r.protein + 9 * r.fat + 4 * r.carbs - r.targetCalories) as real <= 8.5
    ensures 0 <= Estimate(i).targetCalories ==>
      0 <= Estimate(i).protein && 0 <= Estimate(i).fat && 0 <= Estimate(i).carbs
  {
    var target, q := Estimate(i).targetCalories, MacroRatios(i.goal);
    MacroSplit(target, q);
    if 0 <= target {
      GramsNonNegative(target, q.protein, 4.0);
      GramsNonNegative(target, q.fat, 9.0);
      GramsNonNegative(target, q.carbs, 4.0);
    }
  }

  /** The energy of the rounded grams is within half a gram's worth of the
      share of the target. */
  lemma GramsBound(target: int, share: real, k: real)
    requires k == 4.0 || k == 9.0
    ensures target as real * share - k / 2.0 < k * Grams(target, share, k) as real
    ensures k * Grams(target, share, k) as real <= target as real * share + k / 2.0
  {
    var y := target as real * share;
    if k == 4.0 {
      assert y / 4.0 - 0.5 < Grams(target, share, 4.0) as real <= y / 4.0 + 0.5;
    } else {
      assert y / 9.0 - 0.5 < Grams(target, share, 9.0) as real <= y / 9.0 + 0.5;
    }
  }

  /** Rounding each macro's grams moves its energy by at most half a gram's
      worth (2, 4.5 and 2 kcal), and ratios that sum to one split the whole
      target. */
  lemma MacroSplit(target: int, q: Ratios)
    requires q.protein + q.fat + q.carbs == 1.0
    ensures -8.5 < (4 * Grams(target, q.protein, 4.0) + 9 * Grams(target, q.fat, 9.0)
                    + 4 * Grams(target, q.carbs, 4.0) - target) as real <= 8.5
  {
    var t := target as real;
    GramsBound(target, q.protein, 4.0);
    GramsBound(target, q.fat, 9.0);
    GramsBound(target, q.carbs, 4.0);
    assert t * q.protein + t * q.fat + t * q.carbs == t by {
      assert t * (q.protein + q.fat + q.carbs) == t;
    }
  }

  /** A non-negative target and share never round to negative grams. */
  lemma GramsNonNegative(target: int, share: real, k: real)
    requires 0 <= target && 0.0 <= share && 0.0 < k
    ensures 0 <= Grams(target, share, k)
  {
    var x := target as real * share;
    assert 0.0 <= x;
    assert 0.0 <= x / k;
  }

  /** `heightCm`/`weightKg` as `calculate` reassigns them: the entered
      figures, converted in imperial mode. */
  method ToMetric(unit: UnitSystem, height: real, weight: real) returns (heightCm: real, weightKg: real)
    ensures heightCm == Centimetres(unit, height) && weightKg == Kilograms(unit, weight)
  {
    heightCm := height;
    weightKg := weight;
    if unit == Imperial {
      heightCm := heightCm * 2.54;
      weightKg := weightKg * 0.453592;
    }
  }

  /** `heightCm`, `weightKg` and `bmr` as `calculate` assigns them: the
      figures converted to metric, then one branch of the equation per sex. */
  method ComputeBmr(i: Inputs) returns (bmr: real)
    ensures bmr == BmrOf(i)
  {
    var heightCm, weightKg := ToMetric(i.unit, i.height, i.weight);
    if i.sex == Male {
      bmr := 10.0 * weightKg + 6.25 * heightCm - 5.0 * i.age as real + 5.0;
    } else {
      bmr := 10.0 * weightKg + 6.25 * heightCm - 5.0 * i.age as real - 161.0;
    }
  }

  /** The three ratio variables as `calculate` assigns them: losing and
      gaining have their own split, anything else gets the maintenance one. */
  method ChooseRatios(goal: Goal) returns (proteinRatio: real, fatRatio: real, carbRatio: real)
    ensures Ratios(proteinRatio, fatRatio, carbRatio) == MacroRatios(goal)
  {
    if goal == Lose {
      proteinRatio, fatRatio, carbRatio := 0.40, 0.30, 0.30;
    } else if goal == Gain {
      proteinRatio, fatRatio, carbRatio := 0.30, 0.25, 0.45;
    } else {
      proteinRatio, fatRatio, carbRatio := 0.30, 0.30, 0.40;
    }
  }

  /** The body of `calculate`'s delayed callback: the figures it stores are
      the estimate of the inputs. */
  method Compute(i: Inputs) returns (r: CalcResult)
    ensures r == Estimate(i)
  {
    var bmr := ComputeBmr(i);
    var tdee := Tdee(bmr, i.activity);
    var proteinRatio, fatRatio, carbRatio := ChooseRatios(i.goal);
    var target := Target(tdee, i.goal, i.pace);
    r := Assemble(bmr, tdee, target, Ratios(proteinRatio, fatRatio, carbRatio));
  }

  /** The two worked examples: a 25-year-old man of 180 cm and 80 kg,
      moderately active, maintaining; and a 30-year-old woman of 165 cm and
      60 kg, sedentary, losing at an aggressive pace. */
  lemma EstimateExamples()
    ensures Estimate(Inputs(Male, 25, 180.0, 80.0, Metric, Moderate, Maintain, ModeratePace))
      == CalcResult(1805, 2798, 2798, 210, 93, 280)
    ensures Estimate(Inputs(Female, 30, 165.0, 60.0, Metric, Sedentary, Lose, AggressivePace))
      == CalcResult(1320, 1584, 1109, 111, 37, 83)
  {
    var man := Inputs(Male, 25, 180.0, 80.0, Metric, Moderate, Maintain, ModeratePace);
    assert BmrOf(man) == 1805.0;
    assert TdeeOf(man) == 2797.75;
    assert Target(2797.75, Maintain, ModeratePace) == 2798;
    assert Grams(2798, 0.30, 4.0) == 210 && Grams(2798, 0.30, 9.0) == 93 && Grams(2798, 0.40, 4.0) == 280;
    var woman := Inputs(Female, 30, 165.0, 60.0, Metric, Sedentary, Lose, AggressivePace);
    assert BmrOf(woman) == 1320.25;
    assert TdeeOf(woman) == 1584.3;
    assert Target(1584.3, Lose, AggressivePace) == 1109;
    assert Grams(1109, 0.40, 4.0) == 111 && Grams(1109, 0.30, 9.0) == 37 && Grams(1109, 0.30, 4.0) == 83;
  }

  // ---------------------------------------------------------------------
  // Validation
  // ---------------------------------------------------------------------

  /** `!age || parseInt(age) < 15 || parseInt(age) > 100` is false. Both
      comparisons are false for `NaN`, so an age whose text has no integer
      part passes. */
  predicate AgeAccepted(age: Entry)
  {
    age.Number? && !Below(age.intPart, 15) && !Above(age.intPart, 100)
  }

  /** The age check the bounds are evidently meant to express: an integer
      part is required, and it must lie in 15..100. */
  predicate AgeAcceptedIntended(age: Entry)
  {
    age.Number? && age.intPart.Some? && 15 <= age.intPart.value <= 100
  }

  /** Height and weight are checked on the number as entered. */
  predicate HeightAccepted(height: Entry)
  {
    height.Number? && 100.0 <= height.value <= 250.0
  }

  predicate WeightAccepted(weight: Entry)
  {
    weight.Number? && 30.0 <= weight.value <= 300.0
  }

  predicate Accepted(form: Form, f: Field)
  {
    match f
    case AgeField => AgeAccepted(form.age)
    case HeightField => HeightAccepted(form.height)
    case WeightField => WeightAccepted(form.weight)
    case ActivityField => form.activity.Some?
    case GoalField => form.goal.Some?
  }

  /** The (untranslated) message key stored for a rejected field. */
  function ErrorKey(f: Field): string
  {
    match f
    case AgeField => "calc.error.age"
    case HeightField => "calc.error.height"
    case WeightField => "calc.error.weight"
    case ActivityField => "calc.error.activity"
    case GoalField => "calc.error.goal"
  }

  const AllFields: set<Field> := {AgeField, HeightField, WeightField, ActivityField, GoalField}

  /** The error map `validateForm` produces: one entry per rejected field. */
  function Errors(form: Form): map<Field, string>
  {
    map f | f in AllFields && !Accepted(form, f) :: ErrorKey(f)
  }

  /** Every field passes its check. */
  predicate PassesValidation(form: Form)
  {
    AgeAccepted(form.age) && HeightAccepted(form.height) && WeightAccepted(form.weight)
    && form.activity.Some? && form.goal.Some?
  }

  /** `newErrors` built field by field, as `validateForm` does. */
  method BuildErrors(form: Form) returns (newErrors: map<Field, string>)
    ensures forall f :: f in newErrors <==> !Accepted(form, f)
    ensures forall f :: f in newErrors ==> newErrors[f] == ErrorKey(f)
    ensures newErrors == map[] <==> PassesValidation(form)
  {
    newErrors := map[];
    if form.age.Blank? || Below(form.age.intPart, 15) || Above(form.age.intPart, 100) {
      newErrors := newErrors[AgeField := "calc.error.age"];
    }
    if form.height.Blank? || form.height.value < 100.0 || form.height.value > 250.0 {
      newErrors := newErrors[HeightField := "calc.error.height"];
    }
    if form.weight.Blank? || form.weight.value < 30.0 || form.weight.value > 300.0 {
      newErrors := newErrors[WeightField := "calc.error.weight"];
    }
    if form.activity.None? {
      newErrors := newErrors[ActivityField := "calc.error.activity"];
    }
    if form.goal.None? {
      newErrors := newErrors[GoalField := "calc.error.goal"];
    }
    if !AgeAccepted(form.age) {
      assert AgeField in newErrors;
    } else if !HeightAccepted(form.height) {
      assert HeightField in newErrors;
    } else if !WeightAccepted(form.weight) {
      assert WeightField in newErrors;
    } else if form.activity.None? {
      assert ActivityField in newErrors;
    } else if form.goal.None? {
      assert GoalField in newErrors;
    }
  }

  /** The error map lists exactly the rejected fields, each with its own
      message, and is empty exactly when the form is valid. */
  lemma ErrorsExactlyRejected(form: Form)
    ensures forall f :: f in Errors(form) <==> !Accepted(form, f)
    ensures forall f :: f in Errors(form) ==> Errors(form)[f] == ErrorKey(f)
    ensures Errors(form) == map[] <==> PassesValidation(form)
  {
    if !PassesValidation(form) {
      var f :| f in AllFields && !Accepted(form, f);
      assert f in Errors(form);
    }
  }

  /** The age bounds are inclusive: 15 and 100 pass, 14 and 101 do not;
      a fractional age is truncated first, so 100.5 passes and 14.9 does
      not. A blank field never passes. "2e1" (twenty) is read as 2 and
      fails, while ".5" is read as `NaN` and passes. */
  lemma AgeBoundaries()
    ensures AgeAccepted(Plain(15.0)) && AgeAccepted(Plain(100.0))
    ensures !AgeAccepted(Plain(14.0)) && !AgeAccepted(Plain(101.0))
    ensures AgeAccepted(Plain(100.5)) && !AgeAccepted(Plain(14.9))
    ensures !AgeAccepted(Blank)
    ensures !AgeAccepted(Number(20.0, Some(2))) && AgeAccepted(Number(0.5, None))
  {
  }

  /** A plainly written age is accepted exactly when its integer part lies
      in 15..100; an age that `parseInt` reads as `NaN` is always accepted. */
  lemma AgeAcceptedIff(v: real)
    ensures AgeAccepted(Plain(v)) <==> 15.0 <= v < 101.0
    ensures AgeAccepted(Number(v, None))
  {
  }

  /** The intended check is stricter than the written one exactly on the
      ages `parseInt` reads as `NaN`; on plainly written ages they agree. */
  lemma IntendedAgeCheck(age: Entry)
    ensures AgeAcceptedIntended(age) ==> AgeAccepted(age)
    ensures AgeAccepted(age) && !AgeAcceptedIntended(age) <==> age.Number? && age.intPart.None?
    ensures age.Number? && age.intPart == Some(Truncate(age.value)) ==>
      (AgeAccepted(age) <==> AgeAcceptedIntended(age))
  {
  }

  /** An age typed as ".5" passes validation as written, and `calculate`
      then shows `NaN` for every figure. */
  lemma NaNAgePassesValidation(form: Form)
    requires form.age == Number(0.5, None)
    requires HeightAccepted(form.height) && WeightAccepted(form.weight)
    requires form.activity.Some? && form.goal.Some?
    ensures PassesValidation(form) && Errors(form) == map[]
    ensures Outcome(form) == AllNaN
    ensures !AgeAcceptedIntended(form.age)
  {
    ErrorsExactlyRejected(form);
  }

  /** Height and weight bounds are checked on the raw figure whatever the
      unit system: an imperial height of 69 in (175.26 cm) is rejected,
      while an imperial weight of 30 lb (about 13.6 kg) is accepted. */
  lemma ImperialFiguresCheckedRaw(form: Form)
    requires form.unit == Imperial
    requires form.height.Number? && form.height.value == 69.0
    requires form.weight.Number? && form.weight.value == 30.0
    ensures HeightField in Errors(form) && WeightField !in Errors(form)
    ensures 100.0 <= Centimetres(form.unit, form.height.value) <= 250.0
    ensures Kilograms(form.unit, form.weight.value) < 30.0
  {
  }

  /** The inputs of a valid form whose age has an integer part. */
  function InputsOf(form: Form): Inputs
    requires PassesValidation(form) && form.age.intPart.Some?
  {
    Inputs(form.sex, form.age.intPart.value, form.height.value, form.weight.value,
           form.unit, form.activity.value, form.goal.value, form.pace)
  }

  /** What `calculate` shows for a valid form: a `NaN` age makes the BMR,
      and everything computed from it, `NaN`. */
  function Outcome(form: Form): Shown
    requires PassesValidation(form)
  {
    if form.age.intPart.None? then AllNaN else Figures(Estimate(InputsOf(form)))
  }

  /** On a form that also passes the intended age check, the BMR is at
      least 264 kcal (a woman of 100 years, 100 cm and 30 kg), so figures are
      shown, the TDEE is positive and the target is non-negative; the goal
      ordering and non-negative macros then hold for what is shown. */
  lemma ValidFormPositive(form: Form)
    requires PassesValidation(form) && AgeAcceptedIntended(form.age)
    ensures BmrOf(InputsOf(form)) >= 264.0
    ensures TdeeOf(InputsOf(form)) > 0.0
    ensures Outcome(form).Figures?
    ensures 0 <= Outcome(form).figures.targetCalories
  {
    var i := InputsOf(form);
    ValidBmr(form);
    var t := TdeeOf(i);
    ScaleUp(BmrOf(i), 1.2, Multiplier(i.activity));
    TargetOrdering(t, i.goal, i.pace);
  }

  /** The smallest BMR a valid form with an integer age admits is that of a
      woman of 100 years, 100 cm and 30 kg (or the imperial equivalents,
      which are larger). */
  lemma ValidBmr(form: Form)
    requires PassesValidation(form) && AgeAcceptedIntended(form.age)
    ensures BmrOf(InputsOf(form)) >= 264.0
  {
    var i := InputsOf(form);
    assert i.age <= 100 && 100.0 <= i.height && 30.0 <= i.weight;
    assert Centimetres(i.unit, i.height) >= 100.0 && Kilograms(i.unit, i.weight) >= 13.0;
  }

  /** Scaling a non-negative figure by a larger factor gives a larger figure. */
  lemma ScaleUp(x: real, lo: real, hi: real)
    requires 0.0 <= x && lo <= hi
    ensures x * lo <= x * hi
  {
  }

  // ---------------------------------------------------------------------
  // Component state
  // ---------------------------------------------------------------------

  /** The calculator's state slots; the text fields hold what the number
      inputs hold, the selectors `None` until a choice is made. */
  class CalculatorForm {
    var gender: Sex
    var age: Entry
    var height: Entry
    var weight: Entry
    var activity: Option<ActivityLevel>
    var goal: Option<Goal>
    var pace: Pace
    var unit: UnitSystem
    var result: Option<Shown>
    var errors: map<Field, string>

    function Snapshot(): Form
      reads this
    {
      Form(gender, age, height, weight, activity, goal, pace, unit)
    }

    constructor ()
      ensures gender == Male && age == Blank && height == Blank && weight == Blank
      ensures activity == None && goal == None && pace == ModeratePace && unit == Metric
      ensures result == None && errors == map[]
      ensures !PassesValidation(Snapshot())
    {
      gender := Male;
      age := Blank;
      height := Blank;
      weight := Blank;
      activity := None;
      goal := None;
      pace := ModeratePace;
      unit := Metric;
      result := None;
      errors := map[];
    }

    /** `validateForm`: replaces the error map and reports whether it is
        empty. */
    method ValidateForm() returns (ok: bool)
      modifies this`errors
      ensures errors == Errors(Snapshot())
      ensures ok <==> PassesValidation(Snapshot())
    {
      var newErrors := BuildErrors(Snapshot());
      ErrorsExactlyRejected(Snapshot());
      errors := newErrors;
      ok := |newErrors| == 0;
      assert ok <==> newErrors == map[];
    }

    /** `calculate`: validates; on failure the previous result stays, on
        success the estimate of the entered figures replaces it. The
        spinner's delay is collapsed. */
    method Calculate()
      modifies this`errors, this`result
      ensures errors == Errors(Snapshot())
      ensures !PassesValidation(Snapshot()) ==> result == old(result)
      ensures PassesValidation(Snapshot()) ==> result == Some(Outcome(Snapshot()))
    {
      var ok := ValidateForm();
      if !ok {
        return;
      }
      if age.intPart.None? {
        // NaN propagates through every figure.
        result := Some(AllNaN);
      } else {
        var r := Compute(InputsOf(Snapshot()));
        result := Some(Figures(r));
      }
    }
  }
}
