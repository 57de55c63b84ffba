# FitCalc planner and calorie calculator, in Dafny

This project models the two computing components of FitCalc, a fitness web
app.

- **The workout planner** (`WorkoutPlanner.tsx`). A static catalog maps each
  body type (ectomorph, mesomorph, endomorph) and experience level (beginner,
  intermediate, advanced) to an authored week of workout days.
  - `generatePlan` looks up the week for the chosen body type and level. It
    keeps the first `parseInt(daysPerWeek) || 4` days, using JavaScript's
    `slice`.
  - `toggleEquipment` and `toggleExercise` flip one entry of a check-list.
- **The calorie calculator** (`CalorieCalculator.tsx`).
  - `validateForm` range-checks age, height and weight, and requires an
    activity level and a goal. It stores one error per rejected field.
  - `calculate` converts imperial figures to metric. It then computes:
    - the Mifflin-St Jeor basal metabolic rate (BMR);
    - the total daily energy expenditure (TDEE), which is the BMR times an
      activity multiplier;
    - a calorie target, which is the TDEE scaled by a goal modifier and a
      pace modifier;
    - the grams of protein, fat and carbohydrate in that target.

  Every figure it displays is rounded with `Math.round`.

## Files

| file | module | holds |
|---|---|---|
| `wrappers.dfy` | `Wrappers` | `Option` |
| `workout_catalog.dfy` | `WorkoutCatalog` | The catalog, transcribed entry by entry. Also its shape facts. |
| `workout_planner.dfy` | `WorkoutPlanner` | The toggles, the day count, `slice`, plan selection, and the class `Planner` with the component's state. |
| `calorie_calculator.dfy` | `CalorieCalculator` | The tables, the estimate, validation, and the class `CalculatorForm` with the form's state. |

## Pure functions and stateful methods

- **Pure functions.** The catalog lookup, the slice, the filter and spread of
  the toggles, and the formulas are functions.
- **Stateful handlers.** The state-changing handlers are methods of a class
  whose fields are the component's `useState` slots:
  - `Planner.ToggleEquipment`, `Planner.GeneratePlan`,
    `Planner.ToggleExercise`;
  - `CalculatorForm.ValidateForm`, `CalculatorForm.Calculate`.
- **Imperative pieces.** The parts of `validateForm` and `calculate` that
  assign variables step by step are methods proved equal to the functions:
  - `ToMetric` reassigns `heightCm` and `weightKg`;
  - `ComputeBmr` picks the branch for the sex;
  - `ChooseRatios` runs the goal if-chain;
  - `BuildErrors` fills the `newErrors` dictionary one field at a time.
- **Number inputs.** The age, height and weight fields are `type="number"`
  inputs. Their value is therefore either empty or the text of a well-formed
  number. It is modelled as `Entry = Blank | Number(value, intPart)`.
  - `value` is what `parseFloat` reads: the number itself.
  - `intPart` is what `parseInt` reads, with `None` for `NaN`.
  - For a number written in plain decimal digits with a digit before the
    point (`Plain`), `parseInt` truncates toward zero.
  - A text with no digit before the point (".5", "-.5") gives `NaN`.
  - Exponent notation gives the leading digits ("2e1" gives 2).
  - A comparison with `NaN` is false, which `Below` and `Above` model.
- **Arithmetic.**
  - All arithmetic is exact `real` arithmetic.
  - `Math.round(x)` is `floor(x + 0.5)`.
- **Days per week.** This is the parsed day count, `Option<int>`. `None` is the
  empty selector, for which `parseInt` gives `NaN`.
- **Form selectors.** These selectors are `Option` fields, `None` until chosen:
  - in the planner, `location`, `bodyType` and `daysPerWeek`;
  - in the calculator, `activity` and `goal`.

  The planner's `level` is a `string`. It is `""` until chosen and can hold
  any string. That is what makes the inherited-name case of `Lookup`
  reachable in the model.

## Model

| member | source | states |
|---|---|---|
| WorkoutCatalog.PlansFor | src/components/workouts/WorkoutPlanner.tsx:39-509 | Each body type's entry has exactly the three level keys beginner, intermediate and advanced. |
| WorkoutCatalog.CatalogDayCounts | src/components/workouts/WorkoutPlanner.tsx:39-509 | Every authored week has 3 to 6 days. The exact sizes are ectomorph 3/4/4, mesomorph 3/4/5 and endomorph 3/5/6. |
| WorkoutCatalog.CatalogSetsInRange | src/components/workouts/WorkoutPlanner.tsx:39-509 | Every exercise of every day of every week prescribes between 3 and 5 sets. |
| WorkoutCatalog.WeekSetsInRangeEctomorphBeginner | src/components/workouts/WorkoutPlanner.tsx:42-76 | Every exercise of the ectomorph beginner week has 3 to 5 sets. |
| WorkoutCatalog.WeekSetsInRangeEctomorphIntermediate | src/components/workouts/WorkoutPlanner.tsx:77-126 | The same for the ectomorph intermediate week. |
| WorkoutCatalog.WeekSetsInRangeEctomorphAdvanced | src/components/workouts/WorkoutPlanner.tsx:127-176 | The same for the ectomorph advanced week. |
| WorkoutCatalog.WeekSetsInRangeMesomorphBeginner | src/components/workouts/WorkoutPlanner.tsx:181-215 | The same for the mesomorph beginner week. |
| WorkoutCatalog.WeekSetsInRangeMesomorphIntermediate | src/components/workouts/WorkoutPlanner.tsx:216-264 | The same for the mesomorph intermediate week. |
| WorkoutCatalog.WeekSetsInRangeMesomorphAdvanced | src/components/workouts/WorkoutPlanner.tsx:265-328 | The same for the mesomorph advanced week. |
| WorkoutCatalog.WeekSetsInRangeEndomorphBeginner | src/components/workouts/WorkoutPlanner.tsx:333-370 | The same for the endomorph beginner week. |
| WorkoutCatalog.WeekSetsInRangeEndomorphIntermediate | src/components/workouts/WorkoutPlanner.tsx:371-431 | The same for the endomorph intermediate week. |
| WorkoutCatalog.WeekSetsInRangeEndomorphAdvanced | src/components/workouts/WorkoutPlanner.tsx:432-507 | The same for the endomorph advanced week. |
| WorkoutPlanner.Remove | src/components/workouts/WorkoutPlanner.tsx:546 | `filter(e => e !== x)` drops every occurrence of `x`. Every other element keeps its multiplicity. |
| WorkoutPlanner.RemoveAppend | src/components/workouts/WorkoutPlanner.tsx:546 | Filtering distributes over concatenation, so the kept elements stay in their original order. |
| WorkoutPlanner.RemoveAbsent | src/components/workouts/WorkoutPlanner.tsx:546 | Filtering out an element that does not occur returns the list unchanged. |
| WorkoutPlanner.RemoveDistinct | src/components/workouts/WorkoutPlanner.tsx:546 | A duplicate-free list stays duplicate-free after filtering. |
| WorkoutPlanner.Toggle | src/components/workouts/WorkoutPlanner.tsx:544-548 | Only the membership of `x` flips. A present `x` is removed with every other multiplicity kept. An absent `x` is appended at the end, after the old list unchanged. |
| WorkoutPlanner.ToggleDistinct | src/components/workouts/WorkoutPlanner.tsx:544-548 | Toggling keeps a duplicate-free list duplicate-free. |
| WorkoutPlanner.ToggleTwiceAbsent | src/components/workouts/WorkoutPlanner.tsx:544-548 | Toggling an absent element twice restores the original list. |
| WorkoutPlanner.ToggleTwicePresent | src/components/workouts/WorkoutPlanner.tsx:544-548 | Toggling a present element twice moves it to the end. |
| WorkoutPlanner.DayCount | src/components/workouts/WorkoutPlanner.tsx:556 | The day count (`parseInt(daysPerWeek)`, falling back to 4) is never 0. It is the parsed count when that is nonzero, and 4 when the count is missing or zero. |
| WorkoutPlanner.SlicePrefix | src/components/workouts/WorkoutPlanner.tsx:556 | `slice(0, n)` returns a prefix. A non-negative `n` gives min(n, length) elements. A negative `n` gives max(length + n, 0) elements. |
| WorkoutPlanner.Lookup | src/components/workouts/WorkoutPlanner.tsx:555 | A catalog level gives the catalog week, which has at most 6 days. Any other level gives the empty list, not an error. The exception is a name inherited from `Object.prototype` ("toString", "constructor", …). It gives a non-array, so the later `slice` throws, and the result is `None`. These names are the constant `InheritedKeys`. |
| WorkoutPlanner.SelectPlan | src/components/workouts/WorkoutPlanner.tsx:555-556 | The slice throws exactly for inherited names. Otherwise the plan is a prefix of the looked-up week and has at most 6 days. A level outside the catalog gives the empty plan. |
| WorkoutPlanner.OfferedLevelsNeverThrow | src/components/workouts/WorkoutPlanner.tsx:523-527 | The three levels the selector offers are never inherited names, so for them the slice never throws. |
| WorkoutPlanner.PlanLength | src/components/workouts/WorkoutPlanner.tsx:555-556 | With a positive day count n and a non-inherited level, the plan has exactly min(n, week length) days. |
| WorkoutPlanner.PlanForOfferedDays | src/components/workouts/WorkoutPlanner.tsx:555-556 | The selector offers 2 to 6 days (line 698). These give min(n, week length) days, and always at least 2. Six days give the whole authored week. |
| WorkoutPlanner.PlanWithoutDayCount | src/components/workouts/WorkoutPlanner.tsx:556 | With no day count the plan has min(4, week length) days. A parsed 0 behaves the same way. |
| WorkoutPlanner.PlanNegativeDays | src/components/workouts/WorkoutPlanner.tsx:556 | A negative day count drops days from the end of the week. |
| WorkoutPlanner.PlanExamples | src/components/workouts/WorkoutPlanner.tsx:555-556 | An ectomorph beginner asking for 5 days gets all 3 authored days. A mesomorph at advanced level asking for 2 gets the first 2 of 5. The level "toString" makes the slice throw. |
| WorkoutPlanner.Planner.constructor | src/components/workouts/WorkoutPlanner.tsx:535-542 | The initial state: nothing chosen, equipment is `["bodyweight"]`, no plan, nothing completed. Generation is disabled. |
| WorkoutPlanner.Planner.ToggleEquipment | src/components/workouts/WorkoutPlanner.tsx:544-548 | The selection becomes the toggle of the old selection. The lists stay duplicate-free. |
| WorkoutPlanner.Planner.GeneratePlan | src/components/workouts/WorkoutPlanner.tsx:550-559 | Without a body type or level, nothing changes. If the slice throws, the plan is unchanged and the flag stays raised. Otherwise the plan is the selected prefix and the flag ends cleared. When the button is enabled (line 710) and the level is one the selector offers, a plan is always stored. |
| WorkoutPlanner.Planner.Valid | src/components/workouts/WorkoutPlanner.tsx:535-542 | Definition, no contract. It is the invariant the handlers keep: both check-lists are duplicate-free and a stored plan has at most 6 days. |
| WorkoutPlanner.Planner.CanGenerate | src/components/workouts/WorkoutPlanner.tsx:710 | Definition, no contract. It is the negation of the button's `disabled` expression. |
| WorkoutPlanner.Planner.ToggleExercise | src/components/workouts/WorkoutPlanner.tsx:561-567 | The completed list becomes its toggle. The lists stay duplicate-free. |
| CalorieCalculator.Multiplier | src/components/calculator/CalorieCalculator.tsx:28-34 | The five activity multipliers lie between 1.2 and 1.9. |
| CalorieCalculator.GoalModifier | src/components/calculator/CalorieCalculator.tsx:36-40 | Definition, no contract: the goal modifiers -0.2, 0 and 0.15. |
| CalorieCalculator.PaceModifier | src/components/calculator/CalorieCalculator.tsx:42-45 | Definition, no contract: the pace modifiers 1 and 1.5. |
| CalorieCalculator.CalorieModifier | src/components/calculator/CalorieCalculator.tsx:106-108 | The goal modifier times the pace modifier. Losing gives -0.3 to -0.2, maintaining gives 0 at either pace, gaining gives 0.15 to 0.225. The aggressive pace is 1.5 times the goal modifier. |
| CalorieCalculator.MacroRatios | src/components/calculator/CalorieCalculator.tsx:111-125 | For every goal the three ratios are positive and sum to 1. Losing favours protein. |
| CalorieCalculator.Round | src/components/calculator/CalorieCalculator.tsx:109 | `Math.round(x)` lies in (x - 0.5, x + 0.5]. |
| CalorieCalculator.RoundMonotone | src/components/calculator/CalorieCalculator.tsx:109 | Rounding preserves order. |
| CalorieCalculator.Truncate | src/components/calculator/CalorieCalculator.tsx:62 | `parseInt` of a plainly written number is its integer part, truncated toward zero. |
| CalorieCalculator.Plain | src/components/calculator/CalorieCalculator.tsx:62 | Definition, no contract. It is the entry of a plainly written number: `parseInt` reads its truncation. |
| CalorieCalculator.Below | src/components/calculator/CalorieCalculator.tsx:62 | Definition, no contract: `parseInt(age) < bound`, false for `NaN`. |
| CalorieCalculator.Above | src/components/calculator/CalorieCalculator.tsx:62 | Definition, no contract: `parseInt(age) > bound`, false for `NaN`. |
| CalorieCalculator.Centimetres | src/components/calculator/CalorieCalculator.tsx:88-94 | Definition, no contract: the height converted to centimetres. |
| CalorieCalculator.Kilograms | src/components/calculator/CalorieCalculator.tsx:88-94 | Definition, no contract: the weight converted to kilograms. |
| CalorieCalculator.UnitConversion | src/components/calculator/CalorieCalculator.tsx:88-94 | Metric figures pass through. Imperial ones are multiplied by 2.54 and by 0.453592. |
| CalorieCalculator.Bmr | src/components/calculator/CalorieCalculator.tsx:96-101 | Definition, no contract: the Mifflin-St Jeor equation for each sex. |
| CalorieCalculator.BmrOf | src/components/calculator/CalorieCalculator.tsx:88-101 | Definition, no contract: the BMR of the inputs after conversion to metric. |
| CalorieCalculator.Tdee | src/components/calculator/CalorieCalculator.tsx:103-104 | Definition, no contract: the BMR times the activity multiplier. |
| CalorieCalculator.TdeeOf | src/components/calculator/CalorieCalculator.tsx:103-104 | Definition, no contract: the TDEE of the inputs. |
| CalorieCalculator.Target | src/components/calculator/CalorieCalculator.tsx:106-109 | Definition, no contract: the rounded TDEE scaled by one plus the calorie modifier. |
| CalorieCalculator.Grams | src/components/calculator/CalorieCalculator.tsx:127-129 | Definition, no contract: the rounded grams of one macro. |
| CalorieCalculator.Assemble | src/components/calculator/CalorieCalculator.tsx:131-138 | Definition, no contract: the stored figures, built from a BMR, TDEE, target and ratios. |
| CalorieCalculator.Estimate | src/components/calculator/CalorieCalculator.tsx:86-138 | Definition, no contract. It is the result for numeric inputs. `Compute` and the ordering and macro lemmas are about it. |
| CalorieCalculator.BmrSexOffset | src/components/calculator/CalorieCalculator.tsx:96-101 | For the same body, the female BMR is exactly 166 kcal below the male one. |
| CalorieCalculator.BmrMonotone | src/components/calculator/CalorieCalculator.tsx:96-101 | The BMR grows with weight and height and falls with age. |
| CalorieCalculator.TargetOrdering | src/components/calculator/CalorieCalculator.tsx:106-109 | For a non-negative TDEE: the target is non-negative; maintaining targets the rounded TDEE; losing never targets more and gaining never less; an aggressive pace moves the target at least as far as a moderate one. |
| CalorieCalculator.LoseTargets | src/components/calculator/CalorieCalculator.tsx:106-109 | Losing: 0 ≤ aggressive target ≤ moderate target ≤ rounded TDEE. |
| CalorieCalculator.GainTargets | src/components/calculator/CalorieCalculator.tsx:106-109 | Gaining: rounded TDEE ≤ moderate target ≤ aggressive target. |
| CalorieCalculator.GoalOrdering | src/components/calculator/CalorieCalculator.tsx:103-109 | On displayed results: maintaining shows the TDEE as the target, and the pace changes nothing. Losing shows a target no higher than the TDEE, gaining one no lower. |
| CalorieCalculator.GramsBound | src/components/calculator/CalorieCalculator.tsx:127-129 | The energy of the rounded grams is within half a gram's energy of the macro's share of the target. |
| CalorieCalculator.MacroSplit | src/components/calculator/CalorieCalculator.tsx:127-129 | When the ratios sum to 1, 4·protein + 9·fat + 4·carbs is within (-8.5, 8.5] kcal of the target. |
| CalorieCalculator.GramsNonNegative | src/components/calculator/CalorieCalculator.tsx:127-129 | A non-negative target and share give non-negative grams. |
| CalorieCalculator.MacrosAccountForTarget | src/components/calculator/CalorieCalculator.tsx:127-129 | The displayed macros account for the displayed target to within 8.5 kcal. A non-negative target gives non-negative macros. |
| CalorieCalculator.ToMetric | src/components/calculator/CalorieCalculator.tsx:88-94 | The reassigned height and weight are the metric figures. |
| CalorieCalculator.ComputeBmr | src/components/calculator/CalorieCalculator.tsx:96-101 | The branch on sex computes the Mifflin-St Jeor BMR of the converted figures. |
| CalorieCalculator.ChooseRatios | src/components/calculator/CalorieCalculator.tsx:111-125 | The if-chain assigns the goal's macro ratios. Any goal other than lose or gain gets the maintenance split. |
| CalorieCalculator.Compute | src/components/calculator/CalorieCalculator.tsx:86-138 | The stored result is the estimate of the inputs. The ordering and macro lemmas are proved about that estimate. |
| CalorieCalculator.EstimateExamples | src/components/calculator/CalorieCalculator.tsx:86-138 | Man, 25 y, 180 cm, 80 kg, moderate, maintain: 1805/2798/2798 kcal, 210 g protein, 93 g fat, 280 g carbs. Woman, 30 y, 165 cm, 60 kg, sedentary, lose aggressively: 1320/1584/1109 kcal, 111/37/83 g. |
| CalorieCalculator.BuildErrors | src/components/calculator/CalorieCalculator.tsx:59-79 | A field has an error exactly when its check rejects it. Each error carries that field's message key. The map is empty exactly when the form is valid. |
| CalorieCalculator.ErrorsExactlyRejected | src/components/calculator/CalorieCalculator.tsx:59-79 | The same three facts for the error-map function. |
| CalorieCalculator.AgeAccepted | src/components/calculator/CalorieCalculator.tsx:62-64 | Definition, no contract: the age check as written, with `NaN` comparisons false. |
| CalorieCalculator.HeightAccepted | src/components/calculator/CalorieCalculator.tsx:65-67 | Definition, no contract: a height is present and lies in [100, 250] as entered. |
| CalorieCalculator.WeightAccepted | src/components/calculator/CalorieCalculator.tsx:68-70 | Definition, no contract: a weight is present and lies in [30, 300] as entered. |
| CalorieCalculator.Accepted | src/components/calculator/CalorieCalculator.tsx:62-76 | Definition, no contract: the check of each field. |
| CalorieCalculator.ErrorKey | src/components/calculator/CalorieCalculator.tsx:63-75 | Definition, no contract: the message key of each field. |
| CalorieCalculator.Errors | src/components/calculator/CalorieCalculator.tsx:59-79 | Definition, no contract. It is the error map, one entry per rejected field. `BuildErrors` and `ErrorsExactlyRejected` are about it. |
| CalorieCalculator.PassesValidation | src/components/calculator/CalorieCalculator.tsx:59-79 | Definition, no contract: every field passes its check. |
| CalorieCalculator.AgeBoundaries | src/components/calculator/CalorieCalculator.tsx:62-64 | Ages 15 and 100 pass; 14 and 101 fail. A fractional age is truncated first, so 100.5 passes and 14.9 fails. A blank age fails. "2e1" is read as 2 and fails. ".5" is read as `NaN` and passes. |
| CalorieCalculator.AgeAcceptedIff | src/components/calculator/CalorieCalculator.tsx:62-64 | A plainly written age v is accepted exactly when 15 ≤ v < 101. An age that `parseInt` reads as `NaN` is always accepted. |
| CalorieCalculator.NaNAgePassesValidation | src/components/calculator/CalorieCalculator.tsx:62-64 | With age ".5" and the other fields valid, the form passes validation with no errors. Every figure shown is then `NaN`. |
| CalorieCalculator.AgeAcceptedIntended | src/components/calculator/CalorieCalculator.tsx:62-64 | Definition, no contract: the corrected age check, which requires an integer part in 15..100. |
| CalorieCalculator.IntendedAgeCheck | src/components/calculator/CalorieCalculator.tsx:62-64 | The corrected check implies the written one. The two differ exactly on ages `parseInt` reads as `NaN`. On plainly written ages they agree. |
| CalorieCalculator.ImperialFiguresCheckedRaw | src/components/calculator/CalorieCalculator.tsx:65-70 | In imperial mode, height and weight are checked before conversion. 69 in is rejected although it is 175.26 cm. 30 lb is accepted although it is below 30 kg. |
| CalorieCalculator.InputsOf | src/components/calculator/CalorieCalculator.tsx:88-101 | Definition, no contract: the numbers `calculate` reads from a valid form whose age has an integer part. |
| CalorieCalculator.Outcome | src/components/calculator/CalorieCalculator.tsx:86-138 | Definition, no contract. For a valid form it is the figures, or `NaN` everywhere when the age parsed to `NaN`. |
| CalorieCalculator.ValidBmr | src/components/calculator/CalorieCalculator.tsx:96-101 | A form that passes validation and the corrected age check gives a BMR of at least 264 kcal. |
| CalorieCalculator.ValidFormPositive | src/components/calculator/CalorieCalculator.tsx:82-129 | For a form that passes validation and the corrected age check, figures are shown, the TDEE is positive and the target is non-negative. |
| CalorieCalculator.CalculatorForm.constructor | src/components/calculator/CalorieCalculator.tsx:47-57 | The initial state: male, metric, moderate pace, blank fields, no result, no errors. The initial form does not validate. |
| CalorieCalculator.CalculatorForm.ValidateForm | src/components/calculator/CalorieCalculator.tsx:59-80 | The stored errors are those of the current form. The return value is true exactly when the form is valid. |
| CalorieCalculator.CalculatorForm.Calculate | src/components/calculator/CalorieCalculator.tsx:82-141 | The errors are refreshed. An invalid form keeps the previous result. A valid one stores its outcome: the estimate of the entered figures, or `NaN` figures for a `NaN` age. |

## Notes on the code

- **Macro accuracy.** The three macro figures are rounded independently, and
  fat carries 9 kcal per gram. The energy of the displayed grams can therefore
  differ from the target by up to 8.5 kcal, not by only a few. For example,
  fat can be off by 4.5 kcal on its own. `MacroSplit` proves the 8.5 kcal bound
  from the code.
- **Catalog size.** The catalog has nine entries: three body types times three
  levels. Nothing in it depends on location or equipment.
- **Inherited level names.** A level that names an `Object.prototype`
  property makes `generatePlan`'s callback throw. The spinner then never
  stops. The level selector cannot produce such a name.
- **Imperial validation.** Height and weight are range-checked on the figure as
  entered, before any imperial conversion. The imperial height placeholder,
  69 in, is itself rejected by the height check.
  `ImperialFiguresCheckedRaw` states this.

## Findings

| source | as written | input that shows it | evidently intended | confidence | as-written member | corrected member |
|---|---|---|---|---|---|---|
| src/components/calculator/CalorieCalculator.tsx:62 | The age check compares `parseInt(age)` with 15 and 100. Both comparisons are false when `parseInt` gives `NaN`, so such an age passes. | Age ".5" (or "-.5") with valid other fields: no error, and every figure shown is `NaN`. | Reject an age without an integer part in 15..100. | high; not executed | CalorieCalculator.NaNAgePassesValidation | CalorieCalculator.IntendedAgeCheck |

The form classes follow the code as written. The corrected check,
`AgeAcceptedIntended`, is what `ValidBmr` and `ValidFormPositive` assume.

## Left out

- Rendering (JSX), styling, icons and the translation layer are left out.
  Error entries hold the untranslated message key (`calc.error.age`, …), not
  the translated text. Exercises are completed by their untranslated name key.
- The timers (`setTimeout` of 800 ms and 1000 ms) are collapsed.
  `calculate` and `generatePlan` store their result at once. The loading flag
  of the calculator is not modelled. The planner's `isGenerating` is kept
  only as the field the button's enabling depends on. It ends cleared,
  except when the slice throws.
- JavaScript numbers are IEEE-754 doubles. The model computes in exact reals,
  so results that land within floating-point error of a .5 boundary may
  round differently.
- The form setters (`setAge`, `setGoal`, …) are plain field assignments and
  are not modelled as methods.
- `parseInt`/`parseFloat` of arbitrary text is not modelled. An entry
  carries both readings as given. Only `Plain` ties `parseInt`'s reading to
  the value, and only for numbers written without exponent and with a digit
  before the point.
- The `?.` and `|| 1` fallbacks of `goalObj?.modifier || 0` and
  `paceObj?.modifier || 1` cannot be reached from the selectors, which only
  offer the listed values, so they are not modelled. The `|| 0` fallback is
  taken for `maintain`, whose modifier is already 0, so it changes nothing.
- The location choice only enables the button (line 710). The equipment
  selection affects neither the button nor the plan. The model reflects
  both.
- The progress tracker, pages, landing sections and layout components are
  not part of this model.
