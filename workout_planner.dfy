/** The workout planner: picking a week from the catalog and trimming it to
    the chosen number of days, and the two check-list toggles (equipment
    owned, exercises completed). The pure operations come first; the class
    `Planner` at the end holds the component's state slots and runs the
    handlers over them. */
module WorkoutPlanner {
  import opened Wrappers
  import opened WorkoutCatalog

  function Min(a: int, b: int): int { if a <= b then a else b }

  function Max(a: int, b: int): int { if a <= b then b else a }

  /** No element occurs twice. */
  predicate Distinct<T(==)>(s: seq<T>)
  {
    forall i, j :: 0 <= i < j < |s| ==> s[i] != s[j]
  }

  // ---------------------------------------------------------------------
  // Check-list toggles
  // ---------------------------------------------------------------------

  /** `s.filter(e => e !== x)`: every occurrence of `x` dropped, the other
      elements kept with their multiplicities. */
  function Remove(s: seq<string>, x: string): (r: seq<string>)
    ensures multiset(r) == multiset(s)[x := 0]
    ensures forall y :: y in r <==> y in s && y != x
  {
    if s == [] then []
    else
      assert multiset(s) == multiset{s[0]} + multiset(s[1..]) by { assert s == [s[0]] + s[1..]; }
      if s[0] == x then Remove(s[1..], x)
      else [s[0]] + Remove(s[1..], x)
  }

  /** Filtering commutes with concatenation, so the kept elements stay in
      their original order. */
  lemma {:induction false} RemoveAppend(a: seq<string>, b: seq<string>, x: string)
    ensures Remove(a + b, x) == Remove(a, x) + Remove(b, x)
  {
    if a == [] {
      assert a + b == b;
    } else {
      assert (a + b)[1..] == a[1..] + b;
      RemoveAppend(a[1..], b, x);
    }
  }

  /** Filtering out an element that does not occur changes nothing. */
  lemma {:induction false} RemoveAbsent(s: seq<string>, x: string)
    requires x !in s
    ensures Remove(s, x) == s
  {
    if s != [] {
      RemoveAbsent(s[1..], x);
      assert [s[0]] + s[1..] == s;
    }
  }

  /** Filtering keeps a duplicate-free list duplicate-free. */
  lemma {:induction false} RemoveDistinct(s: seq<string>, x: string)
    requires Distinct(s)
    ensures Distinct(Remove(s, x))
  {
    if s != [] {
      assert Distinct(s[1..]) by {
        forall i, j | 0 <= i < j < |s[1..]| ensures s[1..][i] != s[1..][j] {
          assert s[1..][i] == s[i + 1] && s[1..][j] == s[j + 1];
        }
      }
      RemoveDistinct(s[1..], x);
      if s[0] != x {
        var t := Remove(s[1..], x);
        assert s[0] !in s[1..] by {
          forall k | 0 <= k < |s[1..]| ensures s[1..][k] != s[0] {
            assert s[1..][k] == s[k + 1];
          }
        }
        assert s[0] !in t;
        var r := [s[0]] + t;
        forall i, j | 0 <= i < j < |r| ensures r[i] != r[j] {
          if i == 0 {
            assert r[j] == t[j - 1];
          } else {
            assert r[i] == t[i - 1] && r[j] == t[j - 1];
          }
        }
      }
    }
  }

  /** `prev.includes(x) ? prev.filter(e => e !== x) : [...prev, x]`: the
      membership of `x` flips and nothing else changes. */
  function Toggle(s: seq<string>, x: string): (r: seq<string>)
    ensures forall y :: y in r <==> if y == x then x !in s else y in s
    ensures x in s ==> multiset(r) == multiset(s)[x := 0]
    ensures x !in s ==> |r| == |s| + 1 && r[..|s|] == s && r[|s|] == x
  {
    if x in s then Remove(s, x) else s + [x]
  }

  /** Toggling keeps a duplicate-free list duplicate-free. */
  lemma ToggleDistinct(s: seq<string>, x: string)
    requires Distinct(s)
    ensures Distinct(Toggle(s, x))
  {
    if x in s {
      RemoveDistinct(s, x);
    }
  }

  /** Toggling an absent element twice gives back the original list. */
  lemma ToggleTwiceAbsent(s: seq<string>, x: string)
    requires x !in s
    ensures Toggle(Toggle(s, x), x) == s
  {
    RemoveAppend(s, [x], x);
    RemoveAbsent(s, x);
    assert Remove([x], x) == [];
  }

  /** Toggling a present element twice moves it to the end of the list. */
  lemma ToggleTwicePresent(s: seq<string>, x: string)
    requires x in s
    ensures Toggle(Toggle(s, x), x) == Remove(s, x) + [x]
  {
  }

  // ---------------------------------------------------------------------
  // Plan selection
  // ---------------------------------------------------------------------

  /** `parseInt(daysPerWeek) || 4`. `None` is the unparsable (empty) field;
      a parsed zero is falsy as well and also falls back to four. */
  function DayCount(days: Option<int>): (n: int)
    ensures n != 0
    ensures n == 4 || (days.Some? && n == days.value)
    ensures days.Some? && days.value != 0 ==> n == days.value
  {
    match days
    case None => 4
    case Some(k) => if k == 0 then 4 else k
  }

  /** `s.slice(0, end)`: a non-negative end is clamped to the length, a
      negative one counts back from the end (and clamps at zero). */
  function SlicePrefix<T>(s: seq<T>, end: int): (r: seq<T>)
    ensures r <= s
    ensures 0 <= end ==> |r| == Min(end, |s|)
    ensures end < 0 ==> |r| == Max(|s| + end, 0)
  {
    if 0 <= end then
      if end <= |s| then s[..end] else s
    else
      if -end <= |s| then s[..|s| + end] else []
  }

  /** The property names every plain object inherits from
      `Object.prototype`. Indexing a catalog entry with one of them yields a
      function or an object, never an array. */
  const InheritedKeys: set<string> := {
    "constructor", "hasOwnProperty", "isPrototypeOf", "propertyIsEnumerable",
    "toLocaleString", "toString", "valueOf", "__proto__",
    "__defineGetter__", "__defineSetter__", "__lookupGetter__", "__lookupSetter__"}

  /** `workoutPlansByBodyType[bodyType]?.[level] || []`, as far as `.slice`
      can use it: `None` when the level names an inherited property, whose
      value is truthy but has no `slice`, so the call throws. */
  function Lookup(bt: BodyType, level: string): (r: Option<seq<WorkoutDay>>)
    ensures r.None? <==> level in InheritedKeys
    ensures level in Levels ==> r == Some(PlansFor(bt)[level])
    ensures level !in Levels && level !in InheritedKeys ==> r == Some([])
    ensures r.Some? ==> |r.value| <= 6
  {
    var m := PlansFor(bt);
    if level in m then
      CatalogDayCounts(bt, level);
      Some(m[level])
    else if level in InheritedKeys then None
    else Some([])
  }

  /** The week `generatePlan` stores: the first days of the authored week,
      in authored order; `None` when the slice throws. */
  function SelectPlan(bt: BodyType, level: string, days: Option<int>): (r: Option<seq<WorkoutDay>>)
    ensures r.None? <==> level in InheritedKeys
    ensures r.Some? ==> r.value <= Lookup(bt, level).value && |r.value| <= 6
    ensures level !in Levels && r.Some? ==> r.value == []
  {
    match Lookup(bt, level)
    case None => None
    case Some(week) => Some(SlicePrefix(week, DayCount(days)))
  }

  /** The levels the selector offers are catalog keys, never inherited
      names, so for them the lookup always yields the authored week. */
  lemma OfferedLevelsNeverThrow(bt: BodyType, level: string)
    requires level in Levels
    ensures level !in InheritedKeys
    ensures SelectPlan(bt, level, None).Some?
  {
  }

  /** With a positive day count the plan has exactly min(n, week length)
      days: it is never padded. */
  lemma PlanLength(bt: BodyType, level: string, days: Option<int>)
    requires 0 < DayCount(days) && level !in InheritedKeys
    ensures SelectPlan(bt, level, days).Some?
    ensures |SelectPlan(bt, level, days).value| == Min(DayCount(days), |Lookup(bt, level).value|)
  {
  }

  /** The day counts offered by the form (2 to 6) give min(n, week length)
      days, and six (or more) hands out the whole authored week. */
  lemma PlanForOfferedDays(bt: BodyType, level: string, n: int)
    requires level in Levels
    requires 2 <= n
    ensures SelectPlan(bt, level, Some(n)).Some?
    ensures |SelectPlan(bt, level, Some(n)).value| == Min(n, |PlansFor(bt)[level]|)
    ensures 2 <= |SelectPlan(bt, level, Some(n)).value|
    ensures 6 <= n ==> SelectPlan(bt, level, Some(n)) == Some(PlansFor(bt)[level])
  {
    CatalogDayCounts(bt, level);
    var week := PlansFor(bt)[level];
    if 6 <= n {
      assert SlicePrefix(week, n) == week;
    }
  }

  /** Without a day count the plan has min(4, week length) days. */
  lemma PlanWithoutDayCount(bt: BodyType, level: string)
    requires level !in InheritedKeys
    ensures |SelectPlan(bt, level, None).value| == Min(4, |Lookup(bt, level).value|)
    ensures SelectPlan(bt, level, Some(0)) == SelectPlan(bt, level, None)
  {
  }

  /** A negative day count drops days from the end of the week instead of
      producing an empty plan. */
  lemma PlanNegativeDays(bt: BodyType, level: string, k: int)
    requires k < 0 && level !in InheritedKeys
    ensures SelectPlan(bt, level, Some(k))
      == Some(Lookup(bt, level).value[..Max(|Lookup(bt, level).value| + k, 0)])
  {
  }

  /** An ectomorph beginner asking for five days gets the three authored
      days; a mesomorph at advanced level asking for two gets the first two
      of five; a level named "toString" makes the slice throw. */
  lemma PlanExamples()
    ensures SelectPlan(Ectomorph, "beginner", Some(5)) == Some(EctomorphBeginner)
    ensures |MesomorphAdvanced| == 5
    ensures SelectPlan(Mesomorph, "advanced", Some(2)) == Some(MesomorphAdvanced[..2])
    ensures SelectPlan(Endomorph, "toString", Some(3)) == None
  {
    assert "beginner" in Levels && "advanced" in Levels;
  }

  // ---------------------------------------------------------------------
  // Component state
  // ---------------------------------------------------------------------

  datatype Location = Home | Gym

  /** The planner's state slots. `level` is the selected level value (""
      until one is chosen); `bodyType` and `location` are `None` until
      chosen; `daysPerWeek` is the parsed day count (`None` until chosen).
      Completed exercises are tracked by their untranslated name key. */
  class Planner {
    var location: Option<Location>
    var selectedEquipment: seq<string>
    var level: string
    var bodyType: Option<BodyType>
    var daysPerWeek: Option<int>
    var plan: Option<seq<WorkoutDay>>
    var isGenerating: bool
    var completedExercises: seq<string>

    /** The invariant the handlers keep: both check-lists are free of
        duplicates and a stored plan never exceeds six days. */
    predicate Valid()
      reads this
    {
      Distinct(selectedEquipment) && Distinct(completedExercises)
      && (plan.Some? ==> |plan.value| <= 6)
    }

    /** The generate button is enabled only when every choice is made and
        no generation is running. */
    predicate CanGenerate()
      reads this
    {
      location.Some? && level != "" && daysPerWeek.Some? && bodyType.Some? && !isGenerating
    }

    constructor ()
      ensures Valid()
      ensures location == None && selectedEquipment == ["bodyweight"]
      ensures level == "" && bodyType == None && daysPerWeek == None
      ensures plan == None && !isGenerating && completedExercises == []
      ensures !CanGenerate()
    {
      location := None;
      selectedEquipment := ["bodyweight"];
      level := "";
      bodyType := None;
      daysPerWeek := None;
      plan := None;
      isGenerating := false;
      completedExercises := [];
    }

    /** `toggleEquipment`: flips one equipment id in the selection. */
    method ToggleEquipment(id: string)
      requires Valid()
      modifies this`selectedEquipment
      ensures Valid()
      ensures selectedEquipment == Toggle(old(selectedEquipment), id)
    {
      ToggleDistinct(selectedEquipment, id);
      selectedEquipment := Toggle(selectedEquipment, id);
    }

    /** `generatePlan`: does nothing until a body type and a level are
        chosen; otherwise raises the flag and stores the selected week. The
        spinner's delay is collapsed. When the slice throws, the callback
        stops before storing anything, so the plan stays and the flag stays
        raised. */
    method GeneratePlan()
      requires Valid()
      modifies this`plan, this`isGenerating
      ensures Valid()
      ensures old(bodyType).None? || old(level) == "" ==>
        plan == old(plan) && isGenerating == old(isGenerating)
      ensures old(bodyType).Some? && old(level) != "" && level in InheritedKeys ==>
        plan == old(plan) && isGenerating
      ensures old(bodyType).Some? && old(level) != "" && level !in InheritedKeys ==>
        plan == SelectPlan(bodyType.value, level, daysPerWeek) && !isGenerating
      ensures old(CanGenerate()) && old(level) in Levels ==> plan.Some? && !isGenerating
    {
      if bodyType.None? || level == "" {
        return;
      }
      isGenerating := true;
      var selected := Lookup(bodyType.value, level);
      if selected.None? {
        return;
      }
      plan := Some(SlicePrefix(selected.value, DayCount(daysPerWeek)));
      isGenerating := false;
    }

    /** `toggleExercise`: flips one exercise in the completed list. */
    method ToggleExercise(nameKey: string)
      requires Valid()
      modifies this`completedExercises
      ensures Valid()
      ensures completedExercises == Toggle(old(completedExercises), nameKey)
    {
      ToggleDistinct(completedExercises, nameKey);
      completedExercises := Toggle(completedExercises, nameKey);
    }
  }
}
