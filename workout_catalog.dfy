/** The static workout catalog: for each body type and experience level, the
    ordered week of workout days that the planner hands out. The entries are
    transcribed verbatim (translation keys, set counts, rep and rest texts). */
module WorkoutCatalog {

  datatype BodyType = Ectomorph | Mesomorph | Endomorph

  /** One exercise of a day. Names and muscles are untranslated i18n keys;
      `reps` may be a range ("8-10"), a count ("12"), a distance ("20m"),
      a duration ("60s") or "failure"; `rest` is seconds as text. */
  datatype Exercise = Exercise(nameKey: string, musclesKey: string, sets: int, reps: string, rest: string)

  /** One day of a weekly plan; `duration` is minutes as text. */
  datatype WorkoutDay = WorkoutDay(dayKey: string, titleKey: string, duration: string, exercises: seq<Exercise>)

  /** The three level keys the catalog is authored with. */
  const Levels: set<string> := {"beginner", "intermediate", "advanced"}

  /** ectomorph / beginner: 3 days */
  const EctomorphBeginner: seq<WorkoutDay> := [
    WorkoutDay("day.monday", "workout.fullBody", "45", [
      Exercise("exercise.squats", "muscle.quads", 3, "8-10", "120"),
      Exercise("exercise.dumbbellBenchPress", "muscle.chest", 3, "8-10", "120"),
      Exercise("exercise.dumbbellRow", "muscle.back", 3, "8-10", "90"),
      Exercise("exercise.shoulderPress", "muscle.shoulders", 3, "8-10", "90")
    ]),
    WorkoutDay("day.wednesday", "workout.fullBody", "45", [
      Exercise("exercise.romanianDeadlift", "muscle.hamstrings", 3, "8-10", "120"),
      Exercise("exercise.inclineDumbbellPress", "muscle.chest", 3, "8-10", "90"),
      Exercise("exercise.latPulldown", "muscle.back", 3, "8-10", "90"),
      Exercise("exercise.lateralRaises", "muscle.shoulders", 3, "10-12", "60")
    ]),
    WorkoutDay("day.friday", "workout.fullBody", "45", [
      Exercise("exercise.legPress", "muscle.legs", 3, "10-12", "120"),
      Exercise("exercise.cableFlyes", "muscle.chest", 3, "10-12", "60"),
      Exercise("exercise.seatedRow", "muscle.back", 3, "10-12", "90"),
      Exercise("exercise.facePulls", "muscle.rearDelts", 3, "12-15", "60")
    ])
  ]

  /** ectomorph / intermediate: 4 days */
  const EctomorphIntermediate: seq<WorkoutDay> := [
    WorkoutDay("day.monday", "workout.upperBody", "50", [
      Exercise("exercise.benchPress", "muscle.chest", 4, "6-8", "150"),
      Exercise("exercise.barbellRow", "muscle.back", 4, "6-8", "120"),
      Exercise("exercise.overheadPress", "muscle.shoulders", 3, "8-10", "120"),
      Exercise("exercise.pullups", "muscle.back", 3, "6-10", "120"),
      Exercise("exercise.dips", "muscle.triceps", 3, "8-10", "90")
    ]),
    WorkoutDay("day.tuesday", "workout.lowerBody", "55", [
      Exercise("exercise.squats", "muscle.quads", 4, "6-8", "180"),
      Exercise("exercise.romanianDeadlift", "muscle.hamstrings", 4, "8-10", "120"),
      Exercise("exercise.legPress", "muscle.legs", 3, "10-12", "120"),
      Exercise("exercise.legCurl", "muscle.hamstrings", 3, "10-12", "90"),
      Exercise("exercise.calfRaises", "muscle.calves", 4, "12-15", "60")
    ]),
    WorkoutDay("day.thursday", "workout.upperBody", "50", [
      Exercise("exercise.inclineBenchPress", "muscle.chest", 4, "8-10", "120"),
      Exercise("exercise.tBarRow", "muscle.back", 4, "8-10", "120"),
      Exercise("exercise.arnoldPress", "muscle.shoulders", 3, "10-12", "90"),
      Exercise("exercise.bicepCurls", "muscle.biceps", 3, "10-12", "60"),
      Exercise("exercise.tricepPushdown", "muscle.triceps", 3, "10-12", "60")
    ]),
    WorkoutDay("day.friday", "workout.lowerBody", "55", [
      Exercise("exercise.frontSquats", "muscle.quads", 4, "8-10", "150"),
      Exercise("exercise.hipThrust", "muscle.glutes", 4, "10-12", "90"),
      Exercise("exercise.walkingLunges", "muscle.legs", 3, "12", "90"),
      Exercise("exercise.legExtension", "muscle.quads", 3, "12-15", "60"),
      Exercise("exercise.seatedCalfRaise", "muscle.calves", 3, "15-20", "45")
    ])
  ]

  /** ectomorph / advanced: 4 days */
  const EctomorphAdvanced: seq<WorkoutDay> := [
    WorkoutDay("day.monday", "workout.chestTriceps", "60", [
      Exercise("exercise.benchPress", "muscle.chest", 5, "5-6", "180"),
      Exercise("exercise.inclineDumbbellPress", "muscle.chest", 4, "8-10", "120"),
      Exercise("exercise.cableFlyes", "muscle.chest", 3, "10-12", "90"),
      Exercise("exercise.closeGripBench", "muscle.triceps", 4, "8-10", "90"),
      Exercise("exercise.overheadTricepExtension", "muscle.triceps", 3, "10-12", "60")
    ]),
    WorkoutDay("day.tuesday", "workout.backBiceps", "60", [
      Exercise("exercise.deadlift", "muscle.back", 5, "5", "180"),
      Exercise("exercise.weightedPullups", "muscle.back", 4, "6-8", "150"),
      Exercise("exercise.barbellRow", "muscle.back", 4, "8-10", "120"),
      Exercise("exercise.hammerCurls", "muscle.biceps", 3, "10-12", "60"),
      Exercise("exercise.preacherCurl", "muscle.biceps", 3, "10-12", "60")
    ]),
    WorkoutDay("day.thursday", "workout.legs", "65", [
      Exercise("exercise.squats", "muscle.quads", 5, "5-6", "180"),
      Exercise("exercise.romanianDeadlift", "muscle.hamstrings", 4, "8-10", "120"),
      Exercise("exercise.hackSquat", "muscle.quads", 4, "10-12", "120"),
      Exercise("exercise.lyingLegCurl", "muscle.hamstrings", 3, "10-12", "90"),
      Exercise("exercise.standingCalfRaise", "muscle.calves", 4, "12-15", "60")
    ]),
    WorkoutDay("day.friday", "workout.shoulders", "55", [
      Exercise("exercise.overheadPress", "muscle.shoulders", 4, "6-8", "150"),
      Exercise("exercise.arnoldPress", "muscle.shoulders", 4, "8-10", "120"),
      Exercise("exercise.lateralRaises", "muscle.shoulders", 4, "12-15", "60"),
      Exercise("exercise.rearDeltFlyes", "muscle.rearDelts", 3, "12-15", "60"),
      Exercise("exercise.shrugs", "muscle.traps", 3, "12-15", "60")
    ])
  ]

  /** mesomorph / beginner: 3 days */
  const MesomorphBeginner: seq<WorkoutDay> := [
    WorkoutDay("day.monday", "workout.pushDay", "45", [
      Exercise("exercise.pushups", "muscle.chest", 3, "12-15", "60"),
      Exercise("exercise.dumbbellBenchPress", "muscle.chest", 3, "10-12", "90"),
      Exercise("exercise.shoulderPress", "muscle.shoulders", 3, "10-12", "90"),
      Exercise("exercise.tricepDips", "muscle.triceps", 3, "10-12", "60")
    ]),
    WorkoutDay("day.wednesday", "workout.pullDay", "45", [
      Exercise("exercise.latPulldown", "muscle.back", 3, "10-12", "90"),
      Exercise("exercise.dumbbellRow", "muscle.back", 3, "10-12", "90"),
      Exercise("exercise.facePulls", "muscle.rearDelts", 3, "12-15", "60"),
      Exercise("exercise.bicepCurls", "muscle.biceps", 3, "10-12", "60")
    ]),
    WorkoutDay("day.friday", "workout.legs", "50", [
      Exercise("exercise.squats", "muscle.quads", 3, "10-12", "120"),
      Exercise("exercise.lunges", "muscle.legs", 3, "10", "90"),
      Exercise("exercise.legCurl", "muscle.hamstrings", 3, "12", "60"),
      Exercise("exercise.calfRaises", "muscle.calves", 3, "15", "45")
    ])
  ]

  /** mesomorph / intermediate: 4 days */
  const MesomorphIntermediate: seq<WorkoutDay> := [
    WorkoutDay("day.monday", "workout.chestShoulders", "55", [
      Exercise("exercise.benchPress", "muscle.chest", 4, "8-10", "120"),
      Exercise("exercise.inclineDumbbellPress", "muscle.chest", 3, "10-12", "90"),
      Exercise("exercise.cableFlyes", "muscle.chest", 3, "12", "60"),
      Exercise("exercise.overheadPress", "muscle.shoulders", 4, "8-10", "90"),
      Exercise("exercise.lateralRaises", "muscle.shoulders", 3, "12-15", "60")
    ]),
    WorkoutDay("day.tuesday", "workout.backArms", "55", [
      Exercise("exercise.pullups", "muscle.back", 4, "8-10", "90"),
      Exercise("exercise.barbellRow", "muscle.back", 4, "8-10", "90"),
      Exercise("exercise.seatedRow", "muscle.back", 3, "10-12", "90"),
      Exercise("exercise.barbellCurl", "muscle.biceps", 3, "10-12", "60"),
      Exercise("exercise.tricepPushdown", "muscle.triceps", 3, "10-12", "60")
    ]),
    WorkoutDay("day.thursday", "workout.legs", "60", [
      Exercise("exercise.squats", "muscle.quads", 4, "8-10", "150"),
      Exercise("exercise.romanianDeadlift", "muscle.hamstrings", 4, "10-12", "120"),
      Exercise("exercise.legPress", "muscle.legs", 3, "12", "120"),
      Exercise("exercise.legCurl", "muscle.hamstrings", 3, "12", "60"),
      Exercise("exercise.calfRaises", "muscle.calves", 4, "15-20", "45")
    ]),
    WorkoutDay("day.saturday", "workout.fullBody", "50", [
      Exercise("exercise.deadlift", "muscle.back", 3, "6-8", "180"),
      Exercise("exercise.dumbbellBenchPress", "muscle.chest", 3, "10-12", "90"),
      Exercise("exercise.bulgarianSplitSquats", "muscle.legs", 3, "10", "90"),
      Exercise("exercise.plank", "muscle.core", 3, "60s", "45")
    ])
  ]

  /** mesomorph / advanced: 5 days */
  const MesomorphAdvanced: seq<WorkoutDay> := [
    WorkoutDay("day.monday", "workout.chest", "55", [
      Exercise("exercise.benchPress", "muscle.chest", 4, "6-8", "150"),
      Exercise("exercise.inclineBenchPress", "muscle.chest", 4, "8-10", "120"),
      Exercise("exercise.dumbbellFlyes", "muscle.chest", 3, "10-12", "90"),
      Exercise("exercise.cableCrossover", "muscle.chest", 3, "12-15", "60"),
      Exercise("exercise.pushups", "muscle.chest", 3, "failure", "60")
    ]),
    WorkoutDay("day.tuesday", "workout.back", "55", [
      Exercise("exercise.deadlift", "muscle.back", 4, "5-6", "180"),
      Exercise("exercise.weightedPullups", "muscle.back", 4, "6-8", "120"),
      Exercise("exercise.barbellRow", "muscle.back", 4, "8-10", "120"),
      Exercise("exercise.seatedRow", "muscle.back", 3, "10-12", "90"),
      Exercise("exercise.straightArmPulldown", "muscle.lats", 3, "12-15", "60")
    ]),
    WorkoutDay("day.wednesday", "workout.shoulders", "50", [
      Exercise("exercise.overheadPress", "muscle.shoulders", 4, "6-8", "150"),
      Exercise("exercise.dumbbellShoulderPress", "muscle.shoulders", 3, "10-12", "90"),
      Exercise("exercise.lateralRaises", "muscle.shoulders", 4, "12-15", "60"),
      Exercise("exercise.rearDeltFlyes", "muscle.rearDelts", 3, "12-15", "60"),
      Exercise("exercise.uprightRow", "muscle.shoulders", 3, "10-12", "60")
    ]),
    WorkoutDay("day.thursday", "workout.legs", "60", [
      Exercise("exercise.squats", "muscle.quads", 5, "5-6", "180"),
      Exercise("exercise.legPress", "muscle.legs", 4, "10-12", "120"),
      Exercise("exercise.romanianDeadlift", "muscle.hamstrings", 4, "8-10", "120"),
      Exercise("exercise.legExtension", "muscle.quads", 3, "12-15", "60"),
      Exercise("exercise.legCurl", "muscle.hamstrings", 3, "12-15", "60"),
      Exercise("exercise.calfRaises", "muscle.calves", 4, "15-20", "45")
    ]),
    WorkoutDay("day.friday", "workout.arms", "50", [
      Exercise("exercise.closeGripBench", "muscle.triceps", 4, "8-10", "90"),
      Exercise("exercise.barbellCurl", "muscle.biceps", 4, "8-10", "90"),
      Exercise("exercise.skullCrushers", "muscle.triceps", 3, "10-12", "60"),
      Exercise("exercise.hammerCurls", "muscle.biceps", 3, "10-12", "60"),
      Exercise("exercise.tricepKickbacks", "muscle.triceps", 3, "12-15", "45"),
      Exercise("exercise.concentrationCurl", "muscle.biceps", 3, "12-15", "45")
    ])
  ]

  /** endomorph / beginner: 3 days */
  const EndomorphBeginner: seq<WorkoutDay> := [
    WorkoutDay("day.monday", "workout.fullBodyCircuit", "40", [
      Exercise("exercise.gobletSquats", "muscle.quads", 3, "12-15", "45"),
      Exercise("exercise.pushups", "muscle.chest", 3, "10-15", "45"),
      Exercise("exercise.dumbbellRow", "muscle.back", 3, "12", "45"),
      Exercise("exercise.plank", "muscle.core", 3, "30-45s", "30"),
      Exercise("exercise.jumpingJacks", "muscle.fullBody", 3, "30", "30")
    ]),
    WorkoutDay("day.wednesday", "workout.fullBodyCircuit", "40", [
      Exercise("exercise.lunges", "muscle.legs", 3, "12", "45"),
      Exercise("exercise.shoulderPress", "muscle.shoulders", 3, "12", "45"),
      Exercise("exercise.latPulldown", "muscle.back", 3, "12", "45"),
      Exercise("exercise.mountainClimbers", "muscle.core", 3, "20", "30"),
      Exercise("exercise.burpees", "muscle.fullBody", 3, "8-10", "45")
    ]),
    WorkoutDay("day.friday", "workout.fullBodyCircuit", "40", [
      Exercise("exercise.stepUps", "muscle.legs", 3, "12", "45"),
      Exercise("exercise.inclinePushups", "muscle.chest", 3, "12-15", "45"),
      Exercise("exercise.seatedRow", "muscle.back", 3, "12", "45"),
      Exercise("exercise.bicycleCrunches", "muscle.abs", 3, "20", "30"),
      Exercise("exercise.highKnees", "muscle.fullBody", 3, "30s", "30")
    ])
  ]

  /** endomorph / intermediate: 5 days */
  const EndomorphIntermediate: seq<WorkoutDay> := [
    WorkoutDay("day.monday", "workout.upperBody", "50", [
      Exercise("exercise.benchPress", "muscle.chest", 4, "10-12", "60"),
      Exercise("exercise.barbellRow", "muscle.back", 4, "10-12", "60"),
      Exercise("exercise.overheadPress", "muscle.shoulders", 3, "12", "60"),
      Exercise("exercise.cableFlyes", "muscle.chest", 3, "15", "45"),
      Exercise("exercise.facePulls", "muscle.rearDelts", 3, "15", "45")
    ]),
    WorkoutDay("day.tuesday", "workout.lowerBody", "55", [
      Exercise("exercise.squats", "muscle.quads", 4, "12", "90"),
      Exercise("exercise.romanianDeadlift", "muscle.hamstrings", 4, "12", "75"),
      Exercise("exercise.walkingLunges", "muscle.legs", 3, "12", "60"),
      Exercise("exercise.legPress", "muscle.legs", 3, "15", "60"),
      Exercise("exercise.calfRaises", "muscle.calves", 4, "20", "30")
    ]),
    WorkoutDay("day.thursday", "workout.upperBody", "50", [
      Exercise("exercise.inclineDumbbellPress", "muscle.chest", 4, "10-12", "60"),
      Exercise("exercise.pullups", "muscle.back", 4, "8-12", "60"),
      Exercise("exercise.arnoldPress", "muscle.shoulders", 3, "12", "60"),
      Exercise("exercise.tricepPushdown", "muscle.triceps", 3, "15", "45"),
      Exercise("exercise.bicepCurls", "muscle.biceps", 3, "15", "45")
    ]),
    WorkoutDay("day.friday", "workout.lowerBodyCore", "55", [
      Exercise("exercise.frontSquats", "muscle.quads", 4, "10-12", "90"),
      Exercise("exercise.hipThrust", "muscle.glutes", 4, "12-15", "60"),
      Exercise("exercise.legCurl", "muscle.hamstrings", 3, "15", "45"),
      Exercise("exercise.cableCrunch", "muscle.abs", 3, "15-20", "45"),
      Exercise("exercise.russianTwists", "muscle.obliques", 3, "20", "30")
    ]),
    WorkoutDay("day.saturday", "workout.hiitCircuit", "35", [
      Exercise("exercise.kettlebellSwings", "muscle.fullBody", 4, "15", "30"),
      Exercise("exercise.boxJumps", "muscle.legs", 4, "10", "30"),
      Exercise("exercise.battleRopes", "muscle.fullBody", 4, "30s", "30"),
      Exercise("exercise.burpees", "muscle.fullBody", 4, "10", "30")
    ])
  ]

  /** endomorph / advanced: 6 days */
  const EndomorphAdvanced: seq<WorkoutDay> := [
    WorkoutDay("day.monday", "workout.pushDay", "55", [
      Exercise("exercise.benchPress", "muscle.chest", 4, "8-10", "90"),
      Exercise("exercise.inclineDumbbellPress", "muscle.chest", 4, "10-12", "60"),
      Exercise("exercise.overheadPress", "muscle.shoulders", 4, "10-12", "60"),
      Exercise("exercise.cableFlyes", "muscle.chest", 3, "15", "45"),
      Exercise("exercise.lateralRaises", "muscle.shoulders", 4, "15", "30"),
      Exercise("exercise.tricepDips", "muscle.triceps", 3, "12-15", "45")
    ]),
    WorkoutDay("day.tuesday", "workout.pullDay", "55", [
      Exercise("exercise.deadlift", "muscle.back", 4, "6-8", "120"),
      Exercise("exercise.pullups", "muscle.back", 4, "10-12", "60"),
      Exercise("exercise.barbellRow", "muscle.back", 4, "10-12", "60"),
      Exercise("exercise.facePulls", "muscle.rearDelts", 3, "15", "45"),
      Exercise("exercise.hammerCurls", "muscle.biceps", 3, "12-15", "45"),
      Exercise("exercise.reverseCurls", "muscle.forearms", 3, "15", "30")
    ]),
    WorkoutDay("day.wednesday", "workout.legs", "60", [
      Exercise("exercise.squats", "muscle.quads", 5, "8-10", "120"),
      Exercise("exercise.legPress", "muscle.legs", 4, "12-15", "75"),
      Exercise("exercise.romanianDeadlift", "muscle.hamstrings", 4, "10-12", "90"),
      Exercise("exercise.walkingLunges", "muscle.legs", 3, "15", "60"),
      Exercise("exercise.legCurl", "muscle.hamstrings", 3, "15", "45"),
      Exercise("exercise.calfRaises", "muscle.calves", 4, "20", "30")
    ]),
    WorkoutDay("day.thursday", "workout.upperBodyMetabolic", "50", [
      Exercise("exercise.dumbbellBenchPress", "muscle.chest", 4, "12", "45"),
      Exercise("exercise.dumbbellRow", "muscle.back", 4, "12", "45"),
      Exercise("exercise.arnoldPress", "muscle.shoulders", 3, "12", "45"),
      Exercise("exercise.diamondPushups", "muscle.triceps", 3, "12-15", "45"),
      Exercise("exercise.chinups", "muscle.biceps", 3, "10-12", "45")
    ]),
    WorkoutDay("day.friday", "workout.lowerBodyCore", "55", [
      Exercise("exercise.frontSquats", "muscle.quads", 4, "10-12", "90"),
      Exercise("exercise.hipThrust", "muscle.glutes", 4, "12-15", "60"),
      Exercise("exercise.bulgarianSplitSquats", "muscle.legs", 3, "12", "60"),
      Exercise("exercise.hangingLegRaise", "muscle.abs", 4, "12-15", "45"),
      Exercise("exercise.plank", "muscle.core", 3, "60s", "30")
    ]),
    WorkoutDay("day.saturday", "workout.hiitCircuit", "40", [
      Exercise("exercise.kettlebellSwings", "muscle.fullBody", 5, "20", "30"),
      Exercise("exercise.boxJumps", "muscle.legs", 5, "12", "30"),
      Exercise("exercise.medicBallSlams", "muscle.fullBody", 5, "15", "30"),
      Exercise("exercise.prowlerPush", "muscle.fullBody", 5, "20m", "45")
    ])
  ]
  /** `workoutPlansByBodyType[bt]`: level key to the authored week. */
  function PlansFor(bt: BodyType): (m: map<string, seq<WorkoutDay>>)
    ensures m.Keys == Levels
  {
    match bt
    case Ectomorph =>
      map["beginner" := EctomorphBeginner, "intermediate" := EctomorphIntermediate, "advanced" := EctomorphAdvanced]
    case Mesomorph =>
      map["beginner" := MesomorphBeginner, "intermediate" := MesomorphIntermediate, "advanced" := MesomorphAdvanced]
    case Endomorph =>
      map["beginner" := EndomorphBeginner, "intermediate" := EndomorphIntermediate, "advanced" := EndomorphAdvanced]
  }

  /** Every exercise of a day prescribes between three and five sets. */
  predicate DaySetsInRange(d: WorkoutDay)
  {
    forall j :: 0 <= j < |d.exercises| ==> 3 <= d.exercises[j].sets <= 5
  }

  /** Every exercise of every day of a week prescribes between three and five sets. */
  predicate SetsInRange(days: seq<WorkoutDay>)
  {
    forall i :: 0 <= i < |days| ==> DaySetsInRange(days[i])
  }

  /** Every authored week has between three and six days, and the sizes are
      the ones the catalog is written with. */
  lemma CatalogDayCounts(bt: BodyType, level: string)
    requires level in Levels
    ensures 3 <= |PlansFor(bt)[level]| <= 6
    ensures |PlansFor(Ectomorph)["beginner"]| == 3 && |PlansFor(Ectomorph)["intermediate"]| == 4
    ensures |PlansFor(Ectomorph)["advanced"]| == 4
    ensures |PlansFor(Mesomorph)["beginner"]| == 3 && |PlansFor(Mesomorph)["intermediate"]| == 4
    ensures |PlansFor(Mesomorph)["advanced"]| == 5
    ensures |PlansFor(Endomorph)["beginner"]| == 3 && |PlansFor(Endomorph)["intermediate"]| == 5
    ensures |PlansFor(Endomorph)["advanced"]| == 6
  {
  }

  /** Every exercise in the catalog has between three and five sets. */
  lemma CatalogSetsInRange(bt: BodyType, level: string)
    requires level in Levels
    ensures SetsInRange(PlansFor(bt)[level])
  {
    WeekSetsInRangeEctomorphBeginner();
    WeekSetsInRangeEctomorphIntermediate();
    WeekSetsInRangeEctomorphAdvanced();
    WeekSetsInRangeMesomorphBeginner();
    WeekSetsInRangeMesomorphIntermediate();
    WeekSetsInRangeMesomorphAdvanced();
    WeekSetsInRangeEndomorphBeginner();
    WeekSetsInRangeEndomorphIntermediate();
    WeekSetsInRangeEndomorphAdvanced();
  }

  lemma WeekSetsInRangeEctomorphBeginner()
    ensures SetsInRange(EctomorphBeginner)
  {
    assert DaySetsInRange(EctomorphBeginner[0]);
    assert DaySetsInRange(EctomorphBeginner[1]);
    assert DaySetsInRange(EctomorphBeginner[2]);
  }

  lemma WeekSetsInRangeEctomorphIntermediate()
    ensures SetsInRange(EctomorphIntermediate)
  {
    assert DaySetsInRange(EctomorphIntermediate[0]);
    assert DaySetsInRange(EctomorphIntermediate[1]);
    assert DaySetsInRange(EctomorphIntermediate[2]);
    assert DaySetsInRange(EctomorphIntermediate[3]);
  }

  lemma WeekSetsInRangeEctomorphAdvanced()
    ensures SetsInRange(EctomorphAdvanced)
  {
    assert DaySetsInRange(EctomorphAdvanced[0]);
    assert DaySetsInRange(EctomorphAdvanced[1]);
    assert DaySetsInRange(EctomorphAdvanced[2]);
    assert DaySetsInRange(EctomorphAdvanced[3]);
  }

  lemma WeekSetsInRangeMesomorphBeginner()
    ensures SetsInRange(MesomorphBeginner)
  {
    assert DaySetsInRange(MesomorphBeginner[0]);
    assert DaySetsInRange(MesomorphBeginner[1]);
    assert DaySetsInRange(MesomorphBeginner[2]);
  }

  lemma WeekSetsInRangeMesomorphIntermediate()
    ensures SetsInRange(MesomorphIntermediate)
  {
    assert DaySetsInRange(MesomorphIntermediate[0]);
    assert DaySetsInRange(MesomorphIntermediate[1]);
    assert DaySetsInRange(MesomorphIntermediate[2]);
    assert DaySetsInRange(MesomorphIntermediate[3]);
  }

  lemma WeekSetsInRangeMesomorphAdvanced()
    ensures SetsInRange(MesomorphAdvanced)
  {
    assert DaySetsInRange(MesomorphAdvanced[0]);
    assert DaySetsInRange(MesomorphAdvanced[1]);
    assert DaySetsInRange(MesomorphAdvanced[2]);
    assert DaySetsInRange(MesomorphAdvanced[3]);
    assert DaySetsInRange(MesomorphAdvanced[4]);
  }

  lemma WeekSetsInRangeEndomorphBeginner()
    ensures SetsInRange(EndomorphBeginner)
  {
    assert DaySetsInRange(EndomorphBeginner[0]);
    assert DaySetsInRange(EndomorphBeginner[1]);
    assert DaySetsInRange(EndomorphBeginner[2]);
  }

  lemma WeekSetsInRangeEndomorphIntermediate()
    ensures SetsInRange(EndomorphIntermediate)
  {
    assert DaySetsInRange(EndomorphIntermediate[0]);
    assert DaySetsInRange(EndomorphIntermediate[1]);
    assert DaySetsInRange(EndomorphIntermediate[2]);
    assert DaySetsInRange(EndomorphIntermediate[3]);
    assert DaySetsInRange(EndomorphIntermediate[4]);
  }

  lemma WeekSetsInRangeEndomorphAdvanced()
    ensures SetsInRange(EndomorphAdvanced)
  {
    assert DaySetsInRange(EndomorphAdvanced[0]);
    assert DaySetsInRange(EndomorphAdvanced[1]);
    assert DaySetsInRange(EndomorphAdvanced[2]);
    assert DaySetsInRange(EndomorphAdvanced[3]);
    assert DaySetsInRange(EndomorphAdvanced[4]);
    assert DaySetsInRange(EndomorphAdvanced[5]);
  }
}
