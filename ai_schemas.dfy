/** The plan schemas of validations/ai.schema.js. */
module AiSchemas {
  import opened Wrappers
  import opened JsonValues
  import opened Schemas

  const ExperienceValues: seq<string> := ["BEGINNER", "INTERMEDIATE", "ADVANCED"]

  const DefaultWeeks: real := 4.0

  const GeneratePlanSchema: Schema := [
    Field("goal", Str(10, Some(500)), Required),
    Field("experience", OneOf(ExperienceValues), Required),
    Field("hoursPerDay", Num(0.5, 12.0), Required),
    Field("durationWeeks", Num(1.0, 52.0), Default(JNum(DefaultWeeks))),
    Field("focusAreas", Strings, Optional),
    Field("additionalContext", Str(0, Some(1000)), Optional)
  ]

  const ImportPlanSchema: Schema := [
    Field("planId", Str(0, None), Required),
    Field("projectName", Str(1, Some(100)), Optional),
    Field("selectedTaskIds", Numbers, Optional)
  ]

  /** A number for `key` in [lo, hi]. */
  predicate NumberIn(b: Json, key: string, lo: real, hi: real)
    requires b.JObj?
  {
    var v := Get(b.members, key);
    v.Some? && v.value.JNum? && lo <= v.value.n <= hi
  }

  /** Generating a plan: a goal of 10 to 500 characters, an experience level,
      0.5 to 12 hours a day, optionally 1 to 52 weeks, string focus areas and
      at most 1000 characters of extra context. */
  lemma GeneratePlanRules(f: Formats, b: Json)
    requires b.JObj?
    ensures Valid(f, GeneratePlanSchema, b) <==>
      && (var goal := StringAt(b, "goal"); goal.Some? && 10 <= |goal.value| <= 500)
      && (var level := StringAt(b, "experience"); level.Some? && level.value in ExperienceValues)
      && NumberIn(b, "hoursPerDay", 0.5, 12.0)
      && (Get(b.members, "durationWeeks").None? || NumberIn(b, "durationWeeks", 1.0, 52.0))
      && (var areas := Get(b.members, "focusAreas");
          areas.None? || (areas.value.JArr? && forall i :: 0 <= i < |areas.value.items| ==> areas.value.items[i].JStr?))
      && (Get(b.members, "additionalContext").None? || (var c := StringAt(b, "additionalContext"); c.Some? && |c.value| <= 1000))
  {
    GoalAndLevel(f, b);
    HoursAndWeeks(f, b);
    AreasAndContext(f, b);
    ValidSix(f, GeneratePlanSchema, b);
  }

  lemma GoalAndLevel(f: Formats, b: Json)
    requires b.JObj?
    ensures var s := GeneratePlanSchema;
      && s[0].key == "goal" && s[1].key == "experience"
      && (FieldOk(f, s[0], Get(b.members, "goal")) <==> (var goal := StringAt(b, "goal"); goal.Some? && 10 <= |goal.value| <= 500))
      && (FieldOk(f, s[1], Get(b.members, "experience")) <==> (var level := StringAt(b, "experience"); level.Some? && level.value in ExperienceValues))
  {
  }

  lemma HoursAndWeeks(f: Formats, b: Json)
    requires b.JObj?
    ensures var s := GeneratePlanSchema;
      && s[2].key == "hoursPerDay" && s[3].key == "durationWeeks"
      && (FieldOk(f, s[2], Get(b.members, "hoursPerDay")) <==> NumberIn(b, "hoursPerDay", 0.5, 12.0))
      && (FieldOk(f, s[3], Get(b.members, "durationWeeks")) <==> (Get(b.members, "durationWeeks").None? || NumberIn(b, "durationWeeks", 1.0, 52.0)))
  {
  }

  lemma AreasAndContext(f: Formats, b: Json)
    requires b.JObj?
    ensures var s := GeneratePlanSchema;
      && s[4].key == "focusAreas" && s[5].key == "additionalContext"
      && (FieldOk(f, s[4], Get(b.members, "focusAreas")) <==>
          (var areas := Get(b.members, "focusAreas");
           areas.None? || (areas.value.JArr? && forall i :: 0 <= i < |areas.value.items| ==> areas.value.items[i].JStr?)))
      && (FieldOk(f, s[5], Get(b.members, "additionalContext")) <==>
          (Get(b.members, "additionalContext").None? || (var c := StringAt(b, "additionalContext"); c.Some? && |c.value| <= 1000)))
  {
  }

  /** An absent `durationWeeks` parses as 4; a given one is kept. */
  lemma DurationDefault(f: Formats, b: Json)
    requires Valid(f, GeneratePlanSchema, b)
    ensures var out := Parse(f, GeneratePlanSchema, b).value.members;
      Get(out, "durationWeeks") ==
        if Get(b.members, "durationWeeks").None? then Some(JNum(DefaultWeeks)) else Get(b.members, "durationWeeks")
  {
    GeneratePlanShape();
    DefaultApplies(f, GeneratePlanSchema, b, 3);
  }

  /** The generation schema's keys are distinct and its fourth field is the
      defaulted number of weeks. */
  lemma GeneratePlanShape()
    ensures DistinctKeys(GeneratePlanSchema)
    ensures GeneratePlanSchema[3] == Field("durationWeeks", Num(1.0, 52.0), Default(JNum(DefaultWeeks)))
  {
    var s := GeneratePlanSchema;
    var firsts := "gehdfa";
    assert forall k :: 0 <= k < 6 ==> s[k].key[0] == firsts[k];
    forall i, j | 0 <= i < j < |s| ensures s[i].key != s[j].key {
      assert firsts[i] != firsts[j];
    }
  }

  /** Importing a plan: a string plan id and, when given, a project name of 1
      to 100 characters and an array of numbers. */
  lemma ImportPlanRules(f: Formats, b: Json)
    requires b.JObj?
    ensures Valid(f, ImportPlanSchema, b) <==>
      && StringAt(b, "planId").Some?
      && (Get(b.members, "projectName").None? || (var n := StringAt(b, "projectName"); n.Some? && 1 <= |n.value| <= 100))
      && (var ids := Get(b.members, "selectedTaskIds");
          ids.None? || (ids.value.JArr? && forall i :: 0 <= i < |ids.value.items| ==> ids.value.items[i].JNum?))
  {
    var s := ImportPlanSchema;
    assert s[0].key == "planId" && s[1].key == "projectName" && s[2].key == "selectedTaskIds";
    ValidThree(f, s, b);
  }
}
