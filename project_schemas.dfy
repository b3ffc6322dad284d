/** The project schemas of validations/project.schema.js. */
module ProjectSchemas {
  import opened Wrappers
  import opened JsonValues
  import opened Domain
  import opened Schemas

  const PriorityValues: seq<string> := ["LOW", "MEDIUM", "HIGH"]
  const ProjectStatusValues: seq<string> := ["ACTIVE", "PAUSED", "COMPLETED", "ARCHIVED"]

  const CreateProjectSchema: Schema := [
    Field("name", Str(1, Some(100)), Required),
    Field("description", Str(0, None), Optional),
    Field("color", Str(0, None), Optional),
    Field("priority", OneOf(PriorityValues), Optional),
    Field("deadline", Str(0, None), Optional)
  ]

  const UpdateProjectSchema: Schema := Partial(CreateProjectSchema)

  const UpdateProjectStatusSchema: Schema := [
    Field("status", OneOf(ProjectStatusValues), Required)
  ]

  lemma EnumsMatchDomain(s: string)
    ensures s in PriorityValues <==> ParsePriority(s).Some?
    ensures s in ProjectStatusValues <==> ParseProjectStatus(s).Some?
  {
  }

  /** Description, colour and deadline: any string when given; priority from
      its enum when given. */
  predicate OptionalFields(b: Json)
    requires b.JObj?
  {
    && (Get(b.members, "description").None? || StringAt(b, "description").Some?)
    && (Get(b.members, "color").None? || StringAt(b, "color").Some?)
    && (Get(b.members, "priority").None? || (var p := StringAt(b, "priority"); p.Some? && ParsePriority(p.value).Some?))
    && (Get(b.members, "deadline").None? || StringAt(b, "deadline").Some?)
  }

  lemma OptionalFieldsOk(f: Formats, s: Schema, b: Json)
    requires b.JObj? && (s == CreateProjectSchema || s == UpdateProjectSchema)
    ensures OptionalFields(b) <==>
      && FieldOk(f, s[1], Get(b.members, s[1].key))
      && FieldOk(f, s[2], Get(b.members, s[2].key))
      && FieldOk(f, s[3], Get(b.members, s[3].key))
      && FieldOk(f, s[4], Get(b.members, s[4].key))
  {
    assert s[1].rule == Str(0, None) && s[1].key == "description" && !s[1].presence.Required?;
    assert s[2].rule == Str(0, None) && s[2].key == "color" && !s[2].presence.Required?;
    assert s[3].rule == OneOf(PriorityValues) && s[3].key == "priority" && !s[3].presence.Required?;
    assert s[4].rule == Str(0, None) && s[4].key == "deadline" && !s[4].presence.Required?;
    forall x: string ensures x in PriorityValues <==> ParsePriority(x).Some? {
      EnumsMatchDomain(x);
    }
  }

  /** Creating a project: a name of 1 to 100 characters and the optional fields. */
  lemma CreateProjectRules(f: Formats, b: Json)
    requires b.JObj?
    ensures Valid(f, CreateProjectSchema, b) <==>
      (var name := StringAt(b, "name"); name.Some? && 1 <= |name.value| <= 100) && OptionalFields(b)
  {
    var s := CreateProjectSchema;
    assert FieldOk(f, s[0], Get(b.members, "name")) <==> (var name := StringAt(b, "name"); name.Some? && 1 <= |name.value| <= 100);
    OptionalFieldsOk(f, s, b);
    ValidFive(f, s, b);
  }

  /** Updating a project: every field optional, same per-field rules. */
  lemma UpdateProjectRules(f: Formats, b: Json)
    requires b.JObj?
    ensures Valid(f, UpdateProjectSchema, b) <==>
      && (Get(b.members, "name").None? || (var name := StringAt(b, "name"); name.Some? && 1 <= |name.value| <= 100))
      && OptionalFields(b)
    ensures Valid(f, UpdateProjectSchema, JObj([]))
  {
    var s := UpdateProjectSchema;
    assert s[0] == Field("name", Str(1, Some(100)), Optional);
    assert FieldOk(f, s[0], Get(b.members, "name")) <==>
      (Get(b.members, "name").None? || (var name := StringAt(b, "name"); name.Some? && 1 <= |name.value| <= 100));
    OptionalFieldsOk(f, s, b);
    ValidFive(f, s, b);
    PartialIsWeaker(f, CreateProjectSchema, b);
  }

  /** A status change needs one of the four project statuses. */
  lemma UpdateProjectStatusRules(f: Formats, b: Json)
    requires b.JObj?
    ensures Valid(f, UpdateProjectStatusSchema, b) <==>
      (var t := StringAt(b, "status"); t.Some? && ParseProjectStatus(t.value).Some?)
  {
    assert FieldOk(f, UpdateProjectStatusSchema[0], Get(b.members, "status")) <==>
      (var t := StringAt(b, "status"); t.Some? && t.value in ProjectStatusValues);
    var t := StringAt(b, "status");
    if t.Some? {
      EnumsMatchDomain(t.value);
    }
  }
}
