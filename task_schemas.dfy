/** The task schemas of validations/task.schema.js. */
module TaskSchemas {
  import opened Wrappers
  import opened JsonValues
  import opened Domain
  import opened Schemas

  const PriorityValues: seq<string> := ["LOW", "MEDIUM", "HIGH"]
  const TaskStatusValues: seq<string> := ["TODO", "IN_PROGRESS", "COMPLETED"]

  const CreateTaskSchema: Schema := [
    Field("title", Str(1, Some(200)), Required),
    Field("description", Str(0, Some(1000)), Optional),
    Field("priority", OneOf(PriorityValues), Optional),
    Field("dueDate", DateTime, Optional),
    Field("status", OneOf(TaskStatusValues), Optional)
  ]

  const UpdateTaskSchema: Schema := Partial(CreateTaskSchema)

  const UpdateTaskStatusSchema: Schema := [
    Field("status", OneOf(TaskStatusValues), Required)
  ]

  const ReorderTasksSchema: Schema := [
    Field("taskIds", Strings, Required)
  ]

  /** The wire enums are exactly the spellings of the stored ones. */
  lemma EnumsMatchDomain(s: string)
    ensures s in PriorityValues <==> ParsePriority(s).Some?
    ensures s in TaskStatusValues <==> ParseTaskStatus(s).Some?
  {
  }

  /** Creating a task: a title of 1 to 200 characters; a description of at
      most 1000; a priority, a due-date string and a status, each optional
      but from its enum or format when given. */
  lemma CreateTaskRules(f: Formats, b: Json)
    requires b.JObj?
    ensures Valid(f, CreateTaskSchema, b) <==>
      && (var title := StringAt(b, "title"); title.Some? && 1 <= |title.value| <= 200)
      && OptionalFields(f, b)
  {
    var s := CreateTaskSchema;
    var m := b.members;
    assert FieldOk(f, s[0], Get(m, "title")) <==> (var title := StringAt(b, "title"); title.Some? && 1 <= |title.value| <= 200);
    OptionalFieldsOk(f, s, b);
    ValidFive(f, s, b);
  }

  /** The four fields besides the title, as both schemas check them. */
  predicate OptionalFields(f: Formats, b: Json)
    requires b.JObj?
  {
    && (Get(b.members, "description").None? || (var d := StringAt(b, "description"); d.Some? && |d.value| <= 1000))
    && (Get(b.members, "priority").None? || (var p := StringAt(b, "priority"); p.Some? && ParsePriority(p.value).Some?))
    && (Get(b.members, "dueDate").None? || (var d := StringAt(b, "dueDate"); d.Some? && f.isDateTime(d.value)))
    && (Get(b.members, "status").None? || (var t := StringAt(b, "status"); t.Some? && ParseTaskStatus(t.value).Some?))
  }

  lemma OptionalFieldsOk(f: Formats, s: Schema, b: Json)
    requires b.JObj? && (s == CreateTaskSchema || s == UpdateTaskSchema)
    ensures OptionalFields(f, b) <==>
      && FieldOk(f, s[1], Get(b.members, s[1].key))
      && FieldOk(f, s[2], Get(b.members, s[2].key))
      && FieldOk(f, s[3], Get(b.members, s[3].key))
      && FieldOk(f, s[4], Get(b.members, s[4].key))
  {
    assert s[1].rule == Str(0, Some(1000)) && s[1].key == "description" && !s[1].presence.Required?;
    assert s[2].rule == OneOf(PriorityValues) && s[2].key == "priority" && !s[2].presence.Required?;
    assert s[3].rule == DateTime && s[3].key == "dueDate" && !s[3].presence.Required?;
    assert s[4].rule == OneOf(TaskStatusValues) && s[4].key == "status" && !s[4].presence.Required?;
    forall x: string ensures x in PriorityValues <==> ParsePriority(x).Some? {
      EnumsMatchDomain(x);
    }
    forall x: string ensures x in TaskStatusValues <==> ParseTaskStatus(x).Some? {
      EnumsMatchDomain(x);
    }
  }

  /** Updating a task: the same rules, but the title may be absent too, so
      the empty object passes. */
  lemma UpdateTaskRules(f: Formats, b: Json)
    requires b.JObj?
    ensures Valid(f, UpdateTaskSchema, b) <==>
      && (Get(b.members, "title").None? || (var title := StringAt(b, "title"); title.Some? && 1 <= |title.value| <= 200))
      && OptionalFields(f, b)
    ensures Valid(f, UpdateTaskSchema, JObj([]))
  {
    var s := UpdateTaskSchema;
    var m := b.members;
    assert s[0] == Field("title", Str(1, Some(200)), Optional);
    assert FieldOk(f, s[0], Get(m, "title")) <==>
      (Get(b.members, "title").None? || (var title := StringAt(b, "title"); title.Some? && 1 <= |title.value| <= 200));
    OptionalFieldsOk(f, s, b);
    ValidFive(f, s, b);
    PartialIsWeaker(f, CreateTaskSchema, b);
  }

  /** A status change needs one of the three task statuses. */
  lemma UpdateTaskStatusRules(f: Formats, b: Json)
    requires b.JObj?
    ensures Valid(f, UpdateTaskStatusSchema, b) <==>
      (var t := StringAt(b, "status"); t.Some? && ParseTaskStatus(t.value).Some?)
  {
    assert FieldOk(f, UpdateTaskStatusSchema[0], Get(b.members, "status")) <==>
      (var t := StringAt(b, "status"); t.Some? && t.value in TaskStatusValues);
    var t := StringAt(b, "status");
    if t.Some? {
      EnumsMatchDomain(t.value);
    }
  }

  /** A reorder needs `taskIds`, an array whose items are all strings. */
  lemma ReorderRules(f: Formats, b: Json)
    requires b.JObj?
    ensures Valid(f, ReorderTasksSchema, b) <==>
      (var ids := Get(b.members, "taskIds");
       ids.Some? && ids.value.JArr? && forall i :: 0 <= i < |ids.value.items| ==> ids.value.items[i].JStr?)
  {
    assert ReorderTasksSchema[0].key == "taskIds";
  }
}
