/** The part of a zod object schema the validations use: each field has a key,
    a rule for its value and whether it may be absent. A body passes when it
    is an object and every field does; the parsed value keeps only the
    schema's fields, in schema order, and applies the email transforms and
    defaults. */
module Schemas {
  import opened Wrappers
  import opened Text
  import opened JsonValues

  /** The string formats zod checks with its own regular expressions. */
  datatype Formats = Formats(isEmail: string -> bool, isDateTime: string -> bool)

  datatype Rule =
    | Str(min: nat, max: Option<nat>)   // z.string().min(min).max(max)
    | Email                             // z.string().email().toLowerCase().trim()
    | DateTime                          // z.string().datetime()
    | Password                          // min(8) and the four lookahead patterns
    | OneOf(values: seq<string>)        // z.enum([...])
    | Num(least: real, most: real)      // z.number().min(least).max(most)
    | Strings                           // z.array(z.string())
    | Numbers                           // z.array(z.number())

  /** `.optional()` accepts a missing key but not `null`; `.default(v)` fills it in. */
  datatype Presence = Required | Optional | Default(value: Json)

  datatype Field = Field(key: string, rule: Rule, presence: Presence)

  type Schema = seq<Field>

  datatype Issue = NotAnObject | Invalid(key: string)

  // ---------------------------------------------------------------------------
  // The password policy

  predicate IsLowerAscii(c: char) { 'a' <= c <= 'z' }
  predicate IsUpperAscii(c: char) { 'A' <= c <= 'Z' }
  predicate IsSpecial(c: char) { c in {'@', '$', '!', '%', '*', '?', '&'} }

  /** `/^(?=.*[class])/`: `.` does not match a line terminator, so the class
      must occur before the first one. */
  predicate OnFirstLine(s: string, inClass: char -> bool) {
    exists i :: 0 <= i < |s| && inClass(s[i]) && forall j :: 0 <= j < i ==> !IsLineTerminator(s[j])
  }

  predicate PasswordOk(s: string) {
    && |s| >= 8
    && OnFirstLine(s, IsLowerAscii)
    && OnFirstLine(s, IsUpperAscii)
    && OnFirstLine(s, IsDigit)
    && OnFirstLine(s, IsSpecial)
  }

  // ---------------------------------------------------------------------------
  // Fields and bodies

  predicate Accepts(f: Formats, r: Rule, v: Json) {
    match r
    case Str(min, max) => v.JStr? && min <= |v.s| && (max.None? || |v.s| <= max.value)
    case Email => v.JStr? && f.isEmail(v.s)
    case DateTime => v.JStr? && f.isDateTime(v.s)
    case Password => v.JStr? && PasswordOk(v.s)
    case OneOf(values) => v.JStr? && v.s in values
    case Num(least, most) => v.JNum? && least <= v.n <= most
    case Strings => v.JArr? && forall i :: 0 <= i < |v.items| ==> v.items[i].JStr?
    case Numbers => v.JArr? && forall i :: 0 <= i < |v.items| ==> v.items[i].JNum?
  }

  /** A field given the body's value for its key, if any. */
  predicate FieldOk(f: Formats, field: Field, value: Option<Json>) {
    match value
    case None => !field.presence.Required?
    case Some(v) => Accepts(f, field.rule, v)
  }

  predicate Valid(f: Formats, schema: Schema, body: Json) {
    body.JObj? && forall i :: 0 <= i < |schema| ==> FieldOk(f, schema[i], Get(body.members, schema[i].key))
  }

  /** The value the parsed object holds for an accepted one. */
  function Convert(r: Rule, v: Json): (w: Json)
    ensures r.Email? && v.JStr? ==> w.JStr? && ToLower(w.s) == w.s
    ensures r.Email? && v.JStr? && |w.s| > 0 ==> !IsJsSpace(w.s[0]) && !IsJsSpace(w.s[|w.s| - 1])
    ensures !r.Email? ==> w == v
  {
    if r.Email? && v.JStr? then
      TrimmedLowerIsLower(v.s);
      JStr(Trim(ToLower(v.s)))
    else v
  }

  /** The keys of the fields that fail, in schema order. */
  function Failing(f: Formats, schema: Schema, members: seq<(string, Json)>): (r: seq<string>)
    ensures |r| == 0 <==> forall i :: 0 <= i < |schema| ==> FieldOk(f, schema[i], Get(members, schema[i].key))
    ensures forall k :: k in r ==> exists i :: 0 <= i < |schema| && schema[i].key == k && !FieldOk(f, schema[i], Get(members, k))
  {
    if |schema| == 0 then []
    else
      var rest := Failing(f, schema[1..], members);
      assert forall i :: 1 <= i < |schema| ==> schema[i] == schema[1..][i - 1];
      (if FieldOk(f, schema[0], Get(members, schema[0].key)) then [] else [schema[0].key]) + rest
  }

  /** What a field contributes to the parsed object: its converted value when
      present, its default when absent, otherwise nothing. */
  function Parsed(field: Field, members: seq<(string, Json)>): (r: Option<Json>)
    ensures Get(members, field.key).Some? ==> r == Some(Convert(field.rule, Get(members, field.key).value))
    ensures Get(members, field.key).None? ==> r == (if field.presence.Default? then Some(field.presence.value) else None)
  {
    var value := Get(members, field.key);
    if value.Some? then Some(Convert(field.rule, value.value))
    else if field.presence.Default? then Some(field.presence.value)
    else None
  }

  /** The parsed object's members: one per field that `Parsed` gives a value,
      in schema order; unknown keys are dropped. */
  function Output(schema: Schema, members: seq<(string, Json)>): (r: seq<(string, Json)>)
    ensures forall i :: 0 <= i < |r| ==> exists j :: 0 <= j < |schema| && r[i].0 == schema[j].key
  {
    if |schema| == 0 then []
    else
      var value := Parsed(schema[0], members);
      var rest := Output(schema[1..], members);
      assert forall i :: 0 <= i < |rest| ==> exists j :: 1 <= j < |schema| && rest[i].0 == schema[j].key by {
        forall i | 0 <= i < |rest| ensures exists j :: 1 <= j < |schema| && rest[i].0 == schema[j].key {
          var j :| 0 <= j < |schema[1..]| && rest[i].0 == schema[1..][j].key;
          assert schema[1..][j] == schema[j + 1];
        }
      }
      (if value.Some? then [(schema[0].key, value.value)] else []) + rest
  }

  /** `schema.safeParse(body)`. */
  function Parse(f: Formats, schema: Schema, body: Json): (r: Result<Json, seq<Issue>>)
    ensures r.Ok? <==> Valid(f, schema, body)
    ensures r.Ok? ==> r.value == JObj(Output(schema, body.members))
    ensures !body.JObj? ==> r == Err([NotAnObject])
    ensures r.Err? && body.JObj? ==> |r.error| > 0 && forall i :: 0 <= i < |r.error| ==> r.error[i].Invalid?
  {
    if !body.JObj? then Err([NotAnObject])
    else
      var bad := Failing(f, schema, body.members);
      if |bad| == 0 then Ok(JObj(Output(schema, body.members)))
      else Err(seq(|bad|, i requires 0 <= i < |bad| => Invalid(bad[i])))
  }

  /** `.partial()`: every field may be absent. */
  function Partial(schema: Schema): (r: Schema)
    ensures |r| == |schema|
    ensures forall i :: 0 <= i < |r| ==> r[i] == schema[i].(presence := Optional)
  {
    seq(|schema|, i requires 0 <= i < |schema| => schema[i].(presence := Optional))
  }

  /** The body's value for `key` when it is a string. */
  function StringAt(b: Json, key: string): (r: Option<string>)
    requires b.JObj?
    ensures r.Some? <==> Get(b.members, key).Some? && Get(b.members, key).value.JStr?
    ensures r.Some? ==> Get(b.members, key) == Some(JStr(r.value))
  {
    var v := Get(b.members, key);
    if v.Some? && v.value.JStr? then Some(v.value.s) else None
  }

  predicate DistinctKeys(schema: Schema) {
    forall i, j :: 0 <= i < j < |schema| ==> schema[i].key != schema[j].key
  }

  // ---------------------------------------------------------------------------
  // Unfolding small schemas

  lemma ValidTwo(f: Formats, s: Schema, b: Json)
    requires |s| == 2 && b.JObj?
    ensures Valid(f, s, b) <==> FieldOk(f, s[0], Get(b.members, s[0].key)) && FieldOk(f, s[1], Get(b.members, s[1].key))
  {
    if FieldOk(f, s[0], Get(b.members, s[0].key)) && FieldOk(f, s[1], Get(b.members, s[1].key)) {
      forall i | 0 <= i < |s| ensures FieldOk(f, s[i], Get(b.members, s[i].key)) {
        assert i == 0 || i == 1;
      }
    }
  }

  lemma ValidThree(f: Formats, s: Schema, b: Json)
    requires |s| == 3 && b.JObj?
    ensures Valid(f, s, b) <==>
      && FieldOk(f, s[0], Get(b.members, s[0].key))
      && FieldOk(f, s[1], Get(b.members, s[1].key))
      && FieldOk(f, s[2], Get(b.members, s[2].key))
  {
    if
      && FieldOk(f, s[0], Get(b.members, s[0].key))
      && FieldOk(f, s[1], Get(b.members, s[1].key))
      && FieldOk(f, s[2], Get(b.members, s[2].key))
    {
      forall i | 0 <= i < |s| ensures FieldOk(f, s[i], Get(b.members, s[i].key)) {
        assert i == 0 || i == 1 || i == 2;
      }
    }
  }

  lemma ValidFive(f: Formats, s: Schema, b: Json)
    requires |s| == 5 && b.JObj?
    ensures Valid(f, s, b) <==>
      && FieldOk(f, s[0], Get(b.members, s[0].key))
      && FieldOk(f, s[1], Get(b.members, s[1].key))
      && FieldOk(f, s[2], Get(b.members, s[2].key))
      && FieldOk(f, s[3], Get(b.members, s[3].key))
      && FieldOk(f, s[4], Get(b.members, s[4].key))
  {
    if
      && FieldOk(f, s[0], Get(b.members, s[0].key))
      && FieldOk(f, s[1], Get(b.members, s[1].key))
      && FieldOk(f, s[2], Get(b.members, s[2].key))
      && FieldOk(f, s[3], Get(b.members, s[3].key))
      && FieldOk(f, s[4], Get(b.members, s[4].key))
    {
      forall i | 0 <= i < |s| ensures FieldOk(f, s[i], Get(b.members, s[i].key)) {
        assert i == 0 || i == 1 || i == 2 || i == 3 || i == 4;
      }
    }
  }

  lemma ValidSix(f: Formats, s: Schema, b: Json)
    requires |s| == 6 && b.JObj?
    ensures Valid(f, s, b) <==>
      && FieldOk(f, s[0], Get(b.members, s[0].key))
      && FieldOk(f, s[1], Get(b.members, s[1].key))
      && FieldOk(f, s[2], Get(b.members, s[2].key))
      && FieldOk(f, s[3], Get(b.members, s[3].key))
      && FieldOk(f, s[4], Get(b.members, s[4].key))
      && FieldOk(f, s[5], Get(b.members, s[5].key))
  {
    if
      && FieldOk(f, s[0], Get(b.members, s[0].key))
      && FieldOk(f, s[1], Get(b.members, s[1].key))
      && FieldOk(f, s[2], Get(b.members, s[2].key))
      && FieldOk(f, s[3], Get(b.members, s[3].key))
      && FieldOk(f, s[4], Get(b.members, s[4].key))
      && FieldOk(f, s[5], Get(b.members, s[5].key))
    {
      forall i | 0 <= i < |s| ensures FieldOk(f, s[i], Get(b.members, s[i].key)) {
        assert i == 0 || i == 1 || i == 2 || i == 3 || i == 4 || i == 5;
      }
    }
  }

  // ---------------------------------------------------------------------------
  // Properties

  /** What an accepted body parses to: each field present in the body with its
      converted value, an absent one with its default, or not at all. */
  lemma {:induction false} OutputField(schema: Schema, members: seq<(string, Json)>, i: nat)
    requires DistinctKeys(schema) && i < |schema|
    ensures Get(Output(schema, members), schema[i].key) == Parsed(schema[i], members)
  {
    var key := schema[i].key;
    var value := Parsed(schema[0], members);
    var head := if value.Some? then [(schema[0].key, value.value)] else [];
    var rest := Output(schema[1..], members);
    assert Output(schema, members) == head + rest;
    if i == 0 {
      assert forall j :: 0 <= j < |schema[1..]| ==> schema[1..][j].key != key;
      assert key !in Keys(rest);
      GetAfterMissing(head, rest, key);
      assert Get(head, key) == value by {
        if value.Some? {
          assert head[..0] == [];
        }
      }
    } else {
      assert schema[1..][i - 1] == schema[i];
      OutputField(schema[1..], members, i - 1);
      assert key in Keys(rest) || Get(rest, key).None?;
      if key in Keys(rest) {
        GetLater(head, rest, key);
      } else {
        GetAfterMissing(head, rest, key);
        assert key !in Keys(head) by {
          if value.Some? { assert schema[0].key != key; }
        }
      }
    }
  }

  /** A field with a default and no conversion comes out as given, or as its
      default when absent. */
  lemma DefaultApplies(f: Formats, schema: Schema, b: Json, i: nat)
    requires Valid(f, schema, b) && DistinctKeys(schema) && i < |schema|
    requires schema[i].presence.Default? && !schema[i].rule.Email?
    ensures var key := schema[i].key;
      Get(Parse(f, schema, b).value.members, key) ==
        if Get(b.members, key).None? then Some(schema[i].presence.value) else Get(b.members, key)
  {
    OutputField(schema, b.members, i);
  }

  lemma GetAfterMissing(a: seq<(string, Json)>, b: seq<(string, Json)>, key: string)
    requires key !in Keys(b)
    ensures Get(a + b, key) == Get(a, key)
  {
    if |b| > 0 {
      var last := b[|b| - 1];
      var init := b[..|b| - 1];
      assert b == init + [last];
      AppendAssoc(a, init, [last]);
      GetSnoc(a + init, last, key);
      KeysSnoc(init, last);
      GetAfterMissing(a, init, key);
    } else {
      assert a + b == a;
    }
  }

  lemma GetLater(a: seq<(string, Json)>, b: seq<(string, Json)>, key: string)
    requires key in Keys(b)
    ensures Get(a + b, key) == Get(b, key)
  {
    var last := b[|b| - 1];
    var init := b[..|b| - 1];
    assert b == init + [last];
    AppendAssoc(a, init, [last]);
    GetSnoc(a + init, last, key);
    GetSnoc(init, last, key);
    if last.0 != key {
      KeysSnoc(init, last);
      GetLater(a, init, key);
    }
  }

  /** A partial schema accepts every body the full one does, and the empty object. */
  lemma PartialIsWeaker(f: Formats, schema: Schema, body: Json)
    ensures Valid(f, schema, body) ==> Valid(f, Partial(schema), body)
    ensures Valid(f, Partial(schema), JObj([]))
  {
  }

  /** A password on one line passes exactly when it is long enough and holds
      each of the four character classes somewhere. */
  lemma PasswordOnOneLine(s: string)
    requires forall i :: 0 <= i < |s| ==> !IsLineTerminator(s[i])
    ensures PasswordOk(s) <==>
      && |s| >= 8
      && (exists i :: 0 <= i < |s| && IsLowerAscii(s[i]))
      && (exists i :: 0 <= i < |s| && IsUpperAscii(s[i]))
      && (exists i :: 0 <= i < |s| && IsDigit(s[i]))
      && (exists i :: 0 <= i < |s| && IsSpecial(s[i]))
  {
  }

  /** A class that only shows up after a line break does not count. */
  lemma ClassAfterLineBreak()
    ensures !PasswordOk("abcdefgh\nA1@")
  {
    var s := "abcdefgh\nA1@";
    assert IsLineTerminator(s[8]);
    assert forall i :: 0 <= i < 8 ==> !IsUpperAscii(s[i]);
  }
}
