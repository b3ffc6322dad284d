/** The account schemas of validations/auth.schema.js. */
module AuthSchemas {
  import opened Wrappers
  import opened Text
  import opened JsonValues
  import opened Schemas

  const RegisterSchema: Schema := [
    Field("name", Str(2, Some(50)), Required),
    Field("email", Email, Required),
    Field("password", Password, Required)
  ]

  const LoginSchema: Schema := [
    Field("email", Email, Required),
    Field("password", Str(1, None), Required)
  ]

  const ChangePasswordSchema: Schema := [
    Field("currentPassword", Str(1, None), Required),
    Field("newPassword", Password, Required)
  ]

  const UpdateProfileSchema: Schema := [
    Field("name", Str(2, Some(50)), Required)
  ]

  /** Registration: a name of 2 to 50 characters, an email and a password
      meeting the policy. */
  lemma RegisterRules(f: Formats, b: Json)
    requires b.JObj?
    ensures Valid(f, RegisterSchema, b) <==>
      && (var name := StringAt(b, "name"); name.Some? && 2 <= |name.value| <= 50)
      && (var email := StringAt(b, "email"); email.Some? && f.isEmail(email.value))
      && (var password := StringAt(b, "password"); password.Some? && PasswordOk(password.value))
  {
    var s := RegisterSchema;
    var m := b.members;
    assert FieldOk(f, s[0], Get(m, "name")) <==> (var name := StringAt(b, "name"); name.Some? && 2 <= |name.value| <= 50);
    assert FieldOk(f, s[1], Get(m, "email")) <==> (var email := StringAt(b, "email"); email.Some? && f.isEmail(email.value));
    assert FieldOk(f, s[2], Get(m, "password")) <==> (var password := StringAt(b, "password"); password.Some? && PasswordOk(password.value));
    ValidThree(f, s, b);
  }

  /** The registered email comes out lower-cased, then trimmed. */
  lemma RegisterEmailNormalized(f: Formats, b: Json)
    requires Valid(f, RegisterSchema, b)
    ensures var out := Parse(f, RegisterSchema, b).value.members;
      && StringAt(b, "email").Some?
      && Get(out, "email") == Some(JStr(Trim(ToLower(StringAt(b, "email").value))))
      && ToLower(Get(out, "email").value.s) == Get(out, "email").value.s
  {
    assert RegisterSchema[1].key == "email";
    assert FieldOk(f, RegisterSchema[1], Get(b.members, "email"));
    OutputField(RegisterSchema, b.members, 1);
  }

  /** Login: an email and any non-empty password. */
  lemma LoginRules(f: Formats, b: Json)
    requires b.JObj?
    ensures Valid(f, LoginSchema, b) <==>
      && (var email := StringAt(b, "email"); email.Some? && f.isEmail(email.value))
      && (var password := StringAt(b, "password"); password.Some? && password.value != "")
  {
    var s := LoginSchema;
    var m := b.members;
    assert FieldOk(f, s[0], Get(m, "email")) <==> (var email := StringAt(b, "email"); email.Some? && f.isEmail(email.value));
    assert FieldOk(f, s[1], Get(m, "password")) <==> (var password := StringAt(b, "password"); password.Some? && password.value != "");
    ValidTwo(f, s, b);
  }

  /** Changing the password: a non-empty current one and a new one meeting
      the same policy as registration. */
  lemma ChangePasswordRules(f: Formats, b: Json)
    requires b.JObj?
    ensures Valid(f, ChangePasswordSchema, b) <==>
      && (var current := StringAt(b, "currentPassword"); current.Some? && current.value != "")
      && (var password := StringAt(b, "newPassword"); password.Some? && PasswordOk(password.value))
  {
    var s := ChangePasswordSchema;
    var m := b.members;
    assert FieldOk(f, s[0], Get(m, "currentPassword")) <==> (var current := StringAt(b, "currentPassword"); current.Some? && current.value != "");
    assert FieldOk(f, s[1], Get(m, "newPassword")) <==> (var password := StringAt(b, "newPassword"); password.Some? && PasswordOk(password.value));
    ValidTwo(f, s, b);
  }

  lemma UpdateProfileRules(f: Formats, b: Json)
    requires b.JObj?
    ensures Valid(f, UpdateProfileSchema, b) <==> (var name := StringAt(b, "name"); name.Some? && 2 <= |name.value| <= 50)
  {
    assert FieldOk(f, UpdateProfileSchema[0], Get(b.members, "name")) <==> (var name := StringAt(b, "name"); name.Some? && 2 <= |name.value| <= 50);
  }
}
