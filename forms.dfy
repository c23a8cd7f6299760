/** The request forms of the API. Each field carries a chain of checks run
    in order: "required" stops the chain with its message alone when the
    value is blank, "e-mail" and "equal to" add their message and let the
    chain go on. A form is valid when no field has an error. The
    registration and e-mail update forms then refuse an address some user
    already has. */
module Forms {
  import opened Common
  import opened Models

  /** The characters Python's `str.strip()` removes. */
  predicate IsWhitespace(c: char) {
    var n := c as int;
    n == 32 || 9 <= n <= 13 || 28 <= n <= 31 || n == 0x85 || n == 0xA0 || n == 0x1680 ||
    0x2000 <= n <= 0x200A || n == 0x2028 || n == 0x2029 || n == 0x202F || n == 0x205F || n == 0x3000
  }

  /** A value the "required" check rejects: empty, or whitespace only. */
  predicate Blank(s: string) {
    forall i :: 0 <= i < |s| ==> IsWhitespace(s[i])
  }

  /** The submitted value of a field; a field missing from the request is the empty string. */
  function Value(data: map<string, string>, name: string): (v: string)
    ensures name !in data ==> v == ""
    ensures name in data ==> v == data[name]
  {
    if name in data then data[name] else ""
  }

  /** The checks a field can carry. */
  datatype Check =
    | Required(message: string)              // "data required"
    | EmailFormat(message: string)           // "e-mail"
    | EqualTo(other: string, message: string)

  /** The message of a "required" check declared without one. */
  const DefaultRequired: string := "This field is required."

  datatype Field = Field(name: string, checks: seq<Check>)

  /** The errors of one field after its checks from `checks` on, given the
      errors gathered so far. A failed "required" check discards those. */
  function RunChain(value: string, data: map<string, string>, checks: seq<Check>,
                    isEmail: string -> bool, errors: seq<string>): (r: seq<string>)
    ensures errors <= r || (|r| == 1 && exists i :: 0 <= i < |checks| && checks[i] == Required(r[0]))
    decreases |checks|
  {
    if checks == [] then errors
    else match checks[0]
      case Required(m) =>
        if Blank(value) then [m] else RunChain(value, data, checks[1..], isEmail, errors)
      case EmailFormat(m) =>
        RunChain(value, data, checks[1..], isEmail, if isEmail(value) then errors else errors + [m])
      case EqualTo(other, m) =>
        RunChain(value, data, checks[1..], isEmail, if value == Value(data, other) then errors else errors + [m])
  }

  /** Every message a chain reports is the message of one of its checks. */
  lemma {:induction false} ChainMessages(value: string, data: map<string, string>, checks: seq<Check>,
                                         isEmail: string -> bool, errors: seq<string>, msg: string)
    requires msg in RunChain(value, data, checks, isEmail, errors)
    ensures msg in errors || exists i :: 0 <= i < |checks| && checks[i].message == msg
    decreases |checks|
  {
    if checks != [] {
      var next := match checks[0]
        case Required(m) => errors
        case EmailFormat(m) => if isEmail(value) then errors else errors + [m]
        case EqualTo(other, m) => if value == Value(data, other) then errors else errors + [m];
      if checks[0].Required? && Blank(value) {
        assert checks[0].message == msg;
      } else {
        ChainMessages(value, data, checks[1..], isEmail, next, msg);
        if !(msg in errors) && msg !in next {
          var i :| 0 <= i < |checks[1..]| && checks[1..][i].message == msg;
          assert checks[i + 1].message == msg;
        }
      }
    }
  }

  /** The errors of every field, in declaration order. */
  function FormErrors(fields: seq<Field>, data: map<string, string>, isEmail: string -> bool): (e: seq<seq<string>>)
    ensures |e| == |fields|
    ensures forall i :: 0 <= i < |fields| ==>
              e[i] == RunChain(Value(data, fields[i].name), data, fields[i].checks, isEmail, [])
  {
    seq(|fields|, i requires 0 <= i < |fields| => RunChain(Value(data, fields[i].name), data, fields[i].checks, isEmail, []))
  }

  predicate NoErrors(e: seq<seq<string>>) {
    forall i :: 0 <= i < |e| ==> e[i] == []
  }

  /** The message the two e-mail forms add when the address is taken. */
  const EmailTaken: string := "Email already registered"

  /** Some user has this address (the `filter_by(email=...)` lookup). */
  predicate Registered(users: map<nat, User>, email: string) {
    exists k :: k in users && users[k].email == email
  }

  /** The errors of a form whose first field is the e-mail address, after
      the extra check: it runs only when the field checks all pass. */
  function UnregisteredErrors(fields: seq<Field>, data: map<string, string>, users: map<nat, User>,
                              isEmail: string -> bool): (e: seq<seq<string>>)
    requires |fields| > 0
    ensures |e| == |fields|
    ensures !NoErrors(FormErrors(fields, data, isEmail)) ==> e == FormErrors(fields, data, isEmail)
    ensures NoErrors(e) <==> NoErrors(FormErrors(fields, data, isEmail)) && !Registered(users, Value(data, fields[0].name))
    ensures EmailTaken in e[0] && EmailTaken !in FormErrors(fields, data, isEmail)[0] ==>
              NoErrors(FormErrors(fields, data, isEmail)) && Registered(users, Value(data, fields[0].name))
  {
    var e := FormErrors(fields, data, isEmail);
    if !NoErrors(e) then e
    else if Registered(users, Value(data, fields[0].name)) then
      assert e[0 := e[0] + [EmailTaken]][0] != [];
      e[0 := e[0] + [EmailTaken]]
    else e
  }

  // === The forms ===

  const EmailField: Field := Field("email", [Required("Email is required."), EmailFormat("Email is invalid.")])

  const LoginFields: seq<Field> := [EmailField, Field("password", [Required("Password is required.")])]

  const RegisterFields: seq<Field> :=
    [EmailField,
     Field("password", [Required("Password is required.")]),
     Field("password_confirm", [Required(DefaultRequired), EqualTo("password", "Passwords must match.")])]

  const ConfirmEmailFields: seq<Field> := [Field("token", [Required("Token is required.")])]

  const RequestResetFields: seq<Field> := [EmailField]

  const ResetPasswordFields: seq<Field> :=
    [Field("token", [Required("Token is required.")]),
     Field("new_password", [Required("Password is required.")]),
     Field("password_confirm", [Required(DefaultRequired), EqualTo("new_password", "Passwords must match.")])]

  const UpdatePasswordFields: seq<Field> :=
    [Field("curr_password", [Required("Current password is required.")]),
     Field("new_password", [Required("New password is required.")]),
     Field("password_confirm", [Required(DefaultRequired), EqualTo("new_password", "Passwords must match.")])]

  const UpdateEmailFields: seq<Field> := [EmailField]

  /** The errors of the e-mail field: "required" alone when blank, else
      "invalid" exactly when the address is malformed. */
  lemma EmailFieldErrors(data: map<string, string>, isEmail: string -> bool)
    ensures var v := Value(data, "email");
            RunChain(v, data, EmailField.checks, isEmail, []) ==
              if Blank(v) then ["Email is required."]
              else if isEmail(v) then [] else ["Email is invalid."]
  {
    var v := Value(data, "email");
    var rest := EmailField.checks[1..];
    assert rest == [EmailFormat("Email is invalid.")] && rest[1..] == [];
  }

  /** A single "required" field fails with its message exactly when blank. */
  lemma RequiredFieldErrors(data: map<string, string>, name: string, m: string, isEmail: string -> bool)
    ensures RunChain(Value(data, name), data, [Required(m)], isEmail, []) ==
              if Blank(Value(data, name)) then [m] else []
  {
    assert [Required(m)][1..] == [];
  }

  /** The confirmation field: "required" alone when blank, else "must
      match" exactly when it differs from the field it confirms. */
  lemma ConfirmFieldErrors(data: map<string, string>, other: string, isEmail: string -> bool)
    ensures var v := Value(data, "password_confirm");
            RunChain(v, data, [Required(DefaultRequired), EqualTo(other, "Passwords must match.")], isEmail, []) ==
              if Blank(v) then [DefaultRequired]
              else if v == Value(data, other) then [] else ["Passwords must match."]
  {
    var checks := [Required(DefaultRequired), EqualTo(other, "Passwords must match.")];
    var v := Value(data, "password_confirm");
    var rest := [EqualTo(other, "Passwords must match.")];
    assert checks[1..] == rest && rest[1..] == [];
    var next: seq<string> := if v == Value(data, other) then [] else ["Passwords must match."];
    assert RunChain(v, data, rest, isEmail, []) == RunChain(v, data, [], isEmail, next);
  }

  /** `LoginForm`: both fields required, the address well formed. */
  lemma LoginRules(data: map<string, string>, isEmail: string -> bool)
    ensures var e := FormErrors(LoginFields, data, isEmail);
            var email, password := Value(data, "email"), Value(data, "password");
            && (Blank(email) ==> e[0] == ["Email is required."])
            && (!Blank(email) && !isEmail(email) ==> e[0] == ["Email is invalid."])
            && (e[1] == if Blank(password) then ["Password is required."] else [])
            && (NoErrors(e) <==> !Blank(email) && isEmail(email) && !Blank(password))
  {
    EmailFieldErrors(data, isEmail);
    RequiredFieldErrors(data, "password", "Password is required.", isEmail);
    var e := FormErrors(LoginFields, data, isEmail);
    assert e[0] == RunChain(Value(data, "email"), data, EmailField.checks, isEmail, []);
    assert e[1] == RunChain(Value(data, "password"), data, [Required("Password is required.")], isEmail, []);
    assert NoErrors(e) <==> e[0] == [] && e[1] == [];
  }

  /** `RegisterForm` before the address lookup: the login rules plus a
      required confirmation equal to the password. */
  lemma RegisterFieldRules(data: map<string, string>, isEmail: string -> bool)
    ensures var e := FormErrors(RegisterFields, data, isEmail);
            var email, password, confirm := Value(data, "email"), Value(data, "password"), Value(data, "password_confirm");
            && (Blank(email) ==> e[0] == ["Email is required."])
            && (!Blank(email) && !isEmail(email) ==> e[0] == ["Email is invalid."])
            && (e[1] == if Blank(password) then ["Password is required."] else [])
            && (Blank(confirm) ==> e[2] == [DefaultRequired])
            && (!Blank(confirm) && confirm != password ==> e[2] == ["Passwords must match."])
            && (NoErrors(e) <==> !Blank(email) && isEmail(email) && !Blank(password) && !Blank(confirm) && confirm == password)
  {
    EmailFieldErrors(data, isEmail);
    RequiredFieldErrors(data, "password", "Password is required.", isEmail);
    ConfirmFieldErrors(data, "password", isEmail);
  }

  /** `RegisterForm.validate`: it succeeds exactly when every field check
      passes and no user has the address; the "already registered" message
      appears only once the field checks have passed. */
  lemma RegisterRules(data: map<string, string>, users: map<nat, User>, isEmail: string -> bool)
    ensures var e := UnregisteredErrors(RegisterFields, data, users, isEmail);
            var email, password, confirm := Value(data, "email"), Value(data, "password"), Value(data, "password_confirm");
            && (NoErrors(e) <==> !Blank(email) && isEmail(email) && !Blank(password) && !Blank(confirm) &&
                                 confirm == password && !Registered(users, email))
            && (EmailTaken in e[0] <==> NoErrors(FormErrors(RegisterFields, data, isEmail)) && Registered(users, email))
  {
    RegisterFieldRules(data, isEmail);
    EmailFieldErrors(data, isEmail);
    var f := FormErrors(RegisterFields, data, isEmail);
    assert EmailTaken !in f[0];
  }

  /** `ConfirmEmailForm`: any token that is not blank passes. */
  lemma ConfirmEmailRules(data: map<string, string>, isEmail: string -> bool)
    ensures var e := FormErrors(ConfirmEmailFields, data, isEmail);
            (NoErrors(e) <==> !Blank(Value(data, "token"))) &&
            (Blank(Value(data, "token")) ==> e[0] == ["Token is required."])
  {
    RequiredFieldErrors(data, "token", "Token is required.", isEmail);
    var e := FormErrors(ConfirmEmailFields, data, isEmail);
    assert e[0] == RunChain(Value(data, "token"), data, [Required("Token is required.")], isEmail, []);
    assert NoErrors(e) <==> e[0] == [];
  }

  /** `RequestResetForm`: a well-formed address is required. */
  lemma RequestResetRules(data: map<string, string>, isEmail: string -> bool)
    ensures NoErrors(FormErrors(RequestResetFields, data, isEmail)) <==>
              !Blank(Value(data, "email")) && isEmail(Value(data, "email"))
  {
    EmailFieldErrors(data, isEmail);
    var e := FormErrors(RequestResetFields, data, isEmail);
    assert e[0] == RunChain(Value(data, "email"), data, EmailField.checks, isEmail, []);
  }

  /** A form of one required field, a required new password and its
      confirmation, the shape both password forms share. */
  lemma PasswordFormRules(fields: seq<Field>, first: string, m1: string, m2: string,
                          data: map<string, string>, isEmail: string -> bool)
    requires fields == [Field(first, [Required(m1)]), Field("new_password", [Required(m2)]),
                        Field("password_confirm", [Required(DefaultRequired), EqualTo("new_password", "Passwords must match.")])]
    ensures var e := FormErrors(fields, data, isEmail);
            var v, pw, confirm := Value(data, first), Value(data, "new_password"), Value(data, "password_confirm");
            && (e[0] == if Blank(v) then [m1] else [])
            && (e[1] == if Blank(pw) then [m2] else [])
            && (!Blank(confirm) && confirm != pw ==> e[2] == ["Passwords must match."])
            && (NoErrors(e) <==> !Blank(v) && !Blank(pw) && !Blank(confirm) && confirm == pw)
  {
    RequiredFieldErrors(data, first, m1, isEmail);
    RequiredFieldErrors(data, "new_password", m2, isEmail);
    ConfirmFieldErrors(data, "new_password", isEmail);
    var e := FormErrors(fields, data, isEmail);
    assert e[0] == RunChain(Value(data, first), data, [Required(m1)], isEmail, []);
    assert e[1] == RunChain(Value(data, "new_password"), data, [Required(m2)], isEmail, []);
    assert e[2] == RunChain(Value(data, "password_confirm"), data, fields[2].checks, isEmail, []);
    assert NoErrors(e) <==> e[0] == [] && e[1] == [] && e[2] == [];
  }

  /** `ResetPasswordForm`: a token and a new password, confirmed. */
  lemma ResetPasswordRules(data: map<string, string>, isEmail: string -> bool)
    ensures var e := FormErrors(ResetPasswordFields, data, isEmail);
            var token, pw, confirm := Value(data, "token"), Value(data, "new_password"), Value(data, "password_confirm");
            && (e[0] == if Blank(token) then ["Token is required."] else [])
            && (e[1] == if Blank(pw) then ["Password is required."] else [])
            && (!Blank(confirm) && confirm != pw ==> e[2] == ["Passwords must match."])
            && (NoErrors(e) <==> !Blank(token) && !Blank(pw) && !Blank(confirm) && confirm == pw)
  {
    PasswordFormRules(ResetPasswordFields, "token", "Token is required.", "Password is required.", data, isEmail);
  }

  /** `UpdatePasswordForm`: the current password and a new one, confirmed. */
  lemma UpdatePasswordRules(data: map<string, string>, isEmail: string -> bool)
    ensures var e := FormErrors(UpdatePasswordFields, data, isEmail);
            var curr, pw, confirm := Value(data, "curr_password"), Value(data, "new_password"), Value(data, "password_confirm");
            && (e[0] == if Blank(curr) then ["Current password is required."] else [])
            && (e[1] == if Blank(pw) then ["New password is required."] else [])
            && (!Blank(confirm) && confirm != pw ==> e[2] == ["Passwords must match."])
            && (NoErrors(e) <==> !Blank(curr) && !Blank(pw) && !Blank(confirm) && confirm == pw)
  {
    PasswordFormRules(UpdatePasswordFields, "curr_password", "Current password is required.", "New password is required.", data, isEmail);
  }

  /** `UpdateEmailForm.validate`: a well-formed address no user has yet. */
  lemma UpdateEmailRules(data: map<string, string>, users: map<nat, User>, isEmail: string -> bool)
    ensures var email := Value(data, "email");
            var e := UnregisteredErrors(UpdateEmailFields, data, users, isEmail);
            && (NoErrors(e) <==> !Blank(email) && isEmail(email) && !Registered(users, email))
            && (!Blank(email) && isEmail(email) && Registered(users, email) ==> e[0] == [EmailTaken])
  {
    EmailFieldErrors(data, isEmail);
  }

  /** A form bound to the submitted data; its error lists are filled in by validation. */
  class Form {
    const fields: seq<Field>
    const data: map<string, string>
    var errors: seq<seq<string>>

    constructor (fields: seq<Field>, data: map<string, string>)
      ensures this.fields == fields && this.data == data
      ensures |errors| == |fields| && NoErrors(errors)
    {
      this.fields := fields;
      this.data := data;
      errors := seq(|fields|, i => []);
    }

    /** `validate`: run every field's chain. */
    method Validate(isEmail: string -> bool) returns (ok: bool)
      modifies this`errors
      ensures errors == FormErrors(fields, data, isEmail)
      ensures ok <==> NoErrors(errors)
    {
      var found: seq<seq<string>> := [];
      ok := true;
      for i := 0 to |fields|
        invariant |found| == i
        invariant forall j :: 0 <= j < i ==> found[j] == FormErrors(fields, data, isEmail)[j]
        invariant ok <==> forall j :: 0 <= j < i ==> found[j] == []
      {
        var e := RunChain(Value(data, fields[i].name), data, fields[i].checks, isEmail, []);
        found := found + [e];
        assert found[i] == e;
        ok := ok && e == [];
      }
      errors := found;
    }

    /** `RegisterForm.validate` and `UpdateEmailForm.validate`: the field
        checks, then the address lookup; a taken address adds its message
        to the e-mail field's errors. */
    method ValidateUnregistered(users: map<nat, User>, isEmail: string -> bool) returns (ok: bool)
      requires |fields| > 0
      modifies this`errors
      ensures errors == UnregisteredErrors(fields, data, users, isEmail)
      ensures ok <==> NoErrors(errors)
    {
      ok := Validate(isEmail);
      if !ok {
        return;
      }
      if exists k :: k in users && users[k].email == Value(data, fields[0].name) {
        errors := errors[0 := errors[0] + [EmailTaken]];
        ok := false;
        assert errors[0] != [];
      }
    }
  }
}
