/** src/validations/auth.validation.js: the signup and login body schemas. */
module AuthValidation {
  import opened Wrappers
  import opened Http
  import opened Joi
  import opened UserModel

  const SignupKeys: seq<string> := ["firstName", "lastName", "email", "password"]
  const LoginKeys: seq<string> := ["email", "password"]

  /** What login reads from its body. */
  datatype Credentials = Credentials(email: string, password: string)

  predicate IsAddress(v: Option<Value>)
  {
    v.Some? && v.value.Str? && v.value.text != "" && IsEmail(v.value.text)
  }

  /** signupSchema: names of 1..50 characters, an email, a password of 6..128, nothing else. */
  function SignupSchema(body: seq<Field<Value>>): (r: Result<UserDraft, string>)
    ensures r.Ok? <==>
      && Within(Lookup(body, "firstName"), 1, 50)
      && Within(Lookup(body, "lastName"), 1, 50)
      && IsAddress(Lookup(body, "email"))
      && Within(Lookup(body, "password"), 6, 128)
      && forall i :: 0 <= i < |body| ==> body[i].key in SignupKeys
    ensures r.Ok? ==> && Field("firstName", Str(r.value.firstName)) in body
                      && Field("lastName", Str(r.value.lastName)) in body
                      && Field("email", Str(r.value.email)) in body
                      && Field("password", Str(r.value.password)) in body
    ensures r.Ok? ==> && r.value.firstName == Lookup(body, "firstName").value.text
                      && r.value.lastName == Lookup(body, "lastName").value.text
                      && r.value.email == Lookup(body, "email").value.text
                      && r.value.password == Lookup(body, "password").value.text
  {
    var firstName :- CheckString("firstName", Lookup(body, "firstName"), 1, Some(50), true);
    var lastName :- CheckString("lastName", Lookup(body, "lastName"), 1, Some(50), true);
    var email :- CheckEmail("email", Lookup(body, "email"));
    var password :- CheckString("password", Lookup(body, "password"), 6, Some(128), true);
    var _ :- CheckNoUnknown(body, SignupKeys);
    Ok(UserDraft(firstName.value, lastName.value, email, password.value))
  }

  /** loginSchema: an email and a password of any length; Joi still refuses an empty one. */
  function LoginSchema(body: seq<Field<Value>>): (r: Result<Credentials, string>)
    ensures r.Ok? <==>
      && IsAddress(Lookup(body, "email"))
      && Lookup(body, "password").Some? && Lookup(body, "password").value.Str?
      && Lookup(body, "password").value.text != ""
      && forall i :: 0 <= i < |body| ==> body[i].key in LoginKeys
    ensures r.Ok? ==> && Field("email", Str(r.value.email)) in body
                      && Field("password", Str(r.value.password)) in body
    ensures r.Ok? ==> && r.value.email == Lookup(body, "email").value.text
                      && r.value.password == Lookup(body, "password").value.text
  {
    var email :- CheckEmail("email", Lookup(body, "email"));
    var password :- CheckString("password", Lookup(body, "password"), 0, None, true);
    var _ :- CheckNoUnknown(body, LoginKeys);
    Ok(Credentials(email, password.value))
  }

  /** A signup body missing a field the schema requires is refused with a "... is required" message. */
  lemma SignupMissingLastName(body: seq<Field<Value>>)
    requires Within(Lookup(body, "firstName"), 1, 50) && Lookup(body, "lastName").None?
    ensures SignupSchema(body) == Err("\"lastName\" is required")
  {
    assert Label("lastName") == "\"lastName\"";
    assert "\"lastName\"" + " is required" == "\"lastName\" is required";
  }

  /** An accepted signup has names of at least one character and a password of 6 to 128 characters. */
  lemma SignupBounds(body: seq<Field<Value>>)
    requires SignupSchema(body).Ok?
    ensures 6 <= |SignupSchema(body).value.password| <= 128
    ensures |SignupSchema(body).value.firstName| >= 1 && |SignupSchema(body).value.lastName| >= 1
  {
  }
}
