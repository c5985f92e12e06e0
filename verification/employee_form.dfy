/** The add-employee form: a manager registers a new account; the credentials go to the
    auth service as credentials and the profile fields travel as the new user's
    metadata. */
module EmployeeForm {
  import opened Wrappers
  import opened Json
  import opened DbTypes
  import opened Forms
  import opened AuthLib

  /** The literals of the form's `role` and `division` enums. */
  const RoleLiterals: seq<string> := ["karyawan", "pkl", "manager"]
  const DivisionLiterals: seq<string> := ["konten_kreator", "host_live", "model", "manager"]

  /** The form offers the database's roles (in another order) and divisions. */
  lemma FormEnumsMatchDatabase()
    ensures multiset(RoleLiterals) == multiset(AppRoleConstants)
    ensures DivisionLiterals == DivisionConstants
  {
    assert RoleLiterals == [AppRoleConstants[1], AppRoleConstants[2], AppRoleConstants[0]];
  }

  datatype Input = Input(
    fullName: string,
    username: string,
    email: string,
    password: string,
    role: string,
    division: Option<string>)

  datatype Values = Values(
    fullName: string,
    username: string,
    email: string,
    password: string,
    role: AppRole,
    division: Option<Division>)

  function Issues(isEmail: string -> bool, i: Input): set<string> {
    Check(MinLength(i.fullName, 2), "full_name")
    + Check(MinLength(i.username, 3), "username")
    + Check(isEmail(i.email), "email")
    + Check(MinLength(i.password, 6), "password")
    + Check(ParseAppRole(i.role).Some?, "role")
    + Check(i.division.None? || ParseDivision(i.division.value).Some?, "division")
  }

  /** The resolver of `employeeFormSchema`; `isEmail` decides `z.string().email()`. */
  function Validate(isEmail: string -> bool, i: Input): (r: Result<Values, set<string>>)
    ensures r.Ok? <==>
      && |i.fullName| >= 2 && |i.username| >= 3 && isEmail(i.email) && |i.password| >= 6
      && i.role in RoleLiterals
      && (i.division.None? || i.division.value in DivisionLiterals)
    ensures r.Err? ==>
      && r.error != {}
      && ("full_name" in r.error <==> |i.fullName| < 2)
      && ("username" in r.error <==> |i.username| < 3)
      && ("email" in r.error <==> !isEmail(i.email))
      && ("password" in r.error <==> |i.password| < 6)
      && ("role" in r.error <==> i.role !in RoleLiterals)
      && ("division" in r.error <==> i.division.Some? && i.division.value !in DivisionLiterals)
      && r.error <= {"full_name", "username", "email", "password", "role", "division"}
    ensures r.Ok? ==>
      && r.value.fullName == i.fullName && r.value.username == i.username
      && r.value.email == i.email && r.value.password == i.password
      && AppRoleName(r.value.role) == i.role
      && (r.value.division.Some? <==> i.division.Some?)
      && (r.value.division.Some? ==> DivisionName(r.value.division.value) == i.division.value)
  {
    ParseAccepts();
    FormEnumsMatchDatabase();
    var issues := Issues(isEmail, i);
    if issues == {} then
      Ok(Values(i.fullName, i.username, i.email, i.password, ParseAppRole(i.role).value,
        if i.division.Some? then ParseDivision(i.division.value) else None))
    else Err(issues)
  }

  /** The initial form: empty texts, role karyawan, division konten_kreator. */
  const Defaults := Input("", "", "", "", "karyawan", Some("konten_kreator"))

  /** Submitting the untouched form reports the name, username and password, and the
      email unless the empty string counts as an email. */
  lemma DefaultsBlocked(isEmail: string -> bool)
    ensures Validate(isEmail, Defaults).Err?
    ensures Validate(isEmail, Defaults).error ==
      {"full_name", "username", "password"} + (if isEmail("") then {} else {"email"})
  {
    var r := Validate(isEmail, Defaults);
    assert "full_name" in r.error;
    assert "role" !in r.error && "division" !in r.error;
  }

  /** The metadata the new user is created with: the profile fields, with `division`
      dropped when it is undefined. */
  function Metadata(v: Values): (m: map<string, Json>)
    ensures m.Keys == {"full_name", "username", "role"} + (if v.division.Some? then {"division"} else {})
    ensures "email" !in m && "password" !in m
    ensures m["full_name"] == JStr(v.fullName) && m["username"] == JStr(v.username)
    ensures m["role"] == JStr(AppRoleName(v.role))
    ensures v.division.Some? ==> m["division"] == JStr(DivisionName(v.division.value))
  {
    var base := map["full_name" := JStr(v.fullName), "username" := JStr(v.username), "role" := JStr(AppRoleName(v.role))];
    PutOpt(base, "division", if v.division.Some? then Some(JStr(DivisionName(v.division.value))) else None)
  }

  /** With the new user's id, the metadata is a well-typed `users_meta` row. */
  lemma MetadataIsProfileRow(v: Values, id: string)
    ensures Conforms(UsersMetaInsert, Metadata(v)["id" := JStr(id)])
  {
    var p := Metadata(v)["id" := JStr(id)];
    NamesListed();
    UsersMetaRequired();
    assert forall k :: k in UsersMetaInsert && UsersMetaInsert[k].required ==> k in Required(UsersMetaInsert);
    assert forall k :: k in p ==> k in UsersMetaInsert && HasType(p[k], UsersMetaInsert[k]);
  }

  /** Submit: a valid form signs the employee up, with the confirmation link pointing at
      the site root of `origin`; there is no user guard. */
  function Submit(isEmail: string -> bool, i: Input, origin: string): (r: Submission<SignUpRequest>)
    ensures r.Blocked? <==> Validate(isEmail, i).Err?
    ensures r.Blocked? ==> r.issues == Validate(isEmail, i).error
    ensures !r.Thrown?
    ensures r.Sent? ==>
      && r.payload.email == i.email
      && r.payload.password == i.password
      && r.payload.emailRedirectTo == origin + "/"
      && r.payload.data == Metadata(Validate(isEmail, i).value)
      && "email" !in r.payload.data && "password" !in r.payload.data
  {
    match Validate(isEmail, i)
    case Err(issues) => Blocked(issues)
    case Ok(v) => Sent(SignUp(v.email, v.password, Metadata(v), origin))
  }
}
