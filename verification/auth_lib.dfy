/** The thin wrapper around the hosted auth service: the role and division types, the
    profile lookup that turns every error into null, the manager test and sign-up. */
module AuthLib {
  import opened Wrappers
  import opened Json
  import opened DbTypes

  /** The signed-in identity as the auth service returns it. */
  datatype AuthUser = AuthUser(id: string, email: Option<string>)

  /** A `users_meta` row (`UserMetadata`); the free-form `profile` is not modelled. */
  datatype UserMetadata = UserMetadata(
    id: string,
    fullName: string,
    username: string,
    role: AppRole,
    division: Option<Division>)

  /** The profile table as seen through `.eq("id", userId).single()`: a row, or an error
      (no row, several rows, or a failed request). */
  type ProfileLookup = string -> Result<UserMetadata, string>

  /** The literals of the `UserRole` and `Division` union types. */
  const UserRoleLiterals: seq<string> := ["manager", "karyawan", "pkl"]
  const DivisionLiterals: seq<string> := ["konten_kreator", "host_live", "model", "manager"]

  /** The client-side role and division types accept exactly the database enumerations. */
  lemma LibTypesMatchDatabase()
    ensures UserRoleLiterals == AppRoleConstants
    ensures DivisionLiterals == DivisionConstants
    ensures forall s :: s in UserRoleLiterals <==> ParseAppRole(s).Some?
    ensures forall s :: s in DivisionLiterals <==> ParseDivision(s).Some?
  {
    ConstantsMatchEnums();
    ParseRoundTrip();
    forall s | ParseAppRole(s).Some? ensures s in UserRoleLiterals {
      assert AppRoleName(ParseAppRole(s).value) == s;
    }
    forall s | ParseDivision(s).Some? ensures s in DivisionLiterals {
      assert DivisionName(ParseDivision(s).value) == s;
    }
  }

  /** `getUserMetadata`: the row, or null on any error. */
  function GetUserMetadata(db: ProfileLookup, userId: string): (r: Option<UserMetadata>)
    ensures r.None? <==> db(userId).Err?
    ensures r.Some? ==> r.value == db(userId).value
  {
    match db(userId)
    case Ok(m) => Some(m)
    case Err(_) => None
  }

  /** A run of `isManager`: its answer and the id it looked up, if any. */
  datatype ManagerCheck = ManagerCheck(answer: bool, lookedUp: Option<string>)

  /** `isManager(userId?)`: a missing or empty id answers false without a lookup;
      otherwise the answer is whether the looked-up row has role "manager". */
  function IsManager(db: ProfileLookup, userId: Option<string>): (r: ManagerCheck)
    ensures userId.None? || userId.value == "" ==> r == ManagerCheck(false, None)
    ensures userId.Some? && userId.value != "" ==>
      && r.lookedUp == Some(userId.value)
      && (r.answer <==> db(userId.value).Ok? && db(userId.value).value.role == Manager)
  {
    if userId.None? || userId.value == "" then ManagerCheck(false, None)
    else
      var m := GetUserMetadata(db, userId.value);
      ManagerCheck(m.Some? && m.value.role == Manager, Some(userId.value))
  }

  /** The request `signUp` sends to the auth service. */
  datatype SignUpRequest = SignUpRequest(email: string, password: string, emailRedirectTo: string, data: map<string, Json>)

  /** `signUp`: credentials go as credentials, the metadata goes unchanged as the new
      user's data, and the confirmation link points at the site root of `origin`. */
  function SignUp(email: string, password: string, metadata: map<string, Json>, origin: string): (r: SignUpRequest)
    ensures r.data == metadata
    ensures r.email == email && r.password == password
    ensures r.emailRedirectTo == origin + "/"
  {
    SignUpRequest(email, password, origin + "/", metadata)
  }
}
