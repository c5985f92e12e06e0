/** The edit-account form: prefilled from an existing account, validated with the add
    schema plus an optional status, and sent as an update of the row with that id. */
module EditAccountForm {
  import opened Wrappers
  import opened Json
  import opened DbTypes
  import opened Forms
  import AccountForm

  /** The account the form edits, as the accounts page hands it over; it carries no
      account type. */
  datatype Account = Account(
    id: string,
    platform: Platform,
    username: string,
    followers: Option<real>,
    status: Option<AccountStatus>,
    keranjangKuning: Option<bool>)

  /** The add form's fields plus the status select. */
  datatype Input = Input(base: AccountForm.Input, status: Option<string>)

  datatype Values = Values(base: AccountForm.Values, status: Option<AccountStatus>)

  const StatusLiterals: seq<string> := ["active", "banned", "pelanggaran", "not_recommended"]

  /** The status select offers exactly the database's account statuses. */
  lemma StatusEnumMatchesDatabase()
    ensures StatusLiterals == AccountStatusConstants
  {
  }

  /** The resolver: the add schema's rules and an optional status from the status enum. */
  function Validate(i: Input): (r: Result<Values, set<string>>)
    ensures r.Ok? <==> AccountForm.Validate(i.base).Ok? && (i.status.None? || i.status.value in StatusLiterals)
    ensures r.Err? ==>
      r.error == (if AccountForm.Validate(i.base).Err? then AccountForm.Validate(i.base).error else {})
                 + (if i.status.Some? && i.status.value !in StatusLiterals then {"status"} else {})
    ensures r.Ok? ==> r.value.base == AccountForm.Validate(i.base).value
    ensures r.Ok? ==> (r.value.status.Some? <==> i.status.Some?)
    ensures r.Ok? && i.status.Some? ==> AccountStatusName(r.value.status.value) == i.status.value
  {
    ParseAccepts();
    var base := AccountForm.Validate(i.base);
    var status := if i.status.Some? then ParseAccountStatus(i.status.value) else None;
    var statusIssues := Check(i.status.None? || status.Some?, "status");
    if base.Ok? && statusIssues == {} then Ok(Values(base.value, status))
    else Err((if base.Err? then base.error else {}) + statusIssues)
  }

  /** The form's initial values: the account's own fields, account type "affiliate"
      whatever the account's real type, a null follower count or cart flag shown as
      0 or false, a missing status shown as active. */
  function Prefill(a: Account): (i: Input)
    ensures i.base.username == a.username
    ensures i.base.platform == PlatformName(a.platform)
    ensures i.base.accountType == "affiliate"
    ensures i.base.followers == Num(if a.followers.Some? then a.followers.value else 0.0)
    ensures i.base.keranjangKuning == Some(a.keranjangKuning.GetOr(false))
    ensures i.status == Some(AccountStatusName(a.status.GetOr(Active)))
  {
    Input(
      AccountForm.Input(a.username, PlatformName(a.platform), AccountTypeName(Affiliate),
        Num(a.followers.GetOr(0.0)), Some(a.keranjangKuning.GetOr(false))),
      Some(AccountStatusName(a.status.GetOr(Active))))
  }

  /** Saving an untouched form passes exactly when the stored username has two
      characters and the stored follower count is not negative; it then keeps the
      account's username, platform and status and makes it an affiliate account. */
  lemma PrefillAccepted(a: Account)
    ensures Validate(Prefill(a)).Ok? <==>
      |a.username| >= 2 && (a.followers.None? || a.followers.value >= 0.0)
    ensures Validate(Prefill(a)).Ok? ==>
      var v := Validate(Prefill(a)).value;
      && v.base.username == a.username
      && v.base.platform == a.platform
      && v.base.accountType == Affiliate
      && v.base.followers == Some(a.followers.GetOr(0.0))
      && v.base.keranjangKuning == Some(a.keranjangKuning.GetOr(false))
      && v.status == Some(a.status.GetOr(Active))
  {
    ParseAccepts();
    ParseRoundTrip();
    NamesListed();
  }

  /** The patch: the validated values under their column names. */
  function Patch(v: Values): (p: Row)
    ensures p.Keys == AccountForm.AccountRow(v.base).Keys + (if v.status.Some? then {"status"} else {})
    ensures forall k :: k in p && k != "status" ==> p[k] == AccountForm.AccountRow(v.base)[k]
    ensures v.status.Some? ==> p["status"] == JStr(AccountStatusName(v.status.value))
  {
    PutOpt(AccountForm.AccountRow(v.base), "status",
      if v.status.Some? then Some(JStr(AccountStatusName(v.status.value))) else None)
  }

  /** Every patch fits the `accounts` update type. */
  lemma PatchConforms(v: Values)
    ensures Conforms(AccountsUpdate, Patch(v))
  {
    var p := Patch(v);
    AccountForm.AccountRowConforms(v.base);
    NamesListed();
    assert forall k :: k in p ==> k in AccountsInsert && HasType(p[k], AccountsInsert[k]);
    UpdateAcceptsWellTypedColumns(AccountsInsert, p);
  }

  /** `update(patch).eq("id", id)`. */
  datatype UpdateRequest = UpdateRequest(matchId: string, patch: Row)

  /** Submit: a valid form updates the edited account's row by id; no user guard. */
  function Submit(a: Account, i: Input): (r: Submission<UpdateRequest>)
    ensures r.Blocked? <==> Validate(i).Err?
    ensures r.Blocked? ==> r.issues == Validate(i).error
    ensures !r.Thrown?
    ensures r.Sent? ==> r.payload.matchId == a.id
    ensures r.Sent? ==> r.payload.patch == Patch(Validate(i).value)
    ensures r.Sent? ==> Conforms(AccountsUpdate, r.payload.patch)
  {
    match Validate(i)
    case Err(issues) => Blocked(issues)
    case Ok(v) =>
      PatchConforms(v);
      Sent(UpdateRequest(a.id, Patch(v)))
  }

  /** The table after the update: rows whose id matches take the patch's columns. */
  function ApplyUpdate(rows: seq<Row>, req: UpdateRequest): (r: seq<Row>)
    ensures |r| == |rows|
    ensures forall j :: 0 <= j < |rows| ==> r[j].Keys == rows[j].Keys + (if Matches(rows[j], req.matchId) then req.patch.Keys else {})
    ensures forall j, k :: 0 <= j < |rows| && k in rows[j] && (k !in req.patch || !Matches(rows[j], req.matchId)) ==> r[j][k] == rows[j][k]
    ensures forall j, k :: 0 <= j < |rows| && k in req.patch && Matches(rows[j], req.matchId) ==> r[j][k] == req.patch[k]
  {
    seq(|rows|, j requires 0 <= j < |rows| => if Matches(rows[j], req.matchId) then rows[j] + req.patch else rows[j])
  }

  predicate Matches(row: Row, id: string) {
    "id" in row && row["id"] == JStr(id)
  }

  /** Saving an untouched form turns the edited account into an affiliate account,
      whatever type it had, and leaves every other row alone. */
  lemma UntouchedSaveResetsAccountType(a: Account, rows: seq<Row>, j: nat)
    requires j < |rows|
    requires Submit(a, Prefill(a)).Sent?
    ensures var after := ApplyUpdate(rows, Submit(a, Prefill(a)).payload);
      && (Matches(rows[j], a.id) ==> after[j]["account_type"] == JStr("affiliate"))
      && (!Matches(rows[j], a.id) ==> after[j] == rows[j])
  {
    PrefillAccepted(a);
    var req := Submit(a, Prefill(a)).payload;
    var after := ApplyUpdate(rows, req);
    assert "account_type" in req.patch;
    if !Matches(rows[j], a.id) {
      assert after[j].Keys == rows[j].Keys;
    }
  }
}
