/** The add-account form: a managed social-media account with its platform, account
    type, follower count and "keranjang kuning" (shopping cart) flag. */
module AccountForm {
  import opened Wrappers
  import opened Json
  import opened DbTypes
  import opened Forms

  /** The literals of the form's `platform` and `account_type` enums. */
  const PlatformLiterals: seq<string> := ["tiktok", "shopee", "other"]
  const AccountTypeLiterals: seq<string> := ["affiliate", "seller"]

  /** The form's enums accept exactly the database's enumerations. */
  lemma FormEnumsMatchDatabase()
    ensures PlatformLiterals == PlatformConstants
    ensures AccountTypeLiterals == AccountTypeConstants
  {
  }

  datatype Input = Input(
    username: string,
    platform: string,
    accountType: string,
    followers: NumField,
    keranjangKuning: Option<bool>)

  /** What the schema outputs; an absent optional stays absent. */
  datatype Values = Values(
    username: string,
    platform: Platform,
    accountType: AccountType,
    followers: Option<real>,
    keranjangKuning: Option<bool>)

  function Issues(i: Input): set<string> {
    Check(MinLength(i.username, 2), "username")
    + Check(ParsePlatform(i.platform).Some?, "platform")
    + Check(ParseAccountType(i.accountType).Some?, "account_type")
    + Check(OptionalNonNegative(i.followers), "followers")
  }

  /** The resolver of `accountFormSchema`. */
  function Validate(i: Input): (r: Result<Values, set<string>>)
    ensures r.Ok? <==>
      && |i.username| >= 2
      && i.platform in PlatformLiterals
      && i.accountType in AccountTypeLiterals
      && (i.followers.Absent? || (i.followers.Num? && i.followers.value >= 0.0))
    ensures r.Err? ==>
      && r.error != {}
      && ("username" in r.error <==> |i.username| < 2)
      && ("platform" in r.error <==> i.platform !in PlatformLiterals)
      && ("account_type" in r.error <==> i.accountType !in AccountTypeLiterals)
      && ("followers" in r.error <==> i.followers.NotANumber? || (i.followers.Num? && i.followers.value < 0.0))
      && r.error <= {"username", "platform", "account_type", "followers"}
    ensures r.Ok? ==>
      && r.value.username == i.username
      && PlatformName(r.value.platform) == i.platform
      && AccountTypeName(r.value.accountType) == i.accountType
      && (r.value.followers.Some? <==> i.followers.Num?)
      && (r.value.followers.Some? ==> r.value.followers.value == i.followers.value)
      && r.value.keranjangKuning == i.keranjangKuning
  {
    ParseAccepts();
    var issues := Issues(i);
    if issues == {} then
      Ok(Values(i.username, ParsePlatform(i.platform).value, ParseAccountType(i.accountType).value,
                NumValue(i.followers), i.keranjangKuning))
    else Err(issues)
  }

  /** The form as the validated values would have filled it. */
  function InputOf(v: Values): Input {
    Input(v.username, PlatformName(v.platform), AccountTypeName(v.accountType),
          if v.followers.Some? then Num(v.followers.value) else Absent, v.keranjangKuning)
  }

  /** Every output of the schema is accepted again unchanged when it fills the form. */
  lemma ValidateRoundTrip(i: Input)
    requires Validate(i).Ok?
    ensures InputOf(Validate(i).value) == i
    ensures Validate(InputOf(Validate(i).value)) == Validate(i)
  {
  }

  /** The initial form: empty username, TikTok affiliate, zero followers, no cart. */
  const Defaults := Input("", "tiktok", "affiliate", Num(0.0), Some(false))

  /** Submitting the untouched form reports only the username. */
  lemma DefaultsBlocked()
    ensures Validate(Defaults) == Err({"username"})
  {
    ParseAccepts();
    var r := Validate(Defaults);
    assert r.Err? && "username" in r.error;
    assert r.error == {"username"};
  }

  /** The request body: the validated values under their column names. */
  function AccountRow(v: Values): (p: Row)
    ensures p.Keys == {"username", "platform", "account_type"}
      + (if v.followers.Some? then {"followers"} else {})
      + (if v.keranjangKuning.Some? then {"keranjang_kuning"} else {})
    ensures p["username"] == JStr(v.username)
    ensures p["platform"] == JStr(PlatformName(v.platform))
    ensures p["account_type"] == JStr(AccountTypeName(v.accountType))
    ensures v.followers.Some? ==> p["followers"] == JNum(v.followers.value)
    ensures v.keranjangKuning.Some? ==> p["keranjang_kuning"] == JBool(v.keranjangKuning.value)
  {
    var base := map[
      "username" := JStr(v.username),
      "platform" := JStr(PlatformName(v.platform)),
      "account_type" := JStr(AccountTypeName(v.accountType))];
    PutOpt(PutOpt(base, "followers", OptNum(v.followers)), "keranjang_kuning", OptBool(v.keranjangKuning))
  }

  /** The row of any validated values fits the `accounts` insert type. */
  lemma AccountRowConforms(v: Values)
    ensures Conforms(AccountsInsert, AccountRow(v))
  {
    var p := AccountRow(v);
    NamesListed();
    AccountsRequired();
    assert forall k :: k in AccountsInsert && AccountsInsert[k].required ==> k in Required(AccountsInsert);
    assert forall k :: k in p ==> k in AccountsInsert && HasType(p[k], AccountsInsert[k]);
  }

  /** Submit: a valid form inserts exactly its values (no status, no manager); there is
      no user guard. */
  function Submit(i: Input): (r: Submission<Row>)
    ensures r.Blocked? <==> Validate(i).Err?
    ensures r.Blocked? ==> r.issues == Validate(i).error
    ensures !r.Thrown?
    ensures r.Sent? ==> Conforms(AccountsInsert, r.payload)
    ensures r.Sent? ==> r.payload == AccountRow(Validate(i).value)
    ensures r.Sent? ==> "status" !in r.payload && "managed_by" !in r.payload
  {
    match Validate(i)
    case Err(issues) => Blocked(issues)
    case Ok(v) => Send(v)
  }

  /** Sending validated values: their row, which fits the insert type and sets neither
      status nor manager. */
  function Send(v: Values): (r: Submission<Row>)
    ensures r.Sent? && r.payload == AccountRow(v)
    ensures Conforms(AccountsInsert, r.payload)
    ensures "status" !in r.payload && "managed_by" !in r.payload
  {
    AccountRowConforms(v);
    Sent(AccountRow(v))
  }

  /** A filled-in form inserts exactly the five entered fields. */
  lemma DemoAccountInserted()
    ensures Submit(Input("@demo", "tiktok", "affiliate", Num(100.0), Some(false))) ==
      Sent(map[
        "username" := JStr("@demo"),
        "platform" := JStr("tiktok"),
        "account_type" := JStr("affiliate"),
        "followers" := JNum(100.0),
        "keranjang_kuning" := JBool(false)])
  {
    ParseRoundTrip();
    assert ParsePlatform("tiktok") == Some(TikTok) by { assert PlatformName(TikTok) == "tiktok"; }
    assert ParseAccountType("affiliate") == Some(Affiliate) by { assert AccountTypeName(Affiliate) == "affiliate"; }
  }
}
