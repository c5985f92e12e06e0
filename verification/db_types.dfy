/** The database description the client is generated against: the seven enumerations,
    the `Constants` lists that mirror them, and the column shapes of the `Insert` and
    `Update` payloads of the tables the screens write. */
module DbTypes {
  import opened Wrappers
  import opened Json

  // ---------------------------------------------------------------------------
  // Enumerations
  // ---------------------------------------------------------------------------

  datatype AccountStatus = Active | Banned | Pelanggaran | NotRecommended
  datatype AccountType = Affiliate | Seller
  datatype AppRole = Manager | Karyawan | Pkl
  datatype Division = KontenKreator | HostLive | Model | ManagerDivision
  datatype Period = Daily | Monthly
  datatype Platform = TikTok | Shopee | OtherPlatform
  datatype TargetForType = UserTarget | TeamTarget | DivisionTarget

  /** Every value of each enumeration, in the order the union type lists them. */
  const AllAccountStatuses: seq<AccountStatus> := [Active, Banned, Pelanggaran, NotRecommended]
  const AllAccountTypes: seq<AccountType> := [Affiliate, Seller]
  const AllAppRoles: seq<AppRole> := [Manager, Karyawan, Pkl]
  const AllDivisions: seq<Division> := [KontenKreator, HostLive, Model, ManagerDivision]
  const AllPeriods: seq<Period> := [Daily, Monthly]
  const AllPlatforms: seq<Platform> := [TikTok, Shopee, OtherPlatform]
  const AllTargetForTypes: seq<TargetForType> := [UserTarget, TeamTarget, DivisionTarget]

  /** The string literal of each enumeration value, as it travels over the wire. */
  function AccountStatusName(s: AccountStatus): string {
    match s
    case Active => "active"
    case Banned => "banned"
    case Pelanggaran => "pelanggaran"
    case NotRecommended => "not_recommended"
  }

  function AccountTypeName(t: AccountType): string {
    match t
    case Affiliate => "affiliate"
    case Seller => "seller"
  }

  function AppRoleName(r: AppRole): string {
    match r
    case Manager => "manager"
    case Karyawan => "karyawan"
    case Pkl => "pkl"
  }

  function DivisionName(d: Division): string {
    match d
    case KontenKreator => "konten_kreator"
    case HostLive => "host_live"
    case Model => "model"
    case ManagerDivision => "manager"
  }

  function PeriodName(p: Period): string {
    match p
    case Daily => "daily"
    case Monthly => "monthly"
  }

  function PlatformName(p: Platform): string {
    match p
    case TikTok => "tiktok"
    case Shopee => "shopee"
    case OtherPlatform => "other"
  }

  function TargetForTypeName(t: TargetForType): string {
    match t
    case UserTarget => "user"
    case TeamTarget => "team"
    case DivisionTarget => "division"
  }

  /** The lists exported as `Constants.public.Enums`. */
  const AccountStatusConstants: seq<string> := ["active", "banned", "pelanggaran", "not_recommended"]
  const AccountTypeConstants: seq<string> := ["affiliate", "seller"]
  const AppRoleConstants: seq<string> := ["manager", "karyawan", "pkl"]
  const DivisionConstants: seq<string> := ["konten_kreator", "host_live", "model", "manager"]
  const PeriodConstants: seq<string> := ["daily", "monthly"]
  const PlatformConstants: seq<string> := ["tiktok", "shopee", "other"]
  const TargetForTypeConstants: seq<string> := ["user", "team", "division"]

  // ---------------------------------------------------------------------------
  // Names and parsing, generically over an enumeration's value list
  // ---------------------------------------------------------------------------

  function Names<E>(all: seq<E>, name: E -> string): (r: seq<string>)
    ensures |r| == |all|
    ensures forall i :: 0 <= i < |all| ==> r[i] == name(all[i])
  {
    seq(|all|, i requires 0 <= i < |all| => name(all[i]))
  }

  predicate Distinct<T(==)>(xs: seq<T>) {
    forall i, j :: 0 <= i < j < |xs| ==> xs[i] != xs[j]
  }

  /** The first value of `all` whose name is `s`: how a string from a form or a
      row is read back as an enumeration value, and what `z.enum([...])` accepts. */
  function Lookup<E(==)>(all: seq<E>, name: E -> string, s: string): (r: Option<E>)
    ensures r.Some? ==> r.value in all && name(r.value) == s
    ensures r.None? ==> forall e :: e in all ==> name(e) != s
  {
    if |all| == 0 then None
    else if name(all[0]) == s then Some(all[0])
    else Lookup(all[1..], name, s)
  }

  /** Reading back a name gives the value it names, when names are distinct. */
  lemma {:induction false} LookupName<E>(all: seq<E>, name: E -> string, i: nat)
    requires i < |all|
    requires Distinct(Names(all, name))
    ensures Lookup(all, name, name(all[i])) == Some(all[i])
  {
    if i > 0 {
      assert name(all[0]) != name(all[i]) by {
        assert Names(all, name)[0] != Names(all, name)[i];
      }
      assert Distinct(Names(all[1..], name)) by {
        forall a, b | 0 <= a < b < |all| - 1
          ensures Names(all[1..], name)[a] != Names(all[1..], name)[b]
        {
          assert Names(all, name)[a + 1] != Names(all, name)[b + 1];
        }
      }
      LookupName(all[1..], name, i - 1);
    }
  }

  function ParseAccountStatus(s: string): Option<AccountStatus> { Lookup(AllAccountStatuses, AccountStatusName, s) }
  function ParseAccountType(s: string): Option<AccountType> { Lookup(AllAccountTypes, AccountTypeName, s) }
  function ParseAppRole(s: string): Option<AppRole> { Lookup(AllAppRoles, AppRoleName, s) }
  function ParseDivision(s: string): Option<Division> { Lookup(AllDivisions, DivisionName, s) }
  function ParsePeriod(s: string): Option<Period> { Lookup(AllPeriods, PeriodName, s) }
  function ParsePlatform(s: string): Option<Platform> { Lookup(AllPlatforms, PlatformName, s) }
  function ParseTargetForType(s: string): Option<TargetForType> { Lookup(AllTargetForTypes, TargetForTypeName, s) }

  /** Each `Constants` list is exactly its enumeration's literals, in the union's order,
      without duplicates; every enumeration value is listed. */
  lemma ConstantsMatchEnums()
    ensures AccountStatusConstants == Names(AllAccountStatuses, AccountStatusName) && Distinct(AccountStatusConstants)
    ensures AccountTypeConstants == Names(AllAccountTypes, AccountTypeName) && Distinct(AccountTypeConstants)
    ensures AppRoleConstants == Names(AllAppRoles, AppRoleName) && Distinct(AppRoleConstants)
    ensures DivisionConstants == Names(AllDivisions, DivisionName) && Distinct(DivisionConstants)
    ensures PeriodConstants == Names(AllPeriods, PeriodName) && Distinct(PeriodConstants)
    ensures PlatformConstants == Names(AllPlatforms, PlatformName) && Distinct(PlatformConstants)
    ensures TargetForTypeConstants == Names(AllTargetForTypes, TargetForTypeName) && Distinct(TargetForTypeConstants)
    ensures forall s: AccountStatus :: s in AllAccountStatuses
    ensures forall t: AccountType :: t in AllAccountTypes
    ensures forall r: AppRole :: r in AllAppRoles
    ensures forall d: Division :: d in AllDivisions
    ensures forall p: Period :: p in AllPeriods
    ensures forall p: Platform :: p in AllPlatforms
    ensures forall t: TargetForType :: t in AllTargetForTypes
  {
    forall s: AccountStatus ensures s in AllAccountStatuses {
      match s
      case Active => assert AllAccountStatuses[0] == s;
      case Banned => assert AllAccountStatuses[1] == s;
      case Pelanggaran => assert AllAccountStatuses[2] == s;
      case NotRecommended => assert AllAccountStatuses[3] == s;
    }
    forall t: AccountType ensures t in AllAccountTypes {
      match t
      case Affiliate => assert AllAccountTypes[0] == t;
      case Seller => assert AllAccountTypes[1] == t;
    }
    forall r: AppRole ensures r in AllAppRoles {
      match r
      case Manager => assert AllAppRoles[0] == r;
      case Karyawan => assert AllAppRoles[1] == r;
      case Pkl => assert AllAppRoles[2] == r;
    }
    forall d: Division ensures d in AllDivisions {
      match d
      case KontenKreator => assert AllDivisions[0] == d;
      case HostLive => assert AllDivisions[1] == d;
      case Model => assert AllDivisions[2] == d;
      case ManagerDivision => assert AllDivisions[3] == d;
    }
    forall p: Period ensures p in AllPeriods {
      match p
      case Daily => assert AllPeriods[0] == p;
      case Monthly => assert AllPeriods[1] == p;
    }
    forall p: Platform ensures p in AllPlatforms {
      match p
      case TikTok => assert AllPlatforms[0] == p;
      case Shopee => assert AllPlatforms[1] == p;
      case OtherPlatform => assert AllPlatforms[2] == p;
    }
    forall t: TargetForType ensures t in AllTargetForTypes {
      match t
      case UserTarget => assert AllTargetForTypes[0] == t;
      case TeamTarget => assert AllTargetForTypes[1] == t;
      case DivisionTarget => assert AllTargetForTypes[2] == t;
    }
  }

  /** A listed value's literal reads back as that value when the literals are distinct. */
  lemma LookupMember<E>(all: seq<E>, name: E -> string, e: E)
    requires e in all
    requires Distinct(Names(all, name))
    ensures Lookup(all, name, name(e)) == Some(e)
  {
    var i :| 0 <= i < |all| && all[i] == e;
    LookupName(all, name, i);
  }

  /** With distinct names, lookup succeeds exactly on the listed names. */
  lemma LookupAccepts<E>(all: seq<E>, name: E -> string, s: string)
    requires Distinct(Names(all, name))
    ensures Lookup(all, name, s).Some? <==> s in Names(all, name)
  {
    var names := Names(all, name);
    if Lookup(all, name, s).Some? {
      var e := Lookup(all, name, s).value;
      var i :| 0 <= i < |all| && all[i] == e;
      assert names[i] == s;
    }
    if s in names {
      var i :| 0 <= i < |names| && names[i] == s;
      LookupName(all, name, i);
    }
  }

  /** Parsing accepts exactly the literals its database enumeration lists. */
  lemma ParseAccepts()
    ensures forall s :: ParseAccountStatus(s).Some? <==> s in AccountStatusConstants
    ensures forall s :: ParseAccountType(s).Some? <==> s in AccountTypeConstants
    ensures forall s :: ParseAppRole(s).Some? <==> s in AppRoleConstants
    ensures forall s :: ParseDivision(s).Some? <==> s in DivisionConstants
    ensures forall s :: ParsePeriod(s).Some? <==> s in PeriodConstants
    ensures forall s :: ParsePlatform(s).Some? <==> s in PlatformConstants
    ensures forall s :: ParseTargetForType(s).Some? <==> s in TargetForTypeConstants
  {
    ConstantsMatchEnums();
    forall s ensures ParseAccountStatus(s).Some? <==> s in AccountStatusConstants {
      LookupAccepts(AllAccountStatuses, AccountStatusName, s);
    }
    forall s ensures ParseAccountType(s).Some? <==> s in AccountTypeConstants {
      LookupAccepts(AllAccountTypes, AccountTypeName, s);
    }
    forall s ensures ParseAppRole(s).Some? <==> s in AppRoleConstants {
      LookupAccepts(AllAppRoles, AppRoleName, s);
    }
    forall s ensures ParseDivision(s).Some? <==> s in DivisionConstants {
      LookupAccepts(AllDivisions, DivisionName, s);
    }
    forall s ensures ParsePeriod(s).Some? <==> s in PeriodConstants {
      LookupAccepts(AllPeriods, PeriodName, s);
    }
    forall s ensures ParsePlatform(s).Some? <==> s in PlatformConstants {
      LookupAccepts(AllPlatforms, PlatformName, s);
    }
    forall s ensures ParseTargetForType(s).Some? <==> s in TargetForTypeConstants {
      LookupAccepts(AllTargetForTypes, TargetForTypeName, s);
    }
  }

  /** Every enumeration value's literal is one the matching database column accepts. */
  lemma NamesListed()
    ensures forall s :: AccountStatusName(s) in AccountStatusConstants
    ensures forall t :: AccountTypeName(t) in AccountTypeConstants
    ensures forall r :: AppRoleName(r) in AppRoleConstants
    ensures forall d :: DivisionName(d) in DivisionConstants
    ensures forall p :: PeriodName(p) in PeriodConstants
    ensures forall p :: PlatformName(p) in PlatformConstants
    ensures forall t :: TargetForTypeName(t) in TargetForTypeConstants
  {
  }

  /** Parsing is the inverse of naming: a value's literal parses back to the value. */
  lemma ParseRoundTrip()
    ensures forall s: AccountStatus :: ParseAccountStatus(AccountStatusName(s)) == Some(s)
    ensures forall t: AccountType :: ParseAccountType(AccountTypeName(t)) == Some(t)
    ensures forall r: AppRole :: ParseAppRole(AppRoleName(r)) == Some(r)
    ensures forall d: Division :: ParseDivision(DivisionName(d)) == Some(d)
    ensures forall p: Period :: ParsePeriod(PeriodName(p)) == Some(p)
    ensures forall p: Platform :: ParsePlatform(PlatformName(p)) == Some(p)
    ensures forall t: TargetForType :: ParseTargetForType(TargetForTypeName(t)) == Some(t)
  {
    ConstantsMatchEnums();
    forall s: AccountStatus ensures ParseAccountStatus(AccountStatusName(s)) == Some(s) {
      LookupMember(AllAccountStatuses, AccountStatusName, s);
    }
    forall t: AccountType ensures ParseAccountType(AccountTypeName(t)) == Some(t) {
      LookupMember(AllAccountTypes, AccountTypeName, t);
    }
    forall r: AppRole ensures ParseAppRole(AppRoleName(r)) == Some(r) {
      LookupMember(AllAppRoles, AppRoleName, r);
    }
    forall d: Division ensures ParseDivision(DivisionName(d)) == Some(d) {
      LookupMember(AllDivisions, DivisionName, d);
    }
    forall p: Period ensures ParsePeriod(PeriodName(p)) == Some(p) {
      LookupMember(AllPeriods, PeriodName, p);
    }
    forall p: Platform ensures ParsePlatform(PlatformName(p)) == Some(p) {
      LookupMember(AllPlatforms, PlatformName, p);
    }
    forall t: TargetForType ensures ParseTargetForType(TargetForTypeName(t)) == Some(t) {
      LookupMember(AllTargetForTypes, TargetForTypeName, t);
    }
  }

  // ---------------------------------------------------------------------------
  // Table shapes
  // ---------------------------------------------------------------------------

  datatype ColType = Text | Number | Boolean | Enum(literals: seq<string>) | AnyJson

  /** One column of an `Insert`/`Update` type: its value type, whether the key must be
      present (`col: T` rather than `col?: T`) and whether `null` is allowed. */
  datatype Column = Column(ty: ColType, required: bool, nullable: bool)

  type Shape = map<string, Column>

  predicate HasType(v: Json, c: Column) {
    match v
    case JNull => c.nullable
    case JStr(s) => c.ty == Text || c.ty == AnyJson || (c.ty.Enum? && s in c.ty.literals)
    case JNum(_) => c.ty == Number || c.ty == AnyJson
    case JBool(_) => c.ty == Boolean || c.ty == AnyJson
    case _ => c.ty == AnyJson
  }

  /** A payload type-checks against a shape: every required column is present, and
      every present key is a column holding a value of its type. */
  predicate Conforms(shape: Shape, row: map<string, Json>) {
    && (forall k :: k in shape && shape[k].required ==> k in row)
    && (forall k :: k in row ==> k in shape && HasType(row[k], shape[k]))
  }

  function Required(shape: Shape): set<string> {
    set k | k in shape && shape[k].required
  }

  function Req(ty: ColType): Column { Column(ty, true, false) }
  function Opt(ty: ColType): Column { Column(ty, false, false) }
  function OptNull(ty: ColType): Column { Column(ty, false, true) }

  const AccountsInsert: Shape := map[
    "account_type" := Req(Enum(AccountTypeConstants)),
    "birth_date" := OptNull(Text),
    "created_at" := Opt(Text),
    "created_date" := OptNull(Text),
    "email" := OptNull(Text),
    "followers" := OptNull(Number),
    "ga_enabled" := OptNull(Boolean),
    "id" := Opt(Text),
    "keranjang_kuning" := OptNull(Boolean),
    "managed_by" := OptNull(Text),
    "notes" := OptNull(Text),
    "password_encrypted" := OptNull(Text),
    "phone" := OptNull(Text),
    "platform" := Req(Enum(PlatformConstants)),
    "status" := OptNull(Enum(AccountStatusConstants)),
    "team_id" := OptNull(Text),
    "updated_at" := Opt(Text),
    "username" := Req(Text)
  ]

  const KpiTargetsInsert: Shape := map[
    "created_at" := Opt(Text),
    "created_by" := Req(Text),
    "end_date" := Req(Text),
    "id" := Opt(Text),
    "metric" := Req(Text),
    "period" := Req(Enum(PeriodConstants)),
    "start_date" := Req(Text),
    "target_for_id" := Req(Text),
    "target_for_type" := Req(Enum(TargetForTypeConstants)),
    "target_value" := Req(Number),
    "updated_at" := Opt(Text)
  ]

  const PerformanceLogsInsert: Shape := map[
    "created_at" := Opt(Text),
    "date" := Req(Text),
    "division" := OptNull(Enum(DivisionConstants)),
    "id" := Opt(Text),
    "meta" := OptNull(AnyJson),
    "metric" := Req(Text),
    "team_id" := OptNull(Text),
    "user_id" := OptNull(Text),
    "value" := Req(Number)
  ]

  const ProductsInsert: Shape := map[
    "created_at" := Opt(Text),
    "created_by" := Req(Text),
    "description" := OptNull(Text),
    "id" := Opt(Text),
    "spreadsheet_url" := Req(Text),
    "title" := Req(Text),
    "updated_at" := Opt(Text)
  ]

  const SopsInsert: Shape := map[
    "created_at" := Opt(Text),
    "created_by" := Req(Text),
    "description" := OptNull(Text),
    "file_path" := OptNull(Text),
    "id" := Opt(Text),
    "title" := Req(Text),
    "updated_at" := Opt(Text)
  ]

  const ToolsInsert: Shape := map[
    "created_at" := Opt(Text),
    "created_by" := Req(Text),
    "description" := OptNull(Text),
    "id" := Opt(Text),
    "title" := Req(Text),
    "updated_at" := Opt(Text),
    "url" := Req(Text)
  ]

  const TutorialsInsert: Shape := map[
    "body" := OptNull(Text),
    "created_at" := Opt(Text),
    "created_by" := Req(Text),
    "file_path" := OptNull(Text),
    "id" := Opt(Text),
    "is_public" := OptNull(Boolean),
    "title" := Req(Text),
    "updated_at" := Opt(Text),
    "youtube_url" := OptNull(Text)
  ]

  const UsersMetaInsert: Shape := map[
    "created_at" := Opt(Text),
    "division" := OptNull(Enum(DivisionConstants)),
    "full_name" := Req(Text),
    "id" := Req(Text),
    "profile" := OptNull(AnyJson),
    "registered_at" := Opt(Text),
    "role" := Opt(Enum(AppRoleConstants)),
    "updated_at" := Opt(Text),
    "username" := Req(Text)
  ]

  /** The `Update` type of a table: the same columns with the same types, every one optional. */
  function UpdateOf(insert: Shape): (u: Shape)
    ensures u.Keys == insert.Keys
    ensures Required(u) == {}
    ensures forall k :: k in u ==> u[k].ty == insert[k].ty && u[k].nullable == insert[k].nullable
  {
    map k | k in insert :: insert[k].(required := false)
  }

  const AccountsUpdate: Shape := UpdateOf(AccountsInsert)
  const KpiTargetsUpdate: Shape := UpdateOf(KpiTargetsInsert)
  const PerformanceLogsUpdate: Shape := UpdateOf(PerformanceLogsInsert)

  /** An update accepts any subset of well-typed columns of the insert type. */
  lemma UpdateAcceptsWellTypedColumns(insert: Shape, row: map<string, Json>)
    requires forall k :: k in row ==> k in insert && HasType(row[k], insert[k])
    ensures Conforms(UpdateOf(insert), row)
  {
    var u := UpdateOf(insert);
    forall k | k in row ensures k in u && HasType(row[k], u[k]) {
      assert u[k].ty == insert[k].ty && u[k].nullable == insert[k].nullable;
    }
  }

  /** The columns an `accounts` insert demands. */
  lemma AccountsRequired()
    ensures Required(AccountsInsert) == {"account_type", "platform", "username"}
  {
    forall k | k in Required(AccountsInsert) ensures k in {"account_type", "platform", "username"} {}
  }

  /** The columns a `kpi_targets` insert demands. */
  lemma KpiTargetsRequired()
    ensures Required(KpiTargetsInsert) ==
      {"created_by", "start_date", "end_date", "metric", "period", "target_for_id", "target_for_type", "target_value"}
  {
    forall k | k in Required(KpiTargetsInsert)
      ensures k in {"created_by", "start_date", "end_date", "metric", "period", "target_for_id", "target_for_type", "target_value"} {}
  }

  /** The columns a `performance_logs` insert demands. */
  lemma PerformanceLogsRequired()
    ensures Required(PerformanceLogsInsert) == {"date", "metric", "value"}
  {
    forall k | k in Required(PerformanceLogsInsert) ensures k in {"date", "metric", "value"} {}
  }

  /** The columns a `users_meta` insert demands; `role` and `division` are optional columns. */
  lemma UsersMetaRequired()
    ensures Required(UsersMetaInsert) == {"full_name", "id", "username"}
    ensures "role" in UsersMetaInsert && "division" in UsersMetaInsert
  {
    forall k | k in Required(UsersMetaInsert) ensures k in {"full_name", "id", "username"} {}
  }
}
