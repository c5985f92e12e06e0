/** The KPI-target form: a target (user, team or division) gets a metric, a numeric
    goal and a period covering the current calendar month. */
module KpiForm {
  import opened Wrappers
  import opened Json
  import opened DbTypes
  import opened Forms
  import opened AuthLib

  /** The literals of the form's `target_for_type` and `period` enums. */
  const TargetTypeLiterals: seq<string> := ["user", "team", "division"]
  const PeriodLiterals: seq<string> := ["daily", "monthly"]

  /** The form's enums accept exactly the database's enumerations. */
  lemma FormEnumsMatchDatabase()
    ensures TargetTypeLiterals == TargetForTypeConstants
    ensures PeriodLiterals == PeriodConstants
  {
  }

  /** The form's field values; `targetValue` is None when coercion yields NaN, which is
      also what the untouched field coerces to. */
  datatype Input = Input(
    targetForType: string,
    targetForId: Option<string>,
    metric: string,
    targetValue: Option<real>,
    period: string)

  /** What the schema outputs. */
  datatype Values = Values(
    targetForType: TargetForType,
    targetForId: string,
    metric: string,
    targetValue: real,
    period: Period)

  function Issues(i: Input): set<string> {
    Check(ParseTargetForType(i.targetForType).Some?, "target_for_type")
    + Check(i.targetForId.Some? && MinLength(i.targetForId.value, 1), "target_for_id")
    + Check(MinLength(i.metric, 3), "metric")
    + Check(i.targetValue.Some? && i.targetValue.value >= 1.0, "target_value")
    + Check(ParsePeriod(i.period).Some?, "period")
  }

  /** The resolver: the field-wise rules of `kpiFormSchema`, every failing field reported. */
  function Validate(i: Input): (r: Result<Values, set<string>>)
    ensures r.Ok? <==>
      && i.targetForType in TargetTypeLiterals
      && i.targetForId.Some? && i.targetForId.value != ""
      && |i.metric| >= 3
      && i.targetValue.Some? && i.targetValue.value >= 1.0
      && i.period in PeriodLiterals
    ensures r.Err? ==>
      && r.error != {}
      && ("target_for_type" in r.error <==> i.targetForType !in TargetTypeLiterals)
      && ("target_for_id" in r.error <==> i.targetForId.None? || i.targetForId.value == "")
      && ("metric" in r.error <==> |i.metric| < 3)
      && ("target_value" in r.error <==> i.targetValue.None? || i.targetValue.value < 1.0)
      && ("period" in r.error <==> i.period !in PeriodLiterals)
      && r.error <= {"target_for_type", "target_for_id", "metric", "target_value", "period"}
    ensures r.Ok? ==>
      && TargetForTypeName(r.value.targetForType) == i.targetForType
      && Some(r.value.targetForId) == i.targetForId
      && r.value.metric == i.metric
      && Some(r.value.targetValue) == i.targetValue
      && PeriodName(r.value.period) == i.period
  {
    ParseAccepts();
    var issues := Issues(i);
    if issues == {} then
      Ok(Values(ParseTargetForType(i.targetForType).value, i.targetForId.value, i.metric,
                i.targetValue.value, ParsePeriod(i.period).value))
    else Err(issues)
  }

  /** The form as the validated values would have filled it. */
  function InputOf(v: Values): Input {
    Input(TargetForTypeName(v.targetForType), Some(v.targetForId), v.metric, Some(v.targetValue), PeriodName(v.period))
  }

  /** Every output of the schema is accepted again unchanged when it fills the form. */
  lemma ValidateRoundTrip(i: Input)
    requires Validate(i).Ok?
    ensures InputOf(Validate(i).value) == i
    ensures Validate(InputOf(Validate(i).value)) == Validate(i)
  {
  }

  /** The initial form: user target, monthly, no target chosen, empty metric, no value. */
  const Defaults := Input("user", None, "", None, "monthly")

  /** Submitting the untouched form reports the target, the metric and the value. */
  lemma DefaultsBlocked()
    ensures Validate(Defaults) == Err({"target_for_id", "metric", "target_value"})
  {
    ParseAccepts();
    var r := Validate(Defaults);
    assert r.Err?;
    assert "target_for_id" in r.error && "metric" in r.error && "target_value" in r.error;
    assert "target_for_type" !in r.error && "period" !in r.error;
    assert r.error == {"target_for_id", "metric", "target_value"};
  }

  // ---------------------------------------------------------------------------
  // Target options
  // ---------------------------------------------------------------------------

  datatype TargetOption = TargetOption(id: string, name: string)

  datatype Options = Options(users: seq<TargetOption>, teams: seq<TargetOption>, divisions: seq<TargetOption>)

  /** The fixed division options, in the order of the division enumeration. */
  const DivisionOptions: seq<TargetOption> := [
    TargetOption("konten_kreator", "Konten Kreator"),
    TargetOption("host_live", "Host Live"),
    TargetOption("model", "Model"),
    TargetOption("manager", "Manager")]

  /** The division options offer each database division exactly once. */
  lemma DivisionOptionsAreDivisions()
    ensures |DivisionOptions| == |DivisionConstants|
    ensures forall j :: 0 <= j < |DivisionOptions| ==> DivisionOptions[j].id == DivisionConstants[j]
    ensures forall d :: (exists o :: o in DivisionOptions && o.id == DivisionName(d))
  {
    forall d ensures exists o :: o in DivisionOptions && o.id == DivisionName(d) {
      match d
      case KontenKreator => assert DivisionOptions[0].id == DivisionName(d);
      case HostLive => assert DivisionOptions[1].id == DivisionName(d);
      case Model => assert DivisionOptions[2].id == DivisionName(d);
      case ManagerDivision => assert DivisionOptions[3].id == DivisionName(d);
    }
  }

  const OptionsError := "Failed to fetch users or teams"

  /** `fetchTargetOptions`: both queries must succeed; user rows are labelled by full
      name, team rows by name, and the divisions are the fixed list. */
  function FetchTargetOptions(users: Result<seq<UserMetadata>, string>, teams: Result<seq<TargetOption>, string>): (r: Result<Options, string>)
    ensures r.Err? <==> users.Err? || teams.Err?
    ensures r.Err? ==> r.error == OptionsError
    ensures r.Ok? ==>
      && |r.value.users| == |users.value|
      && (forall j :: 0 <= j < |users.value| ==>
            r.value.users[j] == TargetOption(users.value[j].id, users.value[j].fullName))
      && r.value.teams == teams.value
      && r.value.divisions == DivisionOptions
  {
    if users.Err? || teams.Err? then Err(OptionsError)
    else
      var us := seq(|users.value|, j requires 0 <= j < |users.value| => TargetOption(users.value[j].id, users.value[j].fullName));
      Ok(Options(us, teams.value, DivisionOptions))
  }

  /** The targets the second select offers for the chosen type; nothing while the
      options are loading or failed, nothing for an unknown type. */
  function OfferedTargets(targetType: string, options: Option<Options>): (r: seq<TargetOption>)
    ensures options.None? || targetType !in TargetTypeLiterals ==> r == []
    ensures options.Some? && targetType == "user" ==> r == options.value.users
    ensures options.Some? && targetType == "team" ==> r == options.value.teams
    ensures options.Some? && targetType == "division" ==> r == options.value.divisions
  {
    match options
    case None => []
    case Some(o) =>
      if targetType == "user" then o.users
      else if targetType == "team" then o.teams
      else if targetType == "division" then o.divisions
      else []
  }

  // ---------------------------------------------------------------------------
  // Submit
  // ---------------------------------------------------------------------------

  /** The inserted row: the values, the month bounds, and `created_by` only when a user
      is signed in (an `undefined` id is dropped from the request). */
  function Payload(v: Values, startDate: string, endDate: string, user: Option<AuthUser>): (p: Row)
    ensures "created_by" in p <==> user.Some?
    ensures user.Some? ==> p["created_by"] == JStr(user.value.id)
    ensures p.Keys - {"created_by"} ==
      {"target_for_type", "target_for_id", "metric", "target_value", "period", "start_date", "end_date"}
    ensures p["target_for_type"] == JStr(TargetForTypeName(v.targetForType))
    ensures p["target_for_id"] == JStr(v.targetForId)
    ensures p["metric"] == JStr(v.metric)
    ensures p["target_value"] == JNum(v.targetValue)
    ensures p["period"] == JStr(PeriodName(v.period))
    ensures p["start_date"] == JStr(startDate) && p["end_date"] == JStr(endDate)
  {
    var base := map[
      "target_for_type" := JStr(TargetForTypeName(v.targetForType)),
      "target_for_id" := JStr(v.targetForId),
      "metric" := JStr(v.metric),
      "target_value" := JNum(v.targetValue),
      "period" := JStr(PeriodName(v.period)),
      "start_date" := JStr(startDate),
      "end_date" := JStr(endDate)];
    var p := PutOpt(base, "created_by", if user.Some? then Some(JStr(user.value.id)) else None);
    p
  }

  /** Reads a `kpi_targets` row back into form values: the enum columns must hold
      known literals and every value column must have its type. */
  function ValuesOf(p: Row): Option<Values> {
    if && "target_for_type" in p && p["target_for_type"].JStr?
       && "target_for_id" in p && p["target_for_id"].JStr?
       && "metric" in p && p["metric"].JStr?
       && "target_value" in p && p["target_value"].JNum?
       && "period" in p && p["period"].JStr?
    then
      match (ParseTargetForType(p["target_for_type"].s), ParsePeriod(p["period"].s))
      case (Some(t), Some(per)) =>
        Some(Values(t, p["target_for_id"].s, p["metric"].s, p["target_value"].n, per))
      case _ => None
    else None
  }

  /** The inserted row carries the validated values unchanged: reading it back gives
      them again, whatever the period bounds and the user. */
  lemma PayloadReadsBack(v: Values, startDate: string, endDate: string, user: Option<AuthUser>)
    ensures ValuesOf(Payload(v, startDate, endDate, user)) == Some(v)
  {
    ParseRoundTrip();
  }

  /** The row fits the `kpi_targets` insert type exactly when a user is signed in:
      without one the required `created_by` column is missing. */
  lemma PayloadConformsIffUser(v: Values, startDate: string, endDate: string, user: Option<AuthUser>)
    ensures Conforms(KpiTargetsInsert, Payload(v, startDate, endDate, user)) <==> user.Some?
  {
    var p := Payload(v, startDate, endDate, user);
    if user.Some? {
      KpiRowConforms(p, v.targetForType, v.period);
    } else {
      assert KpiTargetsInsert["created_by"].required && "created_by" !in p;
    }
  }

  /** A row with every `kpi_targets` column the form writes, each of its type. */
  lemma KpiRowConforms(p: Row, t: TargetForType, per: Period)
    requires p.Keys ==
      {"target_for_type", "target_for_id", "metric", "target_value", "period", "start_date", "end_date", "created_by"}
    requires p["target_for_type"] == JStr(TargetForTypeName(t)) && p["period"] == JStr(PeriodName(per))
    requires p["target_for_id"].JStr? && p["metric"].JStr? && p["target_value"].JNum?
    requires p["start_date"].JStr? && p["end_date"].JStr? && p["created_by"].JStr?
    ensures Conforms(KpiTargetsInsert, p)
  {
    NamesListed();
    KpiTargetsRequired();
    assert forall k :: k in KpiTargetsInsert && KpiTargetsInsert[k].required ==> k in Required(KpiTargetsInsert);
    assert forall k :: k in p ==> k in KpiTargetsInsert && HasType(p[k], KpiTargetsInsert[k]);
  }

  /** Submit: there is no signed-in-user guard, so a valid form is always sent; the
      request only fits the insert type when a user is signed in. `startDate` and
      `endDate` are the bounds of the current month. */
  function Submit(i: Input, startDate: string, endDate: string, user: Option<AuthUser>): (r: Submission<Row>)
    ensures r.Blocked? <==> Validate(i).Err?
    ensures r.Blocked? ==> r.issues == Validate(i).error
    ensures !r.Thrown?
    ensures r.Sent? ==> r.payload == Payload(Validate(i).value, startDate, endDate, user)
    ensures r.Sent? ==> (Conforms(KpiTargetsInsert, r.payload) <==> user.Some?)
  {
    match Validate(i)
    case Err(issues) => Blocked(issues)
    case Ok(v) =>
      PayloadConformsIffUser(v, startDate, endDate, user);
      Sent(Payload(v, startDate, endDate, user))
  }
}
