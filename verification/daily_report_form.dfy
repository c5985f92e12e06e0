/** The daily-report form: its schema follows the reporter's division, and a valid
    submit records one `daily_report` performance log whose meta holds the division's
    measurements but never the free-text notes. */
module DailyReportForm {
  import opened Wrappers
  import opened Json
  import opened DbTypes
  import opened Forms
  import opened AuthLib

  datatype Schema = BaseSchema | CreatorSchema | HostSchema | ModelSchema

  /** `getValidationSchema`: one schema per producing division, the base schema for the
      manager division and for a reporter without a division. */
  function ValidationSchema(division: Option<Division>): (s: Schema)
    ensures s == CreatorSchema <==> division == Some(KontenKreator)
    ensures s == HostSchema <==> division == Some(HostLive)
    ensures s == ModelSchema <==> division == Some(Model)
    ensures s == BaseSchema <==> division.None? || division == Some(ManagerDivision)
  {
    match division
    case Some(KontenKreator) => CreatorSchema
    case Some(HostLive) => HostSchema
    case Some(Model) => ModelSchema
    case _ => BaseSchema
  }

  /** The keys each schema declares; every schema extends the base one. */
  function SchemaKeys(s: Schema): set<string> {
    match s
    case BaseSchema => {"notes"}
    case CreatorSchema => {"notes", "video_count", "post_count"}
    case HostSchema => {"notes", "live_duration_hours", "total_sales"}
    case ModelSchema => {"notes", "project_name"}
  }

  /** The form's field values. A number field is None when coercion yields NaN (a
      non-numeric text, or a field the form never rendered). */
  datatype Input = Input(
    notes: Option<string>,
    videoCount: Option<real>,
    postCount: Option<real>,
    liveDurationHours: Option<real>,
    totalSales: Option<real>,
    projectName: Option<string>)

  /** The value the form holds under a wire key, if any. */
  function FieldJson(i: Input, k: string): Option<Json> {
    match k
    case "notes" => OptStr(i.notes)
    case "video_count" => OptNum(i.videoCount)
    case "post_count" => OptNum(i.postCount)
    case "live_duration_hours" => OptNum(i.liveDurationHours)
    case "total_sales" => OptNum(i.totalSales)
    case "project_name" => OptStr(i.projectName)
    case _ => None
  }

  /** `z.coerce.number().min(0)`. */
  predicate NonNegative(n: Option<real>) { n.Some? && n.value >= 0.0 }

  /** Whether the field under `k` passes its rule. */
  predicate FieldOk(i: Input, k: string) {
    match k
    case "video_count" => NonNegative(i.videoCount)
    case "post_count" => NonNegative(i.postCount)
    case "live_duration_hours" => NonNegative(i.liveDurationHours)
    case "total_sales" => NonNegative(i.totalSales)
    case "project_name" => i.projectName.Some? && MinLength(i.projectName.value, 3)
    case _ => true
  }

  function Issues(s: Schema, i: Input): set<string> {
    match s
    case BaseSchema => {}
    case CreatorSchema => Check(NonNegative(i.videoCount), "video_count") + Check(NonNegative(i.postCount), "post_count")
    case HostSchema => Check(NonNegative(i.liveDurationHours), "live_duration_hours") + Check(NonNegative(i.totalSales), "total_sales")
    case ModelSchema => Check(i.projectName.Some? && MinLength(i.projectName.value, 3), "project_name")
  }

  function Output(s: Schema, i: Input): Row
    requires Issues(s, i) == {}
  {
    var base := PutOpt(map[], "notes", OptStr(i.notes));
    match s
    case BaseSchema => base
    case CreatorSchema => base["video_count" := JNum(i.videoCount.value)]["post_count" := JNum(i.postCount.value)]
    case HostSchema => base["live_duration_hours" := JNum(i.liveDurationHours.value)]["total_sales" := JNum(i.totalSales.value)]
    case ModelSchema => base["project_name" := JStr(i.projectName.value)]
  }

  /** The resolver: every failing field is reported; otherwise the output is the input
      restricted to the schema's keys (unknown keys are stripped, an absent optional
      note stays absent). */
  function Parse(s: Schema, i: Input): (r: Result<Row, set<string>>)
    ensures r.Ok? <==> forall k :: k in SchemaKeys(s) ==> FieldOk(i, k)
    ensures r.Err? ==> r.error != {} && forall k :: k in r.error <==> k in SchemaKeys(s) && !FieldOk(i, k)
    ensures r.Ok? ==> r.value.Keys == set k | k in SchemaKeys(s) && FieldJson(i, k).Some?
    ensures r.Ok? ==> forall k :: k in r.value ==> Some(r.value[k]) == FieldJson(i, k)
  {
    var issues := Issues(s, i);
    if issues == {} then
      var out := Output(s, i);
      assert out.Keys == set k | k in SchemaKeys(s) && FieldJson(i, k).Some?;
      Ok(out)
    else
      assert forall k :: k in issues <==> k in SchemaKeys(s) && !FieldOk(i, k);
      Err(issues)
  }

  /** The form's initial values: an empty note, plus zeroes or an empty project name for
      the reporter's division. */
  function Defaults(division: Option<Division>): Input {
    Input(
      Some(""),
      if division == Some(KontenKreator) then Some(0.0) else None,
      if division == Some(KontenKreator) then Some(0.0) else None,
      if division == Some(HostLive) then Some(0.0) else None,
      if division == Some(HostLive) then Some(0.0) else None,
      if division == Some(Model) then Some("") else None)
  }

  /** Submitting the untouched form passes for every division except model, whose empty
      project name is shorter than three characters. */
  lemma DefaultsOutcome(division: Option<Division>)
    ensures division != Some(Model) ==> Parse(ValidationSchema(division), Defaults(division)).Ok?
    ensures division == Some(Model) ==> Parse(ValidationSchema(division), Defaults(division)) == Err({"project_name"})
  {
  }

  /** A valid input holds a value for every measurement its schema declares. */
  lemma MeasurementsPresent(s: Schema, i: Input)
    requires Parse(s, i).Ok?
    ensures forall k :: k in SchemaKeys(s) && k != "notes" ==> FieldJson(i, k).Some?
  {
    assert forall k :: k in SchemaKeys(s) ==> FieldOk(i, k);
  }

  const GuardMessage := "User not authenticated or division not set"

  /** The performance log a valid daily report inserts. */
  function LogPayload(user: AuthUser, division: Division, values: Row, today: string): (p: Row)
    ensures Conforms(PerformanceLogsInsert, p)
    ensures p.Keys == {"date", "user_id", "division", "metric", "value", "meta"}
    ensures p["meta"] == JObj(values - {"notes"})
  {
    var p := map[
      "date" := JStr(today),
      "user_id" := JStr(user.id),
      "division" := JStr(DivisionName(division)),
      "metric" := JStr("daily_report"),
      "value" := JNum(1.0),
      "meta" := JObj(values - {"notes"})];
    NamesListed();
    PerformanceLogsRequired();
    assert forall k :: k in PerformanceLogsInsert && PerformanceLogsInsert[k].required ==> k in Required(PerformanceLogsInsert);
    assert forall k :: k in p ==> k in PerformanceLogsInsert && HasType(p[k], PerformanceLogsInsert[k]);
    p
  }

  /** Submit with the session's user and profile; `today` is the UTC calendar date. */
  function Submit(user: Option<AuthUser>, profile: Option<UserMetadata>, i: Input, today: string): (r: Submission<Row>)
    ensures var division := if profile.Some? then profile.value.division else None;
      var parsed := Parse(ValidationSchema(division), i);
      && (r.Blocked? <==> parsed.Err?)
      && (r.Blocked? ==> r.issues == parsed.error)
      && (r.Thrown? <==> parsed.Ok? && (user.None? || division.None?))
      && (r.Thrown? ==> r.message == GuardMessage)
      && (r.Sent? ==>
            && Conforms(PerformanceLogsInsert, r.payload)
            && r.payload.Keys == {"date", "user_id", "division", "metric", "value", "meta"}
            && r.payload["date"] == JStr(today)
            && r.payload["user_id"] == JStr(user.value.id)
            && r.payload["division"] == JStr(DivisionName(division.value))
            && r.payload["metric"] == JStr("daily_report")
            && r.payload["value"] == JNum(1.0)
            && r.payload["meta"].JObj?
            && r.payload["meta"].fields.Keys == SchemaKeys(ValidationSchema(division)) - {"notes"}
            && forall k :: k in r.payload["meta"].fields ==> r.payload["meta"].fields[k] == parsed.value[k])
  {
    var division := if profile.Some? then profile.value.division else None;
    match Parse(ValidationSchema(division), i)
    case Err(issues) => Blocked(issues)
    case Ok(values) =>
      if user.None? || division.None? then Thrown(GuardMessage)
      else
        MeasurementsPresent(ValidationSchema(division), i);
        Sent(LogPayload(user.value, division.value, values, today))
  }
}
