/** How a submitted daily report looks on the manager's review page: the stored row is
    read back as a performance log, and merging it into a report only ever sets the
    `daily_report` count; the division's measurements and the notes never show. */
module DailyReportReview {
  import opened Wrappers
  import opened Json
  import opened DbTypes
  import opened Forms
  import opened AuthLib
  import DailyReportForm
  import ReportReview

  /** A `performance_logs` row as the review page selects it; `createdAt` is the
      server-assigned timestamp. An absent or null `meta` reads as null. */
  function StoredLog(p: Row, createdAt: string): (l: Option<ReportReview.Log>)
    ensures l.Some? ==> "date" in p && p["date"] == JStr(l.value.date)
    ensures l.Some? ==> "metric" in p && p["metric"] == JStr(l.value.metric)
    ensures l.Some? ==> "value" in p && p["value"] == JNum(l.value.value)
    ensures l.Some? ==> l.value.createdAt == createdAt
  {
    if "date" !in p || !p["date"].JStr? || "metric" !in p || !p["metric"].JStr?
      || "value" !in p || !p["value"].JNum? then None
    else
      var userId := if "user_id" in p && p["user_id"].JStr? then Some(p["user_id"].s) else None;
      var division := if "division" in p && p["division"].JStr? then ParseDivision(p["division"].s) else None;
      var meta := if "meta" in p then p["meta"] else JNull;
      Some(ReportReview.Log(p["date"].s, createdAt, userId, division, p["metric"].s, p["value"].n, meta))
  }

  /** A daily-report payload reads back as the log it describes. */
  lemma PayloadReadsBack(user: AuthUser, division: Division, values: Row, today: string, createdAt: string)
    ensures StoredLog(DailyReportForm.LogPayload(user, division, values, today), createdAt) ==
      Some(ReportReview.Log(today, createdAt, Some(user.id), Some(division), "daily_report", 1.0, JObj(values - {"notes"})))
  {
    ParseRoundTrip();
  }

  /** Merging a log whose meta carries neither notes nor an original value: only the
      positive-value fallback can touch the report. */
  lemma PlainLogMerge(meta: map<string, Json>, l: ReportReview.Log)
    requires l.meta.JObj? && "notes" !in l.meta.fields && "original_value" !in l.meta.fields
    requires l.metric != "notes"
    ensures ReportReview.MergeMeta(meta, l) ==
      (if !PropTruthy(meta, l.metric) && l.value > 0.0 then meta[l.metric := JNum(l.value)] else meta)
  {
  }

  /** A sent daily report is stored as a log of the reporter, their division, metric
      `daily_report` and value 1, whose meta is the validated form values minus the
      notes; merged into any report it only fills the `daily_report` count when that
      count is still falsy, and it leaves the notes and every other key alone. */
  lemma SentReportMergesAsCount(user: Option<AuthUser>, profile: Option<UserMetadata>,
                                i: DailyReportForm.Input, today: string, createdAt: string,
                                meta: map<string, Json>)
    requires DailyReportForm.Submit(user, profile, i, today).Sent?
    ensures var l := StoredLog(DailyReportForm.Submit(user, profile, i, today).payload, createdAt);
      && l.Some?
      && l.value.userId == Some(user.value.id)
      && l.value.division == profile.value.division
      && l.value.metric == "daily_report"
      && l.value.value == 1.0
      && ReportReview.TruthyNotes(l.value).None?
      && ReportReview.OriginalValue(l.value).None?
      && ReportReview.MergeMeta(meta, l.value) ==
           (if PropTruthy(meta, "daily_report") then meta else meta["daily_report" := JNum(1.0)])
  {
    var division := profile.value.division;
    var schema := DailyReportForm.ValidationSchema(division);
    var values := DailyReportForm.Parse(schema, i).value;
    assert values.Keys <= DailyReportForm.SchemaKeys(schema);
    assert "original_value" !in DailyReportForm.SchemaKeys(schema);
    var p := DailyReportForm.Submit(user, profile, i, today).payload;
    assert p == DailyReportForm.LogPayload(user.value, division.value, values, today);
    PayloadReadsBack(user.value, division.value, values, today, createdAt);
    var l := StoredLog(p, createdAt).value;
    assert l.meta == JObj(values - {"notes"});
    assert "notes" !in l.meta.fields && "original_value" !in l.meta.fields;
    PlainLogMerge(meta, l);
  }
}
