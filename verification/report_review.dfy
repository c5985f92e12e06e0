/** The manager's daily-report review: the fold that merges performance-log rows into
    one report per (date, user), the key formatter used for labels, and the detail view. */
module ReportReview {
  import opened Wrappers
  import opened Json
  import opened DbTypes
  import Text

  /** A `performance_logs` row as the review reads it; `meta` is `JNull` for a null column. */
  datatype Log = Log(
    date: string,
    createdAt: string,
    userId: Option<string>,
    division: Option<Division>,
    metric: string,
    value: real,
    meta: Json)

  /** A row of the `users_meta (id, full_name)` lookup. */
  datatype UserRow = UserRow(id: string, fullName: string)

  /** One merged report; `id` is the grouping key. */
  datatype Report = Report(
    id: string,
    date: string,
    createdAt: string,
    userId: Option<string>,
    division: Option<Division>,
    userName: string,
    meta: map<string, Json>)

  const UnknownUser: string := "Unknown User"

  // ---------------------------------------------------------------------------
  // Grouping key and user names
  // ---------------------------------------------------------------------------

  /** How a nullable id prints inside a template literal. */
  function IdText(userId: Option<string>): string {
    match userId
    case Some(id) => id
    case None => "null"
  }

  /** The template-literal key `${date}-${user_id}`. */
  function Key(l: Log): string {
    l.date + "-" + IdText(l.userId)
  }

  /** Two logs whose dates have the same width share a key exactly when they share the
      date and the printed user id; dates from a `date` column are all `YYYY-MM-DD`. */
  lemma KeyDeterminesDateAndUser(l1: Log, l2: Log)
    requires |l1.date| == |l2.date|
    ensures Key(l1) == Key(l2) <==> l1.date == l2.date && IdText(l1.userId) == IdText(l2.userId)
  {
    if Key(l1) == Key(l2) {
      var n := |l1.date|;
      assert l1.date == Key(l1)[..n];
      assert l2.date == Key(l2)[..n];
      assert IdText(l1.userId) == Key(l1)[n + 1..];
      assert IdText(l2.userId) == Key(l2)[n + 1..];
    }
  }

  /** `new Map(users.map(u => [u.id, u.full_name]))`: a later row with the same id wins. */
  function NameMap(users: seq<UserRow>): (m: map<string, string>)
    ensures forall id :: id in m <==> exists i :: 0 <= i < |users| && users[i].id == id
    decreases |users|
  {
    if |users| == 0 then map[]
    else
      var last := users[|users| - 1];
      var m := NameMap(users[..|users| - 1]);
      assert forall i :: 0 <= i < |users| - 1 ==> users[..|users| - 1][i] == users[i];
      m[last.id := last.fullName]
  }

  /** `userNameMap.get(log.user_id) || "Unknown User"`. */
  function UserName(names: map<string, string>, userId: Option<string>): string {
    if userId.Some? && userId.value in names && names[userId.value] != "" then names[userId.value]
    else UnknownUser
  }

  /** The name shown for a user id is the full name on the LAST users row carrying that id,
      or "Unknown User" when no row carries it, the id is null, or that name is empty. */
  lemma {:induction false} UserNameIsLastRow(users: seq<UserRow>, userId: Option<string>, i: nat)
    requires i < |users| && userId == Some(users[i].id)
    requires forall j :: i < j < |users| ==> users[j].id != users[i].id
    ensures UserName(NameMap(users), userId) ==
      (if users[i].fullName != "" then users[i].fullName else UnknownUser)
    decreases |users|
  {
    if i < |users| - 1 {
      var prefix := users[..|users| - 1];
      assert prefix[i] == users[i];
      assert forall j :: i < j < |prefix| ==> prefix[j] == users[j];
      UserNameIsLastRow(prefix, userId, i);
      assert NameMap(users) == NameMap(prefix)[users[|users| - 1].id := users[|users| - 1].fullName];
    }
  }

  /** Without any row for the id, or for a null id, the name is "Unknown User". */
  lemma UserNameMissing(users: seq<UserRow>, userId: Option<string>)
    requires userId.Some? ==> forall j :: 0 <= j < |users| ==> users[j].id != userId.value
    ensures UserName(NameMap(users), userId) == UnknownUser
  {
  }

  // ---------------------------------------------------------------------------
  // Merging one log into a report's meta
  // ---------------------------------------------------------------------------

  /** `metaObj.original_value` when the log's meta is an object that defines it. */
  function OriginalValue(l: Log): Option<Json> {
    if l.meta.JObj? && "original_value" in l.meta.fields then Some(l.meta.fields["original_value"])
    else None
  }

  /** `metaObj.notes` when the log's meta is an object whose `notes` is truthy. */
  function TruthyNotes(l: Log): Option<Json> {
    if l.meta.JObj? && "notes" in l.meta.fields && Truthy(l.meta.fields["notes"]) then Some(l.meta.fields["notes"])
    else None
  }

  /** The body of the reduce after the report exists: copy `original_value` to the metric,
      copy truthy notes, and fall back to the row's positive `value` when the metric is still falsy. */
  function MergeMeta(meta: map<string, Json>, l: Log): (r: map<string, Json>)
    // only the metric and "notes" can change
    ensures forall k :: k != l.metric && k != "notes" ==>
      (k in r <==> k in meta) && (k in meta ==> r[k] == meta[k])
    ensures r.Keys <= meta.Keys + {l.metric, "notes"}
    // truthy notes replace the previous ones; otherwise notes are untouched
    ensures TruthyNotes(l).Some? ==> "notes" in r && r["notes"] == TruthyNotes(l).value
    ensures TruthyNotes(l).None? && l.metric != "notes" ==>
      ("notes" in r <==> "notes" in meta) && ("notes" in meta ==> r["notes"] == meta["notes"])
    // a defined original_value is written, unless the positive value replaces a falsy one
    ensures OriginalValue(l).Some? && (l.metric != "notes" || TruthyNotes(l).None?) ==>
      l.metric in r &&
      r[l.metric] == (if !Truthy(OriginalValue(l).value) && l.value > 0.0 then JNum(l.value) else OriginalValue(l).value)
    // without original_value the metric changes only through the fallback; this includes
    // a metric named "notes" when the log's own notes are falsy
    ensures OriginalValue(l).None? && (l.metric != "notes" || TruthyNotes(l).None?) ==>
      if !PropTruthy(meta, l.metric) && l.value > 0.0 then l.metric in r && r[l.metric] == JNum(l.value)
      else (l.metric in r <==> l.metric in meta) && (l.metric in meta ==> r[l.metric] == meta[l.metric])
    // a positive value always leaves the metric truthy
    ensures l.value > 0.0 ==> PropTruthy(r, l.metric)
  {
    var afterOriginal := if OriginalValue(l).Some? then meta[l.metric := OriginalValue(l).value] else meta;
    var afterNotes := if TruthyNotes(l).Some? then afterOriginal["notes" := TruthyNotes(l).value] else afterOriginal;
    if !PropTruthy(afterNotes, l.metric) && l.value > 0.0 then afterNotes[l.metric := JNum(l.value)]
    else afterNotes
  }

  // ---------------------------------------------------------------------------
  // The reduce
  // ---------------------------------------------------------------------------

  /** The reduce's accumulator: the object's keys in insertion order and its values.
      Every key contains "-", so none is an array index and `Object.values` follows
      insertion order. */
  datatype Acc = Acc(order: seq<string>, reports: map<string, Report>)

  ghost predicate WellFormed(a: Acc) {
    && Distinct(a.order)
    && (forall k :: k in a.reports <==> k in a.order)
    && (forall k :: k in a.reports ==> a.reports[k].id == k)
  }

  /** The report created for the first log of a key, before its meta is merged. */
  function NewReport(names: map<string, string>, l: Log): Report {
    Report(Key(l), l.date, l.createdAt, l.userId, l.division, UserName(names, l.userId), map[])
  }

  /** One step of the reduce. */
  function Step(names: map<string, string>, a: Acc, l: Log): Acc {
    var k := Key(l);
    var report := if k in a.reports then a.reports[k] else NewReport(names, l);
    var order := if k in a.reports then a.order else a.order + [k];
    Acc(order, a.reports[k := report.(meta := MergeMeta(report.meta, l))])
  }

  /** The keys of a sequence of logs. */
  function KeysOf(logs: seq<Log>): set<string> {
    set i | 0 <= i < |logs| :: Key(logs[i])
  }

  lemma KeysOfSnoc(logs: seq<Log>)
    requires |logs| > 0
    ensures KeysOf(logs) == KeysOf(logs[..|logs| - 1]) + {Key(logs[|logs| - 1])}
  {
    var prefix := logs[..|logs| - 1];
    forall k | k in KeysOf(logs) ensures k in KeysOf(prefix) + {Key(logs[|logs| - 1])} {
      var i :| 0 <= i < |logs| && Key(logs[i]) == k;
      if i < |logs| - 1 { assert prefix[i] == logs[i]; }
    }
    forall k | k in KeysOf(prefix) ensures k in KeysOf(logs) {
      var i :| 0 <= i < |prefix| && Key(prefix[i]) == k;
      assert logs[i] == prefix[i];
    }
  }

  /** `data.reduce(..., {})`, folding the rows in order. The result holds exactly one
      report per distinct key, so never more reports than logs. */
  function Group(names: map<string, string>, logs: seq<Log>): (a: Acc)
    ensures WellFormed(a)
    ensures a.reports.Keys == KeysOf(logs)
    ensures |a.order| <= |logs|
    decreases |logs|
  {
    if |logs| == 0 then Acc([], map[])
    else
      var prev := Group(names, logs[..|logs| - 1]);
      KeysOfSnoc(logs);
      Step(names, prev, logs[|logs| - 1])
  }

  /** `Object.values(acc)`. */
  function Values(a: Acc): (rs: seq<Report>)
    requires WellFormed(a)
    ensures |rs| == |a.order|
    ensures forall i :: 0 <= i < |rs| ==> rs[i] == a.reports[a.order[i]]
    ensures forall i, j :: 0 <= i < j < |rs| ==> rs[i].id != rs[j].id
    ensures forall k :: k in a.reports <==> exists i :: 0 <= i < |rs| && rs[i].id == k
  {
    var rs := seq(|a.order|, i requires 0 <= i < |a.order| => a.reports[a.order[i]]);
    assert forall i :: 0 <= i < |rs| ==> rs[i].id == a.order[i];
    rs
  }

  /** `fetchReportsForManager`: two lookups, either of which may fail, then the fold. */
  function FetchReportsForManager(users: Result<seq<UserRow>, string>, logs: Result<seq<Log>, string>)
    : (r: Result<seq<Report>, string>)
    ensures users.Err? ==> r == Err("Failed to fetch users")
    ensures users.Ok? && logs.Err? ==> r == Err("Failed to fetch reports for manager")
    ensures users.Ok? && logs.Ok? ==> r.Ok?
    ensures r.Ok? ==>
      && |r.value| <= |logs.value|
      && (forall i, j :: 0 <= i < j < |r.value| ==> r.value[i].id != r.value[j].id)
      && (forall k :: k in KeysOf(logs.value) <==> exists i :: 0 <= i < |r.value| && r.value[i].id == k)
  {
    if users.Err? then Err("Failed to fetch users")
    else if logs.Err? then Err("Failed to fetch reports for manager")
    else
      Ok(Values(Group(NameMap(users.value), logs.value)))
  }

  // ---------------------------------------------------------------------------
  // Properties of the fold
  // ---------------------------------------------------------------------------

  /** A report's date, created_at, user, division and user name come from the FIRST log
      with its key; later logs only merge into its meta. */
  lemma {:induction false} FirstLogFixesHeader(names: map<string, string>, logs: seq<Log>, i: nat)
    requires i < |logs|
    requires forall j :: 0 <= j < i ==> Key(logs[j]) != Key(logs[i])
    ensures Key(logs[i]) in Group(names, logs).reports
    ensures Group(names, logs).reports[Key(logs[i])].(meta := map[]) == NewReport(names, logs[i])
    decreases |logs|
  {
    if i == |logs| - 1 {
      LastLogOpensReport(names, logs);
    } else {
      var prefix := logs[..|logs| - 1];
      assert prefix[i] == logs[i];
      assert forall j :: 0 <= j < i ==> Key(prefix[j]) != Key(prefix[i]) by {
        forall j | 0 <= j < i ensures Key(prefix[j]) != Key(prefix[i]) {
          assert prefix[j] == logs[j];
        }
      }
      FirstLogFixesHeader(names, prefix, i);
      assert Group(names, logs) == Step(names, Group(names, prefix), logs[|logs| - 1]);
      StepKeepsHeader(names, Group(names, prefix), logs[|logs| - 1], Key(logs[i]));
    }
  }

  /** The last log opens its report when no earlier log has its key. */
  lemma LastLogOpensReport(names: map<string, string>, logs: seq<Log>)
    requires |logs| > 0
    requires forall j :: 0 <= j < |logs| - 1 ==> Key(logs[j]) != Key(logs[|logs| - 1])
    ensures Key(logs[|logs| - 1]) in Group(names, logs).reports
    ensures Group(names, logs).reports[Key(logs[|logs| - 1])].(meta := map[]) == NewReport(names, logs[|logs| - 1])
  {
    var prefix := logs[..|logs| - 1];
    var last := logs[|logs| - 1];
    assert Key(last) !in KeysOf(prefix) by {
      forall j | 0 <= j < |prefix| ensures Key(prefix[j]) != Key(last) {
        assert prefix[j] == logs[j];
      }
    }
    assert Group(names, logs) == Step(names, Group(names, prefix), last);
    StepNewKey(names, Group(names, prefix), last);
  }

  /** The first log of a key opens its report. */
  lemma StepNewKey(names: map<string, string>, a: Acc, l: Log)
    requires Key(l) !in a.reports
    ensures Key(l) in Step(names, a, l).reports
    ensures Step(names, a, l).reports[Key(l)].(meta := map[]) == NewReport(names, l)
  {
  }

  /** A later log leaves every existing report's header alone. */
  lemma StepKeepsHeader(names: map<string, string>, a: Acc, l: Log, k: string)
    requires k in a.reports
    ensures k in Step(names, a, l).reports
    ensures Step(names, a, l).reports[k].(meta := map[]) == a.reports[k].(meta := map[])
  {
  }

  /** The logs with key `k`, in input order. */
  function Filter(logs: seq<Log>, k: string): (r: seq<Log>)
    ensures |r| <= |logs|
    decreases |logs|
  {
    if |logs| == 0 then []
    else if Key(logs[|logs| - 1]) == k then Filter(logs[..|logs| - 1], k) + [logs[|logs| - 1]]
    else Filter(logs[..|logs| - 1], k)
  }

  /** Merging a group's logs into an empty meta, in order. */
  function MetaFold(logs: seq<Log>): map<string, Json>
    decreases |logs|
  {
    if |logs| == 0 then map[] else MergeMeta(MetaFold(logs[..|logs| - 1]), logs[|logs| - 1])
  }

  /** Reference definition of the grouping: a report's meta is what folding the merge
      over exactly the logs of its key gives, as if that key's logs were alone. */
  lemma {:induction false} MetaIsFoldOfItsLogs(names: map<string, string>, logs: seq<Log>, k: string)
    requires k in Group(names, logs).reports
    ensures Group(names, logs).reports[k].meta == MetaFold(Filter(logs, k))
    decreases |logs|
  {
    var prefix := logs[..|logs| - 1];
    var last := logs[|logs| - 1];
    var prev := Group(names, prefix);
    assert Group(names, logs) == Step(names, prev, last);
    var f := Filter(logs, k);
    if Key(last) == k {
      assert f == Filter(prefix, k) + [last];
      assert f[..|f| - 1] == Filter(prefix, k);
      assert MetaFold(f) == MergeMeta(MetaFold(Filter(prefix, k)), last);
      if k in prev.reports {
        MetaIsFoldOfItsLogs(names, prefix, k);
      } else {
        FilterOfAbsentKey(prefix, k);
      }
    } else {
      assert f == Filter(prefix, k);
      MetaIsFoldOfItsLogs(names, prefix, k);
    }
  }

  lemma {:induction false} FilterOfAbsentKey(logs: seq<Log>, k: string)
    requires k !in KeysOf(logs)
    ensures Filter(logs, k) == []
    decreases |logs|
  {
    if |logs| > 0 {
      KeysOfSnoc(logs);
      FilterOfAbsentKey(logs[..|logs| - 1], k);
    }
  }

  /** Last writer wins: for a metric other than "notes", the last log of the key with that
      metric decides the metric's value, whatever logs of other metrics follow it. */
  lemma {:induction false} LastLogOfMetricWins(names: map<string, string>, logs: seq<Log>, j: nat)
    requires j < |logs|
    requires logs[j].metric != "notes"
    requires forall i :: j < i < |logs| ==> !(Key(logs[i]) == Key(logs[j]) && logs[i].metric == logs[j].metric)
    requires OriginalValue(logs[j]).Some?
    ensures Key(logs[j]) in Group(names, logs).reports
    ensures var meta := Group(names, logs).reports[Key(logs[j])].meta;
      var ov := OriginalValue(logs[j]).value;
      logs[j].metric in meta &&
      meta[logs[j].metric] == (if !Truthy(ov) && logs[j].value > 0.0 then JNum(logs[j].value) else ov)
    decreases |logs|
  {
    var prefix := logs[..|logs| - 1];
    KeysOfSnoc(logs);
    if j < |logs| - 1 {
      assert prefix[j] == logs[j];
      assert forall i :: j < i < |prefix| ==> prefix[i] == logs[i];
      LastLogOfMetricWins(names, prefix, j);
    }
  }

  /** The notes of the last log of the group whose notes are truthy. */
  function LastTruthyNotes(logs: seq<Log>): Option<Json>
    decreases |logs|
  {
    if |logs| == 0 then None
    else if TruthyNotes(logs[|logs| - 1]).Some? then TruthyNotes(logs[|logs| - 1])
    else LastTruthyNotes(logs[..|logs| - 1])
  }

  /** Unless some metric is literally named "notes", a report's notes are the last truthy
      notes among its logs, and absent when there are none: falsy notes never erase them. */
  lemma {:induction false} NotesAreLastTruthy(logs: seq<Log>)
    requires forall i :: 0 <= i < |logs| ==> logs[i].metric != "notes"
    ensures "notes" in MetaFold(logs) <==> LastTruthyNotes(logs).Some?
    ensures "notes" in MetaFold(logs) ==> MetaFold(logs)["notes"] == LastTruthyNotes(logs).value
    decreases |logs|
  {
    if |logs| > 0 {
      NotesAreLastTruthy(logs[..|logs| - 1]);
    }
  }

  // ---------------------------------------------------------------------------
  // Display
  // ---------------------------------------------------------------------------

  /** `s.replace(/_/g, ' ')`. */
  function ReplaceUnderscores(s: string): (r: string)
    ensures |r| == |s|
    ensures forall i :: 0 <= i < |s| ==> r[i] == if s[i] == '_' then ' ' else s[i]
  {
    if |s| == 0 then ""
    else (if s[0] == '_' then " " else [s[0]]) + ReplaceUnderscores(s[1..])
  }

  /** `s.replace(/\b\w/g, l => l.toUpperCase())`, scanning left to right; `afterWord`
      says whether the character before `s` is a word character. */
  function CapitalizeWords(s: string, afterWord: bool): string {
    if |s| == 0 then ""
    else
      var c := s[0];
      (if Text.IsWordChar(c) && !afterWord then [Text.Upper(c)] else [c])
      + CapitalizeWords(s[1..], Text.IsWordChar(c))
  }

  /** `formatKey`. */
  function FormatKey(s: string): string {
    CapitalizeWords(ReplaceUnderscores(s), false)
  }

  lemma {:induction false} CapitalizeWordsAt(s: string, afterWord: bool)
    ensures |CapitalizeWords(s, afterWord)| == |s|
    ensures forall i :: 0 <= i < |s| ==>
      CapitalizeWords(s, afterWord)[i] ==
        if Text.IsWordChar(s[i]) && !(if i == 0 then afterWord else Text.IsWordChar(s[i - 1]))
        then Text.Upper(s[i]) else s[i]
    decreases |s|
  {
    if |s| > 0 {
      var rest := CapitalizeWords(s[1..], Text.IsWordChar(s[0]));
      CapitalizeWordsAt(s[1..], Text.IsWordChar(s[0]));
      var r := CapitalizeWords(s, afterWord);
      var head := if Text.IsWordChar(s[0]) && !afterWord then Text.Upper(s[0]) else s[0];
      assert r == [head] + rest;
      forall i | 0 <= i < |s|
        ensures r[i] ==
          if Text.IsWordChar(s[i]) && !(if i == 0 then afterWord else Text.IsWordChar(s[i - 1]))
          then Text.Upper(s[i]) else s[i]
      {
        if i > 0 {
          assert r[i] == rest[i - 1];
          assert s[1..][i - 1] == s[i];
          if i > 1 { assert s[1..][i - 2] == s[i - 1]; }
        }
      }
    }
  }

  /** Whether position `i` of `s` begins a run of ASCII letters and digits. */
  predicate StartsRun(s: string, i: nat)
    requires i < |s|
  {
    Text.IsAlnum(s[i]) && (i == 0 || !Text.IsAlnum(s[i - 1]))
  }

  /** What `formatKey` makes of the character at position `i`. */
  function FormattedChar(s: string, i: nat): char
    requires i < |s|
  {
    if s[i] == '_' then ' '
    else if StartsRun(s, i) then Text.Upper(s[i])
    else s[i]
  }

  /** What `formatKey` does to each character: `_` becomes a space, the first character of
      each run of ASCII letters and digits is upper-cased, and nothing else changes. */
  lemma FormatKeyAt(s: string)
    ensures |FormatKey(s)| == |s|
    ensures forall i :: 0 <= i < |s| ==> FormatKey(s)[i] == FormattedChar(s, i)
  {
    var t := ReplaceUnderscores(s);
    var r := FormatKey(s);
    assert r == CapitalizeWords(t, false);
    CapitalizeWordsAt(t, false);
    forall i | 0 <= i < |s| ensures r[i] == FormattedChar(s, i) {
      assert Text.IsWordChar(t[i]) == Text.IsAlnum(s[i]);
      if i > 0 { assert Text.IsWordChar(t[i - 1]) == Text.IsAlnum(s[i - 1]); }
    }
  }

  /** `formatKey` keeps the length, leaves no underscore, and is idempotent. */
  lemma FormatKeyIdempotent(s: string)
    ensures |FormatKey(s)| == |s|
    ensures forall i :: 0 <= i < |s| ==> FormatKey(s)[i] != '_'
    ensures FormatKey(FormatKey(s)) == FormatKey(s)
  {
    var r := FormatKey(s);
    FormatKeyAt(s);
    FormatKeyAt(r);
    forall i | 0 <= i < |s| ensures r[i] != '_' && Text.IsAlnum(r[i]) == Text.IsAlnum(s[i]) {
      assert r[i] == FormattedChar(s, i);
      Text.UpperIdempotent(s[i]);
    }
    forall i | 0 <= i < |s| ensures FormatKey(r)[i] == r[i] {
      assert r[i] == FormattedChar(s, i);
      assert FormatKey(r)[i] == FormattedChar(r, i);
      Text.UpperIdempotent(s[i]);
      if i > 0 { assert r[i - 1] == FormattedChar(s, i - 1); }
    }
  }

  /** The division badge: the formatted division, or "N/A" without one. */
  function DivisionBadge(division: Option<Division>): (r: string)
    ensures division.None? ==> r == "N/A"
    ensures division.Some? ==> r == FormatKey(DivisionName(division.value))
    ensures division.Some? ==> |r| == |DivisionName(division.value)| && forall i :: 0 <= i < |r| ==> r[i] != '_'
  {
    match division
    case None => "N/A"
    case Some(d) => FormatKeyIdempotent(DivisionName(d)); FormatKey(DivisionName(d))
  }

  /** `formatKey` of `s` is `t` once `t` agrees with it character by character. */
  lemma FormatKeyIs(s: string, t: string)
    requires |t| == |s|
    requires forall i :: 0 <= i < |s| ==> t[i] == FormattedChar(s, i)
    ensures FormatKey(s) == t
  {
    FormatKeyAt(s);
  }

  /** The four badges as they appear on screen. */
  lemma BadgeTexts()
    ensures DivisionBadge(Some(KontenKreator)) == "Konten Kreator"
    ensures DivisionBadge(Some(HostLive)) == "Host Live"
    ensures DivisionBadge(Some(Model)) == "Model"
    ensures DivisionBadge(Some(ManagerDivision)) == "Manager"
  {
    KontenKreatorBadge();
    HostLiveBadge();
    OneWordBadges();
  }

  lemma OneWordBadges()
    ensures FormatKey("model") == "Model"
    ensures FormatKey("manager") == "Manager"
  {
    forall i | 0 < i < 5 ensures !StartsRun("model", i) {}
    FormatKeyIs("model", "Model");
    forall i | 0 < i < 7 ensures !StartsRun("manager", i) {}
    FormatKeyIs("manager", "Manager");
  }

  lemma KontenKreatorBadge()
    ensures FormatKey("konten_kreator") == "Konten Kreator"
  {
    var s, t := "konten_kreator", "Konten Kreator";
    forall i | 0 <= i < |s| ensures t[i] == FormattedChar(s, i) {
      if i == 7 { assert StartsRun(s, 7); } else if i == 6 { } else if i > 0 { assert !StartsRun(s, i); }
    }
    FormatKeyIs(s, t);
  }

  lemma HostLiveBadge()
    ensures FormatKey("host_live") == "Host Live"
  {
    var s, t := "host_live", "Host Live";
    forall i | 0 <= i < |s| ensures t[i] == FormattedChar(s, i) {
      if i == 5 { assert StartsRun(s, 5); } else if i == 4 { } else if i > 0 { assert !StartsRun(s, i); }
    }
    FormatKeyIs(s, t);
  }

  /** The detail dialog lists every meta key except "notes". */
  function DetailKeys(meta: map<string, Json>): (ks: set<string>)
    ensures forall k :: k in ks <==> k in meta && k != "notes"
  {
    meta.Keys - {"notes"}
  }

  /** The notes line of the dialog: `meta.notes || "-"`. */
  function NotesLine(meta: map<string, Json>): (r: Json)
    ensures "notes" in meta && Truthy(meta["notes"]) ==> r == meta["notes"]
    ensures !("notes" in meta && Truthy(meta["notes"])) ==> r == JStr("-")
    ensures Truthy(r)
  {
    OrElse(meta, "notes", JStr("-"))
  }
}
