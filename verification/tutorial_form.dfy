/** The add-tutorial form: a title, an optional body, optional YouTube and file links
    (each may be left empty) and a public flag, created by the signed-in user. */
module TutorialForm {
  import opened Wrappers
  import opened Json
  import opened DbTypes
  import opened Forms
  import opened AuthLib

  datatype Input = Input(
    title: string,
    body: Option<string>,
    youtubeUrl: Option<string>,
    filePath: Option<string>,
    isPublic: Option<bool>)

  datatype Values = Values(
    title: string,
    body: Option<string>,
    youtubeUrl: Option<string>,
    filePath: Option<string>,
    isPublic: bool)

  function Issues(isUrl: string -> bool, i: Input): set<string> {
    Check(MinLength(i.title, 5), "title")
    + Check(UrlOrEmpty(isUrl, i.youtubeUrl), "youtube_url")
    + Check(UrlOrEmpty(isUrl, i.filePath), "file_path")
  }

  /** The resolver of `tutorialFormSchema`; `isUrl` decides `z.string().url()`. An
      unset public flag defaults to false; links are kept as typed, the empty string
      included. */
  function Validate(isUrl: string -> bool, i: Input): (r: Result<Values, set<string>>)
    ensures r.Ok? <==>
      && |i.title| >= 5
      && (i.youtubeUrl.None? || i.youtubeUrl.value == "" || isUrl(i.youtubeUrl.value))
      && (i.filePath.None? || i.filePath.value == "" || isUrl(i.filePath.value))
    ensures r.Err? ==>
      && r.error != {}
      && ("title" in r.error <==> |i.title| < 5)
      && ("youtube_url" in r.error <==> i.youtubeUrl.Some? && i.youtubeUrl.value != "" && !isUrl(i.youtubeUrl.value))
      && ("file_path" in r.error <==> i.filePath.Some? && i.filePath.value != "" && !isUrl(i.filePath.value))
      && r.error <= {"title", "youtube_url", "file_path"}
    ensures r.Ok? ==>
      && r.value.title == i.title && r.value.body == i.body
      && r.value.youtubeUrl == i.youtubeUrl && r.value.filePath == i.filePath
      && (r.value.isPublic <==> i.isPublic == Some(true))
  {
    var issues := Issues(isUrl, i);
    if issues == {} then Ok(Values(i.title, i.body, i.youtubeUrl, i.filePath, i.isPublic.GetOr(false)))
    else Err(issues)
  }

  /** The initial form: every text empty, not public. */
  const Defaults := Input("", Some(""), Some(""), Some(""), Some(false))

  /** Submitting the untouched form reports only the title: empty links are allowed. */
  lemma DefaultsBlocked(isUrl: string -> bool)
    ensures Validate(isUrl, Defaults) == Err({"title"})
  {
    var r := Validate(isUrl, Defaults);
    assert r.Err? && "title" in r.error;
    assert r.error == {"title"};
  }

  const GuardMessage := "User not authenticated"

  /** The inserted row: the values and the creator; undefined optionals are dropped. */
  function Payload(v: Values, userId: string): (p: Row)
    ensures p.Keys == {"title", "is_public", "created_by"}
      + (if v.body.Some? then {"body"} else {})
      + (if v.youtubeUrl.Some? then {"youtube_url"} else {})
      + (if v.filePath.Some? then {"file_path"} else {})
    ensures p["title"] == JStr(v.title) && p["is_public"] == JBool(v.isPublic) && p["created_by"] == JStr(userId)
    ensures v.body.Some? ==> p["body"] == JStr(v.body.value)
    ensures v.youtubeUrl.Some? ==> p["youtube_url"] == JStr(v.youtubeUrl.value)
    ensures v.filePath.Some? ==> p["file_path"] == JStr(v.filePath.value)
  {
    var base := map["title" := JStr(v.title), "is_public" := JBool(v.isPublic), "created_by" := JStr(userId)];
    PutOpt(PutOpt(PutOpt(base, "body", OptStr(v.body)), "youtube_url", OptStr(v.youtubeUrl)), "file_path", OptStr(v.filePath))
  }

  /** Every tutorial row fits the `tutorials` insert type. */
  lemma PayloadConforms(v: Values, userId: string)
    ensures Conforms(TutorialsInsert, Payload(v, userId))
  {
    var p := Payload(v, userId);
    assert forall k :: k in TutorialsInsert && TutorialsInsert[k].required ==> k in {"title", "created_by"};
    assert forall k :: k in p ==> k in TutorialsInsert && HasType(p[k], TutorialsInsert[k]);
  }

  /** Submit: validation first, then the signed-in-user guard, then one insert. */
  function Submit(isUrl: string -> bool, user: Option<AuthUser>, i: Input): (r: Submission<Row>)
    ensures r.Blocked? <==> Validate(isUrl, i).Err?
    ensures r.Blocked? ==> r.issues == Validate(isUrl, i).error
    ensures r.Thrown? <==> Validate(isUrl, i).Ok? && user.None?
    ensures r.Thrown? ==> r.message == GuardMessage
    ensures r.Sent? ==> r.payload == Payload(Validate(isUrl, i).value, user.value.id)
    ensures r.Sent? ==> Conforms(TutorialsInsert, r.payload)
  {
    match Validate(isUrl, i)
    case Err(issues) => Blocked(issues)
    case Ok(v) =>
      if user.None? then Thrown(GuardMessage)
      else
        PayloadConforms(v, user.value.id);
        Sent(Payload(v, user.value.id))
  }
}
