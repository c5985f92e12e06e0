/** The add-SOP form: a title, an optional description and the link to the SOP
    document, created by the signed-in user. */
module SopForm {
  import opened Wrappers
  import opened Json
  import opened DbTypes
  import opened Forms
  import opened AuthLib

  datatype Input = Input(title: string, description: Option<string>, filePath: string)

  function Issues(isUrl: string -> bool, i: Input): set<string> {
    Check(MinLength(i.title, 5), "title") + Check(isUrl(i.filePath) && MinLength(i.filePath, 1), "file_path")
  }

  /** The resolver of `sopFormSchema`: the link must be a URL and not empty. */
  function Validate(isUrl: string -> bool, i: Input): (r: Result<Input, set<string>>)
    ensures r.Ok? <==> |i.title| >= 5 && isUrl(i.filePath) && i.filePath != ""
    ensures r.Err? ==>
      && r.error != {}
      && ("title" in r.error <==> |i.title| < 5)
      && ("file_path" in r.error <==> !isUrl(i.filePath) || i.filePath == "")
      && r.error <= {"title", "file_path"}
    ensures r.Ok? ==> r.value == i
  {
    var issues := Issues(isUrl, i);
    if issues == {} then Ok(i) else Err(issues)
  }

  /** The initial form: every text empty. */
  const Defaults := Input("", Some(""), "")

  /** Submitting the untouched form reports the title and the link, whatever counts
      as a URL. */
  lemma DefaultsBlocked(isUrl: string -> bool)
    ensures Validate(isUrl, Defaults) == Err({"title", "file_path"})
  {
    var r := Validate(isUrl, Defaults);
    assert r.Err? && "title" in r.error && "file_path" in r.error;
    assert r.error == {"title", "file_path"};
  }

  const GuardMessage := "User not authenticated"

  function Payload(v: Input, userId: string): (p: Row)
    ensures p.Keys == {"title", "file_path", "created_by"} + (if v.description.Some? then {"description"} else {})
    ensures p["title"] == JStr(v.title) && p["file_path"] == JStr(v.filePath)
    ensures p["created_by"] == JStr(userId)
    ensures v.description.Some? ==> p["description"] == JStr(v.description.value)
    ensures Conforms(SopsInsert, p)
  {
    var base := map["title" := JStr(v.title), "file_path" := JStr(v.filePath), "created_by" := JStr(userId)];
    var p := PutOpt(base, "description", OptStr(v.description));
    assert forall k :: k in SopsInsert && SopsInsert[k].required ==> k in {"title", "created_by"};
    p
  }

  /** Submit: validation first, then the signed-in-user guard, then one insert. */
  function Submit(isUrl: string -> bool, user: Option<AuthUser>, i: Input): (r: Submission<Row>)
    ensures r.Blocked? <==> Validate(isUrl, i).Err?
    ensures r.Blocked? ==> r.issues == Validate(isUrl, i).error
    ensures r.Thrown? <==> Validate(isUrl, i).Ok? && user.None?
    ensures r.Thrown? ==> r.message == GuardMessage
    ensures r.Sent? ==> r.payload == Payload(i, user.value.id)
    ensures r.Sent? ==> Conforms(SopsInsert, r.payload)
  {
    match Validate(isUrl, i)
    case Err(issues) => Blocked(issues)
    case Ok(v) =>
      if user.None? then Thrown(GuardMessage) else Sent(Payload(v, user.value.id))
  }
}
