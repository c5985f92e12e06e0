/** The add-tool form: a title, an optional description and the tool's link, created
    by the signed-in user. */
module ToolForm {
  import opened Wrappers
  import opened Json
  import opened DbTypes
  import opened Forms
  import opened AuthLib

  datatype Input = Input(title: string, description: Option<string>, url: string)

  function Issues(isUrl: string -> bool, i: Input): set<string> {
    Check(MinLength(i.title, 3), "title") + Check(isUrl(i.url), "url")
  }

  /** The resolver of `toolFormSchema`; note the shorter title minimum of three. */
  function Validate(isUrl: string -> bool, i: Input): (r: Result<Input, set<string>>)
    ensures r.Ok? <==> |i.title| >= 3 && isUrl(i.url)
    ensures r.Err? ==>
      && r.error != {}
      && ("title" in r.error <==> |i.title| < 3)
      && ("url" in r.error <==> !isUrl(i.url))
      && r.error <= {"title", "url"}
    ensures r.Ok? ==> r.value == i
  {
    var issues := Issues(isUrl, i);
    if issues == {} then Ok(i) else Err(issues)
  }

  /** The initial form: every text empty. */
  const Defaults := Input("", Some(""), "")

  /** Submitting the untouched form reports the title, and the link unless the empty
      string counts as a URL. */
  lemma DefaultsBlocked(isUrl: string -> bool)
    ensures Validate(isUrl, Defaults).Err?
    ensures Validate(isUrl, Defaults).error == {"title"} + (if isUrl("") then {} else {"url"})
  {
    var r := Validate(isUrl, Defaults);
    assert "title" in r.error;
  }

  const GuardMessage := "User not authenticated"

  /** `{ ...values, created_by }`. */
  function Payload(v: Input, userId: string): (p: Row)
    ensures p.Keys == {"title", "url", "created_by"} + (if v.description.Some? then {"description"} else {})
    ensures p["title"] == JStr(v.title) && p["url"] == JStr(v.url)
    ensures p["created_by"] == JStr(userId)
    ensures v.description.Some? ==> p["description"] == JStr(v.description.value)
    ensures Conforms(ToolsInsert, p)
  {
    var values := PutOpt(map["title" := JStr(v.title), "url" := JStr(v.url)], "description", OptStr(v.description));
    var p := values["created_by" := JStr(userId)];
    assert forall k :: k in ToolsInsert && ToolsInsert[k].required ==> k in {"title", "url", "created_by"};
    p
  }

  /** Submit: validation first, then the signed-in-user guard, then one insert. */
  function Submit(isUrl: string -> bool, user: Option<AuthUser>, i: Input): (r: Submission<Row>)
    ensures r.Blocked? <==> Validate(isUrl, i).Err?
    ensures r.Blocked? ==> r.issues == Validate(isUrl, i).error
    ensures r.Thrown? <==> Validate(isUrl, i).Ok? && user.None?
    ensures r.Thrown? ==> r.message == GuardMessage
    ensures r.Sent? ==> r.payload == Payload(i, user.value.id)
    ensures r.Sent? ==> Conforms(ToolsInsert, r.payload)
  {
    match Validate(isUrl, i)
    case Err(issues) => Blocked(issues)
    case Ok(v) =>
      if user.None? then Thrown(GuardMessage) else Sent(Payload(v, user.value.id))
  }
}
