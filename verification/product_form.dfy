/** The add-product form: a title, an optional description and the product's
    spreadsheet link, created by the signed-in user. */
module ProductForm {
  import opened Wrappers
  import opened Json
  import opened DbTypes
  import opened Forms
  import opened AuthLib

  datatype Input = Input(title: string, description: Option<string>, spreadsheetUrl: string)

  function Issues(isUrl: string -> bool, i: Input): set<string> {
    Check(MinLength(i.title, 5), "title") + Check(isUrl(i.spreadsheetUrl), "spreadsheet_url")
  }

  /** The resolver of `productFormSchema`; the output is the input itself. */
  function Validate(isUrl: string -> bool, i: Input): (r: Result<Input, set<string>>)
    ensures r.Ok? <==> |i.title| >= 5 && isUrl(i.spreadsheetUrl)
    ensures r.Err? ==>
      && r.error != {}
      && ("title" in r.error <==> |i.title| < 5)
      && ("spreadsheet_url" in r.error <==> !isUrl(i.spreadsheetUrl))
      && r.error <= {"title", "spreadsheet_url"}
    ensures r.Ok? ==> r.value == i
  {
    var issues := Issues(isUrl, i);
    if issues == {} then Ok(i) else Err(issues)
  }

  /** The initial form: every text empty. */
  const Defaults := Input("", Some(""), "")

  /** Submitting the untouched form reports the title, and the link unless the empty
      string counts as a URL. */
  lemma DefaultsBlocked(isUrl: string -> bool)
    ensures Validate(isUrl, Defaults).Err?
    ensures Validate(isUrl, Defaults).error == {"title"} + (if isUrl("") then {} else {"spreadsheet_url"})
  {
    var r := Validate(isUrl, Defaults);
    assert "title" in r.error;
  }

  const GuardMessage := "User not authenticated"

  function Payload(v: Input, userId: string): (p: Row)
    ensures p.Keys == {"title", "spreadsheet_url", "created_by"} + (if v.description.Some? then {"description"} else {})
    ensures p["title"] == JStr(v.title) && p["spreadsheet_url"] == JStr(v.spreadsheetUrl)
    ensures p["created_by"] == JStr(userId)
    ensures v.description.Some? ==> p["description"] == JStr(v.description.value)
    ensures Conforms(ProductsInsert, p)
  {
    var base := map["title" := JStr(v.title), "spreadsheet_url" := JStr(v.spreadsheetUrl), "created_by" := JStr(userId)];
    var p := PutOpt(base, "description", OptStr(v.description));
    assert forall k :: k in ProductsInsert && ProductsInsert[k].required ==> k in {"title", "spreadsheet_url", "created_by"};
    p
  }

  /** Submit: validation first, then the signed-in-user guard, then one insert. */
  function Submit(isUrl: string -> bool, user: Option<AuthUser>, i: Input): (r: Submission<Row>)
    ensures r.Blocked? <==> Validate(isUrl, i).Err?
    ensures r.Blocked? ==> r.issues == Validate(isUrl, i).error
    ensures r.Thrown? <==> Validate(isUrl, i).Ok? && user.None?
    ensures r.Thrown? ==> r.message == GuardMessage
    ensures r.Sent? ==> r.payload == Payload(i, user.value.id)
    ensures r.Sent? ==> Conforms(ProductsInsert, r.payload)
  {
    match Validate(isUrl, i)
    case Err(issues) => Blocked(issues)
    case Ok(v) =>
      if user.None? then Thrown(GuardMessage) else Sent(Payload(v, user.value.id))
  }
}
