/** The profile page: avatar initials and the account details, each falling back to
    "Not set". */
module Profile {
  import opened Wrappers
  import opened DbTypes
  import opened AuthLib
  import Text
  import Layout

  const NotSet := "Not set"

  /** `full_name?.split(" ").map(n => n[0]).join("").toUpperCase() || "U"`. */
  function Initials(profile: Option<UserMetadata>): (r: string)
    ensures r != ""
    ensures profile.Some? && Text.WordStarts(profile.value.fullName, true) != "" ==>
      r == Text.UpperString(Text.WordStarts(profile.value.fullName, true))
    ensures profile.None? || Text.WordStarts(profile.value.fullName, true) == "" ==> r == "U"
  {
    var fromName := if profile.Some? then Text.NameInitials(profile.value.fullName) else "";
    if fromName != "" then fromName else "U"
  }

  /** The profile page and the header agree whenever the header does not fall back to
      the email. */
  lemma InitialsAgreeWithHeader(profile: Option<UserMetadata>, user: Option<AuthUser>)
    requires (profile.Some? && Text.WordStarts(profile.value.fullName, true) != "") || user.None?
    ensures Layout.HeaderInitials(profile, user) == Some(Initials(profile))
  {
  }

  /** `value || "Not set"`. */
  function OrNotSet(value: Option<string>): (r: string)
    ensures r == NotSet <==> value.None? || value.value == "" || value.value == NotSet
    ensures r != NotSet ==> value == Some(r)
  {
    if value.Some? && value.value != "" then value.value else NotSet
  }

  /** The index of the first occurrence of `c`, or `|s|` if there is none. */
  function FirstIndex(s: string, c: char): (i: nat)
    ensures i <= |s|
    ensures i < |s| ==> s[i] == c
    ensures forall j :: 0 <= j < i ==> s[j] != c
  {
    if |s| == 0 then 0
    else if s[0] == c then 0
    else 1 + FirstIndex(s[1..], c)
  }

  /** `s.replace("_", " ")` with a string pattern: only the first underscore changes. */
  function ReplaceFirst(s: string, from: char, to: char): (r: string)
    ensures |r| == |s|
    ensures forall j :: 0 <= j < |s| ==> r[j] == (if j == FirstIndex(s, from) then to else s[j])
  {
    if |s| == 0 then ""
    else if s[0] == from then [to] + s[1..]
    else [s[0]] + ReplaceFirst(s[1..], from, to)
  }

  /** The first occurrence of `c` is at `i` when `s[i]` is `c` and no earlier one is. */
  lemma {:induction false} FirstIndexAt(s: string, c: char, i: nat)
    requires i < |s| && s[i] == c
    requires forall j :: 0 <= j < i ==> s[j] != c
    ensures FirstIndex(s, c) == i
  {
    if i > 0 {
      FirstIndexAt(s[1..], c, i - 1);
    }
  }

  /** A string with exactly one underscore shows none after the replacement. */
  lemma OneUnderscoreDisappears(s: string, i: nat)
    requires i < |s| && s[i] == '_'
    requires forall j :: 0 <= j < |s| && j != i ==> s[j] != '_'
    ensures '_' !in ReplaceFirst(s, '_', ' ')
  {
    FirstIndexAt(s, '_', i);
  }

  /** Every division literal has at most one underscore, so its displayed form has none;
      a literal with two underscores would keep the second. */
  lemma DivisionDisplay()
    ensures forall d :: '_' !in ReplaceFirst(DivisionName(d), '_', ' ')
    ensures ReplaceFirst("a_b_c", '_', ' ') == "a b_c"
  {
    forall d ensures '_' !in ReplaceFirst(DivisionName(d), '_', ' ') {
      var s := DivisionName(d);
      match d
      case KontenKreator => OneUnderscoreDisappears(s, 6);
      case HostLive => OneUnderscoreDisappears(s, 4);
      case Model => assert '_' !in s;
      case ManagerDivision => assert '_' !in s;
    }
    FirstIndexAt("a_b_c", '_', 1);
  }

  /** The division row as it appears on screen, one underscore replaced. */
  lemma DivisionTexts()
    ensures ReplaceFirst(DivisionName(KontenKreator), '_', ' ') == "konten kreator"
    ensures ReplaceFirst(DivisionName(HostLive), '_', ' ') == "host live"
    ensures ReplaceFirst(DivisionName(Model), '_', ' ') == "model"
    ensures ReplaceFirst(DivisionName(ManagerDivision), '_', ' ') == "manager"
  {
    KontenKreatorText();
    HostLiveText();
    OneWordTexts();
  }

  lemma KontenKreatorText()
    ensures ReplaceFirst("konten_kreator", '_', ' ') == "konten kreator"
  {
    DivisionText("konten_kreator", "konten kreator", 6);
  }

  lemma HostLiveText()
    ensures ReplaceFirst("host_live", '_', ' ') == "host live"
  {
    DivisionText("host_live", "host live", 4);
  }

  lemma OneWordTexts()
    ensures ReplaceFirst("model", '_', ' ') == "model"
    ensures ReplaceFirst("manager", '_', ' ') == "manager"
  {
    DivisionText("model", "model", 5);
    DivisionText("manager", "manager", 7);
  }

  /** Replacing the first underscore of `s`, found at `i` (or none when `i` is the
      length), gives `t`. */
  lemma DivisionText(s: string, t: string, i: nat)
    requires i <= |s| && |t| == |s|
    requires i < |s| ==> s[i] == '_'
    requires forall j :: 0 <= j < i ==> s[j] != '_'
    requires forall j :: 0 <= j < |s| ==> t[j] == (if j == i then ' ' else s[j])
    ensures ReplaceFirst(s, '_', ' ') == t
  {
    if i < |s| {
      FirstIndexAt(s, '_', i);
    }
  }

  /** What the account-information card shows. */
  datatype View = View(fullName: string, username: string, email: string, role: string, division: Option<string>)

  /** The card: each text falls back to "Not set"; the division row appears only when a
      division is set, with its first underscore shown as a space. */
  function Details(user: Option<AuthUser>, profile: Option<UserMetadata>): (v: View)
    ensures profile.None? ==> v.fullName == NotSet && v.username == NotSet && v.role == NotSet && v.division.None?
    ensures user.None? || user.value.email.None? ==> v.email == NotSet
    ensures profile.Some? ==> v.role == AppRoleName(profile.value.role)
    ensures v.division.Some? <==> profile.Some? && profile.value.division.Some?
    ensures v.division.Some? ==> '_' !in v.division.value
    ensures profile.Some? ==> v.fullName == OrNotSet(Some(profile.value.fullName))
    ensures profile.Some? ==> v.username == OrNotSet(Some(profile.value.username))
    ensures v.email == OrNotSet(if user.Some? then user.value.email else None)
    ensures profile.Some? && profile.value.division.Some? ==>
      v.division == Some(ReplaceFirst(DivisionName(profile.value.division.value), '_', ' '))
  {
    DivisionDisplay();
    match profile
    case None =>
      View(NotSet, NotSet, OrNotSet(if user.Some? then user.value.email else None), NotSet, None)
    case Some(m) =>
      View(OrNotSet(Some(m.fullName)), OrNotSet(Some(m.username)),
           OrNotSet(if user.Some? then user.value.email else None),
           OrNotSet(Some(AppRoleName(m.role))),
           if m.division.Some? then Some(ReplaceFirst(DivisionName(m.division.value), '_', ' ')) else None)
  }
}
