/** The application shell: the sidebar navigation filtered by role, the header's
    avatar initials and the highlighted entry. */
module Layout {
  import opened Wrappers
  import opened AuthLib
  import Text

  datatype NavItem = NavItem(name: string, href: string, managerOnly: bool)

  /** The navigation table, in display order. */
  const Navigation: seq<NavItem> := [
    NavItem("Dashboard", "/", false),
    NavItem("Employees", "/employees", true),
    NavItem("Performance", "/performance", false),
    NavItem("KPI Targets", "/kpi", false),
    NavItem("Accounts", "/accounts", true),
    NavItem("Tutorials", "/tutorials", false),
    NavItem("SOPs", "/sops", false),
    NavItem("Tools", "/tools", false),
    NavItem("Products", "/products", false)]

  /** `navigation.filter(item => !item.managerOnly || isManager)`. */
  function FilterNavigation(items: seq<NavItem>, isManager: bool): (r: seq<NavItem>)
    ensures |r| <= |items|
    ensures isManager ==> r == items
  {
    if |items| == 0 then []
    else
      var rest := FilterNavigation(items[1..], isManager);
      assert items == [items[0]] + items[1..];
      if !items[0].managerOnly || isManager then [items[0]] + rest else rest
  }

  /** An entry is shown exactly when it is in the table and is either open to everybody
      or the viewer is a manager. */
  lemma {:induction false} FilterMembership(items: seq<NavItem>, isManager: bool)
    ensures forall x :: x in FilterNavigation(items, isManager) <==> x in items && (!x.managerOnly || isManager)
  {
    if |items| > 0 {
      FilterMembership(items[1..], isManager);
      assert items == [items[0]] + items[1..];
    }
  }

  /** A manager sees every entry. */
  lemma ManagerSeesAll()
    ensures FilterNavigation(Navigation, true) == Navigation
  {
  }

  /** Everybody else sees the seven entries that are not manager-only, in table order. */
  lemma OthersSeeSeven()
    ensures FilterNavigation(Navigation, false) ==
      [Navigation[0], Navigation[2], Navigation[3], Navigation[5], Navigation[6], Navigation[7], Navigation[8]]
  {
    var n := Navigation;
    assert n[9..] == [];
    assert n[8..][1..] == n[9..];
    assert FilterNavigation(n[8..], false) == [n[8]];
    assert n[7..][1..] == n[8..];
    assert FilterNavigation(n[7..], false) == [n[7], n[8]];
    assert n[6..][1..] == n[7..];
    assert FilterNavigation(n[6..], false) == [n[6], n[7], n[8]];
    assert n[5..][1..] == n[6..];
    assert FilterNavigation(n[5..], false) == [n[5], n[6], n[7], n[8]];
    assert n[4..][1..] == n[5..];
    assert FilterNavigation(n[4..], false) == [n[5], n[6], n[7], n[8]];
    assert n[3..][1..] == n[4..];
    assert FilterNavigation(n[3..], false) == [n[3], n[5], n[6], n[7], n[8]];
    assert n[2..][1..] == n[3..];
    assert FilterNavigation(n[2..], false) == [n[2], n[3], n[5], n[6], n[7], n[8]];
    assert n[1..][1..] == n[2..];
    assert FilterNavigation(n[1..], false) == [n[2], n[3], n[5], n[6], n[7], n[8]];
    assert n[0..][1..] == n[1..];
    assert FilterNavigation(n[0..], false) == [n[0], n[2], n[3], n[5], n[6], n[7], n[8]];
    assert n[0..] == n;
  }

  /** The manager-only entries are exactly the employees and accounts pages. */
  lemma ManagerOnlyEntries()
    ensures forall x :: x in Navigation ==> (x.managerOnly <==> x.href in {"/employees", "/accounts"})
  {
  }

  /** `location.pathname === item.href`. */
  predicate IsActive(pathname: string, item: NavItem) {
    pathname == item.href
  }

  /** The entries' links are distinct, so at most one entry is highlighted. */
  lemma AtMostOneActive(pathname: string, i: nat, j: nat)
    requires i < |Navigation| && j < |Navigation|
    requires IsActive(pathname, Navigation[i]) && IsActive(pathname, Navigation[j])
    ensures i == j
  {
  }

  /** The header's avatar text:
      `full_name?.split(" ").map(n => n[0]).join("").toUpperCase() || user?.email?.[0].toUpperCase() || "U"`.
      None stands for the TypeError thrown when the name yields no initials and the
      email is the empty string (`""[0]` is undefined). */
  function HeaderInitials(profile: Option<UserMetadata>, user: Option<AuthUser>): (r: Option<string>)
    ensures var fromName := if profile.Some? then Text.UpperString(Text.WordStarts(profile.value.fullName, true)) else "";
      && (fromName != "" ==> r == Some(fromName))
      && (fromName == "" && user.Some? && user.value.email.Some? && user.value.email.value != "" ==>
            r == Some([Text.Upper(user.value.email.value[0])]))
      && (fromName == "" && (user.None? || user.value.email.None?) ==> r == Some("U"))
      && (r.None? <==> fromName == "" && user.Some? && user.value.email == Some(""))
    ensures r.Some? ==> r.value != ""
  {
    var fromName := if profile.Some? then Text.NameInitials(profile.value.fullName) else "";
    if fromName != "" then Some(fromName)
    else if user.Some? && user.value.email.Some? then
      var email := user.value.email.value;
      if email == "" then None
      else Some([Text.Upper(email[0])])
    else Some("U")
  }
}
