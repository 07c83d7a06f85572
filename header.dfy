/** The page header (src/components/layout/Header.tsx): the page title
    derived from the path, and the one navigation link shown for the
    signed-in user's role. The user is fetched from the server; here it is
    given as the role string it carries, or None before it has arrived. */
module Header {
  import opened Wrappers
  import opened Types
  import opened Text

  /** A title rule: the path fragment it looks for and the title it gives. */
  datatype TitleRule = TitleRule(fragment: string, title: string)

  const TitleRules: seq<TitleRule> := [
    TitleRule("/farmer", "Farmer Dashboard"),
    TitleRule("/transporter", "Transporter Dashboard"),
    TitleRule("/warehouse", "Warehouse Dashboard"),
    TitleRule("/consumer", "Consumer"),
    TitleRule("/product", "Product Details"),
    TitleRule("/auth", "Authentication")]

  const DefaultTitle := "Supply Chain Transparency"

  /** Reference reading of the title chain: the title of the first rule
      whose fragment the path contains, or the default title. */
  function FirstMatchingTitle(rules: seq<TitleRule>, path: string): string
  {
    if rules == [] then DefaultTitle
    else if Includes(path, rules[0].fragment) then rules[0].title
    else FirstMatchingTitle(rules[1..], path)
  }

  /** `getCurrentPageTitle`, as the source's chain of `includes` tests. */
  function PageTitle(path: string): string
  {
    if Includes(path, "/farmer") then "Farmer Dashboard"
    else if Includes(path, "/transporter") then "Transporter Dashboard"
    else if Includes(path, "/warehouse") then "Warehouse Dashboard"
    else if Includes(path, "/consumer") then "Consumer"
    else if Includes(path, "/product") then "Product Details"
    else if Includes(path, "/auth") then "Authentication"
    else DefaultTitle
  }

  /** The chain picks the first rule that matches, in the order of
      `TitleRules`, and falls back to the default title only when no
      fragment occurs in the path. */
  lemma PageTitleIsFirstMatch(path: string)
    ensures PageTitle(path) == FirstMatchingTitle(TitleRules, path)
    ensures PageTitle(path) == DefaultTitle <==>
      forall i :: 0 <= i < |TitleRules| ==> !Includes(path, TitleRules[i].fragment)
  {
    var rs := TitleRules;
    var r1, r2, r3, r4, r5 := rs[1..], rs[2..], rs[3..], rs[4..], rs[5..];
    assert r1[1..] == r2 && r2[1..] == r3 && r3[1..] == r4 && r4[1..] == r5 && r5[1..] == [];
    assert FirstMatchingTitle(r5, path) == if Includes(path, "/auth") then "Authentication" else DefaultTitle;
    assert FirstMatchingTitle(r4, path) ==
      if Includes(path, "/product") then "Product Details" else FirstMatchingTitle(r5, path);
    assert FirstMatchingTitle(r3, path) ==
      if Includes(path, "/consumer") then "Consumer" else FirstMatchingTitle(r4, path);
    assert FirstMatchingTitle(r2, path) ==
      if Includes(path, "/warehouse") then "Warehouse Dashboard" else FirstMatchingTitle(r3, path);
    assert FirstMatchingTitle(r1, path) ==
      if Includes(path, "/transporter") then "Transporter Dashboard" else FirstMatchingTitle(r2, path);
  }

  /** A header link: its target, its text and whether it is highlighted. */
  datatype NavLink = NavLink(to: string, text: string, highlighted: bool)

  /** The roles with a header link, and its target and text. */
  function LinkFor(role: string): (r: Option<(string, string)>)
    ensures r.Some? <==> ParseRole(role) in {Some(Farmer), Some(Transporter), Some(Warehouse), Some(Consumer)}
    ensures r.Some? ==> r.value.0 == "/" + role
  {
    match ParseRole(role)
    case Some(Farmer) => Some(("/farmer", "Farmer"))
    case Some(Transporter) => Some(("/transporter", "Transporter"))
    case Some(Warehouse) => Some(("/warehouse", "Warehouse"))
    case Some(Consumer) => Some(("/consumer", "Consumer"))
    case _ => None
  }

  /** `renderNavLinks` as written: the transporter and warehouse links test
      the path for `/farmer`, not for their own target. */
  function NavLinkAsWritten(currentUserRole: Option<string>, path: string): (l: Option<NavLink>)
    ensures currentUserRole.None? ==> l.None?
    ensures currentUserRole.Some? ==> (l.Some? <==> LinkFor(currentUserRole.value).Some?)
    ensures l.Some? ==>
      l.value.to == "/" + currentUserRole.value &&
      (l.value.highlighted <==>
         Includes(path, if currentUserRole.value == "consumer" then "/consumer" else "/farmer"))
  {
    if currentUserRole.None? then None
    else
      match ParseRole(currentUserRole.value)
      case Some(Farmer) => Some(NavLink("/farmer", "Farmer", Includes(path, "/farmer")))
      case Some(Transporter) => Some(NavLink("/transporter", "Transporter", Includes(path, "/farmer")))
      case Some(Warehouse) => Some(NavLink("/warehouse", "Warehouse", Includes(path, "/farmer")))
      case Some(Consumer) => Some(NavLink("/consumer", "Consumer", Includes(path, "/consumer")))
      case _ => None
  }

  /** As written, the transporter link is highlighted exactly on paths
      containing `/farmer`, whatever else they contain. */
  lemma TransporterLinkAsWritten(path: string)
    ensures NavLinkAsWritten(Some("transporter"), path) ==
      Some(NavLink("/transporter", "Transporter", Includes(path, "/farmer")))
  {
    assert ParseRole("transporter") == Some(Transporter);
  }

  /** So on the transporter's own page its link is not highlighted, while on
      a farmer page it is. */
  lemma TransporterLinkOnOwnPage()
    ensures NavLinkAsWritten(Some("transporter"), "/transporter") == Some(NavLink("/transporter", "Transporter", false))
    ensures NavLinkAsWritten(Some("transporter"), "/farmer") == Some(NavLink("/transporter", "Transporter", true))
  {
    TransporterLinkAsWritten("/transporter");
    TransporterLinkAsWritten("/farmer");
    TransporterPathHasNoFarmer();
    FarmerPathHasFarmer();
  }

  lemma TransporterPathHasNoFarmer()
    ensures !Includes("/transporter", "/farmer")
  {
    var s, sub := "/transporter", "/farmer";
    IncludesIff(s, sub);
    forall i | 0 <= i && i + |sub| <= |s| ensures !OccursAt(s, sub, i) {
      assert s[i..i + |sub|][0] == s[i] && s[i..i + |sub|][1] == s[i + 1];
      if i > 0 {
        assert s[i] != '/';
      }
    }
  }

  lemma FarmerPathHasFarmer()
    ensures Includes("/farmer", "/farmer")
  {
    assert StartsWith("/farmer", "/farmer");
  }

  /** `renderNavLinks` as evidently intended: every link is highlighted
      exactly when the path contains its own target. */
  function NavLinkFor(currentUserRole: Option<string>, path: string): (l: Option<NavLink>)
    ensures currentUserRole.None? ==> l.None?
    ensures currentUserRole.Some? ==> (l.Some? <==> LinkFor(currentUserRole.value).Some?)
    ensures l.Some? ==> l.value.to == "/" + currentUserRole.value && (l.value.highlighted <==> Includes(path, l.value.to))
  {
    if currentUserRole.None? then None
    else
      match LinkFor(currentUserRole.value)
      case Some((to, text)) => Some(NavLink(to, text, Includes(path, to)))
      case None => None
  }

  /** The two readings agree on whether there is a link, its target and its
      text, and on the highlight of the farmer and consumer links. */
  lemma IntendedAgreesOutsideHighlight(currentUserRole: Option<string>, path: string)
    ensures NavLinkFor(currentUserRole, path).Some? == NavLinkAsWritten(currentUserRole, path).Some?
    ensures NavLinkFor(currentUserRole, path).Some? ==>
      NavLinkFor(currentUserRole, path).value.to == NavLinkAsWritten(currentUserRole, path).value.to &&
      NavLinkFor(currentUserRole, path).value.text == NavLinkAsWritten(currentUserRole, path).value.text
    ensures currentUserRole in {Some("farmer"), Some("consumer")} ==>
      NavLinkFor(currentUserRole, path) == NavLinkAsWritten(currentUserRole, path)
  {
  }

  /** Under the intended reading the transporter's own page highlights its
      link. */
  lemma TransporterLinkIntended()
    ensures NavLinkFor(Some("transporter"), "/transporter") == Some(NavLink("/transporter", "Transporter", true))
  {
    assert StartsWith("/transporter", "/transporter");
  }
}
