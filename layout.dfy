/**
 * The bottom navigation bar of `Layout`: five fixed tabs, each linking to
 * its page's path, active exactly when the location is that path.
 */
module Layout {
  import Routes

  /** An entry of `navItems` (`caption` is its `label`); the icon is left out. */
  datatype NavItem = NavItem(name: string, caption: string, page: string)

  /** `navItems`, in the order the bar shows them. */
  const NavItems: seq<NavItem> := [
    NavItem("Chats", "Чаты", "Chats"),
    NavItem("Tasks", "Задачи", "Tasks"),
    NavItem("Orders", "Заявка", "Orders"),
    NavItem("Profile", "Профиль", "Profile"),
    NavItem("SOS", "SOS", "SOS")
  ]

  /** `isActive(pageName)`. */
  predicate IsActive(pathname: string, page: string) {
    pathname == Routes.PageUrl(page)
  }

  /** The `to` of each tab's `Link`, in bar order. */
  function TabLinks(): seq<string> {
    [Routes.PageUrl(NavItems[0].page), Routes.PageUrl(NavItems[1].page), Routes.PageUrl(NavItems[2].page),
     Routes.PageUrl(NavItems[3].page), Routes.PageUrl(NavItems[4].page)]
  }

  /** The tab paths, in bar order. */
  const TabPaths: seq<string> := ["/chats", "/tasks", "/orders", "/profile", "/sos"]

  /** The five links, in bar order: every tab leads to a page of its own. */
  lemma TabLinksAre()
    ensures TabLinks() == TabPaths
  {
    Routes.PageUrlKnown(0);
    Routes.PageUrlKnown(2);
    Routes.PageUrlKnown(3);
    Routes.PageUrlKnown(4);
    Routes.PageUrlKnown(6);
  }

  /** Each tab links to its own page's path. */
  lemma TabLinkOf(i: nat)
    requires i < |NavItems|
    ensures TabLinks()[i] == Routes.PageUrl(NavItems[i].page)
  {
    var l := TabLinks();
    if i == 0 { assert l[0] == Routes.PageUrl(NavItems[0].page); }
    else if i == 1 { assert l[1] == Routes.PageUrl(NavItems[1].page); }
    else if i == 2 { assert l[2] == Routes.PageUrl(NavItems[2].page); }
    else if i == 3 { assert l[3] == Routes.PageUrl(NavItems[3].page); }
    else { assert l[4] == Routes.PageUrl(NavItems[4].page); }
  }

  /** A tab is active exactly when the location is its link. */
  lemma ActiveIffAtLink(pathname: string, i: nat)
    requires i < |NavItems|
    ensures IsActive(pathname, NavItems[i].page) <==> pathname == TabLinks()[i]
  {
    TabLinkOf(i);
  }

  /** At most one tab is active, whatever the location. */
  lemma AtMostOneActive(pathname: string, i: nat, j: nat)
    requires i < |NavItems| && j < |NavItems|
    requires IsActive(pathname, NavItems[i].page) && IsActive(pathname, NavItems[j].page)
    ensures i == j
  {
    ActiveIffAtLink(pathname, i);
    ActiveIffAtLink(pathname, j);
    TabLinksInjective(i, j);
  }

  /** The link of the tab at `j`, spelled out. */
  lemma TabLinkIn(j: nat)
    requires j < 5
    ensures TabLinks()[j] in TabLinks()
    ensures TabLinks()[j] == TabPaths[j]
  {
    TabLinksAre();
  }

  /** The tab whose link has the given second character ('c', 't', 'o',
      'p', 's'), or 5. */
  function TabOfLink(p: string): (j: nat)
    ensures j <= 5
  {
    if |p| < 2 then 5
    else if p[1] == 'c' then 0
    else if p[1] == 't' then 1
    else if p[1] == 'o' then 2
    else if p[1] == 'p' then 3
    else if p[1] == 's' then 4
    else 5
  }

  /** The links' second characters tell the tabs apart, and their lengths
      are 6, 6, 7, 8 and 4. */
  lemma TabLinkShape(j: nat)
    requires j < 5
    ensures TabOfLink(TabPaths[j]) == j
    ensures var l := TabPaths[j]; (|l| == 4 || |l| == 6 || |l| == 7 || |l| == 8) && (|l| == 6 ==> l[1] == 'c' || l[1] == 't')
  {
    var t := TabPaths[j];
    if j == 0 { assert t == "/chats"; assert |t| == 6 && t[1] == 'c'; }
    else if j == 1 { assert t == "/tasks"; assert |t| == 6 && t[1] == 't'; }
    else if j == 2 { assert t == "/orders"; assert |t| == 7 && t[1] == 'o'; }
    else if j == 3 { assert t == "/profile"; assert |t| == 8 && t[1] == 'p'; }
    else { assert t == "/sos"; assert |t| == 4 && t[1] == 's'; }
  }

  /** A path is no tab's link when its length differs from all five, or it
      has the length of `/chats` but another second character. */
  lemma NotTabLink(p: string)
    requires (|p| != 4 && |p| != 6 && |p| != 7 && |p| != 8) || (|p| == 6 && p[1] != 'c' && p[1] != 't')
    ensures p !in TabLinks()
  {
    TabLinksAre();
    if p in TabPaths {
      var j :| 0 <= j < |TabPaths| && TabPaths[j] == p;
      TabLinkShape(j);
    }
  }

  /** No two tabs share a link. */
  lemma TabLinksInjective(i: nat, j: nat)
    requires i < |NavItems| && j < |NavItems| && TabLinks()[i] == TabLinks()[j]
    ensures i == j
  {
    TabLinksAre();
    TabLinkShape(i);
    TabLinkShape(j);
  }

  /** Some tab is active exactly on the five tab paths. */
  lemma SomeActiveIffTabPath(pathname: string)
    ensures (exists i :: 0 <= i < |NavItems| && IsActive(pathname, NavItems[i].page)) <==> pathname in TabLinks()
  {
    var links := TabLinks();
    forall i | 0 <= i < |NavItems| ensures IsActive(pathname, NavItems[i].page) <==> pathname == links[i] {
      ActiveIffAtLink(pathname, i);
    }
  }

  /** The chat room and the profile sub-pages leave every tab inactive. */
  lemma NoTabOnSubPages(pathname: string)
    requires pathname in {"/chat", "/profile/edit", "/profile/security", "/profile/settings"}
    ensures forall i :: 0 <= i < |NavItems| ==> !IsActive(pathname, NavItems[i].page)
  {
    assert |pathname| == 5 || |pathname| == 13 || |pathname| == 17;
    NotTabLink(pathname);
    forall i | 0 <= i < |NavItems| ensures !IsActive(pathname, NavItems[i].page) {
      ActiveIffAtLink(pathname, i);
      TabLinkIn(i);
    }
  }
}
