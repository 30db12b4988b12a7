/**
 * The router of `App`: the route table, and the `PrivateRoute` and
 * `PublicRoute` guards deciding between the spinner, a redirect and the page
 * from the auth context's `user` and `loading`.
 */
module App {
  import opened Wrappers
  import Documents
  import Routes
  import Layout

  /** What the router shows for a location. */
  datatype Screen =
    | Spinner                              // the "Загрузка..." block
    | Redirect(to: string)                 // `<Navigate to=... replace />`
    | Page(path: string, withLayout: bool) // the page of the route, inside `Layout` or not
    | Blank                                // no route matches: nothing is rendered

  /** `PrivateRoute`: the signed-in user's `children`. */
  function PrivateRoute(user: Option<Documents.Doc>, loading: bool, children: Screen): (s: Screen)
    ensures loading ==> s == Spinner
    ensures !loading && user.None? ==> s == Redirect("/login")
    ensures !loading && user.Some? ==> s == children
  {
    if loading then Spinner
    else if user.None? then Redirect("/login")
    else children
  }

  /** `PublicRoute`: the signed-out visitor's `children`. */
  function PublicRoute(user: Option<Documents.Doc>, loading: bool, children: Screen): (s: Screen)
    ensures loading ==> s == Spinner
    ensures !loading && user.Some? ==> s == Redirect("/chats")
    ensures !loading && user.None? ==> s == children
  {
    if loading then Spinner
    else if user.Some? then Redirect("/chats")
    else children
  }

  /** Once loading is over, exactly one of the two guards lets a page
      through, for any user. */
  lemma GuardsExclusive(user: Option<Documents.Doc>, children: Screen)
    requires children.Page?
    ensures (PrivateRoute(user, false, children) == children) != (PublicRoute(user, false, children) == children)
  {
  }

  /** How a `Route`'s element treats the location. */
  datatype Element =
    | Guarded(isPublic: bool, withLayout: bool) // `PublicRoute` or `PrivateRoute` around a page
    | NavigateTo(to: string)                    // a bare `Navigate`

  datatype RouteDecl = RouteDecl(path: string, element: Element)

  /** The `Routes` of `App`, in declaration order. */
  const Declared: seq<RouteDecl> := [
    RouteDecl("/login", Guarded(true, false)),
    RouteDecl("/register", Guarded(true, false)),
    RouteDecl("/", NavigateTo("/chats")),
    RouteDecl("/chats", Guarded(false, true)),
    RouteDecl("/chat", Guarded(false, false)),
    RouteDecl("/tasks", Guarded(false, true)),
    RouteDecl("/orders", Guarded(false, true)),
    RouteDecl("/profile", Guarded(false, true)),
    RouteDecl("/profile/edit", Guarded(false, false)),
    RouteDecl("/sos", Guarded(false, true)),
    RouteDecl("/profile/security", Guarded(false, false)),
    RouteDecl("/profile/settings", Guarded(false, false))
  ]

  /** The position of the first route at or after `k` declaring `path`, or
      `|Declared|`. */
  function MatchFrom(path: string, k: nat): (i: nat)
    requires k <= |Declared|
    ensures k <= i <= |Declared|
    ensures i < |Declared| ==> Declared[i].path == path
    ensures forall j :: k <= j < i ==> Declared[j].path != path
    decreases |Declared| - k
  {
    if k == |Declared| then k
    else if Declared[k].path == path then k
    else MatchFrom(path, k + 1)
  }

  /** The route matching `path`, if one is declared. */
  function Match(path: string): (i: nat)
    ensures i <= |Declared|
    ensures i < |Declared| ==> Declared[i].path == path
    ensures i == |Declared| <==> forall j :: 0 <= j < |Declared| ==> Declared[j].path != path
  {
    MatchFrom(path, 0)
  }

  /** What the router shows at `path`. */
  function Render(path: string, user: Option<Documents.Doc>, loading: bool): (s: Screen)
    ensures Match(path) == |Declared| ==> s == Blank
  {
    var i := Match(path);
    if i == |Declared| then Blank
    else match Declared[i].element
      case NavigateTo(to) => Redirect(to)
      case Guarded(isPublic, withLayout) =>
        if isPublic then PublicRoute(user, loading, Page(path, withLayout))
        else PrivateRoute(user, loading, Page(path, withLayout))
  }

  /** No path is declared twice. */
  lemma DeclaredDistinct()
    ensures forall i, j :: 0 <= i < j < |Declared| ==> Declared[i].path != Declared[j].path
  {
  }

  /** `/` always redirects to `/chats`; `/login` and `/register` are the
      public routes and every other declared route is private. */
  lemma RouteKinds(i: nat)
    requires i < |Declared|
    ensures Declared[i].path == "/" <==> Declared[i].element.NavigateTo?
    ensures Declared[i].element.NavigateTo? ==> Declared[i].element.to == "/chats"
    ensures Declared[i].element.Guarded? ==>
      (Declared[i].element.isPublic <==> Declared[i].path == "/login" || Declared[i].path == "/register")
  {
  }

  /** The route at `i` is declared and guarded by `PrivateRoute`. */
  predicate IsPrivate(i: int) {
    0 <= i < |Declared| && Declared[i].element.Guarded? && !Declared[i].element.isPublic
  }

  /** A declared route matches its own path. */
  lemma MatchDeclared(i: nat)
    requires i < |Declared|
    ensures Match(Declared[i].path) == i
  {
    DeclaredDistinct();
    var k := Match(Declared[i].path);
    assert k <= i;
    assert Declared[k].path == Declared[i].path;
  }

  /** The root redirects to the chat list whatever the auth state. */
  lemma RootRedirects(user: Option<Documents.Doc>, loading: bool)
    ensures Render("/", user, loading) == Redirect("/chats")
  {
    MatchDeclared(2);
  }

  /** While the profile is loading, every guarded route shows the spinner. */
  lemma SpinnerWhileLoading(i: nat, user: Option<Documents.Doc>)
    requires i < |Declared| && Declared[i].element.Guarded?
    ensures Render(Declared[i].path, user, true) == Spinner
  {
    MatchDeclared(i);
  }

  /** Signed out, every private route sends to `/login`, which shows its
      page. */
  lemma SignedOutGoesToLogin(i: nat)
    requires IsPrivate(i)
    ensures Render(Declared[i].path, None, false) == Redirect("/login")
    ensures Render("/login", None, false) == Page("/login", false)
  {
    MatchDeclared(i);
    MatchDeclared(0);
  }

  /** Signed in, the public routes send to `/chats`, which shows its page. */
  lemma SignedInGoesToChats(i: nat, user: Documents.Doc)
    requires i < |Declared| && Declared[i].element.Guarded? && Declared[i].element.isPublic
    ensures Render(Declared[i].path, Some(user), false) == Redirect("/chats")
    ensures Render("/chats", Some(user), false) == Page("/chats", true)
  {
    MatchDeclared(i);
    MatchDeclared(3);
  }

  /** Redirects do not loop: from any declared path, once loading is over,
      at most two redirects lead to a page. */
  lemma RedirectsSettle(i: nat, user: Option<Documents.Doc>)
    requires i < |Declared|
    ensures var s := Render(Declared[i].path, user, false);
      s.Page? || (s.Redirect? && var t := Render(s.to, user, false);
        t.Page? || (t.Redirect? && Render(t.to, user, false).Page?))
  {
    var e := Declared[i].element;
    var s := Render(Declared[i].path, user, false);
    RenderDeclared(i, user, false);
    RouteKinds(i);
    if user.None? {
      SignedOutLogin();
      if e.NavigateTo? {
        SignedOutGoesToLogin(3);
        assert s == Redirect("/chats");
      } else if !e.isPublic {
        assert s == Redirect("/login");
      }
    } else {
      SignedInGoesToChats(0, user.value);
      if e.NavigateTo? || e.isPublic {
        assert s == Redirect("/chats");
      }
    }
  }

  /** A declared path shows what its own route's element gives. */
  lemma RenderDeclared(i: nat, user: Option<Documents.Doc>, loading: bool)
    requires i < |Declared|
    ensures var e, p := Declared[i].element, Declared[i].path;
      Render(p, user, loading) == match e
        case NavigateTo(to) => Redirect(to)
        case Guarded(isPublic, withLayout) =>
          if isPublic then PublicRoute(user, loading, Page(p, withLayout))
          else PrivateRoute(user, loading, Page(p, withLayout))
  {
    MatchDeclared(i);
  }

  lemma SignedOutLogin()
    ensures Render("/login", None, false) == Page("/login", false)
  {
    MatchDeclared(0);
  }

  /** Every path `createPageUrl` can return has a route. */
  lemma PageUrlRouted(page: string)
    ensures Match(Routes.PageUrl(page)) < |Declared|
  {
    Routes.PageUrlRootIffUnknown(page);
    if Routes.Known(page) {
      var i :| 0 <= i < |Routes.Table| && Routes.Table[i].page == page;
      Routes.PageUrlKnown(i);
      TablePathRouted(i);
    } else {
      MatchDeclared(2);
    }
  }

  lemma TablePathRouted(i: nat)
    requires i < |Routes.Table|
    ensures Match(Routes.Table[i].path) < |Declared|
  {
    if i == 0 { MatchDeclared(3); }
    else if i == 1 { MatchDeclared(4); }
    else if i == 2 { MatchDeclared(5); }
    else if i == 3 { MatchDeclared(6); }
    else if i == 4 { MatchDeclared(7); }
    else if i == 5 { MatchDeclared(8); }
    else if i == 6 { MatchDeclared(9); }
    else if i == 7 { MatchDeclared(10); }
    else { MatchDeclared(11); }
  }

  /** The pages wrapped in `Layout` are exactly those of the bar's tabs. */
  lemma LayoutOnTabPages(i: nat)
    requires i < |Declared| && Declared[i].element.Guarded?
    ensures Declared[i].element.withLayout <==> Declared[i].path in Layout.TabLinks()
  {
    var p := Declared[i].path;
    if i == 3 { Layout.TabLinkIn(0); }
    else if i == 5 { Layout.TabLinkIn(1); }
    else if i == 6 { Layout.TabLinkIn(2); }
    else if i == 7 { Layout.TabLinkIn(3); }
    else if i == 9 { Layout.TabLinkIn(4); }
    else if i == 0 { Layout.NotTabLink(p); }
    else if i == 1 { Layout.NotTabLink(p); }
    else if i == 4 { Layout.NotTabLink(p); }
    else if i == 8 { Layout.NotTabLink(p); }
    else if i == 10 { Layout.NotTabLink(p); }
    else if i == 11 { Layout.NotTabLink(p); }
  }
}
