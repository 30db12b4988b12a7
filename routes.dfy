/**
 * `createPageUrl`: the page-name to path table shared by every page, with
 * `'/'` for a name the table does not hold.
 */
module Routes {

  /** An entry of the `routes` object. */
  datatype Route = Route(page: string, path: string)

  /** The `routes` object, in declaration order. */
  const Table: seq<Route> := [
    Route("Chats", "/chats"),
    Route("ChatRoom", "/chat"),
    Route("Tasks", "/tasks"),
    Route("Orders", "/orders"),
    Route("Profile", "/profile"),
    Route("EditProfile", "/profile/edit"),
    Route("SOS", "/sos"),
    Route("SecuritySettings", "/profile/security"),
    Route("AppSettings", "/profile/settings")
  ]

  /** The table has an entry for `page`. */
  predicate Known(page: string) {
    exists i :: 0 <= i < |Table| && Table[i].page == page
  }

  /** The position of the first entry for `page` at or after `k`, or
      `|Table|`. */
  function IndexFrom(page: string, k: nat): (i: nat)
    requires k <= |Table|
    ensures k <= i <= |Table|
    ensures i < |Table| ==> Table[i].page == page
    ensures forall j :: k <= j < i ==> Table[j].page != page
    decreases |Table| - k
  {
    if k == |Table| then k
    else if Table[k].page == page then k
    else IndexFrom(page, k + 1)
  }

  /** `routes[pageName] || '/'`. */
  function PageUrl(page: string): (r: string)
    ensures r != ""
  {
    var i := IndexFrom(page, 0);
    if i < |Table| && Table[i].path != "" then Table[i].path else "/"
  }

  /** Names and paths of the table are pairwise distinct, and no path is
      empty or `'/'`. */
  lemma TableDistinct()
    ensures forall i, j :: 0 <= i < j < |Table| ==> Table[i].page != Table[j].page && Table[i].path != Table[j].path
    ensures forall i :: 0 <= i < |Table| ==> Table[i].path != "" && Table[i].path != "/"
  {
  }

  /** A name of the table maps to its path. */
  lemma PageUrlKnown(i: nat)
    requires i < |Table|
    ensures PageUrl(Table[i].page) == Table[i].path
  {
    TableDistinct();
    var k := IndexFrom(Table[i].page, 0);
    assert k <= i;
    assert Table[k].page == Table[i].page;
  }

  /** `'/'` comes back exactly for a name the table does not hold. */
  lemma PageUrlRootIffUnknown(page: string)
    ensures PageUrl(page) == "/" <==> !Known(page)
  {
    TableDistinct();
    if Known(page) {
      var i :| 0 <= i < |Table| && Table[i].page == page;
      PageUrlKnown(i);
    }
  }

  /** Distinct known names give distinct paths. */
  lemma PageUrlInjective(a: string, b: string)
    requires Known(a) && Known(b) && a != b
    ensures PageUrl(a) != PageUrl(b)
  {
    TableDistinct();
    var i :| 0 <= i < |Table| && Table[i].page == a;
    var j :| 0 <= j < |Table| && Table[j].page == b;
    PageUrlKnown(i);
    PageUrlKnown(j);
  }

  /** The chat pages link to `CallScreen`, which the table lacks: the link
      leads to `'/'`. */
  lemma CallScreenIsRoot()
    ensures !Known("CallScreen") && PageUrl("CallScreen") == "/"
  {
    PageUrlRootIffUnknown("CallScreen");
  }
}
