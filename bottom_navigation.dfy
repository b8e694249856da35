/** The bottom navigation bar: five items, of which the centre "write"
    button is shown only on the main page, and a highlight on the item whose
    link is the current page. */
module BottomNav {
  import opened Browser
  import opened Lists

  /** A bar item: a link (`href`) or, for the centre button, none. */
  datatype NavItem = NavItem(href: Option<string>, caption: string, isCenter: bool)

  const MAIN_PATH: string := "/main"

  const HOME: NavItem := NavItem(Some("/main"), "홈", false)
  const FRIENDS: NavItem := NavItem(Some("/friend"), "친구", false)
  /** The centre button, shown only on the main page. */
  const WRITE: NavItem := NavItem(None, "작성", true)
  const ALARM: NavItem := NavItem(Some("/alarm"), "알림", false)
  const MY_PAGE: NavItem := NavItem(Some("/mypage"), "마이", false)

  const NAV_ITEMS: seq<NavItem> := [HOME, FRIENDS, WRITE, ALARM, MY_PAGE]

  /** The pages the bar links to. */
  const LINK_PATHS: set<string> := {"/main", "/friend", "/alarm", "/mypage"}

  /** `navItems.filter((item) => !item.isCenter)`'s test. */
  function NotCenter(): NavItem -> bool
  {
    (item: NavItem) => !item.isCenter
  }

  /** `filteredItems`: every item on the main page, the four links
      elsewhere, in their declared order. */
  function FilteredItems(pathname: string): (r: seq<NavItem>)
    ensures pathname == MAIN_PATH ==> r == NAV_ITEMS
    ensures pathname != MAIN_PATH ==> r == [HOME, FRIENDS, ALARM, MY_PAGE]
  {
    if pathname == MAIN_PATH then NAV_ITEMS
    else
      LinksOnly();
      Filter(NAV_ITEMS, NotCenter())
  }

  /** Dropping the centre button leaves the four links in order. */
  lemma LinksOnly()
    ensures Filter(NAV_ITEMS, NotCenter()) == [HOME, FRIENDS, ALARM, MY_PAGE]
  {
    var keep := NotCenter();
    assert NAV_ITEMS == [HOME, FRIENDS] + ([WRITE] + [ALARM, MY_PAGE]);
    FilterAppend([HOME, FRIENDS], [WRITE] + [ALARM, MY_PAGE], keep);
    FilterAppend([WRITE], [ALARM, MY_PAGE], keep);
    FilterKeepsAll([HOME, FRIENDS], keep);
    FilterKeepsAll([ALARM, MY_PAGE], keep);
    FilterCons(WRITE, [], keep);
    assert [WRITE] + [] == [WRITE];
  }

  /** `pathname === item.href`: the centre button, which has no link, is
      never highlighted. */
  predicate IsActive(pathname: string, item: NavItem)
  {
    item.href == Some(pathname)
  }

  /** The links are distinct, so whatever the page at most one shown item is
      highlighted, and on a page with a link exactly that one is. */
  lemma AtMostOneActive(pathname: string)
    ensures forall i, j :: 0 <= i < j < |FilteredItems(pathname)| ==>
      !(IsActive(pathname, FilteredItems(pathname)[i]) && IsActive(pathname, FilteredItems(pathname)[j]))
    ensures forall i :: 0 <= i < |FilteredItems(pathname)| && IsActive(pathname, FilteredItems(pathname)[i]) ==>
      FilteredItems(pathname)[i].href == Some(pathname) && !FilteredItems(pathname)[i].isCenter
    ensures pathname in LINK_PATHS ==>
      exists i :: 0 <= i < |FilteredItems(pathname)| && IsActive(pathname, FilteredItems(pathname)[i])
  {
    var items := FilteredItems(pathname);
    if pathname in LINK_PATHS {
      // The item linking to the page: home is first in both layouts, and
      // off the main page the other three links sit at 1, 2 and 3.
      var k := if pathname == MAIN_PATH then 0 else if pathname == "/friend" then 1 else if pathname == "/alarm" then 2 else 3;
      assert IsActive(pathname, items[k]);
    }
    forall i, j | 0 <= i < j < |items| && IsActive(pathname, items[i])
      ensures !IsActive(pathname, items[j])
    {
      assert items[i].href != items[j].href;
    }
  }
}
