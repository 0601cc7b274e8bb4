/**
 * The chapter/juz/page navigation sidebar: which tab is open, what the search box
 * holds, which items each tab lists, and which item is marked active for the
 * current route (and so is scrolled into view).
 */
module Sidebar {
  import opened Wrappers
  import opened Strings

  /** The three tabs, keyed 'Surah', 'Juz' and 'Page'. */
  datatype Tab = Surah | Juz | Page

  /** A chapter as the chapter list supplies it. */
  datatype Chapter = Chapter(id: nat, nameSimple: string, nameArabic: string, revelationPlace: string)

  /** The route parameters; one the current route does not have is `None`. */
  datatype Route = Route(surahId: Option<string>, juzId: Option<string>, pageId: Option<string>)

  /** `if (param)`: the parameter is there and is not the empty string. */
  predicate Present(param: Option<string>) {
    param.Some? && param.value != ""
  }

  /** The route names some juz, page or chapter. */
  predicate NamesAny(route: Route) {
    Present(route.juzId) || Present(route.pageId) || Present(route.surahId)
  }

  /**
   * The tab the route effect leaves open: a juz in the route wins over a page,
   * a page over a chapter, and a route naming none keeps the current tab.
   */
  function RouteTab(current: Tab, route: Route): (tab: Tab)
    ensures tab == Juz <==> Present(route.juzId) || (!NamesAny(route) && current == Juz)
    ensures tab == Page <==> (!Present(route.juzId) && Present(route.pageId)) || (!NamesAny(route) && current == Page)
    ensures tab == Surah <==>
      (!Present(route.juzId) && !Present(route.pageId) && Present(route.surahId)) || (!NamesAny(route) && current == Surah)
  {
    if Present(route.juzId) then Juz
    else if Present(route.pageId) then Page
    else if Present(route.surahId) then Surah
    else current
  }

  /** Running the route effect again on the same route changes nothing. */
  lemma RouteTabSettles(current: Tab, route: Route)
    ensures RouteTab(RouteTab(current, route), route) == RouteTab(current, route)
  {
  }

  /**
   * The sidebar's own state. `route` is the route the tab effect last ran with:
   * the effect runs again only when one of the three parameters changes.
   */
  class SidebarState {
    var activeTab: Tab
    var searchTerm: string
    var route: Route

    /** Mounting: the Surah tab and an empty search, then the route effect's first run. */
    constructor (route: Route)
      ensures activeTab == RouteTab(Surah, route) && searchTerm == "" && this.route == route
    {
      var tab := Surah;
      tab := RouteTab(tab, route);
      activeTab := tab;
      searchTerm := "";
      this.route := route;
    }

    /** A navigation: when the parameters change, the effect sets the tab; the search stays. */
    method Navigate(next: Route)
      modifies this
      ensures route == next && searchTerm == old(searchTerm)
      ensures activeTab == if next == old(route) then old(activeTab) else RouteTab(old(activeTab), next)
    {
      if next != route {
        activeTab := RouteTab(activeTab, next);
      }
      route := next;
    }

    /** A click on a tab button opens that tab and changes nothing else. */
    method SelectTab(tab: Tab)
      modifies this`activeTab
      ensures activeTab == tab && searchTerm == old(searchTerm) && route == old(route)
    {
      activeTab := tab;
    }

    /** Typing in the search box sets the term and changes nothing else. */
    method SetSearchTerm(term: string)
      modifies this`searchTerm
      ensures searchTerm == term && activeTab == old(activeTab) && route == old(route)
    {
      searchTerm := term;
    }
  }

  // ---------------------------------------------------------------------------
  // The lists

  const JuzCount: nat := 30
  const PageCount: nat := 604

  /** `Array.from({ length: n }, (_, i) => i + 1)`: the numbers 1 to n, ascending. */
  function OneTo(n: nat): (r: seq<nat>)
    ensures |r| == n && forall i :: 0 <= i < n ==> r[i] == i + 1
  {
    seq(n, i requires 0 <= i < n => i + 1)
  }

  /** The range holds exactly the numbers 1 to n, each once, ascending. */
  lemma OneToMembers(n: nat)
    ensures Increasing(OneTo(n))
    ensures forall k :: k in OneTo(n) <==> 1 <= k <= n
  {
    forall k | 1 <= k <= n
      ensures k in OneTo(n)
    {
      assert OneTo(n)[k - 1] == k;
    }
  }

  /** The search test on a chapter: its name contains the term, ignoring case, or its number does. */
  predicate ChapterMatches(c: Chapter, term: string): (b: bool)
    ensures b <==> (exists i :: OccursAt(Lower(c.nameSimple), Lower(term), i)) || (exists i :: OccursAt(Decimal(c.id), term, i))
  {
    ContainsIffOccurs(Lower(c.nameSimple), Lower(term));
    ContainsIffOccurs(Decimal(c.id), term);
    assert Contains(Lower(c.nameSimple), Lower(term)) <==> exists i :: OccursAt(Lower(c.nameSimple), Lower(term), i);
    assert Contains(Decimal(c.id), term) <==> exists i :: OccursAt(Decimal(c.id), term, i);
    Contains(Lower(c.nameSimple), Lower(term)) || Contains(Decimal(c.id), term)
  }

  function ChapterTest(term: string): Chapter -> bool {
    c => ChapterMatches(c, term)
  }

  /** The search test on a juz or page number: its decimal form contains the term. */
  function NumberTest(term: string): nat -> bool {
    (n: nat) => Contains(Decimal(n), term)
  }

  /**
   * `filteredChapters`: the chapters that match, each as often as in the list and
   * in list order; all of them for an empty term.
   */
  function FilteredChapters(chapters: seq<Chapter>, term: string): (r: seq<Chapter>)
    ensures forall c :: c in r <==> c in chapters && ChapterMatches(c, term)
    ensures forall c :: multiset(r)[c] == if ChapterMatches(c, term) then multiset(chapters)[c] else 0
    ensures SubsequenceOf(r, chapters)
    ensures term == "" ==> r == chapters
  {
    FilterMembers(chapters, ChapterTest(term));
    FilterCount(chapters, ChapterTest(term));
    FilterIsSubsequence(chapters, ChapterTest(term));
    EmptyTermKeepsAll(chapters, term);
    Filter(chapters, ChapterTest(term))
  }

  lemma EmptyTermKeepsAll(chapters: seq<Chapter>, term: string)
    ensures term == "" ==> Filter(chapters, ChapterTest(term)) == chapters
  {
    if term == "" {
      forall c | c in chapters
        ensures ChapterTest(term)(c)
      {
        ContainsEmpty(Decimal(c.id));
      }
      FilterAll(chapters, ChapterTest(term));
    }
  }

  /** The numbers 1 to n whose decimal form contains the term, ascending. */
  function FilteredNumbers(n: nat, term: string): (r: seq<nat>)
    ensures Increasing(r)
    ensures forall k :: k in r <==> 1 <= k <= n && Contains(Decimal(k), term)
  {
    OneToMembers(n);
    FilterMembers(OneTo(n), NumberTest(term));
    FilterIncreasing(OneTo(n), NumberTest(term));
    Filter(OneTo(n), NumberTest(term))
  }

  /** `filteredJuzs`: the juzs 1 to 30 whose number contains the term, ascending. */
  function FilteredJuzs(term: string): (r: seq<nat>)
    ensures Increasing(r)
    ensures forall k :: k in r <==> 1 <= k <= 30 && Contains(Decimal(k), term)
  {
    FilteredNumbers(JuzCount, term)
  }

  /** `filteredPages`: the pages 1 to 604 whose number contains the term, ascending. */
  function FilteredPages(term: string): (r: seq<nat>)
    ensures Increasing(r)
    ensures forall k :: k in r <==> 1 <= k <= 604 && Contains(Decimal(k), term)
  {
    FilteredNumbers(PageCount, term)
  }

  // ---------------------------------------------------------------------------
  // The active item

  /** `param === String(id)`: the item the route points at. */
  predicate IsActive(param: Option<string>, id: nat): (b: bool)
    ensures b ==> Present(param) && AllDigits(param.value) && ParseDecimal(param.value) == id
  {
    ParseDecimalOfDecimal(id);
    param == Some(Decimal(id))
  }

  /** A route parameter marks at most one number. */
  lemma ActiveIsUnique(param: Option<string>, a: nat, b: nat)
    requires IsActive(param, a) && IsActive(param, b)
    ensures a == b
  {
  }

  /** One rendered link: the item's number and its `data-active` flag. */
  datatype Entry = Entry(id: nat, active: bool)

  function Marked(ids: seq<nat>, param: Option<string>): seq<Entry> {
    seq(|ids|, i requires 0 <= i < |ids| => Entry(ids[i], IsActive(param, ids[i])))
  }

  function ChapterIds(chapters: seq<Chapter>): seq<nat> {
    seq(|chapters|, i requires 0 <= i < |chapters| => chapters[i].id)
  }

  /** The route parameter that marks the items of a tab. */
  function Param(tab: Tab, route: Route): Option<string> {
    match tab
    case Surah => route.surahId
    case Juz => route.juzId
    case Page => route.pageId
  }

  /** The numbers the open tab lists: its filtered juzs, pages or chapters. */
  function TabIds(tab: Tab, term: string, chapters: seq<Chapter>): (ids: seq<nat>)
    ensures tab == Juz ==> ids == FilteredJuzs(term)
    ensures tab == Page ==> ids == FilteredPages(term)
    ensures tab == Surah ==> ids == ChapterIds(FilteredChapters(chapters, term))
  {
    match tab
    case Surah => ChapterIds(FilteredChapters(chapters, term))
    case Juz => FilteredJuzs(term)
    case Page => FilteredPages(term)
  }

  /**
   * The links the sidebar renders: the open tab's whole filtered list, in order,
   * each link active exactly when that tab's route parameter names its number.
   */
  function Entries(tab: Tab, route: Route, term: string, chapters: seq<Chapter>): (r: seq<Entry>)
    ensures forall i :: 0 <= i < |r| ==> r[i].active == IsActive(Param(tab, route), r[i].id)
    ensures tab == Juz ==> forall i :: 0 <= i < |r| ==> 1 <= r[i].id <= 30 && Contains(Decimal(r[i].id), term)
    ensures tab == Page ==> forall i :: 0 <= i < |r| ==> 1 <= r[i].id <= 604 && Contains(Decimal(r[i].id), term)
    ensures tab == Surah ==> forall i :: 0 <= i < |r| ==>
      exists c :: c in chapters && ChapterMatches(c, term) && c.id == r[i].id
    ensures tab == Juz ==>
      |r| == |FilteredJuzs(term)| && forall i :: 0 <= i < |r| ==> r[i].id == FilteredJuzs(term)[i]
    ensures tab == Page ==>
      |r| == |FilteredPages(term)| && forall i :: 0 <= i < |r| ==> r[i].id == FilteredPages(term)[i]
    ensures tab == Surah ==>
      |r| == |FilteredChapters(chapters, term)| &&
      forall i :: 0 <= i < |r| ==> r[i].id == FilteredChapters(chapters, term)[i].id
  {
    Marked(TabIds(tab, term, chapters), Param(tab, route))
  }

  /** In a list of distinct numbers, at most one link is active. */
  lemma AtMostOneActive(ids: seq<nat>, param: Option<string>)
    requires forall i, j :: 0 <= i < j < |ids| ==> ids[i] != ids[j]
    ensures forall i, j :: 0 <= i < |ids| && 0 <= j < |ids| && Marked(ids, param)[i].active && Marked(ids, param)[j].active ==> i == j
  {
  }

  /** On the juz and page tabs at most one link is active. */
  lemma NumberTabsHaveOneActive(tab: Tab, route: Route, term: string, chapters: seq<Chapter>)
    requires tab != Surah
    ensures var es := Entries(tab, route, term, chapters);
      forall i, j :: 0 <= i < |es| && 0 <= j < |es| && es[i].active && es[j].active ==> i == j
  {
  }

  /** On the chapter tab at most one link is active, when the chapters have distinct numbers. */
  lemma ChapterTabHasOneActive(route: Route, term: string, chapters: seq<Chapter>)
    requires Distinct(ChapterIds(chapters))
    ensures var es := Entries(Surah, route, term, chapters);
      forall i, j :: 0 <= i < |es| && 0 <= j < |es| && es[i].active && es[j].active ==> i == j
  {
    var ids := ChapterIds(chapters);
    var shown := FilteredChapters(chapters, term);
    assert Distinct(chapters) by {
      forall i, j | 0 <= i < j < |chapters|
        ensures chapters[i] != chapters[j]
      {
        assert ids[i] != ids[j];
      }
    }
    FilterDistinct(chapters, ChapterTest(term));
    forall i, j | 0 <= i < j < |shown|
      ensures shown[i].id != shown[j].id
    {
      assert shown[i] in shown && shown[j] in shown;
      var p :| 0 <= p < |chapters| && chapters[p] == shown[i];
      var q :| 0 <= q < |chapters| && chapters[q] == shown[j];
      if p != q {
        assert ids[p] != ids[q];
      }
    }
    AtMostOneActive(ChapterIds(shown), route.surahId);
  }

  /** `querySelector('[data-active="true"]')`: the first active link, if any. */
  function FirstActive(entries: seq<Entry>): (r: Option<nat>)
    ensures r.None? <==> forall i :: 0 <= i < |entries| ==> !entries[i].active
    ensures r.Some? ==>
      exists i :: 0 <= i < |entries| && entries[i] == Entry(r.value, true) && forall j :: 0 <= j < i ==> !entries[j].active
  {
    if entries == [] then None
    else if entries[0].active then Some(entries[0].id)
    else
      var r := FirstActive(entries[1..]);
      assert forall i :: 1 <= i < |entries| ==> entries[i] == entries[1..][i - 1];
      r
  }

  /** The item scrolled into view after the tab or a route parameter changes. */
  function ScrollTarget(tab: Tab, route: Route, term: string, chapters: seq<Chapter>): (r: Option<nat>)
    ensures r.Some? ==> IsActive(Param(tab, route), r.value)
    ensures r.None? <==> forall e :: e in Entries(tab, route, term, chapters) ==> !e.active
  {
    FirstActive(Entries(tab, route, term, chapters))
  }

  /** The scroll target is the listed number the route parameter names, and there is none when it names no listed number. */
  lemma {:induction false} FirstActiveIsNamed(ids: seq<nat>, param: Option<string>, x: nat)
    ensures FirstActive(Marked(ids, param)) == Some(x) <==> x in ids && IsActive(param, x)
  {
    var es := Marked(ids, param);
    if x in ids && IsActive(param, x) {
      var k :| 0 <= k < |ids| && ids[k] == x;
      assert es[k].active;
      var i :| 0 <= i < |es| && es[i] == Entry(FirstActive(es).value, true);
      ActiveIsUnique(param, ids[i], x);
    }
    if FirstActive(es) == Some(x) {
      var i :| 0 <= i < |es| && es[i] == Entry(x, true);
      assert ids[i] == x;
    }
  }

  /** On the juz tab the scroll target is the juz the route names, when the filtered list shows it. */
  lemma JuzScrollTarget(route: Route, term: string, chapters: seq<Chapter>, j: nat)
    ensures ScrollTarget(Juz, route, term, chapters) == Some(j)
        <==> 1 <= j <= JuzCount && Contains(Decimal(j), term) && route.juzId == Some(Decimal(j))
  {
    FirstActiveIsNamed(FilteredJuzs(term), route.juzId, j);
  }

  /** On the page tab the scroll target is the page the route names, when the filtered list shows it. */
  lemma PageScrollTarget(route: Route, term: string, chapters: seq<Chapter>, p: nat)
    ensures ScrollTarget(Page, route, term, chapters) == Some(p)
        <==> 1 <= p <= PageCount && Contains(Decimal(p), term) && route.pageId == Some(Decimal(p))
  {
    FirstActiveIsNamed(FilteredPages(term), route.pageId, p);
  }

  /** On the chapter tab the scroll target is the number of a listed chapter the route names. */
  lemma ChapterScrollTarget(route: Route, term: string, chapters: seq<Chapter>, x: nat)
    ensures ScrollTarget(Surah, route, term, chapters) == Some(x)
        <==> (exists c :: c in chapters && ChapterMatches(c, term) && c.id == x) && route.surahId == Some(Decimal(x))
  {
    var ids := ChapterIds(FilteredChapters(chapters, term));
    FirstActiveIsNamed(ids, route.surahId, x);
    var shown := FilteredChapters(chapters, term);
    if x in ids {
      var k :| 0 <= k < |ids| && ids[k] == x;
      assert shown[k] in shown;
    }
    if c :| c in chapters && ChapterMatches(c, term) && c.id == x {
      var k :| 0 <= k < |shown| && shown[k] == c;
      assert ids[k] == x;
    }
  }
}
