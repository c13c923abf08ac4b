/**
 * The search over one's own trees (client/src/pages/TreesSearchPage.jsx):
 * the active tab's list searched by title or content, the filter sheet's
 * stage and type filters and its sort.
 */
module TreesSearchPage {
  import opened Text
  import opened Seqs
  import opened FilterSheet

  datatype Post = Post(title: string, content: string, growthStage: string, isBranch: bool, watersCount: int)

  datatype Tab = Planted | Watered | Branches

  /** `TAB_DATA`. */
  datatype TabData = TabData(planted: seq<Post>, watered: seq<Post>, branches: seq<Post>)

  /** `TAB_DATA[activeTab]`. */
  function BaseForTab(data: TabData, tab: Tab): (r: seq<Post>)
    ensures tab == Planted ==> r == data.planted
    ensures tab == Watered ==> r == data.watered
    ensures tab == Branches ==> r == data.branches
  {
    match tab
    case Planted => data.planted
    case Watered => data.watered
    case Branches => data.branches
  }

  /**
   * The query test: an empty query keeps everything, otherwise the title or
   * the (non-empty) content holds it, ignoring case.
   */
  predicate QueryMatches(p: Post, query: string) {
    query == "" || ContainsIgnoreCase(p.title, query) || (p.content != "" && ContainsIgnoreCase(p.content, query))
  }

  predicate Shown(p: Post, query: string, f: Filters) {
    QueryMatches(p, query) && StageKept(f, p.growthStage) && TypeKept(f, p.isBranch)
  }

  /** Both sorts the sheet offers besides 'Newest' order by waters. */
  predicate SortsByWaters(f: Filters) {
    f.sort == "Most Watered" || f.sort == "Growing Fast"
  }

  /** `visiblePosts`. */
  function VisiblePosts(data: TabData, tab: Tab, query: string, f: Filters): (r: seq<Post>)
    ensures |r| <= |BaseForTab(data, tab)|
  {
    var a := Filter(BaseForTab(data, tab), (p: Post) => QueryMatches(p, query));
    var b := Filter(a, (p: Post) => StageKept(f, p.growthStage));
    var c := Filter(b, (p: Post) => TypeKept(f, p.isBranch));
    if SortsByWaters(f) then SortDesc(c, (p: Post) => p.watersCount as real) else c
  }

  lemma FilteredIsShown(posts: seq<Post>, query: string, f: Filters)
    ensures Filter(Filter(Filter(posts, (p: Post) => QueryMatches(p, query)), (p: Post) => StageKept(f, p.growthStage)),
                   (p: Post) => TypeKept(f, p.isBranch))
            == Filter(posts, (p: Post) => Shown(p, query, f))
  {
    var t1: Post -> bool := (p: Post) => QueryMatches(p, query);
    var t2: Post -> bool := (p: Post) => StageKept(f, p.growthStage);
    var t3: Post -> bool := (p: Post) => TypeKept(f, p.isBranch);
    var t12: Post -> bool := (p: Post) => t1(p) && t2(p);
    var all: Post -> bool := (p: Post) => t12(p) && t3(p);
    FilterFilter(posts, t1, t2, t12);
    FilterFilter(posts, t12, t3, all);
    FilterExt(posts, all, (p: Post) => Shown(p, query, f));
  }

  /**
   * A post is listed exactly when it belongs to the active tab and passes the
   * query, stage and type tests: the other tabs are never searched.
   */
  lemma VisibleIffShown(data: TabData, tab: Tab, query: string, f: Filters)
    ensures forall p :: p in VisiblePosts(data, tab, query, f) <==> p in BaseForTab(data, tab) && Shown(p, query, f)
  {
    var base := BaseForTab(data, tab);
    FilteredIsShown(base, query, f);
    FilterMembers(base, (p: Post) => Shown(p, query, f));
    SortDescMembers(Filter(base, (p: Post) => Shown(p, query, f)), (p: Post) => p.watersCount as real);
  }

  /** 'Most Watered' and 'Growing Fast' list by non-increasing waters; any other sort keeps the tab's order. */
  lemma VisibleOrder(data: TabData, tab: Tab, query: string, f: Filters)
    ensures SortsByWaters(f) ==> NonIncreasing(VisiblePosts(data, tab, query, f), (p: Post) => p.watersCount as real)
    ensures !SortsByWaters(f) ==> Subseq(VisiblePosts(data, tab, query, f), BaseForTab(data, tab))
  {
    var base := BaseForTab(data, tab);
    FilteredIsShown(base, query, f);
    SortDescSorted(Filter(base, (p: Post) => Shown(p, query, f)), (p: Post) => p.watersCount as real);
    FilterSubseq(base, (p: Post) => Shown(p, query, f));
  }

  /** Under a sort by waters, posts with the same number of waters keep the tab's order. */
  lemma VisibleTiesKeepOrder(data: TabData, tab: Tab, query: string, f: Filters, w: int)
    requires SortsByWaters(f)
    ensures Filter(VisiblePosts(data, tab, query, f), (p: Post) => p.watersCount == w)
            == Filter(Filter(BaseForTab(data, tab), (p: Post) => Shown(p, query, f)), (p: Post) => p.watersCount == w)
  {
    var base := BaseForTab(data, tab);
    FilteredIsShown(base, query, f);
    SortDescStable(Filter(base, (p: Post) => Shown(p, query, f)), (p: Post) => p.watersCount as real, w as real,
                   (p: Post) => p.watersCount == w);
  }
}
