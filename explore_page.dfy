/**
 * The explore list (frontend/src/pages/ExplorePage.jsx): the posts a viewer
 * sees for a search text, a sort tab and the filter sheet's record.
 */
module ExplorePage {
  import opened Text
  import opened Seqs
  import opened FilterSheet

  /** The fields of an explore post the filter chain reads. */
  datatype Post = Post(title: string, growthStage: string, isBranch: bool, branchCount: int, watersCount: int)

  /** `searchQuery === '' || title.toLowerCase().includes(searchQuery.toLowerCase())`. */
  predicate TitleMatches(p: Post, query: string) {
    query == "" || ContainsIgnoreCase(p.title, query)
  }

  /** The 'Branches' tab keeps only posts with a branch. */
  predicate HasBranchesIfAsked(p: Post, activeSort: string) {
    activeSort != "Branches" || p.branchCount > 0
  }

  /** Every test of the filter chain at once. */
  predicate Shown(p: Post, query: string, activeSort: string, f: Filters) {
    TitleMatches(p, query) && StageKept(f, p.growthStage) && TypeKept(f, p.isBranch) && HasBranchesIfAsked(p, activeSort)
  }

  /** `visiblePosts`: four filters in a row, then the sort of the active tab. */
  function VisiblePosts(posts: seq<Post>, query: string, activeSort: string, f: Filters): (r: seq<Post>)
    ensures |r| <= |posts|
  {
    var a := Filter(posts, (p: Post) => TitleMatches(p, query));
    var b := Filter(a, (p: Post) => StageKept(f, p.growthStage));
    var c := Filter(b, (p: Post) => TypeKept(f, p.isBranch));
    var d := Filter(c, (p: Post) => HasBranchesIfAsked(p, activeSort));
    if activeSort == "Most Watered" then SortDesc(d, (p: Post) => p.watersCount as real)
    else if activeSort == "Branches" then SortDesc(d, (p: Post) => p.branchCount as real)
    else d
  }

  /** The chained filters keep what one filter by all the tests keeps. */
  lemma FilteredIsShown(posts: seq<Post>, query: string, activeSort: string, f: Filters)
    ensures Filter(Filter(Filter(Filter(posts, (p: Post) => TitleMatches(p, query)), (p: Post) => StageKept(f, p.growthStage)),
                          (p: Post) => TypeKept(f, p.isBranch)), (p: Post) => HasBranchesIfAsked(p, activeSort))
            == Filter(posts, (p: Post) => Shown(p, query, activeSort, f))
  {
    var t1: Post -> bool := (p: Post) => TitleMatches(p, query);
    var t2: Post -> bool := (p: Post) => StageKept(f, p.growthStage);
    var t3: Post -> bool := (p: Post) => TypeKept(f, p.isBranch);
    var t4: Post -> bool := (p: Post) => HasBranchesIfAsked(p, activeSort);
    var t12: Post -> bool := (p: Post) => t1(p) && t2(p);
    var t123: Post -> bool := (p: Post) => t12(p) && t3(p);
    var all: Post -> bool := (p: Post) => t123(p) && t4(p);
    FilterFilter(posts, t1, t2, t12);
    FilterFilter(posts, t12, t3, t123);
    FilterFilter(posts, t123, t4, all);
    FilterExt(posts, all, (p: Post) => Shown(p, query, activeSort, f));
  }

  /**
   * A post is visible exactly when it is one of the posts and passes every
   * test: the title holds the query (any post when the query is empty), its
   * stage is selected (any stage when none is), its type is the chosen one,
   * and it has branches on the 'Branches' tab.
   */
  lemma VisibleIffShown(posts: seq<Post>, query: string, activeSort: string, f: Filters)
    ensures forall p :: p in VisiblePosts(posts, query, activeSort, f) <==> p in posts && Shown(p, query, activeSort, f)
  {
    FilteredIsShown(posts, query, activeSort, f);
    var d := Filter(posts, (p: Post) => Shown(p, query, activeSort, f));
    FilterMembers(posts, (p: Post) => Shown(p, query, activeSort, f));
    SortDescMembers(d, (p: Post) => p.watersCount as real);
    SortDescMembers(d, (p: Post) => p.branchCount as real);
  }

  /**
   * 'Most Watered' lists the most watered first, 'Branches' the most
   * branched first, and any other tab keeps the posts' own order.
   */
  lemma VisibleOrder(posts: seq<Post>, query: string, activeSort: string, f: Filters)
    ensures activeSort == "Most Watered" ==> NonIncreasing(VisiblePosts(posts, query, activeSort, f), (p: Post) => p.watersCount as real)
    ensures activeSort == "Branches" ==> NonIncreasing(VisiblePosts(posts, query, activeSort, f), (p: Post) => p.branchCount as real)
    ensures activeSort != "Most Watered" && activeSort != "Branches" ==> Subseq(VisiblePosts(posts, query, activeSort, f), posts)
  {
    FilteredIsShown(posts, query, activeSort, f);
    var d := Filter(posts, (p: Post) => Shown(p, query, activeSort, f));
    SortDescSorted(d, (p: Post) => p.watersCount as real);
    SortDescSorted(d, (p: Post) => p.branchCount as real);
    FilterSubseq(posts, (p: Post) => Shown(p, query, activeSort, f));
  }

  /** On 'Most Watered', posts with the same number of waters keep their order in the feed. */
  lemma VisibleTiesKeepOrder(posts: seq<Post>, query: string, f: Filters, w: int)
    ensures Filter(VisiblePosts(posts, query, "Most Watered", f), (p: Post) => p.watersCount == w)
            == Filter(Filter(posts, (p: Post) => Shown(p, query, "Most Watered", f)), (p: Post) => p.watersCount == w)
  {
    FilteredIsShown(posts, query, "Most Watered", f);
    var d := Filter(posts, (p: Post) => Shown(p, query, "Most Watered", f));
    SortDescStable(d, (p: Post) => p.watersCount as real, w as real, (p: Post) => p.watersCount == w);
  }

  /** With no query, the default filters and the 'Newest' tab every post is shown, in order. */
  lemma DefaultsShowAll(posts: seq<Post>)
    ensures VisiblePosts(posts, "", "Newest", Defaults) == posts
  {
    FilteredIsShown(posts, "", "Newest", Defaults);
    FilterAll(posts, (p: Post) => Shown(p, "", "Newest", Defaults));
  }
}
