/**
 * The friends search screen (client/src/pages/friends/FriendsSearchPage.jsx):
 * one query narrows four sections (recent activity, friends' trees, the
 * circle and the requests), a filter chip picks which sections are shown,
 * and with no query and every section shown each list is previewed.
 */
module FriendsSearchPage {
  import opened Wrappers
  import opened Text
  import opened Seqs

  /** An activity line: matched on its text. */
  datatype ActivityItem = ActivityItem(id: int, text: string)

  /** A friend's tree: matched on its title or its content. */
  datatype TreeItem = TreeItem(id: int, title: string, content: string)

  /** A friend of the circle or a pending request: matched on the username. */
  datatype Person = Person(id: int, username: string)

  /** The four sections the page lists. */
  datatype Sections = Sections(activity: seq<ActivityItem>, trees: seq<TreeItem>, circle: seq<Person>, requests: seq<Person>)

  /** The sections a filter chip names. */
  datatype Section = ActivitySection | TreesSection | CircleSection | RequestsSection

  /** The `value` of a section's chip in `FILTER_OPTIONS`. */
  function ChipValue(s: Section): (r: string)
    ensures r != "all"
  {
    match s
    case ActivitySection => "activity"
    case TreesSection => "trees"
    case CircleSection => "circle"
    case RequestsSection => "requests"
  }

  /** `q.length > 0` where `q = query.toLowerCase()`. */
  predicate HasQuery(query: string) {
    |Lower(query)| > 0
  }

  /** `!hasQuery || i.text.toLowerCase().includes(q)`. */
  predicate ActivityMatches(i: ActivityItem, query: string) {
    !HasQuery(query) || ContainsIgnoreCase(i.text, query)
  }

  /** `!hasQuery || title or content, lower-cased, includes q`. */
  predicate TreeMatches(p: TreeItem, query: string) {
    !HasQuery(query) || ContainsIgnoreCase(p.title, query) || ContainsIgnoreCase(p.content, query)
  }

  /** `!hasQuery || f.username.toLowerCase().includes(q)`. */
  predicate PersonMatches(f: Person, query: string) {
    !HasQuery(query) || ContainsIgnoreCase(f.username, query)
  }

  /** `activeFilter === 'all' || activeFilter === <the section's value>`. */
  predicate SectionVisible(activeFilter: string, s: Section) {
    activeFilter == "all" || activeFilter == ChipValue(s)
  }

  /** `visible ? list : []`. */
  function IfVisible<T>(visible: bool, s: seq<T>): (r: seq<T>)
    ensures visible ==> r == s
    ensures !visible ==> r == []
  {
    if visible then s else []
  }

  /** `visActivity`, `visTrees`, `visCircle` and `visRequests`. */
  function Visible(data: Sections, query: string, activeFilter: string): (r: Sections)
    ensures |r.activity| <= |data.activity| && |r.trees| <= |data.trees|
    ensures |r.circle| <= |data.circle| && |r.requests| <= |data.requests|
  {
    Sections(
      IfVisible(SectionVisible(activeFilter, ActivitySection), Filter(data.activity, (i: ActivityItem) => ActivityMatches(i, query))),
      IfVisible(SectionVisible(activeFilter, TreesSection), Filter(data.trees, (p: TreeItem) => TreeMatches(p, query))),
      IfVisible(SectionVisible(activeFilter, CircleSection), Filter(data.circle, (f: Person) => PersonMatches(f, query))),
      IfVisible(SectionVisible(activeFilter, RequestsSection), Filter(data.requests, (f: Person) => PersonMatches(f, query))))
  }

  /** `totalResults`: the four visible lengths summed. */
  function TotalResults(v: Sections): (r: nat)
    ensures r == 0 <==> v.activity == [] && v.trees == [] && v.circle == [] && v.requests == []
  {
    |v.activity| + |v.trees| + |v.circle| + |v.requests|
  }

  /** `isEmpty`: a query that leaves nothing visible. */
  predicate IsEmpty(data: Sections, query: string, activeFilter: string) {
    HasQuery(query) && TotalResults(Visible(data, query, activeFilter)) == 0
  }

  /** `previewMode`: every section and no query. */
  predicate PreviewMode(query: string, activeFilter: string) {
    activeFilter == "all" && !HasQuery(query)
  }

  /** `clip(arr)`: the first three in preview mode, the whole list otherwise. */
  function ClipPreview<T>(preview: bool, s: seq<T>): (r: seq<T>)
    ensures |r| <= |s| && r == s[..|r|]
    ensures preview ==> |r| == if |s| < 3 then |s| else 3
    ensures !preview ==> r == s
  {
    if preview then Clip(s, 3) else s
  }

  /** What the page renders: every section clipped except the requests, which are never clipped. */
  function Rendered(data: Sections, query: string, activeFilter: string): (r: Sections)
    ensures var v := Visible(data, query, activeFilter);
            r.requests == v.requests &&
            |r.activity| <= |v.activity| && |r.trees| <= |v.trees| && |r.circle| <= |v.circle| &&
            r.activity == v.activity[..|r.activity|] && r.trees == v.trees[..|r.trees|] && r.circle == v.circle[..|r.circle|]
  {
    var v := Visible(data, query, activeFilter);
    var preview := PreviewMode(query, activeFilter);
    Sections(ClipPreview(preview, v.activity), ClipPreview(preview, v.trees), ClipPreview(preview, v.circle), v.requests)
  }

  /** A section's `count`: the number of results, shown only while there is a query. */
  function CountLabel(query: string, n: nat): (r: Option<nat>)
    ensures r.Some? <==> query != []
    ensures r.Some? ==> r.value == n
  {
    if HasQuery(query) then Some(n) else None
  }

  /** A query is present exactly when the typed text is not empty. */
  lemma HasQueryIffTyped(query: string)
    ensures HasQuery(query) <==> query != []
  {
  }

  /** An item is visible exactly when its section is shown and it matches the query. */
  lemma VisibleIff(data: Sections, query: string, activeFilter: string)
    ensures forall i :: i in Visible(data, query, activeFilter).activity <==>
              SectionVisible(activeFilter, ActivitySection) && i in data.activity && ActivityMatches(i, query)
    ensures forall p :: p in Visible(data, query, activeFilter).trees <==>
              SectionVisible(activeFilter, TreesSection) && p in data.trees && TreeMatches(p, query)
    ensures forall f :: f in Visible(data, query, activeFilter).circle <==>
              SectionVisible(activeFilter, CircleSection) && f in data.circle && PersonMatches(f, query)
    ensures forall f :: f in Visible(data, query, activeFilter).requests <==>
              SectionVisible(activeFilter, RequestsSection) && f in data.requests && PersonMatches(f, query)
  {
    FilterMembers(data.activity, (i: ActivityItem) => ActivityMatches(i, query));
    FilterMembers(data.trees, (p: TreeItem) => TreeMatches(p, query));
    FilterMembers(data.circle, (f: Person) => PersonMatches(f, query));
    FilterMembers(data.requests, (f: Person) => PersonMatches(f, query));
  }

  /** With no query and the 'all' chip every list is visible whole, in its own order. */
  lemma NoQueryShowsEverything(data: Sections)
    ensures Visible(data, "", "all") == data
  {
    FilterAll(data.activity, (i: ActivityItem) => ActivityMatches(i, ""));
    FilterAll(data.trees, (p: TreeItem) => TreeMatches(p, ""));
    FilterAll(data.circle, (f: Person) => PersonMatches(f, ""));
    FilterAll(data.requests, (f: Person) => PersonMatches(f, ""));
  }

  /** A section's chip shows that section exactly as 'all' does, and no other. */
  lemma ChipShowsOneSection(data: Sections, query: string, s: Section)
    ensures var one := Visible(data, query, ChipValue(s));
            var all := Visible(data, query, "all");
            (one.activity == if s == ActivitySection then all.activity else []) &&
            (one.trees == if s == TreesSection then all.trees else []) &&
            (one.circle == if s == CircleSection then all.circle else []) &&
            (one.requests == if s == RequestsSection then all.requests else [])
  {
  }

  /** The page is empty exactly when a query is typed and nothing in a shown section matches it. */
  lemma EmptyIffNoMatch(data: Sections, query: string, activeFilter: string)
    ensures IsEmpty(data, query, activeFilter) <==>
              query != [] &&
              (SectionVisible(activeFilter, ActivitySection) ==> forall i :: i in data.activity ==> !ActivityMatches(i, query)) &&
              (SectionVisible(activeFilter, TreesSection) ==> forall p :: p in data.trees ==> !TreeMatches(p, query)) &&
              (SectionVisible(activeFilter, CircleSection) ==> forall f :: f in data.circle ==> !PersonMatches(f, query)) &&
              (SectionVisible(activeFilter, RequestsSection) ==> forall f :: f in data.requests ==> !PersonMatches(f, query))
  {
    VisibleIff(data, query, activeFilter);
    var v := Visible(data, query, activeFilter);
    EmptyIffNoMember(v.activity);
    EmptyIffNoMember(v.trees);
    EmptyIffNoMember(v.circle);
    EmptyIffNoMember(v.requests);
  }

  /**
   * Typing more narrows every section: whatever a longer query shows, the
   * query it extends shows too.
   */
  lemma LongerQueryNarrows(data: Sections, query: string, more: string, activeFilter: string)
    ensures var long := Visible(data, query + more, activeFilter);
            var short := Visible(data, query, activeFilter);
            (forall i :: i in long.activity ==> i in short.activity) &&
            (forall p :: p in long.trees ==> p in short.trees) &&
            (forall f :: f in long.circle ==> f in short.circle) &&
            (forall f :: f in long.requests ==> f in short.requests)
  {
    VisibleIff(data, query + more, activeFilter);
    VisibleIff(data, query, activeFilter);
    forall s: string | ContainsIgnoreCase(s, query + more)
      ensures ContainsIgnoreCase(s, query)
    {
      ContainsIgnoreCasePrefix(s, query, more);
    }
  }

  /** The preview shows at most three of each section but every request; outside it, each visible list whole. */
  lemma PreviewClipsToThree(data: Sections, query: string, activeFilter: string)
    ensures var r := Rendered(data, query, activeFilter);
            var v := Visible(data, query, activeFilter);
            PreviewMode(query, activeFilter) ==>
              |r.activity| <= 3 && |r.trees| <= 3 && |r.circle| <= 3 && r.requests == v.requests
    ensures !PreviewMode(query, activeFilter) ==> Rendered(data, query, activeFilter) == Visible(data, query, activeFilter)
  {
  }
}
