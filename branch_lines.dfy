/**
 * The branch lines on the map (frontend/src/components/Map/BranchLines.jsx):
 * one dashed line from each branch's parent tree to the branch, for every
 * branch whose parent is among the posts shown.
 */
module BranchLines {
  import opened Wrappers
  import opened Seqs

  /** The fields of a map post the lines read. */
  datatype Post = Post(id: int, isBranch: bool, parentId: Option<int>, lat: real, lng: real)

  /** A point of a `LineString`: `[lng, lat]`. */
  datatype Point = Point(lng: real, lat: real)

  /** A GeoJSON line feature with its `properties`. */
  datatype Feature = Feature(from: Point, to: Point, branchId: int, parentId: int)

  /** `p.is_branch && p.parent_id`: a branch with a truthy parent id (0 is falsy). */
  predicate IsCandidate(p: Post) {
    p.isBranch && p.parentId.Some? && p.parentId.value != 0
  }

  /** `posts.find((p) => p.id === id)`: the first post with that id. */
  function Find(posts: seq<Post>, id: int): (r: Option<Post>)
    ensures r.None? <==> forall p :: p in posts ==> p.id != id
    ensures r.Some? ==> r.value in posts && r.value.id == id
  {
    if posts == [] then None
    else if posts[0].id == id then Some(posts[0])
    else Find(posts[1..], id)
  }

  /** `find` returns the first post with the id: every earlier post has another. */
  lemma {:induction false} FindIsFirst(posts: seq<Post>, id: int)
    requires exists p :: p in posts && p.id == id
    ensures Find(posts, id) == Some(posts[FirstIndex(posts, id)])
  {
    if posts[0].id != id {
      assert exists p :: p in posts[1..] && p.id == id by {
        var p :| p in posts && p.id == id;
        assert p != posts[0];
      }
      FindIsFirst(posts[1..], id);
    }
  }

  /** The index of the first post with that id, when there is one. */
  function FirstIndex(posts: seq<Post>, id: int): (r: nat)
    requires exists p :: p in posts && p.id == id
    ensures r < |posts| && posts[r].id == id
    ensures forall j :: 0 <= j < r ==> posts[j].id != id
  {
    if posts[0].id == id then 0
    else
      assert exists p :: p in posts[1..] && p.id == id by {
        var p :| p in posts && p.id == id;
        assert p != posts[0];
      }
      1 + FirstIndex(posts[1..], id)
  }

  /** A branch that draws a line: a candidate whose parent is among the posts. */
  predicate Linked(b: Post, posts: seq<Post>) {
    IsCandidate(b) && Find(posts, b.parentId.value).Some?
  }

  /** The line of a branch, from its parent to it. */
  function LineOf(parent: Post, branch: Post): (r: Feature)
    ensures r.from == Point(parent.lng, parent.lat) && r.to == Point(branch.lng, branch.lat)
    ensures r.branchId == branch.id && r.parentId == parent.id
  {
    Feature(Point(parent.lng, parent.lat), Point(branch.lng, branch.lat), branch.id, parent.id)
  }

  /** The `.map(...)` over the candidates followed by `.filter(Boolean)`: a missing parent yields no line. */
  function Lines(candidates: seq<Post>, posts: seq<Post>): (r: seq<Feature>)
    requires forall b :: b in candidates ==> IsCandidate(b)
    ensures |r| <= |candidates|
  {
    if candidates == [] then []
    else
      var b := candidates[0];
      assert b in candidates && IsCandidate(b);
      var parent := Find(posts, b.parentId.value);
      var rest := Lines(candidates[1..], posts);
      if parent.Some? then [LineOf(parent.value, b)] + rest else rest
  }

  /** `geojson.features`. */
  function Features(posts: seq<Post>): (r: seq<Feature>)
  {
    var candidates := Filter(posts, IsCandidate);
    Lines(candidates, posts)
  }

  /** Every line runs from a present parent to one of its branches, and every such branch has its line. */
  lemma {:induction false} LinesIff(candidates: seq<Post>, posts: seq<Post>)
    requires forall b :: b in candidates ==> IsCandidate(b)
    ensures forall f :: f in Lines(candidates, posts) <==>
              exists b :: b in candidates && Linked(b, posts) && f == LineOf(Find(posts, b.parentId.value).value, b)
  {
    if candidates != [] {
      LinesIff(candidates[1..], posts);
      var b := candidates[0];
      forall f | f in Lines(candidates, posts)
        ensures exists c :: c in candidates && Linked(c, posts) && f == LineOf(Find(posts, c.parentId.value).value, c)
      {
        if Linked(b, posts) && f == LineOf(Find(posts, b.parentId.value).value, b) {
        } else {
          var c :| c in candidates[1..] && Linked(c, posts) && f == LineOf(Find(posts, c.parentId.value).value, c);
        }
      }
    }
  }

  /** There is one line per linked branch. */
  lemma {:induction false} LinesCount(candidates: seq<Post>, posts: seq<Post>)
    requires forall b :: b in candidates ==> IsCandidate(b)
    ensures |Lines(candidates, posts)| == |Filter(candidates, (b: Post) => Linked(b, posts))|
  {
    if candidates != [] {
      LinesCount(candidates[1..], posts);
    }
  }

  /**
   * The features are exactly the lines of the branches whose parent is
   * present: a branch with no parent id, or whose parent is not shown, has none.
   */
  lemma FeaturesIff(posts: seq<Post>)
    ensures forall f :: f in Features(posts) <==>
              exists b :: b in posts && Linked(b, posts) && f == LineOf(Find(posts, b.parentId.value).value, b)
    ensures |Features(posts)| == |Filter(posts, (b: Post) => Linked(b, posts))|
  {
    var candidates := Filter(posts, IsCandidate);
    FilterMembers(posts, IsCandidate);
    LinesIff(candidates, posts);
    LinesCount(candidates, posts);
    var linked: Post -> bool := (b: Post) => Linked(b, posts);
    var both: Post -> bool := (b: Post) => IsCandidate(b) && linked(b);
    FilterFilter(posts, IsCandidate, linked, both);
    FilterExt(posts, both, linked);
  }

  /** `if (!geojson.features.length) return null`: the layer is drawn exactly when some branch is linked. */
  predicate Drawn(posts: seq<Post>) {
    |Features(posts)| > 0
  }

  /** The layer is drawn exactly when some branch's parent is present. */
  lemma DrawnIffLinked(posts: seq<Post>)
    ensures Drawn(posts) <==> exists b :: b in posts && Linked(b, posts)
  {
    FeaturesIff(posts);
    var linked: Post -> bool := (b: Post) => Linked(b, posts);
    FilterMembers(posts, linked);
    EmptyIffNoMember(Filter(posts, linked));
  }
}
