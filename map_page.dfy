/**
 * The map (frontend/src/pages/MapPage.jsx): the filtered posts, markers at
 * one spot fanned out, what a tap on the map opens, and the realtime update
 * of a post.
 */
module MapPage {
  import opened Wrappers
  import opened Seqs
  import opened FilterSheet

  datatype Post = Post(id: int, lat: real, lng: real, watersCount: int, growthStage: string, isBranch: bool)

  /** `DISTANCE_MILES[distance] ?? 999`. */
  function MaxMiles(distance: string): (r: real)
    ensures distance !in {"Nearby", "0.5 mi", "1 mi", "2 mi", "5 mi+"} ==> r == 999.0
  {
    if distance == "Nearby" || distance == "0.5 mi" then 0.5
    else if distance == "1 mi" then 1.0
    else if distance == "2 mi" then 2.0
    else if distance == "5 mi+" then 5.0
    else 999.0
  }

  /**
   * The distance test, `miles` being the distance from the current location
   * to the post: a limit of 999 keeps every post.
   */
  predicate WithinDistance(f: Filters, p: Post, miles: Post -> real) {
    MaxMiles(f.distance) == 999.0 || miles(p) <= MaxMiles(f.distance)
  }

  /** The distance options of the filter sheet. */
  const SheetDistances: seq<string> := ["10 mi", "20 mi", "30 mi", "40 mi", "50 mi", "Custom"]

  /**
   * No distance the filter sheet offers appears in the table except '10 mi',
   * whose limit is 999: on this page the distance choice never removes a post.
   */
  lemma SheetDistancesNeverFilter(f: Filters, p: Post, miles: Post -> real)
    requires f.distance in SheetDistances
    ensures WithinDistance(f, p, miles)
  {
  }

  predicate Shown(p: Post, f: Filters, miles: Post -> real) {
    StageKept(f, p.growthStage) && WithinDistance(f, p, miles) && TypeKept(f, p.isBranch)
  }

  /** `filteredPosts`. */
  function FilteredPosts(posts: seq<Post>, f: Filters, miles: Post -> real): (r: seq<Post>)
    ensures |r| <= |posts|
  {
    var a := Filter(posts, (p: Post) => StageKept(f, p.growthStage));
    var b := Filter(a, (p: Post) => WithinDistance(f, p, miles));
    var c := Filter(b, (p: Post) => TypeKept(f, p.isBranch));
    if f.sort == "Most Watered" then SortDesc(c, (p: Post) => p.watersCount as real) else c
  }

  /**
   * A post is on the map exactly when it passes the stage, distance and type
   * tests; 'Most Watered' orders by waters and any other sort keeps the order.
   */
  lemma FilteredIffShown(posts: seq<Post>, f: Filters, miles: Post -> real)
    ensures forall p :: p in FilteredPosts(posts, f, miles) <==> p in posts && Shown(p, f, miles)
    ensures f.sort == "Most Watered" ==> NonIncreasing(FilteredPosts(posts, f, miles), (p: Post) => p.watersCount as real)
    ensures f.sort != "Most Watered" ==> Subseq(FilteredPosts(posts, f, miles), posts)
  {
    var t1: Post -> bool := (p: Post) => StageKept(f, p.growthStage);
    var t2: Post -> bool := (p: Post) => WithinDistance(f, p, miles);
    var t3: Post -> bool := (p: Post) => TypeKept(f, p.isBranch);
    var t12: Post -> bool := (p: Post) => t1(p) && t2(p);
    var all: Post -> bool := (p: Post) => t12(p) && t3(p);
    var shown: Post -> bool := (p: Post) => Shown(p, f, miles);
    FilterFilter(posts, t1, t2, t12);
    FilterFilter(posts, t12, t3, all);
    FilterExt(posts, all, shown);
    FilterMembers(posts, shown);
    FilterSubseq(posts, shown);
    SortDescMembers(Filter(posts, shown), (p: Post) => p.watersCount as real);
    SortDescSorted(Filter(posts, shown), (p: Post) => p.watersCount as real);
  }

  /** On 'Most Watered', posts with the same number of waters keep their order on the map. */
  lemma FilteredTiesKeepOrder(posts: seq<Post>, f: Filters, miles: Post -> real, w: int)
    requires f.sort == "Most Watered"
    ensures Filter(FilteredPosts(posts, f, miles), (p: Post) => p.watersCount == w)
            == Filter(Filter(posts, (p: Post) => Shown(p, f, miles)), (p: Post) => p.watersCount == w)
  {
    var t1: Post -> bool := (p: Post) => StageKept(f, p.growthStage);
    var t2: Post -> bool := (p: Post) => WithinDistance(f, p, miles);
    var t3: Post -> bool := (p: Post) => TypeKept(f, p.isBranch);
    var t12: Post -> bool := (p: Post) => t1(p) && t2(p);
    var all: Post -> bool := (p: Post) => t12(p) && t3(p);
    var shown: Post -> bool := (p: Post) => Shown(p, f, miles);
    FilterFilter(posts, t1, t2, t12);
    FilterFilter(posts, t12, t3, all);
    FilterExt(posts, all, shown);
    SortDescStable(Filter(posts, shown), (p: Post) => p.watersCount as real, w as real, (p: Post) => p.watersCount == w);
  }

  // ---------------------------------------------------------------- spreadPosts

  /** How many posts of `s` have the key `k`. */
  function CountKey(s: seq<Post>, k: string, keyOf: Post -> string): (r: nat)
    ensures r <= |s|
  {
    if s == [] then 0 else CountKey(s[..|s| - 1], k, keyOf) + (if keyOf(s[|s| - 1]) == k then 1 else 0)
  }

  lemma CountKeyStep(s: seq<Post>, i: nat, k: string, keyOf: Post -> string)
    requires i < |s|
    ensures CountKey(s[..i + 1], k, keyOf) == CountKey(s[..i], k, keyOf) + (if keyOf(s[i]) == k then 1 else 0)
  {
    assert s[..i + 1][..i] == s[..i];
  }

  /** Counting one more post raises the count at its key and no other. */
  lemma SeenStep(posts: seq<Post>, i: nat, keyOf: Post -> string, seen: map<string, nat>)
    requires i < |posts|
    requires forall k :: CountKey(posts[..i], k, keyOf) == if k in seen then seen[k] else 0
    ensures var key := keyOf(posts[i]);
            var seen' := seen[key := (if key in seen then seen[key] else 0) + 1];
            forall k :: CountKey(posts[..i + 1], k, keyOf) == if k in seen' then seen'[k] else 0
  {
    var key := keyOf(posts[i]);
    var seen' := seen[key := (if key in seen then seen[key] else 0) + 1];
    forall k
      ensures CountKey(posts[..i + 1], k, keyOf) == if k in seen' then seen'[k] else 0
    {
      CountKeyStep(posts, i, k, keyOf);
    }
  }

  /** A post moved by `offset` steps of 0.0003 degrees north and east. */
  function Shift(p: Post, offset: nat): (r: Post)
    ensures r.id == p.id && r.watersCount == p.watersCount && r.growthStage == p.growthStage && r.isBranch == p.isBranch
    ensures offset == 0 ==> r == p
  {
    p.(lat := p.lat + offset as real * 0.0003, lng := p.lng + offset as real * 0.0003)
  }

  /** The spread posts: each moved by the number of earlier posts at its key. */
  function Spread(posts: seq<Post>, keyOf: Post -> string): (r: seq<Post>)
    ensures |r| == |posts|
  {
    if posts == [] then []
    else
      var front := posts[..|posts| - 1];
      var last := posts[|posts| - 1];
      Spread(front, keyOf) + [Shift(last, CountKey(front, keyOf(last), keyOf))]
  }

  /** The `i`-th spread post is the `i`-th post moved by the count of its key before it. */
  lemma {:induction false} SpreadAt(posts: seq<Post>, keyOf: Post -> string)
    ensures forall i :: 0 <= i < |posts| ==> Spread(posts, keyOf)[i] == Shift(posts[i], CountKey(posts[..i], keyOf(posts[i]), keyOf))
  {
    if posts != [] {
      var front := posts[..|posts| - 1];
      SpreadAt(front, keyOf);
      var s, sf := Spread(posts, keyOf), Spread(front, keyOf);
      forall i | 0 <= i < |posts|
        ensures s[i] == Shift(posts[i], CountKey(posts[..i], keyOf(posts[i]), keyOf))
      {
        if i < |front| {
          assert s[i] == sf[i];
          assert front[i] == posts[i] && front[..i] == posts[..i];
        }
      }
    }
  }

  /**
   * `spreadPosts(posts)`: `keyOf` is the post's rounded `lat,lng` string. The
   * k-th post (from 0) at a key is moved by k steps; the list keeps its
   * length and order.
   */
  method SpreadPosts(posts: seq<Post>, keyOf: Post -> string) returns (r: seq<Post>)
    ensures |r| == |posts|
    ensures forall i :: 0 <= i < |posts| ==> r[i] == Shift(posts[i], CountKey(posts[..i], keyOf(posts[i]), keyOf))
  {
    var seen: map<string, nat> := map[];
    r := [];
    var i := 0;
    while i < |posts|
      invariant 0 <= i <= |posts|
      invariant r == Spread(posts[..i], keyOf)
      invariant forall k :: CountKey(posts[..i], k, keyOf) == if k in seen then seen[k] else 0
    {
      var key := keyOf(posts[i]);
      var offset := if key in seen then seen[key] else 0;
      assert offset == CountKey(posts[..i], key, keyOf);
      assert posts[..i + 1][..i] == posts[..i];
      SeenStep(posts, i, keyOf, seen);
      seen := seen[key := offset + 1];
      r := r + [Shift(posts[i], offset)];
      i := i + 1;
    }
    assert posts[..|posts|] == posts;
    SpreadAt(posts, keyOf);
  }

  /** A post whose key no earlier post has stays where it is. */
  lemma {:induction false} FirstAtKeyUnmoved(s: seq<Post>, k: string, keyOf: Post -> string)
    requires forall j :: 0 <= j < |s| ==> keyOf(s[j]) != k
    ensures CountKey(s, k, keyOf) == 0
  {
    if s != [] {
      FirstAtKeyUnmoved(s[..|s| - 1], k, keyOf);
    }
  }

  /** A later post at the same key is moved further: no two posts at one spot share an offset. */
  lemma {:induction false} LaterMovedFurther(s: seq<Post>, i: nat, j: nat, keyOf: Post -> string)
    requires i < j <= |s|
    ensures CountKey(s[..i], keyOf(s[i]), keyOf) < CountKey(s[..j], keyOf(s[i]), keyOf)
    decreases j - i
  {
    var k := keyOf(s[i]);
    assert s[..i + 1][..i] == s[..i];
    if j > i + 1 {
      LaterMovedFurther(s, i, j - 1, keyOf);
      assert s[..j][..j - 1] == s[..j - 1];
    }
  }

  // ---------------------------------------------------------------- map state

  function Abs(x: real): (r: real)
    ensures r >= 0.0 && (r == x || r == -x)
  {
    if x < 0.0 then -x else x
  }

  /** The displayed posts within 0.0005 degrees of the tap in both directions. */
  function Nearby(display: seq<Post>, tapLat: real, tapLng: real): (r: seq<Post>)
    ensures forall i :: 0 <= i < |r| ==> Abs(r[i].lat - tapLat) < 0.0005 && Abs(r[i].lng - tapLng) < 0.0005
  {
    Filter(display, (p: Post) => Abs(p.lat - tapLat) < 0.0005 && Abs(p.lng - tapLng) < 0.0005)
  }

  /** A realtime UPDATE payload: the new id and the changed columns that came with it. */
  datatype Change = Change(id: int, lat: Option<real>, lng: Option<real>, watersCount: Option<int>,
                           growthStage: Option<string>, isBranch: Option<bool>)

  /** `{ ...p, ...payload.new }`. */
  function Merged(p: Post, c: Change): (r: Post)
    ensures r.id == c.id
    ensures r.watersCount == OrElse(c.watersCount, p.watersCount) && r.growthStage == OrElse(c.growthStage, p.growthStage)
    ensures r.lat == OrElse(c.lat, p.lat) && r.lng == OrElse(c.lng, p.lng) && r.isBranch == OrElse(c.isBranch, p.isBranch)
  {
    Post(c.id, OrElse(c.lat, p.lat), OrElse(c.lng, p.lng), OrElse(c.watersCount, p.watersCount),
         OrElse(c.growthStage, p.growthStage), OrElse(c.isBranch, p.isBranch))
  }

  class View {
    var posts: seq<Post>
    var selectedPost: Option<Post>
    var pickerPosts: seq<Post>
    var pickerOpen: bool
    var clickCoords: Option<(real, real)>
    var plantOpen: bool

    constructor (seed: seq<Post>)
      ensures posts == seed && selectedPost.None? && pickerPosts == [] && !pickerOpen && clickCoords.None? && !plantOpen
    {
      posts, selectedPost, pickerPosts, pickerOpen, clickCoords, plantOpen := seed, None, [], false, None, false;
    }

    /**
     * `handleMapClick`: with a post selected the tap only deselects it.
     * Otherwise two or more nearby markers open the picker with them, one is
     * selected, and none opens the planting sheet at the tap.
     */
    method HandleMapClick(display: seq<Post>, tapLat: real, tapLng: real)
      modifies this`selectedPost, this`pickerPosts, this`pickerOpen, this`clickCoords, this`plantOpen
      ensures old(selectedPost).Some? ==>
                selectedPost.None? && pickerPosts == old(pickerPosts) && pickerOpen == old(pickerOpen)
                && clickCoords == old(clickCoords) && plantOpen == old(plantOpen)
      ensures old(selectedPost).None? && |Nearby(display, tapLat, tapLng)| >= 2 ==>
                pickerPosts == Nearby(display, tapLat, tapLng) && pickerOpen
                && selectedPost.None? && clickCoords == old(clickCoords) && plantOpen == old(plantOpen)
      ensures old(selectedPost).None? && |Nearby(display, tapLat, tapLng)| == 1 ==>
                selectedPost == Some(Nearby(display, tapLat, tapLng)[0])
                && pickerPosts == old(pickerPosts) && pickerOpen == old(pickerOpen)
                && clickCoords == old(clickCoords) && plantOpen == old(plantOpen)
      ensures old(selectedPost).None? && |Nearby(display, tapLat, tapLng)| == 0 ==>
                clickCoords == Some((tapLat, tapLng)) && plantOpen
                && selectedPost.None? && pickerPosts == old(pickerPosts) && pickerOpen == old(pickerOpen)
    {
      if selectedPost.Some? {
        selectedPost := None;
        return;
      }
      var nearby := Nearby(display, tapLat, tapLng);
      if |nearby| >= 2 {
        pickerPosts := nearby;
        pickerOpen := true;
      } else if |nearby| == 1 {
        selectedPost := Some(nearby[0]);
      } else {
        clickCoords := Some((tapLat, tapLng));
        plantOpen := true;
      }
    }

    /** `handleSelectPost(post)`: that post selected, the planting sheet and the picker closed. */
    method HandleSelectPost(p: Post)
      modifies this`selectedPost, this`plantOpen, this`pickerOpen
      ensures selectedPost == Some(p) && !plantOpen && !pickerOpen
    {
      selectedPost := Some(p);
      plantOpen := false;
      pickerOpen := false;
    }

    /** The realtime UPDATE handler: the post with the payload's id takes the payload; the others stay. */
    method OnUpdate(c: Change)
      modifies this`posts
      ensures |posts| == |old(posts)|
      ensures forall i :: 0 <= i < |posts| ==> posts[i] == if old(posts)[i].id == c.id then Merged(old(posts)[i], c) else old(posts)[i]
    {
      posts := Map(posts, (p: Post) => if p.id == c.id then Merged(p, c) else p);
    }
  }

  /** A payload whose id matches no post leaves the list as it was. */
  lemma UnknownIdChangesNothing(posts: seq<Post>, c: Change)
    requires forall i :: 0 <= i < |posts| ==> posts[i].id != c.id
    ensures Map(posts, (p: Post) => if p.id == c.id then Merged(p, c) else p) == posts
  {
  }
}
