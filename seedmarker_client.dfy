/**
 * The map marker of the second client (client/src/components/Map/SeedMarker.jsx):
 * a stage function with its own thresholds, the stored stage taking precedence,
 * and the oak ring and water badge it draws.
 */
module SeedMarkerClient {
  import opened Wrappers
  import opened Json
  import opened Growth
  import PostCardFrontend

  /**
   * The number a comparison such as `waters >= 10` sees: a number is itself,
   * `null` is 0, and a missing value is `NaN` (here `None`), for which every
   * comparison is false.
   */
  function NumberOf(v: Prop): (r: Option<real>)
    ensures v.None? ==> r.None?
    ensures v == Some(Null) ==> r == Some(0.0)
    ensures (v.Some? && v.value.Num?) ==> r == Some(v.value.n)
  {
    match v
    case None => None
    case Some(Null) => Some(0.0)
    case Some(Num(n)) => Some(n)
    case _ => None
  }

  /** `getStage(waters)`: 10 oak, 6 tree, 3 sapling, 1 sprout, anything else seed. */
  function GetStage(waters: Option<real>): (r: Stage)
    ensures waters.None? ==> r == Seed
    ensures waters.Some? ==>
              && (r == Oak <==> waters.value >= 10.0)
              && (r == Tree <==> 6.0 <= waters.value < 10.0)
              && (r == Sapling <==> 3.0 <= waters.value < 6.0)
              && (r == Sprout <==> 1.0 <= waters.value < 3.0)
              && (r == Seed <==> waters.value < 1.0)
  {
    if waters.None? then Seed
    else if waters.value >= 10.0 then Oak
    else if waters.value >= 6.0 then Tree
    else if waters.value >= 3.0 then Sapling
    else if waters.value >= 1.0 then Sprout
    else Seed
  }

  /** More water never gives an earlier stage. */
  lemma GetStageMonotone(a: real, b: real)
    requires a <= b
    ensures Rank(GetStage(Some(a))) <= Rank(GetStage(Some(b)))
  {
  }

  /**
   * On a whole number of waters this marker and the tree card name the same
   * stage everywhere except at exactly 10, where the marker already shows an
   * oak and the card a tree.
   */
  lemma {:induction false} DisagreeOnlyAtTen(w: nat)
    ensures GetStage(Some(w as real)) != PostCardFrontend.GetStage(w) <==> w == 10
    ensures w == 10 ==> GetStage(Some(w as real)) == Oak && PostCardFrontend.GetStage(w) == Tree
  {
    if w == 10 {
      assert GetStage(Some(10.0)) == Oak;
    } else if w > 10 {
      assert w as real >= 10.0;
    } else if w >= 6 {
      assert 6.0 <= w as real < 10.0;
    } else if w >= 3 {
      assert 3.0 <= w as real < 6.0;
    } else if w >= 1 {
      assert 1.0 <= w as real < 3.0;
    }
  }

  /** The two marker fields read here. */
  datatype Post = Post(growthStage: Prop, watersCount: Prop)

  /** `post.growth_stage || getStage(post.waters_count)`. */
  function MarkerStage(post: Post): (r: Json)
    ensures Truthy(post.growthStage) ==> r == post.growthStage.value
    ensures !Truthy(post.growthStage) ==> r == Str(Name(GetStage(NumberOf(post.watersCount))))
  {
    if Truthy(post.growthStage) then post.growthStage.value
    else Str(Name(GetStage(NumberOf(post.watersCount))))
  }

  /** The oak ring is drawn exactly for the stage `'oak'`. */
  predicate OakRing(post: Post) {
    MarkerStage(post) == Str("oak")
  }

  /** The water badge is drawn exactly when `waters_count > 0`. */
  predicate Badge(post: Post) {
    var n := NumberOf(post.watersCount);
    n.Some? && n.value > 0.0
  }

  /**
   * With no stored stage, the ring appears from ten waters on, and a ring
   * without a stored stage always comes with a badge.
   */
  lemma RingFromTenWaters(post: Post, n: real)
    requires !Truthy(post.growthStage) && post.watersCount == Some(Num(n))
    ensures OakRing(post) <==> n >= 10.0
    ensures OakRing(post) ==> Badge(post)
  {
  }

  /** A stored stage decides the ring whatever the count says. */
  lemma StoredStageWins(post: Post, s: string)
    requires post.growthStage == Some(Str(s)) && s != ""
    ensures OakRing(post) <==> s == "oak"
  {
  }
}
