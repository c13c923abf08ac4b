/**
 * The tree card of the map app (frontend/src/components/Posts/PostCard.jsx):
 * the growth stage a number of waters reaches, the optimistic watering state
 * machine with its rollback on failure, and what a non-member of a private
 * group may see.
 */
module PostCardFrontend {
  import opened Wrappers
  import opened Json
  import opened Text
  import opened Growth

  /** `getStage(w)`: 0 seed, 1–2 sprout, 3–5 sapling, 6–10 tree, above 10 oak. */
  function GetStage(w: nat): (r: Stage)
    ensures r == Seed <==> w == 0
    ensures r == Sprout <==> 1 <= w <= 2
    ensures r == Sapling <==> 3 <= w <= 5
    ensures r == Tree <==> 6 <= w <= 10
    ensures r == Oak <==> w > 10
  {
    if w == 0 then Seed
    else if w <= 2 then Sprout
    else if w <= 5 then Sapling
    else if w <= 10 then Tree
    else Oak
  }

  /** More water never gives an earlier stage. */
  lemma GetStageMonotone(a: nat, b: nat)
    requires a <= b
    ensures Rank(GetStage(a)) <= Rank(GetStage(b))
  {
  }

  /** One more water moves a tree on by at most one stage. */
  lemma GetStageStep(w: nat)
    ensures Rank(GetStage(w + 1)) <= Rank(GetStage(w)) + 1
  {
  }

  /** `canBranch`: six waters or more. */
  predicate CanBranch(w: nat) {
    w >= 6
  }

  /** Reaching the tree stage is what allows a branch. */
  lemma CanBranchAtTree(w: nat)
    ensures CanBranch(w) <==> Rank(GetStage(w)) >= Rank(Tree)
  {
  }

  /** The fields of the opened post the card reads. */
  datatype Post = Post(id: Json, privacy: string, content: string, watersCount: Option<nat>, growthStage: Option<string>)

  /** `MEMBER_POST_IDS`. */
  const MemberPostIds: seq<Json> := [Num(1.0), Num(3.0), Num(5.0)]

  /** `isMember`: no post, a public post, or one of the member ids. */
  predicate IsMember(post: Option<Post>) {
    post.None? || post.value.privacy == "public" || post.value.id in MemberPostIds
  }

  /** A private-group post shown to someone who is not a member. */
  predicate Gated(post: Post) {
    post.privacy == "private_group" && !IsMember(Some(post))
  }

  /** The content a viewer reads: the first 60 characters and `...` when gated. */
  function ShownContent(post: Post): (r: string)
    ensures Gated(post) ==> 3 <= |r| <= 63 && StartsWith(r, Take(post.content, 60)) && r[|r| - 3..] == "..."
    ensures !Gated(post) ==> r == post.content
  {
    if Gated(post) then Take(post.content, 60) + "..." else post.content
  }

  /** The water count line: hidden behind `??` when gated. */
  function WatersLine(post: Post, localWaters: nat): (r: string)
    ensures Gated(post) ==> r == "\U{1F4A7} ?? waters"
    ensures !Gated(post) ==> r == "\U{1F4A7} " + NatToString(localWaters) + " waters"
  {
    if Gated(post) then "\U{1F4A7} ?? waters" else "\U{1F4A7} " + NatToString(localWaters) + " waters"
  }

  /** A public post always shows its full content and count. */
  lemma PublicNeverGated(post: Post, w: nat)
    requires post.privacy == "public"
    ensures ShownContent(post) == post.content
    ensures WatersLine(post, w) == "\U{1F4A7} " + NatToString(w) + " waters"
  {
  }

  /** The toast shown to a signed-out user. */
  const SignInToast := "Sign in to water this tree \U{1F4A7}"

  /** The toast shown when a write fails. */
  const FailureToast := "Something went wrong. Try again \U{1F327}\U{FE0F}"

  /** A write `handleWater` sends to the store. */
  datatype Write = InsertWater | UpdateWaters(count: nat)

  /** The card's local state, as one value. */
  datatype Snapshot = Snapshot(localWaters: nat, localStage: string, hasWatered: bool, loading: bool,
                               toast: Option<string>, showConfetti: bool, oakToast: bool, stageToast: Option<string>,
                               joinRequested: bool, shareOpen: bool, hasRequested: bool, requesting: bool)

  /** The water button's `onClick` is set: not loading and not yet watered. */
  predicate WaterEnabled(s: Snapshot) {
    !s.loading && !s.hasWatered
  }

  /** The card component's state hooks. */
  class Card {
    var localWaters: nat
    var localStage: string
    var hasWatered: bool
    var loading: bool
    var toast: Option<string>
    var showConfetti: bool
    var oakToast: bool
    var stageToast: Option<string>
    var joinRequested: bool
    var shareOpen: bool
    var hasRequested: bool
    var requesting: bool

    /** The initial `useState` values. */
    constructor ()
      ensures State() == Snapshot(0, "seed", false, false, None, false, false, None, false, false, false, false)
    {
      localWaters, localStage, hasWatered, loading := 0, "seed", false, false;
      toast, showConfetti, oakToast, stageToast := None, false, false, None;
      joinRequested, shareOpen, hasRequested, requesting := false, false, false, false;
    }

    function State(): Snapshot
      reads this
    {
      Snapshot(localWaters, localStage, hasWatered, loading, toast, showConfetti, oakToast, stageToast,
               joinRequested, shareOpen, hasRequested, requesting)
    }

    /**
     * The effect run when a different post is opened: the card restarts from
     * the post's own values; with no post nothing changes.
     */
    method OpenPost(post: Option<Post>)
      modifies this
      ensures post.None? ==> State() == old(State())
      ensures post.Some? ==>
                State() == Snapshot(OrElse(post.value.watersCount, 0), OrElse(post.value.growthStage, "seed"),
                                    false, false, old(toast), old(showConfetti), old(oakToast), None,
                                    false, false, false, false)
    {
      if post.None? {
        return;
      }
      localWaters, localStage := OrElse(post.value.watersCount, 0), OrElse(post.value.growthStage, "seed");
      hasWatered, loading, stageToast := false, false, None;
      joinRequested, shareOpen, hasRequested, requesting := false, false, false, false;
    }

    /**
     * `checkWatered()`: a signed-in user with a stored water interaction on
     * the post sees it as watered; nothing else changes.
     */
    method CheckWatered(signedIn: bool, existing: bool)
      modifies this`hasWatered
      ensures hasWatered == (old(hasWatered) || (signedIn && existing))
    {
      if signedIn && existing {
        hasWatered := true;
      }
    }

    /**
     * `handleWater()`. `signedIn` is what `getUser` returns, `existing` whether
     * a water interaction is already stored, `insertFails` and `updateFails`
     * the outcomes of the two writes. The celebration is decided before the
     * writes and is not undone by a failure.
     */
    method HandleWater(signedIn: bool, existing: bool, insertFails: bool, updateFails: bool)
      returns (writes: seq<Write>)
      requires WaterEnabled(State())
      modifies this`localWaters, this`localStage, this`hasWatered, this`loading, this`toast,
               this`showConfetti, this`oakToast, this`stageToast
      ensures !signedIn || existing ==>
                && writes == [] && localWaters == old(localWaters) && localStage == old(localStage)
                && loading == old(loading) && showConfetti == old(showConfetti) && oakToast == old(oakToast)
                && stageToast == old(stageToast)
      ensures !signedIn ==> toast == Some(SignInToast) && hasWatered == old(hasWatered)
      ensures signedIn && existing ==> toast == old(toast) && hasWatered
      ensures signedIn && !existing ==>
                var n := old(localWaters) + 1;
                var st := Name(GetStage(n));
                var oak := st == "oak" && old(localStage) != "oak";
                var changed := st != old(localStage);
                && showConfetti == (oak || old(showConfetti))
                && oakToast == (oak || old(oakToast))
                && stageToast == (if !oak && changed then Some(st) else old(stageToast))
                && !loading
      ensures signedIn && !existing && !insertFails && !updateFails ==>
                writes == [InsertWater, UpdateWaters(old(localWaters) + 1)]
                && localWaters == old(localWaters) + 1 && localStage == Name(GetStage(localWaters))
                && hasWatered && toast == old(toast)
      ensures signedIn && !existing && (insertFails || updateFails) ==>
                writes == (if insertFails then [InsertWater] else [InsertWater, UpdateWaters(old(localWaters) + 1)])
                && localWaters == old(localWaters) && localStage == old(localStage)
                && !hasWatered && toast == Some(FailureToast) && !loading
    {
      if !signedIn {
        toast := Some(SignInToast);
        return [];
      }
      if existing {
        hasWatered := true;
        return [];
      }
      var prevCount, prevStage := localWaters, localStage;
      var newCount := localWaters + 1;
      var newStage := Name(GetStage(newCount));
      localWaters, localStage, loading := newCount, newStage, true;
      var justBecameOak := newStage == "oak" && prevStage != "oak";
      var justChangedStage := newStage != prevStage;
      if justBecameOak {
        showConfetti, oakToast := true, true;
      } else if justChangedStage {
        stageToast := Some(newStage);
      }
      writes := [InsertWater];
      if insertFails {
        localWaters, localStage, loading := prevCount, prevStage, false;
        toast := Some(FailureToast);
        return;
      }
      writes := writes + [UpdateWaters(newCount)];
      if updateFails {
        localWaters, localStage, loading := prevCount, prevStage, false;
        toast := Some(FailureToast);
        return;
      }
      hasWatered, loading := true, false;
    }
  }

  /** The water button's caption. */
  function WaterLabel(s: Snapshot): (r: string)
    ensures s.loading ==> r == "Growing... \U{1F331}"
    ensures !s.loading && !s.hasWatered ==> r == "\U{1F4A7} Water"
  {
    if s.loading then "Growing... \U{1F331}"
    else if s.hasWatered then DoneLabel(s.localStage)
    else "\U{1F4A7} Water"
  }

  /**
   * `waterDoneLabel[stage]`: the caption keyed by each stage's name, and
   * `undefined` (here the empty caption) for an unknown stage.
   */
  function DoneLabel(stage: string): (r: string)
    ensures stage == "seed" ==> r == "\U{1F4A7} Watered"
    ensures stage == "sprout" ==> r == "\U{1F331} Sprouting!"
    ensures stage == "sapling" ==> r == "\U{1F33F} Growing!"
    ensures stage == "tree" ==> r == "\U{1F333} Thriving!"
    ensures stage == "oak" ==> r == "\U{1F31F} Ancient Oak \U{2728}"
    ensures stage !in {"seed", "sprout", "sapling", "tree", "oak"} ==> r == ""
    ensures StageOfName(stage).Some? <==> r != ""
  {
    match StageOfName(stage)
    case None => ""
    case Some(Seed) => "\U{1F4A7} Watered"
    case Some(Sprout) => "\U{1F331} Sprouting!"
    case Some(Sapling) => "\U{1F33F} Growing!"
    case Some(Tree) => "\U{1F333} Thriving!"
    case Some(Oak) => "\U{1F31F} Ancient Oak \U{2728}"
  }

  /**
   * The celebration fires exactly on the water that takes a tree into oak:
   * the eleventh on a card that showed the stage of its count.
   */
  lemma OakOnEleventhWater(w: nat)
    ensures Name(GetStage(w + 1)) == "oak" && Name(GetStage(w)) != "oak" <==> w == 10
  {
  }
}
