/**
 * The tree card of the second client (client/src/components/Posts/PostCard.jsx):
 * the same growth thresholds, and a watering action that asks the server and
 * rolls back when the server says the tree was already watered or fails.
 */
module PostCardClient {
  import opened Wrappers
  import opened Growth
  import PostCardFrontend

  /** `getStage(w)` of this client. */
  function GetStage(w: nat): (r: Stage)
    ensures r == Seed <==> w == 0
    ensures r == Oak <==> w > 10
  {
    if w == 0 then Seed
    else if w <= 2 then Sprout
    else if w <= 5 then Sapling
    else if w <= 10 then Tree
    else Oak
  }

  /** Both cards name the same stage for every count. */
  lemma SameThresholds(w: nat)
    ensures GetStage(w) == PostCardFrontend.GetStage(w)
  {
  }

  /** `canBranch`. */
  predicate CanBranch(w: nat) {
    w >= 6
  }

  /** The fields of the opened post the card reads. */
  datatype Post = Post(watersCount: Option<nat>, growthStage: Option<string>)

  /** What `eventsApi.water(post.id)` comes back with. */
  datatype WaterReply = Watered | Already | Failed

  const SignInToast := "Sign in to water this tree \U{1F4A7}"
  const FailureToast := "Something went wrong. Try again"

  datatype Snapshot = Snapshot(localWaters: nat, localStage: string, hasWatered: bool, loading: bool, toast: Option<string>)

  class Card {
    var localWaters: nat
    var localStage: string
    var hasWatered: bool
    var loading: bool
    var toast: Option<string>

    constructor ()
      ensures State() == Snapshot(0, "seed", false, false, None)
    {
      localWaters, localStage, hasWatered, loading, toast := 0, "seed", false, false, None;
    }

    function State(): Snapshot
      reads this
    {
      Snapshot(localWaters, localStage, hasWatered, loading, toast)
    }

    /** Opening a different post restarts the card from it; with no post nothing changes. */
    method OpenPost(post: Option<Post>)
      modifies this
      ensures post.None? ==> State() == old(State())
      ensures post.Some? ==>
                State() == old(State()).(localWaters := OrElse(post.value.watersCount, 0),
                                         localStage := OrElse(post.value.growthStage, "seed"),
                                         hasWatered := false, loading := false)
    {
      if post.None? {
        return;
      }
      localWaters := OrElse(post.value.watersCount, 0);
      localStage := OrElse(post.value.growthStage, "seed");
      hasWatered := false;
      loading := false;
    }

    /** The `getMyWater` effect: a stored water marks the card watered. */
    method CheckWatered(watered: bool)
      modifies this
      ensures State() == old(State()).(hasWatered := old(hasWatered) || watered)
    {
      if watered {
        hasWatered := true;
      }
    }

    /**
     * `handleWater()`: no user only shows a toast. Otherwise the count goes up
     * by one at once; a fresh water keeps it, an `already` reply or an error
     * puts count and stage back, and loading always ends false.
     */
    method HandleWater(signedIn: bool, reply: WaterReply)
      modifies this
      ensures !signedIn ==> State() == old(State()).(toast := Some(SignInToast))
      ensures signedIn ==> !loading
      ensures old(localWaters) <= localWaters <= old(localWaters) + 1
      ensures localWaters == old(localWaters) + 1 <==> signedIn && reply == Watered
      ensures signedIn && reply == Watered ==>
                localWaters == old(localWaters) + 1 && localStage == Name(GetStage(localWaters))
                && hasWatered && toast == old(toast)
      ensures signedIn && reply == Already ==>
                localWaters == old(localWaters) && localStage == old(localStage) && hasWatered && toast == old(toast)
      ensures signedIn && reply == Failed ==>
                localWaters == old(localWaters) && localStage == old(localStage)
                && hasWatered == old(hasWatered) && toast == Some(FailureToast)
    {
      if !signedIn {
        toast := Some(SignInToast);
        return;
      }
      var prevCount, prevStage := localWaters, localStage;
      var newCount := localWaters + 1;
      localWaters, localStage, loading := newCount, Name(GetStage(newCount)), true;
      if reply == Already {
        hasWatered := true;
        localWaters, localStage := prevCount, prevStage;
      } else if reply == Watered {
        hasWatered := true;
      } else {
        localWaters, localStage := prevCount, prevStage;
        toast := Some(FailureToast);
      }
      loading := false;
    }
  }
}
