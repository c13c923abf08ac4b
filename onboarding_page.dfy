/**
 * The onboarding carousel (frontend/src/pages/OnboardingPage.jsx): four
 * slides walked with a left and a right button, and the interests a new
 * user picks or types on the third slide.
 */
module OnboardingPage {
  import opened Text
  import opened FilterSheet

  /** `TOTAL_SLIDES`. */
  const TotalSlides: int := 4

  /** `INTEREST_OPTIONS`: the chips offered before any custom interest. */
  const InterestOptions: seq<string> := ["Food & Drink", "Fitness", "Art", "Music", "Tech",
                                         "Outdoors", "Volunteering", "Networking", "Markets", "Workshops"]

  /** The options are all different. */
  lemma InterestOptionsDistinct()
    ensures Distinct(InterestOptions) && |InterestOptions| == 10
  {
  }

  /** `setDirection(next > current ? 1 : -1)`: forwards or backwards, never still. */
  function Direction(current: int, next: int): (r: int)
    ensures r == 1 <==> next > current
    ensures r == -1 <==> next <= current
  {
    if next > current then 1 else -1
  }

  /** `leftLabel`: the two middle slides go back, the others use their slide's label. */
  function LeftLabel(current: int): (r: string)
    requires 0 <= current < TotalSlides
  {
    if current == 1 || current == 2 then "Go Back"
    else if current == 0 then "Skip Intro"
    else "Go Back"
  }

  /** `rightLabel`: 'NEXT' on the first two slides, the call to plant, then 'GET STARTED'. */
  function RightLabel(current: int): (r: string)
    requires 0 <= current < TotalSlides
  {
    if current == 1 then "NEXT"
    else if current == 2 then "Plant My Experience \U{1F331}"
    else if current == 0 then "NEXT"
    else "GET STARTED"
  }

  /** The left button says 'Skip Intro' exactly where pressing it finishes, and 'Go Back' everywhere else. */
  lemma LeftLabelMatchesAction(current: int)
    requires 0 <= current < TotalSlides
    ensures LeftLabel(current) == "Skip Intro" <==> current == 0
    ensures current != 0 ==> LeftLabel(current) == "Go Back"
  {
  }

  /** The right button says 'GET STARTED' exactly on the last slide, where pressing it finishes. */
  lemma RightLabelMatchesAction(current: int)
    requires 0 <= current < TotalSlides
    ensures RightLabel(current) == "GET STARTED" <==> current == TotalSlides - 1
  {
  }

  /**
   * `addCustomInterest`'s new list: the trimmed text is appended when it is
   * not blank and not yet chosen; otherwise the list is unchanged.
   */
  function WithCustom(interests: seq<string>, custom: string): (r: seq<string>)
    ensures Trim(custom) != "" && Trim(custom) !in interests ==> r == interests + [Trim(custom)]
    ensures Trim(custom) == "" || Trim(custom) in interests ==> r == interests
  {
    var trimmed := Trim(custom);
    if trimmed != "" && trimmed !in interests then interests + [trimmed] else interests
  }

  /** Adding the same custom interest again changes nothing, and never adds a repeat. */
  lemma WithCustomIdempotent(interests: seq<string>, custom: string)
    ensures WithCustom(WithCustom(interests, custom), custom) == WithCustom(interests, custom)
    ensures Distinct(interests) ==> Distinct(WithCustom(interests, custom))
  {
  }

  /** Toggling an interest never adds a repeat. */
  lemma ToggleKeepsDistinct(interests: seq<string>, interest: string)
    requires Distinct(interests)
    ensures Distinct(Toggle(interests, interest))
  {
    WithoutDistinct(interests, interest);
  }

  /** The carousel's state. `completed` records that `onComplete` was called. */
  class Carousel {
    var current: int
    var direction: int
    var interests: seq<string>
    var customInterest: string
    var completed: bool

    /** On a slide, moving one way or the other, with chosen interests all different. */
    predicate Valid()
      reads this
    {
      0 <= current < TotalSlides && (direction == 1 || direction == -1) && Distinct(interests)
    }

    constructor ()
      ensures Valid()
      ensures current == 0 && direction == 1 && interests == [] && customInterest == "" && !completed
    {
      current := 0;
      direction := 1;
      interests := [];
      customInterest := "";
      completed := false;
    }

    /** `goTo(next)`: the direction of travel, then the slide. */
    method GoTo(next: int)
      modifies this`current, this`direction
      ensures direction == Direction(old(current), next)
      ensures current == next
    {
      direction := Direction(current, next);
      current := next;
    }

    /** `handleLeft`: finish on the first slide, otherwise one slide back. */
    method HandleLeft()
      requires Valid()
      modifies this`current, this`direction, this`completed
      ensures Valid()
      ensures old(current) == 0 ==> completed && current == 0 && direction == old(direction)
      ensures old(current) != 0 ==> current == old(current) - 1 && direction == -1 && completed == old(completed)
    {
      if current == 0 {
        completed := true;
      } else {
        GoTo(current - 1);
      }
    }

    /** `handleRight`: one slide on before the last, finish on it. */
    method HandleRight()
      requires Valid()
      modifies this`current, this`direction, this`completed
      ensures Valid()
      ensures old(current) < TotalSlides - 1 ==> current == old(current) + 1 && direction == 1 && completed == old(completed)
      ensures old(current) == TotalSlides - 1 ==> completed && current == old(current) && direction == old(direction)
    {
      if current < TotalSlides - 1 {
        GoTo(current + 1);
      } else {
        completed := true;
      }
    }

    /** `toggleInterest(interest)`: drop it when chosen, append it otherwise. */
    method ToggleInterest(interest: string)
      requires Valid()
      modifies this`interests
      ensures Valid()
      ensures interests == Toggle(old(interests), interest)
      ensures interest in interests <==> interest !in old(interests)
    {
      ToggleKeepsDistinct(interests, interest);
      interests := Toggle(interests, interest);
    }

    /** The custom interest's text field. */
    method SetCustomInterest(text: string)
      modifies this`customInterest
      ensures customInterest == text
    {
      customInterest := text;
    }

    /** `addCustomInterest`: the trimmed text is added when new and not blank; the field is always cleared. */
    method AddCustomInterest()
      requires Valid()
      modifies this`interests, this`customInterest
      ensures Valid()
      ensures interests == WithCustom(old(interests), old(customInterest))
      ensures customInterest == ""
    {
      var trimmed := Trim(customInterest);
      if trimmed != "" && trimmed !in interests {
        interests := interests + [trimmed];
      }
      customInterest := "";
    }
  }

  /** Right then left comes back to the same slide, facing backwards. */
  lemma RightThenLeft(current: int)
    requires 0 <= current < TotalSlides - 1
    ensures Direction(current, current + 1) == 1 && Direction(current + 1, current) == -1
  {
  }
}
