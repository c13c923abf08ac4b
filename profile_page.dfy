/**
 * The profile screen (frontend/src/pages/ProfilePage.jsx): a held profile,
 * a draft edited field by field and by interest chips, kept on save and
 * dropped on cancel.
 */
module ProfilePage {
  import opened Wrappers
  import opened Seqs
  import opened FilterSheet
  import opened OnboardingPage

  /** The profile record. */
  datatype Profile = Profile(name: string, neighborhood: string, userType: string, interests: seq<string>,
                             email: string, treesPlanted: int, waters: int, branches: int)

  /** `INITIAL_PROFILE`. */
  const InitialProfile: Profile := Profile("Alex Rivera", "West Philadelphia", "local",
                                           ["Farmers Markets", "Music", "Gardens"], "alex@example.com", 7, 34, 3)

  /** The fields the edit rows write through `set(key)`. */
  datatype Field = NameField | NeighborhoodField | UserTypeField | EmailField

  /** `{ ...d, [key]: value }`: that field replaced, the others kept. */
  function SetField(d: Profile, key: Field, value: string): (r: Profile)
    ensures key == NameField ==> r == d.(name := value)
    ensures key == NeighborhoodField ==> r == d.(neighborhood := value)
    ensures key == UserTypeField ==> r == d.(userType := value)
    ensures key == EmailField ==> r == d.(email := value)
  {
    match key
    case NameField => d.(name := value)
    case NeighborhoodField => d.(neighborhood := value)
    case UserTypeField => d.(userType := value)
    case EmailField => d.(email := value)
  }

  /** Setting a field twice keeps only the second value. */
  lemma SetFieldTwice(d: Profile, key: Field, a: string, b: string)
    ensures SetField(SetField(d, key, a), key, b) == SetField(d, key, b)
  {
  }

  /** `draft.interests.filter((i) => !INTEREST_OPTIONS.includes(i))`: the chips for typed interests. */
  function CustomChips(interests: seq<string>): (r: seq<string>)
    ensures |r| <= |interests|
  {
    Filter(interests, (i: string) => i !in InterestOptions)
  }

  /**
   * Every chosen interest is shown selected exactly once: an offered one as
   * a selected option chip, any other as a custom chip.
   */
  lemma ChosenShownOnce(interests: seq<string>)
    ensures forall i :: i in interests ==> (i in InterestOptions <==> i !in CustomChips(interests))
    ensures forall i :: i in CustomChips(interests) ==> i in interests
  {
    FilterMembers(interests, (i: string) => i !in InterestOptions);
  }

  /** The page's state. */
  class Editor {
    var profile: Profile
    var editing: bool
    var draft: Profile
    var customInterest: string

    /** Neither the held profile nor the draft lists an interest twice. */
    predicate Valid()
      reads this
    {
      Distinct(profile.interests) && Distinct(draft.interests)
    }

    constructor ()
      ensures Valid()
      ensures profile == InitialProfile && draft == InitialProfile && !editing && customInterest == ""
    {
      profile := InitialProfile;
      editing := false;
      draft := InitialProfile;
      customInterest := "";
    }

    /** `startEdit`: the draft starts as a copy of the profile. */
    method StartEdit()
      requires Valid()
      modifies this`draft, this`editing
      ensures Valid()
      ensures draft == profile && editing
    {
      draft := profile;
      editing := true;
    }

    /** `saveEdit`: the draft becomes the profile. */
    method SaveEdit()
      requires Valid()
      modifies this`profile, this`editing
      ensures Valid()
      ensures profile == draft && !editing
    {
      profile := draft;
      editing := false;
    }

    /** `cancelEdit`: editing stops and the profile is untouched. */
    method CancelEdit()
      requires Valid()
      modifies this`editing
      ensures Valid()
      ensures !editing
    {
      editing := false;
    }

    /** An edit row's `onChange`: `set(key)`. */
    method Set(key: Field, value: string)
      requires Valid()
      modifies this`draft
      ensures Valid()
      ensures draft == SetField(old(draft), key, value)
    {
      draft := SetField(draft, key, value);
    }

    /** An option chip: drop the option when chosen, append it otherwise. */
    method ToggleOption(opt: string)
      requires Valid()
      modifies this`draft
      ensures Valid()
      ensures draft == old(draft).(interests := Toggle(old(draft).interests, opt))
    {
      ToggleKeepsDistinct(draft.interests, opt);
      draft := draft.(interests := Toggle(draft.interests, opt));
    }

    /** A custom chip: pressing it removes that interest. */
    method RemoveCustom(custom: string)
      requires Valid()
      modifies this`draft
      ensures Valid()
      ensures draft == old(draft).(interests := Without(old(draft).interests, custom))
      ensures custom !in draft.interests
    {
      WithoutDistinct(draft.interests, custom);
      draft := draft.(interests := Without(draft.interests, custom));
    }

    /** The custom interest's text field. */
    method SetCustomInterest(text: string)
      modifies this`customInterest
      ensures customInterest == text
    {
      customInterest := text;
    }

    /** `addCustomInterest`: the trimmed text joins the draft when new and not blank; the field is cleared. */
    method AddCustomInterest()
      requires Valid()
      modifies this`draft, this`customInterest
      ensures Valid()
      ensures draft == old(draft).(interests := WithCustom(old(draft).interests, old(customInterest)))
      ensures customInterest == ""
    {
      WithCustomIdempotent(draft.interests, customInterest);
      draft := draft.(interests := WithCustom(draft.interests, customInterest));
      customInterest := "";
    }
  }
}
