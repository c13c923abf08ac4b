/**
 * The planting sheet (frontend/src/components/Map/PlantTree.jsx): the form
 * for a new tree or a branch, the post it hands to `onPlant`, the toast it
 * shows, the cancel that asks before dropping typed text, and the timezone
 * picker with its search.
 */
module PlantTreeFrontend {
  import opened Wrappers
  import opened Text
  import opened Seqs
  import opened Growth
  import PostCardFrontend

  // ---------------------------------------------------------------- timezones

  /**
   * `tzLabel(tz)`: 'Area / City' from the first and last parts of a zone
   * name, underscores shown as spaces; a name without '/' is shown whole.
   */
  function TzLabel(tz: string): (r: string)
    ensures '_' !in r
  {
    var parts := Split(tz, '/');
    if |parts| > 1 then ReplaceAll(parts[0], '_', ' ') + " / " + ReplaceAll(parts[|parts| - 1], '_', ' ')
    else ReplaceAll(tz, '_', ' ')
  }

  /** A zone name without '/', such as 'UTC', is its own label with underscores as spaces. */
  lemma TzLabelPlain(tz: string)
    requires '/' !in tz
    ensures TzLabel(tz) == ReplaceAll(tz, '_', ' ')
  {
    SplitAbsent(tz, '/');
  }

  /** 'Area/City' is labelled 'Area / City'. */
  lemma TzLabelTwoParts(area: string, city: string)
    requires '/' !in area && '/' !in city
    ensures TzLabel(area + "/" + city) == ReplaceAll(area, '_', ' ') + " / " + ReplaceAll(city, '_', ' ')
  {
    SplitPair(area, city, '/');
  }

  /** 'Area/Region/City' drops the region: only the first and last parts are shown. */
  lemma TzLabelThreeParts(area: string, region: string, city: string)
    requires '/' !in area && '/' !in region && '/' !in city
    ensures TzLabel(area + "/" + region + "/" + city) == ReplaceAll(area, '_', ' ') + " / " + ReplaceAll(city, '_', ' ')
  {
    SplitPair(region, city, '/');
    assert area + "/" + region + "/" + city == area + ['/'] + (region + "/" + city);
    SplitFirst(area, region + "/" + city, '/');
  }

  /** The picker's test: the zone's label holds the search, ignoring case. */
  predicate ZoneShown(tz: string, search: string) {
    ContainsIgnoreCase(TzLabel(tz), search)
  }

  /** `ALL_TIMEZONES.filter(...)`. */
  function FilteredZones(zones: seq<string>, search: string): (r: seq<string>)
    ensures |r| <= |zones|
  {
    Filter(zones, (tz: string) => ZoneShown(tz, search))
  }

  /** A zone is offered exactly when its label holds the search. */
  lemma FilteredZonesIff(zones: seq<string>, search: string)
    ensures forall tz :: tz in FilteredZones(zones, search) <==> tz in zones && ZoneShown(tz, search)
  {
    FilterMembers(zones, (tz: string) => ZoneShown(tz, search));
  }

  /** An empty search offers every zone, in order. */
  lemma EmptySearchOffersAll(zones: seq<string>)
    ensures FilteredZones(zones, "") == zones
  {
    var shows: string -> bool := (tz: string) => ZoneShown(tz, "");
    forall tz | tz in zones
      ensures shows(tz)
    {
      ContainsIgnoreCaseEmpty(TzLabel(tz));
    }
    FilterAll(zones, shows);
  }

  /** The timezone dropdown's own state. */
  class ZonePicker {
    var open: bool
    var search: string

    constructor ()
      ensures !open && search == ""
    {
      open := false;
      search := "";
    }

    /** The dropdown button. */
    method ToggleOpen()
      modifies this`open
      ensures open == !old(open)
    {
      open := !open;
    }

    /** The search field. */
    method SetSearch(text: string)
      modifies this`search
      ensures search == text
    {
      search := text;
    }

    /** Picking a zone: it goes to `onChange`, the list closes and the search clears. */
    method Choose(tz: string) returns (chosen: string)
      modifies this`open, this`search
      ensures chosen == tz && !open && search == ""
    {
      chosen := tz;
      open := false;
      search := "";
    }
  }

  // ---------------------------------------------------------------- the form

  /** The ids of `PRIVACY_OPTIONS`. */
  const PrivacyIds: seq<string> := ["public", "private_group", "invite_only"]

  /** The `toast` of the privacy option with that id. */
  function PrivacyToast(id: string): (r: Option<string>)
    ensures r.Some? <==> id in PrivacyIds
  {
    if id == "public" then Some("\U{1F330} Seed planted! \U{1F30D}")
    else if id == "private_group" then Some("\U{1F512} Private tree planted!")
    else if id == "invite_only" then Some("\U{1FAC2} Invite-only tree planted!")
    else None
  }

  /** The warning for a blank name. */
  const NameRequired: string := "\U{26A0}\U{FE0F} Event name is required!"

  /** The toast after planting a branch. */
  const BranchPlanted: string := "\U{1F33F} Branch planted!"

  /** `coords`: the tapped point, either part possibly missing. */
  datatype Coords = Coords(lat: Option<real>, lng: Option<real>)

  /** The parts of `parentPost` a branch reads. */
  datatype Parent = Parent(id: int, lat: real, lng: real)

  /** The form's fields, each as typed or chosen. */
  datatype Form = Form(name: string, description: string, link: string, datetime: string, timezone: string,
                       privacy: string, useAddress: bool, address: string)

  /** The form as `useState` starts it and `resetForm` leaves it. */
  const EmptyForm: Form := Form("", "", "", "", "", "public", false, "")

  /** The post handed to `onPlant`. The fixed placeholder `author` is not part of this model. */
  datatype NewPost = NewPost(id: int, title: string, content: string, link: Option<string>, eventTime: Option<string>,
                             timezone: Option<string>, location: Option<string>, lat: Option<real>, lng: Option<real>,
                             watersCount: nat, growthStage: string, isBranch: bool, parentId: Option<int>,
                             branchCount: nat, privacy: string)

  /** `s.trim() || null`. */
  function TrimmedOrNone(s: string): (r: Option<string>)
    ensures r.Some? <==> Trim(s) != ""
    ensures r.Some? ==> r.value == Trim(s)
  {
    if Trim(s) != "" then Some(Trim(s)) else None
  }

  /** A coordinate of a new tree: `coords` (or the city centre, with an address); a branch sits near its parent. */
  function PlantAt(useAddress: bool, tapped: Option<real>, fallback: real, parent: Option<real>, random: real): (r: Option<real>)
    requires 0.0 <= random < 1.0
    ensures parent.Some? ==> r.Some? && -0.0015 <= r.value - parent.value < 0.0015
    ensures parent.None? && useAddress ==> r == Some(OrElse(tapped, fallback))
    ensures parent.None? && !useAddress ==> r == tapped
  {
    if parent.Some? then Some(parent.value + (random - 0.5) * 0.003)
    else if useAddress then Some(OrElse(tapped, fallback))
    else tapped
  }

  /**
   * `newPost` in `handleSubmit`. `now` stands for `Date.now()`, `randomLat`
   * and `randomLng` for the two `Math.random()` draws.
   */
  function BuildPost(f: Form, coords: Option<Coords>, parent: Option<Parent>, now: int, randomLat: real, randomLng: real)
    : (r: NewPost)
    requires 0.0 <= randomLat < 1.0 && 0.0 <= randomLng < 1.0
    ensures r.id == now && r.title == Trim(f.name) && r.content == Trim(f.description)
    ensures r.link == TrimmedOrNone(f.link)
    ensures r.eventTime.Some? <==> f.datetime != ""
    ensures r.eventTime.Some? ==> r.eventTime.value == f.datetime && r.timezone == Some(f.timezone)
    ensures r.eventTime.None? ==> r.timezone.None?
    ensures r.location == if f.useAddress then TrimmedOrNone(f.address) else None
    ensures r.isBranch <==> parent.Some?
    ensures r.parentId == if parent.Some? then Some(parent.value.id) else None
    ensures parent.Some? ==> r.lat.Some? && r.lng.Some? &&
                             -0.0015 <= r.lat.value - parent.value.lat < 0.0015 && -0.0015 <= r.lng.value - parent.value.lng < 0.0015
    ensures r.privacy == f.privacy
  {
    var tappedLat := if coords.Some? then coords.value.lat else None;
    var tappedLng := if coords.Some? then coords.value.lng else None;
    NewPost(now, Trim(f.name), Trim(f.description), TrimmedOrNone(f.link),
            if f.datetime != "" then Some(f.datetime) else None,
            if f.datetime != "" then Some(f.timezone) else None,
            if f.useAddress then TrimmedOrNone(f.address) else None,
            PlantAt(f.useAddress, tappedLat, 39.9526, if parent.Some? then Some(parent.value.lat) else None, randomLat),
            PlantAt(f.useAddress, tappedLng, -75.1652, if parent.Some? then Some(parent.value.lng) else None, randomLng),
            0, "seed", parent.Some?, if parent.Some? then Some(parent.value.id) else None, 0, f.privacy)
  }

  /** A planted tree starts as a seed with no waters, its stage name agreeing with the card's thresholds. */
  lemma NewPostIsSeed(f: Form, coords: Option<Coords>, parent: Option<Parent>, now: int, randomLat: real, randomLng: real)
    requires 0.0 <= randomLat < 1.0 && 0.0 <= randomLng < 1.0
    ensures var p := BuildPost(f, coords, parent, now, randomLat, randomLng);
            p.watersCount == 0 && p.branchCount == 0 &&
            StageOfName(p.growthStage) == Some(PostCardFrontend.GetStage(p.watersCount)) == Some(Seed)
  {
  }

  /** With a map tap and no address, a new tree is planted exactly where the map was tapped. */
  lemma PlantedWhereTapped(f: Form, lat: real, lng: real, now: int, randomLat: real, randomLng: real)
    requires 0.0 <= randomLat < 1.0 && 0.0 <= randomLng < 1.0
    requires !f.useAddress
    ensures var p := BuildPost(f, Some(Coords(Some(lat), Some(lng))), None, now, randomLat, randomLng);
            p.lat == Some(lat) && p.lng == Some(lng) && !p.isBranch && p.location.None?
  {
  }

  /** `isDirty` in `handleCancel`: some text typed in name, description or link, or a date chosen. */
  predicate IsDirty(f: Form) {
    Trim(f.name) != "" || Trim(f.description) != "" || Trim(f.link) != "" || f.datetime != ""
  }

  /** A reset form is clean, so cancelling right after planting closes without asking. */
  lemma EmptyFormClean()
    ensures !IsDirty(EmptyForm)
  {
    assert Trim("") == "";
  }

  /** The toast after planting: the branch message, or that of the chosen privacy. */
  function PlantedToast(isBranch: bool, privacy: string): (r: string)
    requires privacy in PrivacyIds
    ensures isBranch ==> r == BranchPlanted
    ensures !isBranch ==> Some(r) == PrivacyToast(privacy)
  {
    if isBranch then BranchPlanted else PrivacyToast(privacy).value
  }

  /** The text fields `set...` writes. */
  datatype Input = NameInput | DescriptionInput | LinkInput | DatetimeInput | TimezoneInput | AddressInput

  /** One text field replaced. */
  function WithInput(f: Form, key: Input, value: string): (r: Form)
    ensures r.privacy == f.privacy && r.useAddress == f.useAddress
    ensures key == NameInput ==> r == f.(name := value)
    ensures key == DescriptionInput ==> r == f.(description := value)
    ensures key == LinkInput ==> r == f.(link := value)
    ensures key == DatetimeInput ==> r == f.(datetime := value)
    ensures key == TimezoneInput ==> r == f.(timezone := value)
    ensures key == AddressInput ==> r == f.(address := value)
  {
    match key
    case NameInput => f.(name := value)
    case DescriptionInput => f.(description := value)
    case LinkInput => f.(link := value)
    case DatetimeInput => f.(datetime := value)
    case TimezoneInput => f.(timezone := value)
    case AddressInput => f.(address := value)
  }

  /**
   * The sheet's state: the form, the toast, the cancel confirmation, and
   * what the parent received: `planted` the posts passed to `onPlant`,
   * `closed` that `onClose` was called.
   */
  class Sheet {
    var form: Form
    var toast: bool
    var toastMsg: string
    var confirmCancel: bool
    var closed: bool
    var planted: seq<NewPost>

    /** The privacy chosen is one of the offered options. */
    predicate Valid()
      reads this
    {
      form.privacy in PrivacyIds
    }

    constructor ()
      ensures Valid()
      ensures form == EmptyForm && !toast && toastMsg == "" && !confirmCancel && !closed && planted == []
    {
      form := EmptyForm;
      toast := false;
      toastMsg := "";
      confirmCancel := false;
      closed := false;
      planted := [];
    }

    /** A text field's `onChange`. */
    method SetInput(key: Input, value: string)
      requires Valid()
      modifies this`form
      ensures Valid()
      ensures form == WithInput(old(form), key, value)
    {
      form := WithInput(form, key, value);
    }

    /** A privacy option's button. */
    method SetPrivacy(id: string)
      requires id in PrivacyIds
      modifies this`form
      ensures Valid()
      ensures form == old(form).(privacy := id)
    {
      form := form.(privacy := id);
    }

    /** The map-location / address toggle. */
    method SetUseAddress(useAddress: bool)
      requires Valid()
      modifies this`form
      ensures Valid()
      ensures form == old(form).(useAddress := useAddress)
    {
      form := form.(useAddress := useAddress);
    }

    /** `resetForm`: every field back to its start, the confirmation closed. */
    method ResetForm()
      modifies this`form, this`confirmCancel
      ensures Valid()
      ensures form == EmptyForm && !confirmCancel
    {
      form := EmptyForm;
      confirmCancel := false;
    }

    /** The blank-name branch of `handleSubmit`: the warning toast and nothing else. */
    method WarnNameRequired()
      modifies this`toast, this`toastMsg
      ensures toast && toastMsg == NameRequired
    {
      toastMsg := NameRequired;
      toast := true;
    }

    /** The planting branch of `handleSubmit`, once the post and the toast are known. */
    method Plant(newPost: NewPost, msg: string)
      modifies this`form, this`toast, this`toastMsg, this`confirmCancel, this`closed, this`planted
      ensures Valid()
      ensures planted == old(planted) + [newPost] && form == EmptyForm && !confirmCancel && closed
      ensures toast && toastMsg == msg
    {
      planted := planted + [newPost];
      ResetForm();
      closed := true;
      toastMsg := msg;
      toast := true;
    }

    /**
     * `handleSubmit`: a blank name only warns; otherwise the post goes to
     * `onPlant`, the form resets, the sheet closes and the toast names what
     * was planted.
     */
    method HandleSubmit(coords: Option<Coords>, parent: Option<Parent>, now: int, randomLat: real, randomLng: real)
      requires Valid()
      requires 0.0 <= randomLat < 1.0 && 0.0 <= randomLng < 1.0
      modifies this`form, this`toast, this`toastMsg, this`confirmCancel, this`closed, this`planted
      ensures Valid()
      ensures toast
      ensures Trim(old(form).name) == "" ==>
                toastMsg == NameRequired && form == old(form) && planted == old(planted) &&
                closed == old(closed) && confirmCancel == old(confirmCancel)
      ensures Trim(old(form).name) != "" ==>
                planted == old(planted) + [BuildPost(old(form), coords, parent, now, randomLat, randomLng)] &&
                form == EmptyForm && !confirmCancel && closed &&
                toastMsg == PlantedToast(parent.Some?, old(form).privacy)
    {
      if Trim(form.name) == "" {
        WarnNameRequired();
      } else {
        Plant(BuildPost(form, coords, parent, now, randomLat, randomLng), PlantedToast(parent.Some?, form.privacy));
      }
    }

    /** `doClose`: reset and close. */
    method DoClose()
      modifies this`form, this`confirmCancel, this`closed
      ensures Valid()
      ensures form == EmptyForm && !confirmCancel && closed
    {
      ResetForm();
      closed := true;
    }

    /** `handleCancel`: typed text asks for confirmation first; a clean form closes at once. */
    method HandleCancel()
      requires Valid()
      modifies this`form, this`confirmCancel, this`closed
      ensures Valid()
      ensures IsDirty(old(form)) ==> confirmCancel && form == old(form) && closed == old(closed)
      ensures !IsDirty(old(form)) ==> form == EmptyForm && !confirmCancel && closed
    {
      if IsDirty(form) {
        confirmCancel := true;
      } else {
        DoClose();
      }
    }

    /** 'Keep editing' in the confirmation. */
    method KeepEditing()
      modifies this`confirmCancel
      ensures !confirmCancel
    {
      confirmCancel := false;
    }
  }
}
