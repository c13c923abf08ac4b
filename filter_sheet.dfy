/**
 * The filter sheet shared by the explore, search and map pages
 * (frontend/src/components/Map/FilterSheet.jsx): the filter record, how many
 * filters are active, the stage toggle, the single-choice setters and the
 * custom radius kept between 5 and 100 miles. The page that shows the sheet
 * stores every record the sheet hands it, so the sheet's `filters` here is
 * that page state.
 */
module FilterSheet {
  import opened Wrappers

  /** The filter record; `kind` is the record's `type`. */
  datatype Filters = Filters(stages: seq<string>, distance: string, time: string, kind: string, sort: string,
                             customRadius: Option<int>)

  /** `DEFAULTS`. */
  const Defaults := Filters([], "10 mi", "Any", "All", "Newest", None)

  const RadiusMin := 5
  const RadiusMax := 100
  const RadiusStep := 5

  /** `countActive(filters)`: one per stage and one per field away from its default. */
  function CountActive(f: Filters): (r: nat)
    ensures r >= |f.stages|
    ensures r <= |f.stages| + 4
  {
    |f.stages|
      + (if f.distance != "10 mi" then 1 else 0)
      + (if f.time != "Any" then 1 else 0)
      + (if f.kind != "All" then 1 else 0)
      + (if f.sort != "Newest" then 1 else 0)
  }

  /** The count is zero exactly for the default choices (the custom radius aside). */
  lemma CountZeroIffDefault(f: Filters)
    ensures CountActive(f) == 0 <==> f.(customRadius := None) == Defaults
    ensures CountActive(Defaults) == 0
  {
  }

  /** `Math.min(RADIUS_MAX, Math.max(RADIUS_MIN, r))`. */
  function Clamp(r: int): (c: int)
    ensures RadiusMin <= c <= RadiusMax
    ensures RadiusMin <= r <= RadiusMax ==> c == r
    ensures r < RadiusMin ==> c == RadiusMin
    ensures r > RadiusMax ==> c == RadiusMax
  {
    if r < RadiusMin then RadiusMin else if r > RadiusMax then RadiusMax else r
  }

  /** The stage list with `stage` removed if present, appended otherwise. */
  function Toggle(stages: seq<string>, stage: string): (r: seq<string>)
    ensures stage in r <==> stage !in stages
    ensures forall s :: s != stage ==> (s in r <==> s in stages)
  {
    if stage in stages then Without(stages, stage) else stages + [stage]
  }

  /** `stages.filter((s) => s !== stage)`. */
  function Without(stages: seq<string>, stage: string): (r: seq<string>)
    ensures stage !in r
    ensures forall s :: s != stage ==> (s in r <==> s in stages)
    ensures |r| <= |stages|
  {
    if stages == [] then []
    else if stages[0] == stage then Without(stages[1..], stage)
    else [stages[0]] + Without(stages[1..], stage)
  }

  /** A list without repeats. */
  predicate Distinct(s: seq<string>) {
    forall i, j :: 0 <= i < j < |s| ==> s[i] != s[j]
  }

  lemma {:induction false} WithoutAbsent(stages: seq<string>, stage: string)
    requires stage !in stages
    ensures Without(stages, stage) == stages
  {
    if stages != [] {
      WithoutAbsent(stages[1..], stage);
    }
  }

  /**
   * Toggling a stage twice gives back the same set of stages, and the very
   * same list when the stage was not selected.
   */
  lemma {:induction false} ToggleTwice(stages: seq<string>, stage: string)
    ensures (set s | s in Toggle(Toggle(stages, stage), stage)) == (set s | s in stages)
    ensures stage !in stages ==> Toggle(Toggle(stages, stage), stage) == stages
  {
    if stage !in stages {
      var t := stages + [stage];
      assert stage in t;
      WithoutAppend(stages, stage);
    }
  }

  lemma {:induction false} WithoutAppend(stages: seq<string>, stage: string)
    requires stage !in stages
    ensures Without(stages + [stage], stage) == stages
  {
    if stages == [] {
      assert [] + [stage] == [stage];
    } else {
      WithoutAppend(stages[1..], stage);
      assert (stages + [stage])[1..] == stages[1..] + [stage];
    }
  }

  lemma {:induction false} WithoutDistinct(stages: seq<string>, stage: string)
    requires Distinct(stages)
    ensures Distinct(Without(stages, stage))
    ensures stage in stages ==> |Without(stages, stage)| == |stages| - 1
  {
    if stages != [] {
      WithoutDistinct(stages[1..], stage);
      if stages[0] == stage {
        WithoutAbsent(stages[1..], stage);
      } else {
        var r := Without(stages[1..], stage);
        forall j | 0 <= j < |r|
          ensures r[j] != stages[0]
        {
          assert r[j] in r;
        }
      }
    }
  }

  /**
   * On a list without repeats, a toggle keeps it without repeats and moves
   * the active count by exactly one.
   */
  lemma ToggleCount(f: Filters, stage: string)
    requires Distinct(f.stages)
    ensures Distinct(Toggle(f.stages, stage))
    ensures stage in f.stages ==> CountActive(f.(stages := Toggle(f.stages, stage))) == CountActive(f) - 1
    ensures stage !in f.stages ==> CountActive(f.(stages := Toggle(f.stages, stage))) == CountActive(f) + 1
  {
    WithoutDistinct(f.stages, stage);
  }

  /** The four single-choice fields. */
  datatype Key = DistanceKey | TimeKey | TypeKey | SortKey

  /** `setSingle(key, value)`: that field set; a non-Custom distance drops the custom radius. */
  function SetSingle(f: Filters, key: Key, value: string): (r: Filters)
    ensures r.stages == f.stages
    ensures key == DistanceKey ==> r.distance == value && r.time == f.time && r.kind == f.kind && r.sort == f.sort
    ensures key == TimeKey ==> r == f.(time := value)
    ensures key == TypeKey ==> r == f.(kind := value)
    ensures key == SortKey ==> r == f.(sort := value)
    ensures key == DistanceKey ==> r.customRadius == (if value == "Custom" then f.customRadius else None)
  {
    match key
    case DistanceKey => f.(distance := value, customRadius := if value != "Custom" then None else f.customRadius)
    case TimeKey => f.(time := value)
    case TypeKey => f.(kind := value)
    case SortKey => f.(sort := value)
  }

  /** The stage filter every page applies: no stage chosen keeps all. */
  predicate StageKept(f: Filters, stage: string) {
    |f.stages| == 0 || stage in f.stages
  }

  /** The type filter every page applies. */
  predicate TypeKept(f: Filters, isBranch: bool) {
    f.kind == "All" || (f.kind == "Trees Only" && !isBranch) || (f.kind == "Branches Only" && isBranch)
  }

  /** 'Trees Only' keeps exactly the trees, 'Branches Only' exactly the branches, an unknown type nothing. */
  lemma TypeFilterChoices(f: Filters, isBranch: bool)
    ensures f.kind == "Trees Only" ==> (TypeKept(f, isBranch) <==> !isBranch)
    ensures f.kind == "Branches Only" ==> (TypeKept(f, isBranch) <==> isBranch)
    ensures f.kind !in {"All", "Trees Only", "Branches Only"} ==> !TypeKept(f, isBranch)
  {
  }

  /** The sheet's radius state together with the filters it edits. */
  class Sheet {
    var radius: int
    var filters: Filters

    /** The radius stays within the stepper's bounds. */
    predicate Valid()
      reads this
    {
      RadiusMin <= radius <= RadiusMax
    }

    constructor (filters: Filters)
      ensures Valid() && radius == 25 && this.filters == filters
    {
      radius := 25;
      this.filters := filters;
    }

    /** The effect on opening: a custom radius in the filters is taken over, clamped. */
    method Sync(open: bool)
      requires Valid()
      modifies this`radius
      ensures Valid()
      ensures open && filters.distance == "Custom" && filters.customRadius.Some? ==> radius == Clamp(filters.customRadius.value)
      ensures !(open && filters.distance == "Custom" && filters.customRadius.Some?) ==> radius == old(radius)
    {
      if open && filters.distance == "Custom" && filters.customRadius.Some? {
        radius := Clamp(filters.customRadius.value);
      }
    }

    /** `toggleStage(stage)`. */
    method ToggleStage(stage: string)
      modifies this`filters
      ensures filters == old(filters).(stages := Toggle(old(filters).stages, stage))
    {
      filters := filters.(stages := Toggle(filters.stages, stage));
    }

    /** A pill of one of the single-choice rows. */
    method Choose(key: Key, value: string)
      modifies this`filters
      ensures filters == SetSingle(old(filters), key, value)
    {
      filters := SetSingle(filters, key, value);
    }

    /**
     * A distance pill: `setSingle('distance', opt)`, and for Custom a second
     * record built from the filters as they were before the click, carrying
     * the current radius. The second record is the one the page keeps.
     */
    method ChooseDistance(opt: string)
      modifies this`filters
      ensures opt != "Custom" ==> filters == SetSingle(old(filters), DistanceKey, opt)
      ensures opt == "Custom" ==> filters == old(filters).(distance := "Custom", customRadius := Some(radius))
    {
      var before := filters;
      filters := SetSingle(filters, DistanceKey, opt);
      if opt == "Custom" {
        filters := before.(distance := "Custom", customRadius := Some(radius));
      }
    }

    /** `setRadiusAndNotify(r)`: the radius clamped; the filters told only under Custom. */
    method SetRadiusAndNotify(newRadius: int)
      modifies this
      ensures Valid() && radius == Clamp(newRadius)
      ensures old(filters).distance == "Custom" ==> filters == old(filters).(customRadius := Some(radius))
      ensures old(filters).distance != "Custom" ==> filters == old(filters)
    {
      radius := Clamp(newRadius);
      if filters.distance == "Custom" {
        filters := filters.(customRadius := Some(radius));
      }
    }

    /** The − button, enabled above the minimum: five miles less, never below the minimum. */
    method StepDown()
      requires Valid() && radius > RadiusMin
      modifies this
      ensures Valid() && radius == Clamp(old(radius) - RadiusStep) && radius < old(radius)
      ensures old(radius) >= RadiusMin + RadiusStep ==> radius == old(radius) - RadiusStep
      ensures old(filters).distance == "Custom" ==> filters == old(filters).(customRadius := Some(radius))
      ensures old(filters).distance != "Custom" ==> filters == old(filters)
    {
      SetRadiusAndNotify(radius - RadiusStep);
    }

    /** The + button, enabled below the maximum: five miles more, never above the maximum. */
    method StepUp()
      requires Valid() && radius < RadiusMax
      modifies this
      ensures Valid() && radius == Clamp(old(radius) + RadiusStep) && radius > old(radius)
      ensures old(radius) <= RadiusMax - RadiusStep ==> radius == old(radius) + RadiusStep
      ensures old(filters).distance == "Custom" ==> filters == old(filters).(customRadius := Some(radius))
      ensures old(filters).distance != "Custom" ==> filters == old(filters)
    {
      SetRadiusAndNotify(radius + RadiusStep);
    }

    /** `reset()`: radius 25 and the default filters. */
    method Reset()
      modifies this
      ensures Valid() && radius == 25 && filters == Defaults && CountActive(filters) == 0
    {
      radius := 25;
      filters := Defaults;
    }
  }
}
