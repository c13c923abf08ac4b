/**
 * The map marker of the map app (frontend/src/components/Map/SeedMarker.jsx):
 * which of the fallen, branch and stage looks a post gets, and the sizes of
 * those looks.
 */
module SeedMarkerFrontend {
  import opened Wrappers
  import opened Json
  import opened Growth

  /** `post?.key` on a possibly missing post. */
  function Field(post: Prop, key: string): (r: Prop)
    ensures IsNullish(post) ==> r.None?
    ensures !IsNullish(post) ==> r == Get(post.value, key)
  {
    if IsNullish(post) then None else Get(post.value, key)
  }

  /** `isFallen(post)`: `!!post?.fallen`. */
  predicate IsFallen(post: Prop) {
    Truthy(Field(post, "fallen"))
  }

  /** `isDecayed(post)`: `!!post?.decayed`. */
  predicate IsDecayed(post: Prop) {
    Truthy(Field(post, "decayed"))
  }

  /** A missing post is neither fallen nor decayed. */
  lemma NoPostNotFallen()
    ensures !IsFallen(None) && !IsDecayed(None) && !IsFallen(Some(Null)) && !IsDecayed(Some(Null))
  {
  }

  /** The three marker configurations. */
  datatype Look = FallenLook | BranchLook | StageLook(stage: Stage)

  /** `STAGE_CONFIG[stage] ?? STAGE_CONFIG.seed` for `stage = post?.growth_stage ?? 'seed'`. */
  function StageOf(post: Prop): (r: Stage)
    ensures IsNullish(Field(post, "growth_stage")) ==> r == Seed
    ensures (Field(post, "growth_stage").Some? && Field(post, "growth_stage").value.Str?
             && StageOfName(Field(post, "growth_stage").value.s).Some?) ==>
              r == StageOfName(Field(post, "growth_stage").value.s).value
  {
    var v := OrDefault(Field(post, "growth_stage"), Str("seed"));
    if v.Str? && StageOfName(v.s).Some? then StageOfName(v.s).value else Seed
  }

  /** The configuration chosen: fallen or decayed first, then branch, then the stage. */
  function LookOf(post: Prop): (r: Look)
    ensures r == FallenLook <==> IsFallen(post) || IsDecayed(post)
    ensures r == BranchLook <==> !IsFallen(post) && !IsDecayed(post) && Truthy(Field(post, "is_branch"))
    ensures r.StageLook? ==> r.stage == StageOf(post)
  {
    if IsFallen(post) || IsDecayed(post) then FallenLook
    else if Truthy(Field(post, "is_branch")) then BranchLook
    else StageLook(StageOf(post))
  }

  /** The marker size of each configuration. */
  function Size(l: Look): (r: nat)
    ensures l == FallenLook ==> r == 32
    ensures l == BranchLook ==> r == 30
  {
    match l
    case FallenLook => 32
    case BranchLook => 30
    case StageLook(s) =>
      match s
      case Seed => 28
      case Sprout => 32
      case Sapling => 38
      case Tree => 44
      case Oak => 52
  }

  /** A later stage is a strictly larger marker. */
  lemma SizesIncrease(a: Stage, b: Stage)
    ensures Rank(a) < Rank(b) <==> Size(StageLook(a)) < Size(StageLook(b))
  {
  }

  /** The pin's stem: 4 for a branch, 6 otherwise (also when it has fallen). */
  function StemHeight(post: Prop): (r: nat)
    ensures Truthy(Field(post, "is_branch")) <==> r == 4
    ensures r == 4 || r == 6
  {
    if Truthy(Field(post, "is_branch")) then 4 else 6
  }

  /** A fallen branch is drawn with the fallen look but keeps the branch stem. */
  lemma FallenBranch(fields: map<string, Json>)
    requires "fallen" in fields && fields["fallen"] == Bool(true)
    requires "is_branch" in fields && fields["is_branch"] == Bool(true)
    ensures LookOf(Some(Obj(fields))) == FallenLook && StemHeight(Some(Obj(fields))) == 4
  {
  }
}
