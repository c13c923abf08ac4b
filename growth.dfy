/**
 * The five growth stages a tree passes through as it is watered, shared by
 * the cards, markers and pages that name them by their lower-case strings.
 */
module Growth {
  import opened Wrappers

  datatype Stage = Seed | Sprout | Sapling | Tree | Oak

  /** The order of the stages, seed first. */
  function Rank(s: Stage): (r: nat)
    ensures r <= 4
    ensures r == 0 <==> s == Seed
    ensures r == 4 <==> s == Oak
  {
    match s
    case Seed => 0
    case Sprout => 1
    case Sapling => 2
    case Tree => 3
    case Oak => 4
  }

  /** The string the components store and compare (`'seed'`, …, `'oak'`). */
  function Name(s: Stage): (r: string)
  {
    match s
    case Seed => "seed"
    case Sprout => "sprout"
    case Sapling => "sapling"
    case Tree => "tree"
    case Oak => "oak"
  }

  /** The stage a stored string names, if it names one. */
  function StageOfName(n: string): (r: Option<Stage>)
    ensures r.Some? ==> Name(r.value) == n
  {
    if n == "seed" then Some(Seed)
    else if n == "sprout" then Some(Sprout)
    else if n == "sapling" then Some(Sapling)
    else if n == "tree" then Some(Tree)
    else if n == "oak" then Some(Oak)
    else None
  }

  /** Names and stages are in one-to-one correspondence. */
  lemma NameRoundTrip(s: Stage, t: Stage)
    ensures StageOfName(Name(s)) == Some(s)
    ensures Name(s) == Name(t) ==> s == t
  {
  }
}
