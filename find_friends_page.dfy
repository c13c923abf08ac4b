/**
 * Finding people (frontend/src/pages/FindFriendsPage.jsx): the radius the
 * filter sheet's distance means, the text search over a person, the two
 * orderings, and marking a person as requested.
 */
module FindFriendsPage {
  import opened Wrappers
  import opened Text
  import opened Seqs
  import opened FilterSheet

  datatype Person = Person(id: int, username: Option<string>, neighborhood: Option<string>,
                           interests: Option<seq<string>>, sharedTrees: int, lastInteraction: string,
                           distanceMi: real, added: bool)

  /**
   * `getEffectiveRadiusMi(filters)`: the custom radius (25 when unset) under
   * Custom, else the integer the distance text starts with, or 10 if none.
   */
  function EffectiveRadius(f: Filters): (r: int)
    ensures f.distance == "Custom" ==> r == OrElse(f.customRadius, 25)
    ensures f.distance != "Custom" && ParseInt(f.distance).None? ==> r == 10
    ensures f.distance != "Custom" && ParseInt(f.distance).Some? ==> r == ParseInt(f.distance).value
  {
    if f.distance == "Custom" then OrElse(f.customRadius, 25)
    else OrElse(ParseInt(f.distance), 10)
  }

  /** Each distance the sheet offers means the miles it names. */
  lemma SheetRadii(f: Filters, n: nat)
    requires n in {10, 20, 30, 40, 50} && f.distance == NatToString(n) + " mi"
    ensures EffectiveRadius(f) == n
  {
    ParseIntOfNat(n, " mi");
  }

  /**
   * `matchesSearch(person, query)`: everyone for a blank query; otherwise the
   * query, lower-cased and trimmed, is part of the username, the
   * neighbourhood or the space-joined interests, lower-cased (a missing one
   * being '').
   */
  predicate MatchesSearch(p: Person, query: string) {
    var q := Trim(Lower(query));
    || IsBlank(query)
    || Contains(Lower(OrElse(p.username, "")), q)
    || Contains(Lower(OrElse(p.neighborhood, "")), q)
    || Contains(Lower(Join(OrElse(p.interests, []), ' ')), q)
  }

  /** Searching for a person's own username, in any case and with any spaces around it, finds them. */
  lemma FindsOwnUsername(p: Person, u: string)
    requires p.username == Some(u)
    ensures MatchesSearch(p, u)
  {
    ContainsTrimmed(Lower(u));
  }

  /** `order[label] ?? 5`: how long ago the last interaction was, unknown labels last. */
  function Recency(when: string): (r: nat)
    ensures r <= 5
    ensures r == 5 <==> when !in {"just now", "5m ago", "2h ago", "3h ago", "1d ago"}
  {
    if when == "just now" then 0
    else if when == "5m ago" then 1
    else if when == "2h ago" then 2
    else if when == "3h ago" then 3
    else if when == "1d ago" then 4
    else 5
  }

  /** One key that orders as the comparator does: shared trees first, then recency. */
  function SimilarKey(p: Person): real {
    (p.sharedTrees * 6 + (5 - Recency(p.lastInteraction))) as real
  }

  /** `filteredSimilar`. */
  function FilteredSimilar(similar: seq<Person>, query: string): (r: seq<Person>)
    ensures |r| <= |similar|
  {
    SortDesc(Filter(similar, (p: Person) => MatchesSearch(p, query)), SimilarKey)
  }

  /** `filteredNearby`: matching people within the radius, nearest first. */
  function FilteredNearby(nearby: seq<Person>, query: string, f: Filters): (r: seq<Person>)
    ensures |r| <= |nearby|
  {
    var radius := EffectiveRadius(f);
    var a := Filter(nearby, (p: Person) => MatchesSearch(p, query));
    var b := Filter(a, (p: Person) => p.distanceMi <= radius as real);
    SortDesc(b, Nearness)
  }

  /**
   * The similar list is the matching people, by shared trees descending and,
   * among equal shared trees, the more recent interaction first.
   */
  lemma SimilarOrder(similar: seq<Person>, query: string)
    ensures forall p :: p in FilteredSimilar(similar, query) <==> p in similar && MatchesSearch(p, query)
    ensures var r := FilteredSimilar(similar, query);
            forall i, j :: 0 <= i < j < |r| ==>
              r[i].sharedTrees > r[j].sharedTrees
              || (r[i].sharedTrees == r[j].sharedTrees && Recency(r[i].lastInteraction) <= Recency(r[j].lastInteraction))
  {
    var a := Filter(similar, (p: Person) => MatchesSearch(p, query));
    FilterMembers(similar, (p: Person) => MatchesSearch(p, query));
    SortDescMembers(a, SimilarKey);
    SortDescSorted(a, SimilarKey);
    var r := FilteredSimilar(similar, query);
    forall i, j | 0 <= i < j < |r|
      ensures r[i].sharedTrees > r[j].sharedTrees
              || (r[i].sharedTrees == r[j].sharedTrees && Recency(r[i].lastInteraction) <= Recency(r[j].lastInteraction))
    {
      assert SimilarKey(r[i]) >= SimilarKey(r[j]);
    }
  }

  /** Nearer first: the key the nearby sort orders by, descending. */
  function Nearness(p: Person): real {
    -p.distanceMi
  }

  /** Matching and within the radius. */
  predicate NearbyShown(p: Person, query: string, radius: int) {
    MatchesSearch(p, query) && p.distanceMi <= radius as real
  }

  /** The nearby list is exactly the matching people within the radius, in non-decreasing distance. */
  lemma NearbyOrder(nearby: seq<Person>, query: string, f: Filters)
    ensures forall p :: p in FilteredNearby(nearby, query, f) <==> p in nearby && NearbyShown(p, query, EffectiveRadius(f))
    ensures var r := FilteredNearby(nearby, query, f);
            forall i, j :: 0 <= i < j < |r| ==> r[i].distanceMi <= r[j].distanceMi
  {
    var radius := EffectiveRadius(f);
    var t1: Person -> bool := (p: Person) => MatchesSearch(p, query);
    var t2: Person -> bool := (p: Person) => p.distanceMi <= radius as real;
    var both: Person -> bool := (p: Person) => NearbyShown(p, query, radius);
    FilterFilter(nearby, t1, t2, both);
    var b := Filter(nearby, both);
    FilterMembers(nearby, both);
    SortDescMembers(b, Nearness);
    SortDescSorted(b, Nearness);
    var r := SortDesc(b, Nearness);
    assert r == FilteredNearby(nearby, query, f);
    forall i, j | 0 <= i < j < |r|
      ensures r[i].distanceMi <= r[j].distanceMi
    {
      assert Nearness(r[i]) >= Nearness(r[j]);
    }
  }

  /** `p.id === id ? { ...p, added: true } : p`. */
  function MarkAdded(people: seq<Person>, id: int): (r: seq<Person>)
    ensures |r| == |people|
    ensures forall i :: 0 <= i < |r| ==> r[i] == if people[i].id == id then people[i].(added := true) else people[i]
  {
    Map(people, (p: Person) => if p.id == id then p.(added := true) else p)
  }

  class Page {
    var similar: seq<Person>
    var nearby: seq<Person>

    constructor (similar: seq<Person>, nearby: seq<Person>)
      ensures this.similar == similar && this.nearby == nearby
    {
      this.similar, this.nearby := similar, nearby;
    }

    /** `markSimilarAdded(id)`: only the people with that id become requested. */
    method MarkSimilarAdded(id: int)
      modifies this`similar
      ensures similar == MarkAdded(old(similar), id)
    {
      similar := MarkAdded(similar, id);
    }

    /** `markNearbyAdded(id)`. */
    method MarkNearbyAdded(id: int)
      modifies this`nearby
      ensures nearby == MarkAdded(old(nearby), id)
    {
      nearby := MarkAdded(nearby, id);
    }
  }

  /** Marking is idempotent and changes nothing but `added`. */
  lemma MarkAddedIdempotent(people: seq<Person>, id: int)
    ensures MarkAdded(MarkAdded(people, id), id) == MarkAdded(people, id)
    ensures forall i :: 0 <= i < |people| ==> MarkAdded(people, id)[i].(added := people[i].added) == people[i]
  {
  }
}
