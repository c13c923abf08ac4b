/**
 * The neighbourhood picker (frontend/src/components/Map/LocationPicker.jsx):
 * preset neighbourhoods narrowed by a search, picked by a pill or by
 * submitting the search, with the current one highlighted.
 */
module LocationPicker {
  import opened Wrappers
  import opened Text
  import opened Seqs

  /** A preset neighbourhood. */
  datatype Neighborhood = Neighborhood(name: string, lat: real, lng: real)

  /** `NEIGHBORHOODS`. */
  const Neighborhoods: seq<Neighborhood> := [
    Neighborhood("West Philadelphia", 39.9526, -75.1652),
    Neighborhood("North Philly", 39.9840, -75.1530),
    Neighborhood("South Philly", 39.9176, -75.1652),
    Neighborhood("Fishtown", 39.9737, -75.1343),
    Neighborhood("Germantown", 40.0376, -75.1721),
    Neighborhood("Center City", 39.9526, -75.1635)
  ]

  /** No two presets share a name. */
  lemma NamesDistinct()
    ensures forall i, j :: 0 <= i < j < |Neighborhoods| ==> Neighborhoods[i].name != Neighborhoods[j].name
  {
  }

  /** The search's test: the name holds the query, ignoring case. */
  predicate NameMatches(n: Neighborhood, query: string) {
    ContainsIgnoreCase(n.name, query)
  }

  /** The presets whose name holds the query, in their order. */
  function Offered(presets: seq<Neighborhood>, query: string): (r: seq<Neighborhood>)
    ensures |r| <= |presets|
  {
    Filter(presets, (n: Neighborhood) => NameMatches(n, query))
  }

  /** `filtered`. */
  function Filtered(query: string): (r: seq<Neighborhood>)
    ensures |r| <= |Neighborhoods|
  {
    Offered(Neighborhoods, query)
  }

  /** A preset is offered exactly when its name holds the query. */
  lemma OfferedIff(presets: seq<Neighborhood>, query: string)
    ensures forall n :: n in Offered(presets, query) <==> n in presets && NameMatches(n, query)
  {
    FilterMembers(presets, (n: Neighborhood) => NameMatches(n, query));
  }

  /** An empty query offers every preset, in order. */
  lemma EmptyQueryOffersAll(presets: seq<Neighborhood>)
    ensures Offered(presets, "") == presets
  {
    var shows: Neighborhood -> bool := (n: Neighborhood) => NameMatches(n, "");
    forall n | n in presets
      ensures shows(n)
    {
      ContainsIgnoreCaseEmpty(n.name);
    }
    FilterAll(presets, shows);
  }

  /** A pill is highlighted when it is `currentLocation`, compared by name. */
  predicate Highlighted(current: Option<Neighborhood>, n: Neighborhood) {
    current.Some? && current.value.name == n.name
  }

  /** At most one preset is highlighted. */
  lemma AtMostOneHighlighted(current: Option<Neighborhood>)
    ensures forall i, j :: 0 <= i < j < |Neighborhoods| && Highlighted(current, Neighborhoods[i]) ==>
              !Highlighted(current, Neighborhoods[j])
  {
    NamesDistinct();
  }

  /** The picker's own state; `chosen` records the calls to `onLocationChange`. */
  class Picker {
    var query: string
    var chosen: seq<Neighborhood>

    constructor ()
      ensures query == "" && chosen == []
    {
      query := "";
      chosen := [];
    }

    /** The search field. */
    method SetQuery(text: string)
      modifies this`query
      ensures query == text
    {
      query := text;
    }

    /** `pick(n)`: report the neighbourhood and clear the search. */
    method Pick(n: Neighborhood)
      modifies this`query, this`chosen
      ensures chosen == old(chosen) + [n] && query == ""
    {
      chosen := chosen + [n];
      query := "";
    }

    /**
     * `handleSearchSubmit`: the first preset the search offers is picked;
     * with none offered nothing happens.
     */
    method HandleSearchSubmit()
      modifies this`query, this`chosen
      ensures Filtered(old(query)) == [] ==> chosen == old(chosen) && query == old(query)
      ensures Filtered(old(query)) != [] ==> chosen == old(chosen) + [Filtered(old(query))[0]] && query == ""
    {
      var filtered := Filtered(query);
      if |filtered| > 0 {
        Pick(filtered[0]);
      }
    }
  }

  /** What a submit picks is a preset whose name holds the search. */
  lemma SubmitPicksAMatch(query: string)
    requires Filtered(query) != []
    ensures Filtered(query)[0] in Neighborhoods && NameMatches(Filtered(query)[0], query)
  {
    OfferedIff(Neighborhoods, query);
    assert Filtered(query)[0] in Filtered(query);
  }

  /** Submitting an empty search picks the first preset, West Philadelphia. */
  lemma EmptySubmitPicksFirst()
    ensures Filtered("")[0] == Neighborhood("West Philadelphia", 39.9526, -75.1652)
  {
    EmptyQueryOffersAll(Neighborhoods);
  }
}
