/** Optional values, results with an error code, and JavaScript's "undefined or given" fields. */
module Wrappers {
  datatype Option<T> = None | Some(value: T)

  datatype Result<T, E> = Ok(value: T) | Err(error: E)

  /** A field of a partial-update payload: absent (`undefined`) or given with a value. */
  datatype Update<T> = Keep | SetTo(value: T)

  function OrElse<T>(o: Option<T>, d: T): (r: T)
    ensures o.Some? ==> r == o.value
    ensures o.None? ==> r == d
  {
    if o.Some? then o.value else d
  }

  /** The values of the present entries, in their order. */
  function Somes<T>(s: seq<Option<T>>): (r: seq<T>)
    ensures |r| <= |s|
  {
    if s == [] then []
    else if s[|s| - 1].Some? then Somes(s[..|s| - 1]) + [s[|s| - 1].value]
    else Somes(s[..|s| - 1])
  }

  /** One more entry adds its value when it is present and nothing otherwise. */
  lemma SomesSnoc<T>(s: seq<Option<T>>, e: Option<T>)
    ensures Somes(s + [e]) == if e.Some? then Somes(s) + [e.value] else Somes(s)
  {
    assert (s + [e])[..|s|] == s;
  }

  /** A value is among the present ones exactly when some entry holds it. */
  lemma {:induction false} SomesMembers<T>(s: seq<Option<T>>)
    ensures forall x :: x in Somes(s) <==> exists i :: 0 <= i < |s| && s[i] == Some(x)
  {
    if s != [] {
      var front := s[..|s| - 1];
      SomesMembers(front);
      forall x
        ensures x in Somes(s) <==> exists i :: 0 <= i < |s| && s[i] == Some(x)
      {
        if exists i :: 0 <= i < |s| && s[i] == Some(x) {
          var i :| 0 <= i < |s| && s[i] == Some(x);
          if i < |front| {
            assert front[i] == s[i];
          }
        }
        if x in Somes(front) {
          var i :| 0 <= i < |front| && front[i] == Some(x);
          assert s[i] == front[i];
        }
      }
    }
  }

  /** The given value of an update, or the current one when it is absent. */
  function Patched<T>(u: Update<T>, current: T): (r: T)
    ensures u.SetTo? ==> r == u.value
    ensures u.Keep? ==> r == current
  {
    if u.SetTo? then u.value else current
  }
}
