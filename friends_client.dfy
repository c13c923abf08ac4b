/**
 * The friends page of the second client (client/src/pages/FriendsPage.jsx):
 * the circle and the requests loaded from the API, the circle previewed
 * with sample friends while it is empty, and a request removed once
 * accepting or declining it succeeds.
 */
module FriendsClient {
  import opened Wrappers
  import opened Json
  import opened Seqs

  /** A friend of the circle as the page holds it; the counts are always 0 and `lastActive` ''. */
  datatype CircleFriend = CircleFriend(id: Prop, username: Json)

  /** A pending request as the page holds it; `mutual` is always 0. */
  datatype Request = Request(id: Prop, username: Json)

  /** The outcome of a `getFriends` or `getFriendRequests` call: rejected, or the decoded body. */
  datatype Reply = Rejected | Data(body: Json)

  /** `Array.isArray(data) ? data : []`. */
  function ListOf(body: Json): (r: seq<Json>)
    ensures body.Arr? ==> r == body.items
    ensures !body.Arr? ==> r == []
  {
    if body.Arr? then body.items else []
  }

  /** `f.display_name || f.username || 'User'`. */
  function NameOf(row: Json): (r: Json)
    ensures Truthy(Get(row, "display_name")) ==> r == row.fields["display_name"]
    ensures !Truthy(Get(row, "display_name")) && Truthy(Get(row, "username")) ==> r == row.fields["username"]
    ensures !Truthy(Get(row, "display_name")) && !Truthy(Get(row, "username")) ==> r == Str("User")
  {
    Or(Either(Get(row, "display_name"), Get(row, "username")), Str("User"))
  }

  /** The circle's mapping: `id: f.user_id || f.id`, and the name. */
  function FriendOf(row: Json): (r: CircleFriend)
    ensures Truthy(Get(row, "user_id")) ==> r.id == Get(row, "user_id")
    ensures !Truthy(Get(row, "user_id")) ==> r.id == Get(row, "id")
    ensures r.username == NameOf(row)
  {
    CircleFriend(Either(Get(row, "user_id"), Get(row, "id")), NameOf(row))
  }

  /** The requests' mapping: `id: r.id`, and the name. */
  function RequestOf(row: Json): (r: Request)
    ensures r.id == Get(row, "id") && r.username == NameOf(row)
  {
    Request(Get(row, "id"), NameOf(row))
  }

  /** A display name always exists: the username rows never show an empty name. */
  lemma NameAlwaysTruthy(row: Json)
    ensures Truthy(Some(NameOf(row)))
  {
  }

  /** Reading `.user_id` of a null element throws, and the `.catch` then drops the whole reply. */
  predicate MappingThrows(list: seq<Json>) {
    exists i :: 0 <= i < |list| && list[i].Null?
  }

  /** `MY_CIRCLE`, the sample friends shown while the circle is empty. */
  const SampleCircle: seq<CircleFriend> := [
    CircleFriend(Some(Num(1.0)), Str("Sarah M.")),
    CircleFriend(Some(Num(2.0)), Str("Mike R.")),
    CircleFriend(Some(Num(3.0)), Str("Jess K.")),
    CircleFriend(Some(Num(4.0)), Str("Leo P."))
  ]

  /** `(friends.length ? friends : MY_CIRCLE).slice(0, 3)`. */
  function ShownCircle(friends: seq<CircleFriend>): (r: seq<CircleFriend>)
    ensures |r| <= 3
    ensures friends != [] ==> |r| == (if |friends| < 3 then |friends| else 3) && r == friends[..|r|]
    ensures friends == [] ==> r == SampleCircle[..3]
  {
    Clip(if |friends| > 0 then friends else SampleCircle, 3)
  }

  /** `r.filter((req) => req.id !== id)`. */
  function WithoutRequest(requests: seq<Request>, id: Prop): (r: seq<Request>)
    ensures |r| <= |requests|
  {
    Filter(requests, (q: Request) => q.id != id)
  }

  /**
   * Removing a request drops every request with that id, keeps every other
   * in order, and removing it again changes nothing.
   */
  lemma WithoutRequestSpec(requests: seq<Request>, id: Prop)
    ensures forall q :: q in WithoutRequest(requests, id) <==> q in requests && q.id != id
    ensures Subseq(WithoutRequest(requests, id), requests)
    ensures WithoutRequest(WithoutRequest(requests, id), id) == WithoutRequest(requests, id)
  {
    var keep: Request -> bool := (q: Request) => q.id != id;
    FilterMembers(requests, keep);
    FilterSubseq(requests, keep);
    var kept := Filter(requests, keep);
    forall q | q in kept
      ensures keep(q)
    {
    }
    FilterAll(kept, keep);
  }

  /** The page's data. */
  class Page {
    var friends: seq<CircleFriend>
    var requests: seq<Request>
    var activeSection: string

    constructor (firstSection: string)
      ensures friends == [] && requests == [] && activeSection == firstSection
    {
      friends := [];
      requests := [];
      activeSection := firstSection;
    }

    /** The `getFriends` effect: each array element mapped; a rejection or a throwing mapping leaves the circle. */
    method LoadFriends(reply: Reply)
      modifies this`friends
      ensures reply.Rejected? || MappingThrows(ListOf(reply.body)) ==> friends == old(friends)
      ensures reply.Data? && !MappingThrows(ListOf(reply.body)) ==> friends == Map(ListOf(reply.body), FriendOf)
    {
      if reply.Data? && !MappingThrows(ListOf(reply.body)) {
        friends := Map(ListOf(reply.body), FriendOf);
      }
    }

    /** The `getFriendRequests` effect, mapped the same way. */
    method LoadRequests(reply: Reply)
      modifies this`requests
      ensures reply.Rejected? || MappingThrows(ListOf(reply.body)) ==> requests == old(requests)
      ensures reply.Data? && !MappingThrows(ListOf(reply.body)) ==> requests == Map(ListOf(reply.body), RequestOf)
    {
      if reply.Data? && !MappingThrows(ListOf(reply.body)) {
        requests := Map(ListOf(reply.body), RequestOf);
      }
    }

    /**
     * `handleAccept(id)` and `handleDecline(id)`, where `fails` says whether
     * the API call throws: only a success removes the request.
     */
    method HandleAnswer(id: Prop, fails: bool)
      modifies this`requests
      ensures fails ==> requests == old(requests)
      ensures !fails ==> requests == WithoutRequest(old(requests), id)
    {
      if !fails {
        requests := WithoutRequest(requests, id);
      }
    }

    /** `handleSelectSection(id)`; the scroll is not part of this model. */
    method SelectSection(id: string)
      modifies this`activeSection
      ensures activeSection == id
    {
      activeSection := id;
    }

    /** The requests section is shown only while a request is pending. */
    predicate RequestsShown()
      reads this
    {
      |requests| > 0
    }
  }

  /** A non-array body clears a list; an array of rows fills it one entry per row. */
  lemma LoadedListLength(body: Json)
    ensures !body.Arr? ==> Map(ListOf(body), FriendOf) == [] && Map(ListOf(body), RequestOf) == []
    ensures body.Arr? ==> |Map(ListOf(body), FriendOf)| == |body.items|
  {
  }
}
