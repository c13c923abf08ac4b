/**
 * Friend requests and friend groups (src/services/friendService.js). A friendship
 * row moves pending -> accepted or declined; accepting one puts each user in the
 * other's friend group.
 */
module FriendService {
  import opened Wrappers
  import opened Database
  import CommunityService

  /** The friendship row from `a` to `b` has status `st` (the `existing[0].status` test). */
  predicate HasRow(db: Database.Db, a: Id, b: Id, st: Status)
    reads db
  {
    exists k :: k in db.friendships && db.friendships[k] == Friendship(a, b, st)
  }

  /** The rows the delete `(requester_id = a AND addressee_id = b) OR (requester_id = b AND addressee_id = a)` keeps. */
  function DropPair(fs: map<Id, Friendship>, a: Id, b: Id): (r: map<Id, Friendship>)
    ensures forall k :: k in r <==> k in fs && {fs[k].requesterId, fs[k].addresseeId} != {a, b}
    ensures forall k :: k in r ==> r[k] == fs[k]
  {
    map k | k in fs && !(fs[k].requesterId == a && fs[k].addresseeId == b)
                    && !(fs[k].requesterId == b && fs[k].addresseeId == a) :: fs[k]
  }

  /** `sendRequest(requesterId, addresseeId)`. */
  method SendRequest(db: Database.Db, requesterId: Id, addresseeId: Id, newId: Id)
    returns (r: Result<(Id, Friendship), Code>)
    requires db.Valid()
    requires newId !in db.friendships
    modifies db`friendships
    ensures db.Valid()
    ensures requesterId == addresseeId ==> r == Err(SelfRequest)
    ensures r == Err(RequestPending) <==> requesterId != addresseeId && old(HasRow(db, requesterId, addresseeId, Pending))
    ensures r == Err(ReversePending) <==>
              requesterId != addresseeId && !old(HasRow(db, requesterId, addresseeId, Pending))
              && !old(HasRow(db, requesterId, addresseeId, Accepted)) && old(HasRow(db, addresseeId, requesterId, Pending))
    ensures r == Err(AlreadyFriends) ==>
              old(HasRow(db, requesterId, addresseeId, Accepted)) || old(HasRow(db, addresseeId, requesterId, Accepted))
    ensures r.Err? ==> unchanged(db)
    ensures r.Err? ==> r.error in {SelfRequest, RequestPending, AlreadyFriends, ReversePending}
    ensures r.Ok? <==>
              requesterId != addresseeId
              && !old(HasRow(db, requesterId, addresseeId, Pending)) && !old(HasRow(db, requesterId, addresseeId, Accepted))
              && !old(HasRow(db, addresseeId, requesterId, Pending)) && !old(HasRow(db, addresseeId, requesterId, Accepted))
    ensures r.Ok? ==>
              r.value == (newId, Friendship(requesterId, addresseeId, Pending))
              && db.friendships == DropPair(old(db.friendships), requesterId, addresseeId)[newId := r.value.1]
    ensures r.Ok? ==> forall k :: k in db.friendships ==>
              ({db.friendships[k].requesterId, db.friendships[k].addresseeId} == {requesterId, addresseeId} <==> k == newId)
  {
    if requesterId == addresseeId {
      return Err(SelfRequest);
    }
    if HasRow(db, requesterId, addresseeId, Pending) {
      return Err(RequestPending);
    }
    if HasRow(db, requesterId, addresseeId, Accepted) {
      return Err(AlreadyFriends);
    }
    if HasRow(db, addresseeId, requesterId, Pending) {
      return Err(ReversePending);
    }
    if HasRow(db, addresseeId, requesterId, Accepted) {
      return Err(AlreadyFriends);
    }
    var row := Friendship(requesterId, addresseeId, Pending);
    db.friendships := DropPair(db.friendships, requesterId, addresseeId)[newId := row];
    r := Ok((newId, row));
  }

  /** Add `userId` to community `g` as 'member' unless a row exists (lines 111-118). */
  function AddIfAbsent(members: map<(Id, Id), Role>, g: Id, userId: Id): (r: map<(Id, Id), Role>)
    ensures (g, userId) in r
    ensures r.Keys == members.Keys + {(g, userId)}
    ensures forall k :: k in members ==> r[k] == members[k]
    ensures (g, userId) !in members ==> r[(g, userId)] == Member
  {
    if (g, userId) in members then members else members[(g, userId) := Member]
  }

  /**
   * `acceptRequest(requestId, accepteeId)`: only the addressee, only from pending.
   * The status is written before the friend groups are looked up, so
   * FRIEND_GROUP_MISSING leaves the request accepted.
   */
  method AcceptRequest(db: Database.Db, requestId: Id, accepteeId: Id) returns (r: Result<(Id, Friendship), Code>)
    requires db.Valid()
    modifies db`friendships, db`members
    ensures db.Valid()
    ensures r == Err(NotFound) <==> requestId !in old(db.friendships)
    ensures r == Err(Forbidden) <==>
              requestId in old(db.friendships) && old(db.friendships[requestId]).addresseeId != accepteeId
    ensures r == Err(NotPending) <==>
              (requestId in old(db.friendships) && old(db.friendships[requestId]).addresseeId == accepteeId
               && old(db.friendships[requestId]).status != Pending)
    ensures r == Err(NotFound) || r == Err(Forbidden) || r == Err(NotPending) ==> unchanged(db)
    ensures r.Err? ==> r.error in {NotFound, Forbidden, NotPending, FriendGroupMissing}
    ensures r.Ok? <==>
              requestId in old(db.friendships) && old(db.friendships[requestId]).addresseeId == accepteeId
              && old(db.friendships[requestId]).status == Pending
              && old(db.FriendGroupOf(db.friendships[requestId].requesterId)).Some?
              && old(db.FriendGroupOf(db.friendships[requestId].addresseeId)).Some?
    ensures r.Ok? || r == Err(FriendGroupMissing) ==>
              var f := old(db.friendships[requestId]);
              requestId in old(db.friendships) && f.addresseeId == accepteeId && f.status == Pending
              && db.friendships == old(db.friendships)[requestId := f.(status := Accepted)]
    ensures r == Err(FriendGroupMissing) ==>
              db.members == old(db.members)
              && var f := old(db.friendships[requestId]);
                 old(db.FriendGroupOf(f.requesterId)).None? || old(db.FriendGroupOf(f.addresseeId)).None?
    ensures r.Ok? ==>
              var f := old(db.friendships[requestId]);
              var g1 := old(db.FriendGroupOf(f.requesterId));
              var g2 := old(db.FriendGroupOf(f.addresseeId));
              g1.Some? && g2.Some?
              && db.members == AddIfAbsent(AddIfAbsent(old(db.members), g1.value, f.addresseeId), g2.value, f.requesterId)
              && r.value == (requestId, f.(status := Accepted))
    ensures r.Ok? ==>
              var f := old(db.friendships[requestId]);
              var g1 := old(db.FriendGroupOf(f.requesterId));
              var g2 := old(db.FriendGroupOf(f.addresseeId));
              g1.Some? && g2.Some? && db.IsMember(f.addresseeId, g1.value) && db.IsMember(f.requesterId, g2.value)
  {
    if requestId !in db.friendships {
      return Err(NotFound);
    }
    var f := db.friendships[requestId];
    if f.addresseeId != accepteeId {
      return Err(Forbidden);
    }
    if f.status != Pending {
      return Err(NotPending);
    }
    ghost var m0 := db.members;
    db.SetFriendshipStatus(requestId, Accepted);
    var g1 := db.GetFriendGroupForUser(f.requesterId);
    var g2 := db.GetFriendGroupForUser(f.addresseeId);
    if g1.None? || g2.None? {
      return Err(FriendGroupMissing);
    }
    if !db.IsMember(f.addresseeId, g1.value) {
      CommunityService.AddMember(db, g1.value, f.addresseeId, Member);
    }
    ghost var m1 := db.members;
    assert m1 == AddIfAbsent(m0, g1.value, f.addresseeId);
    if !db.IsMember(f.requesterId, g2.value) {
      CommunityService.AddMember(db, g2.value, f.requesterId, Member);
    }
    assert db.members == AddIfAbsent(m1, g2.value, f.requesterId);
    r := Ok((requestId, f.(status := Accepted)));
  }

  /** `declineRequest(requestId, userId)`: only the addressee; the current status is not checked. */
  method DeclineRequest(db: Database.Db, requestId: Id, userId: Id) returns (r: Result<(), Code>)
    requires db.Valid()
    modifies db`friendships
    ensures db.Valid()
    ensures requestId !in old(db.friendships) ==> r == Err(NotFound)
    ensures requestId in old(db.friendships) && old(db.friendships[requestId]).addresseeId != userId ==>
              r == Err(Forbidden)
    ensures r.Err? ==> unchanged(db)
    ensures r.Err? ==> r.error in {NotFound, Forbidden}
    ensures r.Ok? <==> requestId in old(db.friendships) && old(db.friendships[requestId]).addresseeId == userId
    ensures r.Ok? ==>
              db.friendships == old(db.friendships)[requestId := old(db.friendships[requestId]).(status := Declined)]
  {
    if requestId !in db.friendships {
      return Err(NotFound);
    }
    var f := db.friendships[requestId];
    if f.addresseeId != userId {
      return Err(Forbidden);
    }
    db.SetFriendshipStatus(requestId, Declined);
    r := Ok(());
  }

  /**
   * `listFriends(userId)`: the active members of the user's friend group other
   * than the user (as a set of user ids).
   */
  method ListFriends(db: Database.Db, userId: Id) returns (r: set<Id>)
    requires db.Valid()
    ensures userId !in r
    ensures db.FriendGroupOf(userId).None? ==> r == {}
    ensures db.FriendGroupOf(userId).Some? ==> forall u :: u in r <==>
              u in db.MembersOf(db.FriendGroupOf(userId).value) && u in db.users && db.users[u].isActive && u != userId
  {
    var g := db.GetFriendGroupForUser(userId);
    if g.None? {
      return {};
    }
    var gid := g.value;
    r := set u | u in db.MembersOf(gid) && u in db.users && db.users[u].isActive && u != userId;
  }

  /**
   * `removeFriend(userId, friendUserId)`: each leaves the other's friend group and
   * the rows of the pair go in both directions, whether or not they were friends.
   */
  method RemoveFriend(db: Database.Db, userId: Id, friendUserId: Id)
    requires db.Valid()
    modifies db`members, db`friendships
    ensures db.Valid()
    ensures var mine := old(db.FriendGroupOf(userId));
            var theirs := old(db.FriendGroupOf(friendUserId));
            db.members == old(db.members)
                          - (if mine.Some? then {(mine.value, friendUserId)} else {})
                          - (if theirs.Some? then {(theirs.value, userId)} else {})
    ensures db.friendships == DropPair(old(db.friendships), userId, friendUserId)
    ensures forall k :: k in db.friendships ==>
              {db.friendships[k].requesterId, db.friendships[k].addresseeId} != {userId, friendUserId}
  {
    var mine := db.GetFriendGroupForUser(userId);
    var theirs := db.GetFriendGroupForUser(friendUserId);
    if mine.Some? {
      CommunityService.RemoveMemberFromCommunity(db, mine.value, friendUserId);
    }
    if theirs.Some? {
      CommunityService.RemoveMemberFromCommunity(db, theirs.value, userId);
    }
    db.friendships := DropPair(db.friendships, userId, friendUserId);
  }

  /** Removing a friend is symmetric: the same rows go whichever side asks. */
  lemma {:induction false} DropPairSymmetric(fs: map<Id, Friendship>, a: Id, b: Id)
    ensures DropPair(fs, a, b) == DropPair(fs, b, a)
  {
    assert {a, b} == {b, a};
  }
}
