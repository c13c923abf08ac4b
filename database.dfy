/**
 * The Snowflake tables the services read and write (src/db/init.js), held in
 * memory. Each table is a map keyed by its primary key (or a set when the key is
 * the whole row); `Valid` collects the declared UNIQUE and CHECK constraints.
 */
module Database {
  import opened Wrappers
  import opened Json

  type Id = string

  /** The `err.code` values the services throw. */
  datatype Code =
    | NotFound
    | ParentNotLocation
    | NotLocal
    | SlugTaken
    | ParentNotFound
    | NotMemberOfParent
    | NotFounder
    | UserNotFound
    | InvalidInput
    | AlreadyMember
    | InvitePending
    | Forbidden
    | InviteInvalid
    | CannotRemoveFounder
    | PrivateInviteOnly
    | CannotLeaveFriendGroup
    | LocationReadonly
    | NotMember
    | NotModerator
    | NoFriendCommunity
    | InvalidRating
    | SelfRequest
    /** 'PENDING': a request in the same direction is already pending. */
    | RequestPending
    | AlreadyFriends
    | ReversePending
    | NotPending
    | FriendGroupMissing
    /** A `TypeError` from calling a function the imported module does not define. */
    | NotAFunction

  datatype CommunityType = Location | Sub | Private

  datatype Role = Member | Moderator | Owner

  /** The status CHECK of invites and friendships: pending, accepted or declined. */
  datatype Status = Pending | Accepted | Declined

  datatype User = User(
    username: string,
    email: string,
    phoneNumber: Option<string>,
    displayName: Option<string>,
    bio: Option<string>,
    avatarUrl: Option<string>,
    location: Option<string>,
    isActive: bool)

  datatype Community = Community(
    name: string,
    slug: string,
    kind: CommunityType,
    parentId: Option<Id>,
    founderId: Option<Id>,
    isFriendGroup: bool,
    description: Option<string>,
    profileData: Json,
    isActive: bool)

  datatype Invite = Invite(communityId: Id, inviterId: Id, inviteeId: Id, status: Status)

  datatype Friendship = Friendship(requesterId: Id, addresseeId: Id, status: Status)

  datatype Event = Event(
    communityId: Id,
    creatorId: Id,
    title: string,
    description: Option<string>,
    eventDate: Option<string>,
    eventTime: Option<string>,
    broadLocation: Option<string>,
    specificLocation: Option<string>,
    isPublic: bool,
    visibility: Json,
    isActive: bool)

  /**
   * A user_config row: the two VARIANT cells as the driver hands them back
   * (`Null` for SQL NULL; a string when the driver returns JSON text).
   */
  datatype ConfigRow = ConfigRow(gui: Json, privacy: Json)

  /** What `getById` returns: the row, its id and its `member_count`. */
  datatype CommunityView = CommunityView(id: Id, row: Community, memberCount: nat)

  /** The row `getFriendGroupForUser` selects: founded by `u`, a friend group, active. */
  predicate IsFriendGroupOf(c: Community, u: Id) {
    c.founderId == Some(u) && c.isFriendGroup && c.isActive
  }

  /** The rows of a keyed table that do not belong to community (or event) `c`. */
  function DropFirst<V>(m: map<(Id, Id), V>, c: Id): (r: map<(Id, Id), V>)
    ensures forall k :: k in r <==> k in m && k.0 != c
    ensures forall k :: k in r ==> r[k] == m[k]
  {
    map k | k in m && k.0 != c :: m[k]
  }

  /** The invite rows of communities other than `c`. */
  function DropCommunityInvites(invites: map<Id, Invite>, c: Id): (r: map<Id, Invite>)
    ensures forall k :: k in r <==> k in invites && invites[k].communityId != c
    ensures forall k :: k in r ==> r[k] == invites[k]
  {
    map k | k in invites && invites[k].communityId != c :: invites[k]
  }

  class Db {
    var users: map<Id, User>
    var communities: map<Id, Community>
    /** community_members, keyed (community_id, user_id). */
    var members: map<(Id, Id), Role>
    /** community_parents rows (community_id, parent_id). */
    var parents: set<(Id, Id)>
    var invites: map<Id, Invite>
    var friendships: map<Id, Friendship>
    var events: map<Id, Event>
    /** event_rsvps rows (event_id, user_id). */
    var rsvps: set<(Id, Id)>
    /** event_ratings, keyed (event_id, user_id). */
    var ratings: map<(Id, Id), int>
    var configs: map<Id, ConfigRow>

    constructor ()
      ensures Valid()
      ensures users == map[] && communities == map[] && members == map[] && parents == {}
      ensures invites == map[] && friendships == map[] && events == map[] && rsvps == {}
      ensures ratings == map[] && configs == map[]
    {
      users, communities, members, parents := map[], map[], map[], {};
      invites, friendships, events, rsvps := map[], map[], map[], {};
      ratings, configs := map[], map[];
    }

    /** The declared keys and checks the model keeps. */
    ghost predicate Valid()
      reads this`users, this`invites, this`friendships, this`ratings, this`communities
    {
      UsersUnique() && InvitesUnique() && FriendshipsUnique() && RatingsInRange()
      && FriendGroupsUnique()
    }

    /** `username` and `email` are UNIQUE in users. */
    ghost predicate UsersUnique()
      reads this`users
    {
      forall a, b :: a in users && b in users && a != b ==>
        users[a].username != users[b].username && users[a].email != users[b].email
    }

    /** UNIQUE (community_id, invitee_id) on community_invites. */
    ghost predicate InvitesUnique()
      reads this`invites
    {
      forall a, b :: a in invites && b in invites && a != b ==>
        invites[a].communityId != invites[b].communityId || invites[a].inviteeId != invites[b].inviteeId
    }

    /** UNIQUE (requester_id, addressee_id) on friendships. */
    ghost predicate FriendshipsUnique()
      reads this`friendships
    {
      forall a, b :: a in friendships && b in friendships && a != b ==>
        friendships[a].requesterId != friendships[b].requesterId
        || friendships[a].addresseeId != friendships[b].addresseeId
    }

    /** CHECK (rating >= 1 AND rating <= 5) on event_ratings. */
    ghost predicate RatingsInRange()
      reads this`ratings
    {
      forall k :: k in ratings ==> 1 <= ratings[k] <= 5
    }

    /** Each user founds at most one active friend group ("one per user"). */
    ghost predicate FriendGroupsUnique()
      reads this`communities
    {
      forall a, b, u ::
        a in communities && b in communities
        && IsFriendGroupOf(communities[a], u) && IsFriendGroupOf(communities[b], u)
        ==> a == b
    }

    /** No two communities share a slug (UNIQUE slug). */
    ghost predicate SlugsUnique()
      reads this`communities
    {
      forall a, b :: a in communities && b in communities && a != b ==>
        communities[a].slug != communities[b].slug
    }

    /** `getById(id, { includeInactive })` without the member count. */
    function CommunityById(id: Id, includeInactive: bool): (r: Option<Community>)
      reads this
      ensures r.Some? <==> id in communities && (includeInactive || communities[id].isActive)
      ensures r.Some? ==> r.value == communities[id]
    {
      if id in communities && (includeInactive || communities[id].isActive) then Some(communities[id]) else None
    }

    /** `getById(id, { includeInactive })`: the row together with its member count. */
    function GetById(id: Id, includeInactive: bool): (r: Option<CommunityView>)
      reads this
      ensures r.Some? <==> CommunityById(id, includeInactive).Some?
      ensures r.Some? ==> r.value.id == id && r.value.row == communities[id] && r.value.memberCount == |MembersOf(id)|
    {
      match CommunityById(id, includeInactive)
      case None => None
      case Some(c) => Some(CommunityView(id, c, MemberCount(id)))
    }

    /** `isMember(userId, communityId)`: a community_members row with that key exists. */
    predicate IsMember(userId: Id, communityId: Id)
      reads this
      ensures IsMember(userId, communityId) <==> userId in MembersOf(communityId)
    {
      (communityId, userId) in members
    }

    /** `SELECT 1 FROM communities WHERE slug = ?` finds a row. */
    predicate SlugInUse(slug: string)
      reads this
    {
      exists id :: id in communities && communities[id].slug == slug
    }

    /** The user ids that are members of community `c`. */
    function MembersOf(c: Id): (r: set<Id>)
      reads this
      ensures forall u :: u in r <==> (c, u) in members
    {
      set k | k in members && k.0 == c :: k.1
    }

    /** `COUNT(*)` of community_members for `c` (the `member_count` of a view). */
    function MemberCount(c: Id): (r: nat)
      reads this
      ensures r == |MembersOf(c)|
      ensures r == 0 <==> forall u :: (c, u) !in members
    {
      var s := MembersOf(c);
      if s == {} then 0 else assert exists u :: u in s; |s|
    }

    /** The friend group `getFriendGroupForUser(u)` finds, if any. */
    ghost function FriendGroupOf(u: Id): (r: Option<Id>)
      reads this`communities
      ensures r.Some? ==> r.value in communities && IsFriendGroupOf(communities[r.value], u)
      ensures r.None? ==> forall g :: g in communities ==> !IsFriendGroupOf(communities[g], u)
    {
      if exists g :: g in communities && IsFriendGroupOf(communities[g], u) then
        var g :| g in communities && IsFriendGroupOf(communities[g], u); Some(g)
      else None
    }

    /** `UPDATE friendships SET status = ? WHERE id = ?`. */
    method SetFriendshipStatus(id: Id, st: Status)
      requires Valid() && id in friendships
      modifies this`friendships
      ensures Valid()
      ensures friendships == old(friendships)[id := old(friendships[id]).(status := st)]
    {
      friendships := friendships[id := friendships[id].(status := st)];
    }

    /** `UPDATE community_invites SET status = ? WHERE id = ?`. */
    method SetInviteStatus(id: Id, st: Status)
      requires Valid() && id in invites
      modifies this`invites
      ensures Valid()
      ensures invites == old(invites)[id := old(invites[id]).(status := st)]
    {
      invites := invites[id := invites[id].(status := st)];
    }

    /** The four DELETEs that remove community `c` with its invites, members and parent links. */
    method DeleteCommunity(c: Id)
      requires Valid()
      modifies this`invites, this`members, this`parents, this`communities
      ensures Valid()
      ensures old(SlugsUnique()) ==> SlugsUnique()
      ensures invites == DropCommunityInvites(old(invites), c)
      ensures members == DropFirst(old(members), c)
      ensures parents == set k | k in old(parents) && k.0 != c
      ensures communities == old(communities) - {c}
    {
      invites := DropCommunityInvites(invites, c);
      members := DropFirst(members, c);
      parents := set k | k in parents && k.0 != c;
      communities := communities - {c};
    }

    /** `UPDATE communities SET is_active = FALSE WHERE id = ?`. */
    method Deactivate(c: Id)
      requires Valid() && c in communities
      modifies this`communities
      ensures Valid()
      ensures old(SlugsUnique()) ==> SlugsUnique()
      ensures communities == old(communities)[c := old(communities[c]).(isActive := false)]
    {
      communities := communities[c := communities[c].(isActive := false)];
    }

    /** `getFriendGroupForUser(userId)`: the SELECT and its first row. */
    method GetFriendGroupForUser(userId: Id) returns (r: Option<Id>)
      requires Valid()
      ensures r == FriendGroupOf(userId)
      ensures r.Some? ==> r.value in communities && IsFriendGroupOf(communities[r.value], userId)
    {
      if exists g :: g in communities && IsFriendGroupOf(communities[g], userId) {
        var g :| g in communities && IsFriendGroupOf(communities[g], userId);
        r := Some(g);
      } else {
        r := None;
      }
    }

    /** The active user with this email, if any (`users WHERE email = ? AND is_active`). */
    ghost function ActiveUserByEmail(email: string): (r: Option<Id>)
      reads this`users
      ensures r.Some? ==> r.value in users && users[r.value].email == email && users[r.value].isActive
      ensures r.None? ==> forall id :: id in users && users[id].email == email ==> !users[id].isActive
    {
      if exists id :: id in users && users[id].email == email && users[id].isActive then
        var id :| id in users && users[id].email == email && users[id].isActive; Some(id)
      else None
    }

    method FindActiveUserByEmail(email: string) returns (r: Option<Id>)
      requires Valid()
      ensures r == ActiveUserByEmail(email)
    {
      if exists id :: id in users && users[id].email == email && users[id].isActive {
        var id :| id in users && users[id].email == email && users[id].isActive;
        r := Some(id);
      } else {
        r := None;
      }
    }
  }
}
