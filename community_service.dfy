/**
 * Community membership, invitations and editing (src/services/communityService.js).
 * Each exported service function is a method over the tables of `Db`; the
 * `modifies` frame names exactly the tables the function writes.
 */
module CommunityService {
  import opened Wrappers
  import opened Json
  import opened Database

  /** The type column as stored: 'LOCATION', 'SUB' or 'PRIVATE'. */
  function KindName(k: CommunityType): (r: string)
    ensures k == Private <==> r == "PRIVATE"
    ensures k == Location <==> r == "LOCATION"
    ensures k == Sub <==> r == "SUB"
  {
    match k
    case Location => "LOCATION"
    case Sub => "SUB"
    case Private => "PRIVATE"
  }

  /** `description || null`: an empty description is stored as NULL. */
  function StoredDescription(d: Option<string>): (r: Option<string>)
    ensures r.Some? <==> d.Some? && d.value != ""
    ensures r.Some? ==> r == d
  {
    if d.Some? && d.value != "" then d else None
  }

  /** `PARSE_JSON(profile_data != null ? JSON.stringify(profile_data) : 'null')`. */
  function StoredProfile(p: Option<Json>): (r: Json)
    ensures p.None? ==> r == Null
    ensures p.Some? ==> r == p.value
  {
    if p.Some? then p.value else Null
  }

  // ---------------------------------------------------------------- row mapping

  /** The keys of the object `rowToCommunity` builds. */
  const CommunityKeys: set<string> :=
    {"id", "name", "slug", "type", "parent_id", "founder_id", "is_friend_group",
     "description", "profile_data", "is_active", "created_at", "updated_at"}

  /** The keys `rowToCommunity` never leaves undefined. */
  const DefinedKeys: set<string> :=
    {"parent_id", "founder_id", "description", "profile_data", "is_friend_group", "is_active"}

  /**
   * `rowToCommunity(row)`: each column is read upper-case first, then lower-case;
   * optional columns default to null, `is_friend_group` to false and
   * `is_active` to true. A missing row gives null.
   */
  function RowToCommunity(row: Option<map<string, Json>>): (r: Option<map<string, Json>>)
    ensures row.None? <==> r.None?
    ensures r.Some? ==> DefinedKeys <= r.value.Keys <= CommunityKeys
  {
    match row
    case None => None
    case Some(w) => Some(map k | k in CommunityKeys && CommunityField(w, k).Some? :: CommunityField(w, k).value)
  }

  /** The value `rowToCommunity` gives key `k` (`undefined` for a key it does not build). */
  function CommunityField(w: map<string, Json>, k: string): (r: Prop)
    ensures k in DefinedKeys ==> r.Some?
  {
    match k
    case "id" => Col(w, "ID", "id")
    case "name" => Col(w, "NAME", "name")
    case "slug" => Col(w, "SLUG", "slug")
    case "type" => Col(w, "TYPE", "type")
    case "parent_id" => Some(OrNull(Col(w, "PARENT_ID", "parent_id")))
    case "founder_id" => Some(OrNull(Col(w, "FOUNDER_ID", "founder_id")))
    case "is_friend_group" => Some(OrDefault(Col(w, "IS_FRIEND_GROUP", "is_friend_group"), Bool(false)))
    case "description" => Some(OrNull(Col(w, "DESCRIPTION", "description")))
    case "profile_data" => Some(OrNull(Col(w, "PROFILE_DATA", "profile_data")))
    case "is_active" => Some(OrDefault(Col(w, "IS_ACTIVE", "is_active"), Bool(true)))
    case "created_at" => Col(w, "CREATED_AT", "created_at")
    case "updated_at" => Col(w, "UPDATED_AT", "updated_at")
    case _ => None
  }

  /** The identifying columns are copied, upper-case spelling first. */
  lemma RowToCommunityColumns(w: map<string, Json>)
    ensures At(RowToCommunity(Some(w)).value, "id") == Col(w, "ID", "id")
    ensures At(RowToCommunity(Some(w)).value, "name") == Col(w, "NAME", "name")
    ensures At(RowToCommunity(Some(w)).value, "slug") == Col(w, "SLUG", "slug")
    ensures At(RowToCommunity(Some(w)).value, "type") == Col(w, "TYPE", "type")
  {
  }

  /** Missing optional columns become null; the flags default to not-a-friend-group and active. */
  lemma RowToCommunityDefaults(w: map<string, Json>)
    ensures RowToCommunity(Some(w)).value["parent_id"] == OrNull(Col(w, "PARENT_ID", "parent_id"))
    ensures RowToCommunity(Some(w)).value["founder_id"] == OrNull(Col(w, "FOUNDER_ID", "founder_id"))
    ensures RowToCommunity(Some(w)).value["description"] == OrNull(Col(w, "DESCRIPTION", "description"))
    ensures IsNullish(Col(w, "IS_FRIEND_GROUP", "is_friend_group")) ==>
              RowToCommunity(Some(w)).value["is_friend_group"] == Bool(false)
    ensures IsNullish(Col(w, "IS_ACTIVE", "is_active")) ==> RowToCommunity(Some(w)).value["is_active"] == Bool(true)
    ensures !IsNullish(Col(w, "IS_ACTIVE", "is_active")) ==>
              RowToCommunity(Some(w)).value["is_active"] == Col(w, "IS_ACTIVE", "is_active").value
  {
  }

  // ---------------------------------------------------------------- listing

  /** The filters of `listCommunities`; `kind` is the raw `type` query value. */
  datatype Filters = Filters(kind: Option<string>, parentId: Option<Id>, activeOnly: bool, userId: Option<Id>)

  predicate Truthy(s: Option<string>) {
    s.Some? && s.value != ""
  }

  /** The WHERE clause `listCommunities` builds, for one row. */
  predicate Listed(db: Database.Db, f: Filters, id: Id)
    reads db
    requires id in db.communities
  {
    var c := db.communities[id];
    var memberOk := Truthy(f.userId) && db.IsMember(f.userId.value, id);
    (if Truthy(f.kind) then
       (if f.kind.value == "PRIVATE" then Truthy(f.userId) && c.kind == Private && memberOk
        else KindName(c.kind) == f.kind.value)
     else
       c.kind != Private || (Truthy(f.userId) && memberOk))
    && (f.parentId.Some? ==> c.parentId == f.parentId)
    && (f.activeOnly ==> c.isActive)
  }

  /**
   * `listCommunities(filters)`, as the set of ids it returns (the ORDER BY
   * name only orders them). PRIVATE rows appear only to their members.
   */
  function ListCommunities(db: Database.Db, f: Filters): (r: set<Id>)
    reads db
    ensures r <= db.communities.Keys
    ensures forall id :: id in r && db.communities[id].kind == Private ==>
              f.userId.Some? && db.IsMember(f.userId.value, id)
    ensures f.activeOnly ==> forall id :: id in r ==> db.communities[id].isActive
    ensures f.parentId.Some? ==> forall id :: id in r ==> db.communities[id].parentId == f.parentId
    ensures Truthy(f.kind) ==> forall id :: id in r ==> KindName(db.communities[id].kind) == f.kind.value
    ensures f.kind == Some("PRIVATE") && !Truthy(f.userId) ==> r == {}
    ensures !Truthy(f.kind) ==> forall id ::
              (id in db.communities && db.communities[id].kind != Private
               && (f.parentId.Some? ==> db.communities[id].parentId == f.parentId)
               && (f.activeOnly ==> db.communities[id].isActive)) ==> id in r
    ensures !Truthy(f.kind) && Truthy(f.userId) ==> forall id ::
              (id in db.communities && db.communities[id].kind == Private && db.IsMember(f.userId.value, id)
               && (f.parentId.Some? ==> db.communities[id].parentId == f.parentId)
               && (f.activeOnly ==> db.communities[id].isActive)) ==> id in r
    ensures f.kind == Some("PRIVATE") && Truthy(f.userId) ==> forall id ::
              (id in db.communities && db.communities[id].kind == Private && db.IsMember(f.userId.value, id)
               && (f.parentId.Some? ==> db.communities[id].parentId == f.parentId)
               && (f.activeOnly ==> db.communities[id].isActive)) ==> id in r
    ensures Truthy(f.kind) && f.kind != Some("PRIVATE") ==> forall id ::
              (id in db.communities && KindName(db.communities[id].kind) == f.kind.value
               && (f.parentId.Some? ==> db.communities[id].parentId == f.parentId)
               && (f.activeOnly ==> db.communities[id].isActive)) ==> id in r
  {
    set id | id in db.communities && Listed(db, f, id)
  }

  /** `getLocalStatus`: a member of a Location is local; elsewhere, local means a member of the parent. */
  function GetLocalStatus(db: Database.Db, userId: Id, communityId: Id): (r: (bool, bool))
    reads db
    ensures db.CommunityById(communityId, false).None? ==> r == (false, false)
    ensures db.CommunityById(communityId, false).Some? ==> r.0 == db.IsMember(userId, communityId)
    ensures db.CommunityById(communityId, false).Some? && db.communities[communityId].kind == Location ==>
              r.1 == r.0
    ensures db.CommunityById(communityId, false).Some? && db.communities[communityId].kind != Location ==>
              (r.1 <==> db.communities[communityId].parentId.Some?
                         && db.IsMember(userId, db.communities[communityId].parentId.value))
  {
    match db.CommunityById(communityId, false)
    case None => (false, false)
    case Some(c) =>
      var isMember := db.IsMember(userId, communityId);
      var isLocal := if c.kind == Location then isMember
                     else c.parentId.Some? && db.IsMember(userId, c.parentId.value);
      (isMember, isLocal)
  }

  // ---------------------------------------------------------------- creation

  /** The parent `createSubCommunity` looks up: an active LOCATION row with that id. */
  predicate ActiveLocation(db: Database.Db, id: Id)
    reads db
  {
    id in db.communities && db.communities[id].kind == Location && db.communities[id].isActive
  }

  /** `createSubCommunity(userId, data)`: the caller must belong to an active Location parent. */
  method CreateSubCommunity(db: Database.Db, userId: Id, name: string, slug: string, parentId: Id,
                            description: Option<string>, profileData: Option<Json>, newId: Id)
    returns (r: Result<CommunityView, Code>)
    requires db.Valid()
    requires newId !in db.communities
    modifies db`communities, db`members
    ensures db.Valid()
    ensures old(db.SlugsUnique()) ==> db.SlugsUnique()
    ensures r == Err(ParentNotLocation) <==> !old(ActiveLocation(db, parentId))
    ensures r == Err(NotLocal) <==> old(ActiveLocation(db, parentId)) && !old(db.IsMember(userId, parentId))
    ensures r == Err(SlugTaken) <==>
              old(ActiveLocation(db, parentId)) && old(db.IsMember(userId, parentId)) && old(db.SlugInUse(slug))
    ensures r.Ok? <==>
              old(ActiveLocation(db, parentId)) && old(db.IsMember(userId, parentId)) && !old(db.SlugInUse(slug))
    ensures r.Err? ==> unchanged(db)
    ensures r.Err? ==> r.error in {ParentNotLocation, NotLocal, SlugTaken}
    ensures r.Ok? ==>
              !old(db.SlugInUse(slug)) && old(db.IsMember(userId, parentId))
              && db.communities == old(db.communities)[newId :=
                   Community(name, slug, Sub, Some(parentId), None, false, StoredDescription(description),
                             StoredProfile(profileData), true)]
              && db.members == old(db.members)[(newId, userId) := Moderator]
              && Some(r.value) == db.GetById(newId, false)
  {
    if !ActiveLocation(db, parentId) {
      return Err(ParentNotLocation);
    }
    if !db.IsMember(userId, parentId) {
      return Err(NotLocal);
    }
    if db.SlugInUse(slug) {
      return Err(SlugTaken);
    }
    var row := Community(name, slug, Sub, Some(parentId), None, false, StoredDescription(description),
                         StoredProfile(profileData), true);
    db.communities := db.communities[newId := row];
    db.members := db.members[(newId, userId) := Moderator];
    r := Ok(CommunityView(newId, row, db.MemberCount(newId)));
  }

  /** The name and slug `createFriendGroupForUser` gives the group of `userId`. */
  function FriendGroupName(db: Database.Db, userId: Id): (r: string)
    reads db
    ensures userId in db.users ==> r == db.users[userId].username + "'s friends"
    ensures userId !in db.users ==> r == "User's friends"
  {
    (if userId in db.users then db.users[userId].username else "User") + "'s friends"
  }

  function FriendGroupSlug(userId: Id): (r: string)
    ensures |r| == |userId| + 8 && r[8..] == userId
  {
    "friends-" + userId
  }

  /**
   * `createFriendGroupForUser(userId)`: the default PRIVATE friend community,
   * founded by the user. The slug `friends-<id>` is inserted without a check,
   * and the row the owner membership goes to is the first one the re-select
   * `WHERE slug = ?` returns, `firstMatch`: the new row, or (the query has no
   * ORDER BY) an older community that already carries that slug.
   */
  method CreateFriendGroupForUser(db: Database.Db, userId: Id, newId: Id, firstMatch: Id)
    returns (r: Option<CommunityView>)
    requires db.Valid()
    requires newId !in db.communities
    requires db.FriendGroupOf(userId).None?
    requires firstMatch == newId
             || (firstMatch in db.communities && db.communities[firstMatch].slug == FriendGroupSlug(userId))
    modifies db`communities, db`members
    ensures db.Valid()
    ensures db.SlugsUnique() <==> old(db.SlugsUnique()) && !old(db.SlugInUse(FriendGroupSlug(userId)))
    ensures db.communities == old(db.communities)[newId :=
              Community(old(FriendGroupName(db, userId)), FriendGroupSlug(userId), Private, None, Some(userId),
                        true, None, Null, true)]
    ensures db.members == old(db.members)[(firstMatch, userId) := Owner]
    ensures db.FriendGroupOf(userId) == Some(newId)
    ensures r == db.GetById(firstMatch, false)
    ensures !old(db.SlugInUse(FriendGroupSlug(userId))) ==>
              firstMatch == newId && r.Some? && r.value.id == newId && db.IsMember(userId, newId)
  {
    var slug := FriendGroupSlug(userId);
    var row := Community(FriendGroupName(db, userId), slug, Private, None, Some(userId),
                         true, None, Null, true);
    ghost var taken := db.SlugInUse(slug);
    ghost var other: Id :| taken ==> other in db.communities && db.communities[other].slug == slug;
    db.communities := db.communities[newId := row];
    db.members := db.members[(firstMatch, userId) := Owner];
    assert IsFriendGroupOf(db.communities[newId], userId);
    assert db.FriendGroupsUnique();
    if taken {
      assert other != newId && db.communities[other].slug == db.communities[newId].slug;
      assert !db.SlugsUnique();
    } else if old(db.SlugsUnique()) {
      forall a, b | a in db.communities && b in db.communities && a != b
        ensures db.communities[a].slug != db.communities[b].slug
      {
        if a != newId && b != newId {
          assert a in old(db.communities) && b in old(db.communities);
        }
      }
      assert db.SlugsUnique();
    } else {
      var a, b :| a in old(db.communities) && b in old(db.communities) && a != b
                  && old(db.communities)[a].slug == old(db.communities)[b].slug;
      assert db.communities[a] == old(db.communities)[a] && db.communities[b] == old(db.communities)[b];
    }
    r := db.GetById(firstMatch, false);
  }

  /**
   * The outcome of the `parent_ids` validation loop of `createPrivateCommunity`:
   * the first parent that is missing or inactive, or that the user does not belong to.
   */
  function ParentError(db: Database.Db, userId: Id, parentIds: seq<Id>): (r: Option<Code>)
    reads db
    decreases |parentIds|
    ensures r.None? <==> forall i :: 0 <= i < |parentIds| ==>
              parentIds[i] in db.communities && db.communities[parentIds[i]].isActive
              && db.IsMember(userId, parentIds[i])
    ensures r.Some? ==> r.value == ParentNotFound || r.value == NotMemberOfParent
  {
    if parentIds == [] then None
    else
      var p := parentIds[0];
      if !(p in db.communities && db.communities[p].isActive) then Some(ParentNotFound)
      else if !db.IsMember(userId, p) then Some(NotMemberOfParent)
      else ParentError(db, userId, parentIds[1..])
  }

  /** The validation loop (lines 284-303). */
  method CheckParents(db: Database.Db, userId: Id, parentIds: seq<Id>) returns (r: Option<Code>)
    ensures r == ParentError(db, userId, parentIds)
  {
    var i := 0;
    while i < |parentIds|
      invariant 0 <= i <= |parentIds|
      invariant ParentError(db, userId, parentIds) == ParentError(db, userId, parentIds[i..])
    {
      var p := parentIds[i];
      assert parentIds[i..][0] == p && parentIds[i..][1..] == parentIds[i + 1..];
      if !(p in db.communities && db.communities[p].isActive) {
        return Some(ParentNotFound);
      }
      if !db.IsMember(userId, p) {
        return Some(NotMemberOfParent);
      }
      i := i + 1;
    }
    assert parentIds[i..] == [];
    return None;
  }

  function ParentLinks(communityId: Id, parentIds: seq<Id>): (r: set<(Id, Id)>)
    ensures forall c, p :: (c, p) in r <==> c == communityId && p in parentIds
  {
    set p | p in parentIds :: (communityId, p)
  }

  /** The insert loop (lines 319-321): one community_parents row per listed parent. */
  method InsertParents(db: Database.Db, communityId: Id, parentIds: seq<Id>)
    modifies db`parents
    ensures db.parents == old(db.parents) + ParentLinks(communityId, parentIds)
  {
    var i := 0;
    while i < |parentIds|
      invariant 0 <= i <= |parentIds|
      invariant db.parents == old(db.parents) + ParentLinks(communityId, parentIds[..i])
    {
      assert parentIds[..i + 1] == parentIds[..i] + [parentIds[i]];
      db.parents := db.parents + {(communityId, parentIds[i])};
      i := i + 1;
    }
    assert parentIds[..i] == parentIds;
  }

  /** `createPrivateCommunity(userId, data)`: the caller becomes founder and owner. */
  method CreatePrivateCommunity(db: Database.Db, userId: Id, name: string, slug: string,
                                description: Option<string>, profileData: Option<Json>,
                                parentIds: seq<Id>, newId: Id)
    returns (r: Result<CommunityView, Code>)
    requires db.Valid()
    requires newId !in db.communities
    modifies db`communities, db`members, db`parents
    ensures db.Valid()
    ensures old(db.SlugsUnique()) ==> db.SlugsUnique()
    ensures old(db.SlugInUse(slug)) ==> r == Err(SlugTaken)
    ensures !old(db.SlugInUse(slug)) && old(ParentError(db, userId, parentIds)).Some? ==>
              r == Err(old(ParentError(db, userId, parentIds)).value)
    ensures r.Err? ==> unchanged(db)
    ensures r.Err? ==> r.error in {SlugTaken, ParentNotFound, NotMemberOfParent}
    ensures r.Ok? <==> !old(db.SlugInUse(slug)) && old(ParentError(db, userId, parentIds)).None?
    ensures r.Ok? ==>
              db.communities == old(db.communities)[newId :=
                Community(name, slug, Private, None, Some(userId), false, StoredDescription(description),
                          StoredProfile(profileData), true)]
              && db.parents == old(db.parents) + ParentLinks(newId, parentIds)
              && db.members == old(db.members)[(newId, userId) := Owner]
              && Some(r.value) == db.GetById(newId, false)
  {
    if db.SlugInUse(slug) {
      return Err(SlugTaken);
    }
    var bad := CheckParents(db, userId, parentIds);
    if bad.Some? {
      return Err(bad.value);
    }
    var row := Community(name, slug, Private, None, Some(userId), false, StoredDescription(description),
                         StoredProfile(profileData), true);
    db.communities := db.communities[newId := row];
    InsertParents(db, newId, parentIds);
    db.members := db.members[(newId, userId) := Owner];
    r := Ok(CommunityView(newId, row, db.MemberCount(newId)));
  }

  // ---------------------------------------------------------------- invitations

  /** The invite rows other than the one for (`communityId`, `inviteeId`). */
  function DropInvite(invites: map<Id, Invite>, communityId: Id, inviteeId: Id): (r: map<Id, Invite>)
    ensures forall k :: k in r <==> k in invites && !(invites[k].communityId == communityId && invites[k].inviteeId == inviteeId)
    ensures forall k :: k in r ==> r[k] == invites[k]
  {
    map k | k in invites && !(invites[k].communityId == communityId && invites[k].inviteeId == inviteeId) :: invites[k]
  }

  /** The invitee `inviteToCommunity` resolves from `{ user_id, email }`, or the error it raises. */
  ghost function Invitee(db: Database.Db, userIdTarget: Option<Id>, email: Option<string>): (r: Result<Id, Code>)
    reads db
    ensures Truthy(userIdTarget) ==> r == Ok(userIdTarget.value)
    ensures !Truthy(userIdTarget) && !Truthy(email) ==> r == Err(InvalidInput)
    ensures r.Ok? ==> r.value != ""
  {
    if Truthy(userIdTarget) then Ok(userIdTarget.value)
    else if Truthy(email) then
      match db.ActiveUserByEmail(email.value)
      case None => Err(UserNotFound)
      case Some(id) => if id != "" then Ok(id) else Err(InvalidInput)
    else Err(InvalidInput)
  }

  /** Whether a pending invite exists for this (community, invitee). */
  predicate HasPendingInvite(db: Database.Db, communityId: Id, inviteeId: Id)
    reads db
  {
    exists k :: k in db.invites && db.invites[k].communityId == communityId
      && db.invites[k].inviteeId == inviteeId && db.invites[k].status == Pending
  }

  /** The first two checks of `inviteToCommunity`: an existing PRIVATE community the inviter founded. */
  predicate MayInvite(db: Database.Db, communityId: Id, inviterId: Id)
    reads db
  {
    communityId in db.communities && db.communities[communityId].kind == Private
    && db.communities[communityId].founderId == Some(inviterId)
  }

  /**
   * `inviteToCommunity(communityId, inviterId, target)`: founder-only, PRIVATE-only;
   * an earlier accepted or declined invite for the pair is replaced by a new pending one.
   */
  method InviteToCommunity(db: Database.Db, communityId: Id, inviterId: Id, userIdTarget: Option<Id>,
                           email: Option<string>, newInviteId: Id)
    returns (r: Result<(Id, Invite), Code>)
    requires db.Valid()
    requires newInviteId !in db.invites
    modifies db`invites
    ensures db.Valid()
    ensures r == Err(NotFound) <==>
              old(db.CommunityById(communityId, true)).None? || old(db.communities[communityId]).kind != Private
    ensures r == Err(NotFounder) <==>
              (old(db.CommunityById(communityId, true)).Some? && old(db.communities[communityId]).kind == Private
               && old(db.communities[communityId]).founderId != Some(inviterId))
    ensures old(MayInvite(db, communityId, inviterId)) && old(Invitee(db, userIdTarget, email)).Err? ==>
              r == Err(old(Invitee(db, userIdTarget, email)).error)
    ensures r == Err(AlreadyMember) <==>
              old(MayInvite(db, communityId, inviterId)) && old(Invitee(db, userIdTarget, email)).Ok?
              && old(db.IsMember(Invitee(db, userIdTarget, email).value, communityId))
    ensures r == Err(InvitePending) <==>
              old(MayInvite(db, communityId, inviterId)) && old(Invitee(db, userIdTarget, email)).Ok?
              && !old(db.IsMember(Invitee(db, userIdTarget, email).value, communityId))
              && old(HasPendingInvite(db, communityId, Invitee(db, userIdTarget, email).value))
    ensures r.Ok? <==>
              old(MayInvite(db, communityId, inviterId)) && old(Invitee(db, userIdTarget, email)).Ok?
              && !old(db.IsMember(Invitee(db, userIdTarget, email).value, communityId))
              && !old(HasPendingInvite(db, communityId, Invitee(db, userIdTarget, email).value))
    ensures r.Err? ==> unchanged(db)
    ensures r.Err? ==> r.error in {NotFound, NotFounder, UserNotFound, InvalidInput, AlreadyMember, InvitePending}
    ensures r.Ok? ==>
              var invitee := old(Invitee(db, userIdTarget, email));
              communityId in old(db.communities) && old(db.communities[communityId]).kind == Private
              && old(db.communities[communityId]).founderId == Some(inviterId)
              && invitee.Ok? && !old(db.IsMember(invitee.value, communityId))
              && !old(HasPendingInvite(db, communityId, invitee.value))
              && r.value == (newInviteId, Invite(communityId, inviterId, invitee.value, Pending))
              && db.invites == DropInvite(old(db.invites), communityId, invitee.value)[newInviteId := r.value.1]
  {
    var c := db.CommunityById(communityId, true);
    if c.None? || c.value.kind != Private {
      return Err(NotFound);
    }
    if c.value.founderId != Some(inviterId) {
      return Err(NotFounder);
    }
    var inviteeId: Id := "";
    if Truthy(userIdTarget) {
      inviteeId := userIdTarget.value;
    } else if Truthy(email) {
      var found := db.FindActiveUserByEmail(email.value);
      if found.None? {
        return Err(UserNotFound);
      }
      inviteeId := found.value;
    }
    if inviteeId == "" {
      return Err(InvalidInput);
    }
    assert Invitee(db, userIdTarget, email) == Ok(inviteeId);
    if db.IsMember(inviteeId, communityId) {
      return Err(AlreadyMember);
    }
    if HasPendingInvite(db, communityId, inviteeId) {
      return Err(InvitePending);
    }
    var invite := Invite(communityId, inviterId, inviteeId, Pending);
    db.invites := DropInvite(db.invites, communityId, inviteeId)[newInviteId := invite];
    r := Ok((newInviteId, invite));
  }

  /** `acceptInvite(inviteId, userId)`: only the invitee, only a pending invite. */
  method AcceptInvite(db: Database.Db, inviteId: Id, userId: Id) returns (r: Result<Option<CommunityView>, Code>)
    requires db.Valid()
    modifies db`members, db`invites
    ensures db.Valid()
    ensures inviteId !in old(db.invites) ==> r == Err(NotFound)
    ensures inviteId in old(db.invites) && old(db.invites[inviteId]).inviteeId != userId ==> r == Err(Forbidden)
    ensures (inviteId in old(db.invites) && old(db.invites[inviteId]).inviteeId == userId
             && old(db.invites[inviteId]).status != Pending) ==> r == Err(InviteInvalid)
    ensures r.Err? ==> unchanged(db)
    ensures r.Err? ==> r.error in {NotFound, Forbidden, InviteInvalid}
    ensures r.Ok? <==>
              inviteId in old(db.invites) && old(db.invites[inviteId]).inviteeId == userId
              && old(db.invites[inviteId]).status == Pending
    ensures r.Ok? ==>
              var inv := old(db.invites[inviteId]);
              inviteId in old(db.invites) && inv.inviteeId == userId && inv.status == Pending
              && db.members == old(db.members)[(inv.communityId, userId) := Member]
              && db.invites == old(db.invites)[inviteId := inv.(status := Accepted)]
              && r.value == db.GetById(inv.communityId, false)
  {
    if inviteId !in db.invites {
      return Err(NotFound);
    }
    var inv := db.invites[inviteId];
    if inv.inviteeId != userId {
      return Err(Forbidden);
    }
    if inv.status != Pending {
      return Err(InviteInvalid);
    }
    db.members := db.members[(inv.communityId, userId) := Member];
    db.SetInviteStatus(inviteId, Accepted);
    r := Ok(db.GetById(inv.communityId, false));
  }

  /** `declineInvite(inviteId, userId)`: only the invitee; the current status is not checked. */
  method DeclineInvite(db: Database.Db, inviteId: Id, userId: Id) returns (r: Result<(), Code>)
    requires db.Valid()
    modifies db`invites
    ensures db.Valid()
    ensures inviteId !in old(db.invites) ==> r == Err(NotFound)
    ensures inviteId in old(db.invites) && old(db.invites[inviteId]).inviteeId != userId ==> r == Err(Forbidden)
    ensures r.Err? ==> unchanged(db)
    ensures r.Err? ==> r.error in {NotFound, Forbidden}
    ensures r.Ok? <==> inviteId in old(db.invites) && old(db.invites[inviteId]).inviteeId == userId
    ensures r.Ok? ==> db.invites == old(db.invites)[inviteId := old(db.invites[inviteId]).(status := Declined)]
  {
    if inviteId !in db.invites {
      return Err(NotFound);
    }
    var inv := db.invites[inviteId];
    if inv.inviteeId != userId {
      return Err(Forbidden);
    }
    db.SetInviteStatus(inviteId, Declined);
    r := Ok(());
  }

  // ---------------------------------------------------------------- membership

  /** `removeMember(communityId, actorId, memberUserId)`: founder-only, PRIVATE-only; the founder stays. */
  method RemoveMember(db: Database.Db, communityId: Id, actorId: Id, memberUserId: Id) returns (r: Result<(), Code>)
    requires db.Valid()
    modifies db`members
    ensures db.Valid()
    ensures old(db.CommunityById(communityId, true)).None? || old(db.communities[communityId]).kind != Private ==>
              r == Err(NotFound)
    ensures (old(db.CommunityById(communityId, true)).Some? && old(db.communities[communityId]).kind == Private
             && old(db.communities[communityId]).founderId != Some(actorId)) ==> r == Err(NotFounder)
    ensures r.Err? ==> unchanged(db)
    ensures r.Err? ==> r.error in {NotFound, NotFounder, CannotRemoveFounder}
    ensures r.Ok? <==>
              old(db.CommunityById(communityId, true)).Some? && old(db.communities[communityId]).kind == Private
              && old(db.communities[communityId]).founderId == Some(actorId) && actorId != memberUserId
    ensures r == Err(CannotRemoveFounder) <==>
              (old(db.CommunityById(communityId, true)).Some?
               && old(db.communities[communityId]).kind == Private
               && old(db.communities[communityId]).founderId == Some(actorId) && actorId == memberUserId)
    ensures r.Ok? ==>
              communityId in db.communities && db.communities[communityId].founderId == Some(actorId)
              && actorId != memberUserId
              && db.members == old(db.members) - {(communityId, memberUserId)}
  {
    var c := db.CommunityById(communityId, true);
    if c.None? || c.value.kind != Private {
      return Err(NotFound);
    }
    if c.value.founderId != Some(actorId) {
      return Err(NotFounder);
    }
    if c.value.founderId == Some(memberUserId) {
      return Err(CannotRemoveFounder);
    }
    db.members := db.members - {(communityId, memberUserId)};
    r := Ok(());
  }

  /** The reply of `join`: whether a row was added, and the community. */
  datatype Joined = Joined(joined: bool, community: CommunityView)

  /** `join(userId, communityId)`: a no-op for members; PRIVATE communities are invite-only. */
  method Join(db: Database.Db, userId: Id, communityId: Id) returns (r: Result<Joined, Code>)
    requires db.Valid()
    modifies db`members
    ensures db.Valid()
    ensures r.Err? ==> r.error in {NotFound, PrivateInviteOnly}
    ensures r.Ok? <==> old(db.CommunityById(communityId, false)).Some? && old(db.communities[communityId]).kind != Private
    ensures old(db.CommunityById(communityId, false)).None? ==> r == Err(NotFound)
    ensures old(db.CommunityById(communityId, false)).Some? && old(db.communities[communityId]).kind == Private ==>
              r == Err(PrivateInviteOnly)
    ensures r.Err? || !r.value.joined ==> db.members == old(db.members)
    ensures r.Ok? ==>
              old(db.CommunityById(communityId, false)).Some?
              && old(db.communities[communityId]).kind != Private
              && (r.value.joined <==> !old(db.IsMember(userId, communityId)))
              && Some(r.value.community) == db.GetById(communityId, false)
    ensures r.Ok? && r.value.joined ==> db.members == old(db.members)[(communityId, userId) := Member]
  {
    var c := db.CommunityById(communityId, false);
    if c.None? {
      return Err(NotFound);
    }
    if c.value.kind == Private {
      return Err(PrivateInviteOnly);
    }
    if db.IsMember(userId, communityId) {
      return Ok(Joined(false, CommunityView(communityId, c.value, db.MemberCount(communityId))));
    }
    db.members := db.members[(communityId, userId) := Member];
    r := Ok(Joined(true, CommunityView(communityId, c.value, db.MemberCount(communityId))));
  }

  /**
   * `leave(userId, communityId)`: the friend-group founder cannot leave; a PRIVATE
   * founder leaving deletes the community, and a SUB left without members becomes inactive.
   */
  method Leave(db: Database.Db, userId: Id, communityId: Id) returns (r: Result<bool, Code>)
    requires db.Valid()
    modifies db`members, db`invites, db`parents, db`communities
    ensures db.Valid()
    ensures r.Err? ==> r.error in {NotFound, CannotLeaveFriendGroup}
    ensures old(db.SlugsUnique()) ==> db.SlugsUnique()
    ensures r == Err(NotFound) <==> communityId !in old(db.communities)
    ensures r == Err(CannotLeaveFriendGroup) <==>
              (communityId in old(db.communities) && old(db.communities[communityId]).kind == Private
               && old(db.communities[communityId]).isFriendGroup
               && old(db.communities[communityId]).founderId == Some(userId))
    ensures r.Err? || !r.value ==> unchanged(db)
    ensures r.Ok? ==> (r.value <==> old(db.IsMember(userId, communityId)))
    ensures r == Ok(true) && old(db.communities[communityId]).kind == Private
            && old(db.communities[communityId]).founderId == Some(userId) ==>
              db.communities == old(db.communities) - {communityId}
              && db.members == DropFirst(old(db.members), communityId)
              && db.invites == DropCommunityInvites(old(db.invites), communityId)
              && db.parents == set k | k in old(db.parents) && k.0 != communityId
    ensures r == Ok(true) && !(old(db.communities[communityId]).kind == Private
            && old(db.communities[communityId]).founderId == Some(userId)) ==>
              db.members == old(db.members) - {(communityId, userId)}
              && db.invites == old(db.invites) && db.parents == old(db.parents)
              && db.communities == (if old(db.communities[communityId]).kind == Sub && db.MemberCount(communityId) == 0
                                    then old(db.communities)[communityId := old(db.communities[communityId]).(isActive := false)]
                                    else old(db.communities))
  {
    var found := db.CommunityById(communityId, true);
    if found.None? {
      return Err(NotFound);
    }
    var c := found.value;
    if c.kind == Private && c.isFriendGroup && c.founderId == Some(userId) {
      return Err(CannotLeaveFriendGroup);
    }
    var wasMember := db.IsMember(userId, communityId);
    if wasMember {
      db.members := db.members - {(communityId, userId)};
    }
    var left := wasMember;
    if left && c.kind == Private && c.founderId == Some(userId) {
      db.DeleteCommunity(communityId);
      return Ok(true);
    }
    if left && c.kind == Sub {
      var cnt := db.MemberCount(communityId);
      if cnt == 0 {
        db.Deactivate(communityId);
      }
    }
    r := Ok(left);
  }

  /** `addMember(communityId, userId, role)`: an unconditional insert. */
  method AddMember(db: Database.Db, communityId: Id, userId: Id, role: Role)
    modifies db`members
    ensures db.members == old(db.members)[(communityId, userId) := role]
  {
    db.members := db.members[(communityId, userId) := role];
  }

  /** `removeMemberFromCommunity(communityId, userId)`: an unconditional delete. */
  method RemoveMemberFromCommunity(db: Database.Db, communityId: Id, userId: Id)
    modifies db`members
    ensures db.members == old(db.members) - {(communityId, userId)}
  {
    db.members := db.members - {(communityId, userId)};
  }

  /**
   * The users `getMembers(communityId)` lists: its member rows joined with the
   * users that are still active, so a deactivated member is left out.
   */
  function GetMembers(db: Database.Db, communityId: Id): (r: set<Id>)
    reads db
    ensures r <= db.MembersOf(communityId)
    ensures forall u :: u in r <==> db.IsMember(u, communityId) && u in db.users && db.users[u].isActive
  {
    set u | u in db.MembersOf(communityId) && u in db.users && db.users[u].isActive
  }

  // ---------------------------------------------------------------- editing

  /** The fields of an `updateCommunity` payload; `Keep` is an absent (`undefined`) field. */
  datatype CommunityUpdate = CommunityUpdate(
    description: Update<Option<string>>,
    profileData: Update<Json>,
    name: Update<string>,
    slug: Update<string>,
    parentIds: Update<seq<Id>>)

  /** The row after the UPDATE: name and slug only for the founder of a PRIVATE community. */
  function UpdatedRow(c: Community, u: CommunityUpdate, isPrivateFounder: bool): (r: Community)
    ensures r.kind == c.kind && r.parentId == c.parentId && r.founderId == c.founderId
    ensures r.isFriendGroup == c.isFriendGroup && r.isActive == c.isActive
    ensures r.description == (if u.description.SetTo? then u.description.value else c.description)
    ensures r.profileData == (if u.profileData.SetTo? then u.profileData.value else c.profileData)
    ensures !isPrivateFounder ==> r.name == c.name && r.slug == c.slug
    ensures isPrivateFounder && u.name.SetTo? ==> r.name == u.name.value
    ensures isPrivateFounder && u.slug.SetTo? ==> r.slug == u.slug.value
  {
    c.(description := if u.description.SetTo? then u.description.value else c.description,
       profileData := if u.profileData.SetTo? then u.profileData.value else c.profileData,
       name := if isPrivateFounder && u.name.SetTo? then u.name.value else c.name,
       slug := if isPrivateFounder && u.slug.SetTo? then u.slug.value else c.slug)
  }

  /** `SELECT 1 FROM communities WHERE slug = ? AND id != ?` finds a row. */
  predicate SlugUsedByOther(db: Database.Db, slug: string, id: Id)
    reads db
  {
    exists o :: o in db.communities && o != id && db.communities[o].slug == slug
  }

  /** The parents the re-insert loop keeps: active communities the user belongs to. */
  function KeptParents(db: Database.Db, communityId: Id, userId: Id, parentIds: seq<Id>): (r: set<(Id, Id)>)
    reads db
    ensures forall c, p :: (c, p) in r <==>
              c == communityId && p in parentIds && p in db.communities && db.communities[p].isActive
              && db.IsMember(userId, p)
  {
    set p | p in parentIds && p in db.communities && db.communities[p].isActive && db.IsMember(userId, p)
      :: (communityId, p)
  }

  /** The parent re-insert loop (lines 793-804); invalid parents are skipped silently. */
  method ReinsertParents(db: Database.Db, communityId: Id, userId: Id, parentIds: seq<Id>)
    modifies db`parents
    ensures db.parents == old(db.parents) + KeptParents(db, communityId, userId, parentIds)
  {
    var i := 0;
    while i < |parentIds|
      invariant 0 <= i <= |parentIds|
      invariant db.parents == old(db.parents) + KeptParents(db, communityId, userId, parentIds[..i])
    {
      var p := parentIds[i];
      assert parentIds[..i + 1] == parentIds[..i] + [p];
      if p in db.communities && db.communities[p].isActive {
        if db.IsMember(userId, p) {
          db.parents := db.parents + {(communityId, p)};
        }
      }
      i := i + 1;
    }
    assert parentIds[..i] == parentIds;
  }

  /**
   * The permission checks of `updateCommunity`: not a LOCATION; a PRIVATE
   * community's founder; a SUB community's moderator.
   */
  predicate MayUpdate(db: Database.Db, communityId: Id, userId: Id)
    reads db
  {
    communityId in db.communities && db.communities[communityId].kind != Location
    && (db.communities[communityId].kind == Private ==> db.communities[communityId].founderId == Some(userId))
    && (db.communities[communityId].kind == Sub ==>
          db.IsMember(userId, communityId) && db.members[(communityId, userId)] == Moderator)
  }

  /** A PRIVATE founder renames the slug to one another community holds. */
  predicate SlugClash(db: Database.Db, communityId: Id, userId: Id, u: CommunityUpdate)
    reads db
    requires communityId in db.communities
  {
    var c := db.communities[communityId];
    c.kind == Private && c.founderId == Some(userId) && u.slug.SetTo? && u.slug.value != c.slug
    && SlugUsedByOther(db, u.slug.value, communityId)
  }

  /**
   * `updateCommunity(communityId, userId, updates)`: LOCATION is read-only,
   * PRIVATE is the founder's, SUB its moderators'.
   */
  method UpdateCommunity(db: Database.Db, communityId: Id, userId: Id, u: CommunityUpdate)
    returns (r: Result<Option<CommunityView>, Code>)
    requires db.Valid()
    modifies db`communities, db`parents
    ensures db.Valid()
    ensures r == Err(NotFound) <==> communityId !in old(db.communities)
    ensures r == Err(LocationReadonly) <==>
              communityId in old(db.communities) && old(db.communities[communityId]).kind == Location
    ensures r == Err(NotFounder) <==>
              (communityId in old(db.communities) && old(db.communities[communityId]).kind == Private
               && old(db.communities[communityId]).founderId != Some(userId))
    ensures r.Ok? <==> old(MayUpdate(db, communityId, userId)) && !old(SlugClash(db, communityId, userId, u))
    ensures r == Err(SlugTaken) <==> old(MayUpdate(db, communityId, userId)) && old(SlugClash(db, communityId, userId, u))
    ensures communityId in old(db.communities) && old(db.communities[communityId]).kind == Sub ==>
              (r == Err(NotMember) <==> !old(db.IsMember(userId, communityId)))
              && (r == Err(NotModerator) <==>
                    old(db.IsMember(userId, communityId)) && old(db.members[(communityId, userId)]) != Moderator)
    ensures r.Err? ==> unchanged(db)
    ensures r.Err? ==> r.error in {NotFound, LocationReadonly, NotFounder, NotMember, NotModerator, SlugTaken}
    ensures r.Ok? ==>
              var c := old(db.communities[communityId]);
              var pf := c.kind == Private && c.founderId == Some(userId);
              communityId in old(db.communities) && c.kind != Location
              && (c.kind == Private ==> pf)
              && (c.kind == Sub ==> old(db.IsMember(userId, communityId))
                                     && old(db.members[(communityId, userId)]) == Moderator)
              && !(pf && u.slug.SetTo? && u.slug.value != c.slug && old(SlugUsedByOther(db, u.slug.value, communityId)))
              && db.communities == old(db.communities)[communityId := UpdatedRow(c, u, pf)]
              && db.parents == (if pf && u.parentIds.SetTo?
                                then (set k | k in old(db.parents) && k.0 != communityId)
                                      + KeptParents(db, communityId, userId, u.parentIds.value)
                                else old(db.parents))
              && r.value == db.GetById(communityId, false)
    ensures r == Err(SlugTaken) ==> u.slug.SetTo? && old(SlugUsedByOther(db, u.slug.value, communityId))
    ensures old(db.SlugsUnique()) ==> db.SlugsUnique()
  {
    var found := db.CommunityById(communityId, true);
    if found.None? {
      return Err(NotFound);
    }
    var c := found.value;
    if c.kind == Location {
      return Err(LocationReadonly);
    }
    var isPrivateFounder := c.kind == Private && c.founderId == Some(userId);
    if c.kind == Private {
      if !isPrivateFounder {
        return Err(NotFounder);
      }
    } else {
      if !db.IsMember(userId, communityId) {
        return Err(NotMember);
      }
      if db.members[(communityId, userId)] != Moderator {
        return Err(NotModerator);
      }
    }
    if isPrivateFounder && u.slug.SetTo? && u.slug.value != c.slug {
      if SlugUsedByOther(db, u.slug.value, communityId) {
        return Err(SlugTaken);
      }
    }
    WriteUpdate(db, communityId, userId, u, isPrivateFounder);
    r := Ok(db.GetById(communityId, false));
  }

  /** The writes of `updateCommunity` once its checks pass: the row, then the parent links of a PRIVATE founder. */
  method WriteUpdate(db: Database.Db, communityId: Id, userId: Id, u: CommunityUpdate, pf: bool)
    requires db.Valid() && communityId in db.communities
    modifies db`communities, db`parents
    ensures db.Valid()
    ensures db.communities == old(db.communities)[communityId := UpdatedRow(old(db.communities[communityId]), u, pf)]
    ensures db.parents == (if pf && u.parentIds.SetTo?
                           then (set k | k in old(db.parents) && k.0 != communityId)
                                 + KeptParents(db, communityId, userId, u.parentIds.value)
                           else old(db.parents))
    ensures var c := old(db.communities[communityId]);
            old(db.SlugsUnique()) && !(pf && u.slug.SetTo? && u.slug.value != c.slug && old(SlugUsedByOther(db, u.slug.value, communityId)))
            ==> db.SlugsUnique()
  {
    var c := db.communities[communityId];
    db.communities := db.communities[communityId := UpdatedRow(c, u, pf)];
    if pf && u.parentIds.SetTo? {
      db.parents := set k | k in db.parents && k.0 != communityId;
      ReinsertParents(db, communityId, userId, u.parentIds.value);
    }
  }
}
