/**
 * The decisions the user routes make around the services
 * (server/routes/users.js): the page size and offset of the "my events" and
 * "my ratings" listings, the avatar URL, which config sections a PATCH
 * forwards, the friend group created on first request, and the statuses of
 * the friend-request errors.
 */
module UserRoutes {
  import opened Wrappers
  import opened Json
  import opened Text
  import opened Database
  import CommunityService
  import CommunityRoutes
  import FriendService
  import UserService
  import EventService
  import UserConfigService

  // ---------------------------------------------------------------- pagination

  /** `parseInt(v, 10)` of a query value; a missing value is NaN. */
  function QueryInt(q: Option<string>): (r: Option<int>)
    ensures q.None? ==> r.None?
    ensures q.Some? ==> r == ParseInt(q.value)
  {
    if q.Some? then ParseInt(q.value) else None
  }

  /** `Math.min(parseInt(limit, 10) || 50, 100)`. */
  function PageLimit(q: Option<string>): (r: int)
    ensures r <= 100
    ensures QueryInt(q).None? || QueryInt(q).value == 0 ==> r == 50
    ensures QueryInt(q).Some? && QueryInt(q).value != 0 ==> r == if QueryInt(q).value < 100 then QueryInt(q).value else 100
  {
    var n := QueryInt(q);
    var v := if n.None? || n.value == 0 then 50 else n.value;
    if v < 100 then v else 100
  }

  /** `parseInt(offset, 10) || 0`. */
  function PageOffset(q: Option<string>): (r: int)
    ensures QueryInt(q).None? ==> r == 0
    ensures QueryInt(q).Some? ==> r == QueryInt(q).value
  {
    var n := QueryInt(q);
    if n.None? then 0 else n.value
  }

  /** The limit is 50 when absent, empty, not a number or zero. */
  lemma PageLimitDefault(q: string)
    ensures PageLimit(None) == 50
    ensures ParseInt(q).None? ==> PageLimit(Some(q)) == 50
    ensures PageLimit(Some("0")) == 50
  {
    ParseIntOfNat(0, []);
    assert NatToString(0) == "0";
    assert NatToString(0) + [] == "0";
  }

  /** The limit is the number asked for up to 100, and 100 above that. */
  lemma PageLimitOfNat(n: nat, tail: string)
    requires tail == [] || !IsDigit(tail[0])
    ensures 1 <= n <= 100 ==> PageLimit(Some(NatToString(n) + tail)) == n
    ensures n > 100 ==> PageLimit(Some(NatToString(n) + tail)) == 100
  {
    ParseIntOfNat(n, tail);
  }

  /** A negative number passes unchanged: there is no lower clamp. */
  lemma PageLimitNegative(n: nat)
    requires n > 0
    ensures PageLimit(Some("-" + NatToString(n))) == 0 - n
  {
    ParseIntOfNat(n, []);
  }

  /** The offset: 0 when absent or not a number, otherwise the number given. */
  lemma PageOffsetCases(q: string, n: nat)
    ensures PageOffset(None) == 0
    ensures ParseInt(q).None? ==> PageOffset(Some(q)) == 0
    ensures PageOffset(Some(NatToString(n))) == n
  {
    ParseIntOfNat(n, []);
    assert NatToString(n) + [] == NatToString(n);
  }

  // ---------------------------------------------------------------- avatar

  /** `url != null ? String(url).trim() : ''`, then `trimmed || null`. */
  function AvatarParam(url: Prop, drv: EventService.Driver): (r: Option<string>)
    ensures IsNullish(url) ==> r.None?
    ensures !IsNullish(url) ==> r == (if Trim(EventService.JsString(url.value, drv)) == "" then None
                                      else Some(Trim(EventService.JsString(url.value, drv))))
  {
    var trimmed := if !IsNullish(url) then Trim(EventService.JsString(url.value, drv)) else "";
    if trimmed == "" then None else Some(trimmed)
  }

  /**
   * The url stored by `POST /users/me/avatar`: none for a missing or blank
   * url, otherwise the url without surrounding white space, which
   * `setAvatarUrl` keeps as it is.
   */
  lemma AvatarNormalised(url: Prop, drv: EventService.Driver)
    ensures AvatarParam(url, drv).None? <==> IsNullish(url) || IsBlank(EventService.JsString(url.value, drv))
    ensures AvatarParam(url, drv).Some? ==>
              var a := AvatarParam(url, drv).value;
              a != "" && !IsSpace(a[0]) && !IsSpace(a[|a| - 1])
    ensures UserService.AvatarValue(AvatarParam(url, drv)) == AvatarParam(url, drv)
    ensures url.Some? && url.value.Str? && BlankString(url.value.s) ==> AvatarParam(url, drv).None?
  {
    if !IsNullish(url) {
      TrimTrimmed(EventService.JsString(url.value, drv));
      if url.value.Str? {
        BlankIffAllSpace(url.value.s);
      }
    }
  }

  /** Text made of white space only. */
  predicate BlankString(s: string) {
    forall i :: 0 <= i < |s| ==> IsSpace(s[i])
  }

  // ---------------------------------------------------------------- config PATCH

  /** `body('<section>.<key>')`: the nested property, undefined when the section is missing. */
  function Nested(section: Prop, key: string): (r: Prop)
    ensures section.None? ==> r.None?
    ensures section.Some? ==> r == Get(section.value, key)
  {
    if section.Some? then Get(section.value, key) else None
  }

  /** `.optional().isIn(values)`: absent, or a string among `values`. */
  predicate OptionalIn(v: Prop, values: set<string>) {
    v.None? || (v.value.Str? && v.value.s in values)
  }

  /** The validators of `PATCH /users/me/config`; `optional()` skips only an undefined value. */
  predicate ConfigPatchValid(gui: Prop, privacy: Prop) {
    && (gui.None? || gui.value.Obj?)
    && (privacy.None? || privacy.value.Obj?)
    && OptionalIn(Nested(gui, "theme"), {"system", "light", "dark"})
    && OptionalIn(Nested(privacy, "profile_visibility"), {"public", "friends", "private"})
  }

  /** The `updates` object: each section copied only when it is neither null nor undefined. */
  function ConfigUpdates(gui: Prop, privacy: Prop): (r: (Prop, Prop))
    ensures r.0 == (if IsNullish(gui) then None else gui)
    ensures r.1 == (if IsNullish(privacy) then None else privacy)
  {
    (if IsNullish(gui) then None else gui, if IsNullish(privacy) then None else privacy)
  }

  /**
   * A valid PATCH forwards objects only, null never passes validation, and
   * the filter changes nothing `updateConfig` would do with the raw body.
   */
  lemma ConfigPatchForwarding(gui: Prop, privacy: Prop, current: Json)
    ensures ConfigPatchValid(gui, privacy) ==>
              var u := ConfigUpdates(gui, privacy);
              (u.0.None? || u.0.value.Obj?) && (u.1.None? || u.1.value.Obj?)
    ensures gui == Some(Null) || privacy == Some(Null) ==> !ConfigPatchValid(gui, privacy)
    ensures UserConfigService.MergedSection(current, ConfigUpdates(gui, privacy).0) ==
              UserConfigService.MergedSection(current, gui)
    ensures UserConfigService.MergedSection(current, ConfigUpdates(gui, privacy).1) ==
              UserConfigService.MergedSection(current, privacy)
  {
  }

  /** What a valid PATCH forwards names only a known theme and a known profile visibility. */
  lemma ConfigPatchKnownLevels(gui: Prop, privacy: Prop)
    requires ConfigPatchValid(gui, privacy)
    ensures var u := ConfigUpdates(gui, privacy);
      && (u.0.Some? && Get(u.0.value, "theme").Some? ==> Get(u.0.value, "theme").value in {Str("system"), Str("light"), Str("dark")})
      && (u.1.Some? && Get(u.1.value, "profile_visibility").Some? ==>
            Get(u.1.value, "profile_visibility").value in {Str("public"), Str("friends"), Str("private")})
  {
  }

  // ---------------------------------------------------------------- friend group

  /**
   * `GET /users/me/friend-group`: the user's friend group, created first when
   * there is none, with its members. The group is always found after the
   * creation, so the "Failed to load friend group" reply cannot happen; the
   * creation's owner row goes to `firstMatch`, as `CreateFriendGroupForUser` says.
   * The members are those `getMembers` lists, so a deactivated member is left out.
   */
  method GetMyFriendGroup(db: Db, userId: Id, newId: Id, firstMatch: Id)
    returns (r: Result<(CommunityView, set<Id>), nat>)
    requires db.Valid()
    requires db.FriendGroupOf(userId).None? ==>
               newId !in db.communities
               && (firstMatch == newId
                   || (firstMatch in db.communities
                       && db.communities[firstMatch].slug == CommunityService.FriendGroupSlug(userId)))
    modifies db`communities, db`members
    ensures db.Valid()
    ensures old(db.FriendGroupOf(userId)).Some? ==> unchanged(db)
    ensures old(db.FriendGroupOf(userId)).None? ==> db.FriendGroupOf(userId) == Some(newId)
    ensures old(db.FriendGroupOf(userId)).None? ==> db.members == old(db.members)[(firstMatch, userId) := Owner]
    ensures r.Ok?
    ensures r.Ok? ==> db.FriendGroupOf(userId) == Some(r.value.0.id)
    ensures r.Ok? ==> r.value.1 == CommunityService.GetMembers(db, r.value.0.id)
    ensures r.Ok? ==> forall u :: u in r.value.1 <==> db.IsMember(u, r.value.0.id) && u in db.users && db.users[u].isActive
    ensures r.Ok? && old(db.FriendGroupOf(userId)).None? && !old(db.SlugInUse(CommunityService.FriendGroupSlug(userId)))
              && userId in db.users && db.users[userId].isActive ==>
              userId in r.value.1
  {
    var g := db.GetFriendGroupForUser(userId);
    if g.None? {
      var _ := CommunityService.CreateFriendGroupForUser(db, userId, newId, firstMatch);
      g := db.GetFriendGroupForUser(userId);
    }
    // The `if (!friendGroup)` 500 reply: the group is always there by now.
    assert g.Some?;
    var view := db.GetById(g.value, false);
    assert view.Some?;
    r := Ok((view.value, CommunityService.GetMembers(db, g.value)));
  }

  // ---------------------------------------------------------------- friend-request statuses

  /** The status `POST /users/me/friends` answers for an error of `sendRequest`. */
  function SendRequestStatus(c: Code): (r: nat)
    ensures c in {SelfRequest, RequestPending, AlreadyFriends, ReversePending} <==> r == 400
    ensures r == 400 || r == 500
  {
    match c
    case SelfRequest => 400
    case RequestPending => 400
    case AlreadyFriends => 400
    case ReversePending => 400
    case _ => 500
  }

  /** The status of `POST /users/me/friends/requests/:id/accept` for an error of `acceptRequest`. */
  function AcceptRequestStatus(c: Code): (r: nat)
    ensures c == NotFound <==> r == 404
    ensures c in {Forbidden, NotPending} <==> r == 400
    ensures c == FriendGroupMissing ==> r == 500
  {
    match c
    case NotFound => 404
    case Forbidden => 400
    case NotPending => 400
    case _ => 500
  }

  /** The status of `POST /users/me/friends/requests/:id/decline` for an error of `declineRequest`. */
  function DeclineRequestStatus(c: Code): (r: nat)
    ensures c == NotFound <==> r == 404
    ensures c == Forbidden <==> r == 400
  {
    match c
    case NotFound => 404
    case Forbidden => 400
    case _ => 500
  }

  /**
   * `POST /users/me/friends`: 201 with the new request, or 400 for a `user_id`
   * that fails `isUUID(4)` and for every refusal.
   */
  method PostFriendRequest(db: Db, userId: Id, addresseeId: Id, newId: Id) returns (status: nat)
    requires db.Valid() && newId !in db.friendships
    modifies db`friendships
    ensures db.Valid()
    ensures status == 201 || status == 400
    ensures status == 400 ==> unchanged(db)
    ensures !CommunityRoutes.IsUuidV4(addresseeId) ==> status == 400
    ensures userId == addresseeId ==> status == 400
    ensures status == 201 <==>
              CommunityRoutes.IsUuidV4(addresseeId)
              && userId != addresseeId
              && !old(FriendService.HasRow(db, userId, addresseeId, Pending))
              && !old(FriendService.HasRow(db, userId, addresseeId, Accepted))
              && !old(FriendService.HasRow(db, addresseeId, userId, Pending))
              && !old(FriendService.HasRow(db, addresseeId, userId, Accepted))
  {
    if !CommunityRoutes.IsUuidV4(addresseeId) {
      return 400;
    }
    var r := FriendService.SendRequest(db, userId, addresseeId, newId);
    status := if r.Ok? then 201 else SendRequestStatus(r.error);
  }

  /**
   * `POST .../accept`: 400 for a request id that fails `isUUID(4)`, then 200,
   * 404 for an unknown request, 400 for the wrong user or a settled request, else 500.
   */
  method PostAcceptRequest(db: Db, requestId: Id, userId: Id) returns (status: nat)
    requires db.Valid()
    modifies db`friendships, db`members
    ensures db.Valid()
    ensures status in {200, 400, 404, 500}
    ensures status == 404 <==> CommunityRoutes.IsUuidV4(requestId) && requestId !in old(db.friendships)
    ensures status == 400 <==>
              || !CommunityRoutes.IsUuidV4(requestId)
              || (requestId in old(db.friendships)
                  && (old(db.friendships[requestId]).addresseeId != userId || old(db.friendships[requestId]).status != Pending))
    ensures status == 200 <==>
              CommunityRoutes.IsUuidV4(requestId)
              && requestId in old(db.friendships) && old(db.friendships[requestId]).addresseeId == userId
              && old(db.friendships[requestId]).status == Pending
              && old(db.FriendGroupOf(db.friendships[requestId].requesterId)).Some?
              && old(db.FriendGroupOf(db.friendships[requestId].addresseeId)).Some?
    ensures status == 400 || status == 404 ==> unchanged(db)
  {
    if !CommunityRoutes.IsUuidV4(requestId) {
      return 400;
    }
    var r := FriendService.AcceptRequest(db, requestId, userId);
    status := if r.Ok? then 200 else AcceptRequestStatus(r.error);
  }

  /**
   * `POST .../decline`: 400 for a request id that fails `isUUID(4)`, then 200,
   * 404 for an unknown request, 400 when the user is not its addressee.
   */
  method PostDeclineRequest(db: Db, requestId: Id, userId: Id) returns (status: nat)
    requires db.Valid()
    modifies db`friendships
    ensures db.Valid()
    ensures status in {200, 400, 404}
    ensures status == 404 <==> CommunityRoutes.IsUuidV4(requestId) && requestId !in old(db.friendships)
    ensures status == 400 <==>
              || !CommunityRoutes.IsUuidV4(requestId)
              || (requestId in old(db.friendships) && old(db.friendships[requestId]).addresseeId != userId)
    ensures status == 200 <==>
              CommunityRoutes.IsUuidV4(requestId)
              && requestId in old(db.friendships) && old(db.friendships[requestId]).addresseeId == userId
    ensures status != 200 ==> unchanged(db)
  {
    if !CommunityRoutes.IsUuidV4(requestId) {
      return 400;
    }
    var r := FriendService.DeclineRequest(db, requestId, userId);
    status := if r.Ok? then 200 else DeclineRequestStatus(r.error);
  }
}
