/**
 * The decisions the community routes make around the service
 * (src/routes/communities.js): the id-or-slug dispatch on `UUID_REGEX`, the
 * validation of the query and body fields, which create function a body
 * reaches, and the status each service outcome is answered with.
 */
module CommunityRoutes {
  import opened Wrappers
  import opened Json
  import opened Text
  import opened Database
  import CommunityService

  // ---------------------------------------------------------------- UUID_REGEX

  /** `[0-9a-f]` under the `i` flag. */
  predicate IsHex(c: char) {
    '0' <= c <= '9' || 'a' <= c <= 'f' || 'A' <= c <= 'F'
  }

  /** The variant nibble `[89ab]` under the `i` flag. */
  predicate IsVariant(c: char) {
    c == '8' || c == '9' || c == 'a' || c == 'b' || c == 'A' || c == 'B'
  }

  /**
   * What the 8-4-4-4-12 pattern demands at position `i`: dashes between the
   * groups, a version nibble from `versions` at 14, the variant at 19 and a
   * hex digit everywhere else.
   */
  predicate UuidCharAt(s: string, i: nat, versions: set<char>)
    requires i < |s|
  {
    if i == 8 || i == 13 || i == 18 || i == 23 then s[i] == '-'
    else if i == 14 then s[i] in versions
    else if i == 19 then IsVariant(s[i])
    else IsHex(s[i])
  }

  /** The whole string, anchored at both ends, matches the pattern. */
  predicate UuidShaped(s: string, versions: set<char>) {
    |s| == 36 && forall i :: 0 <= i < 36 ==> UuidCharAt(s, i, versions)
  }

  /** `UUID_REGEX.test(s)`: versions 1 to 5. */
  predicate IsUuid(s: string) {
    UuidShaped(s, {'1', '2', '3', '4', '5'})
  }

  /** express-validator's `isUUID(4)`: the same shape with version 4 only. */
  predicate IsUuidV4(s: string) {
    UuidShaped(s, {'4'})
  }

  /** Every character of `t` is a hex digit. */
  predicate AllHex(t: string) {
    forall j :: 0 <= j < |t| ==> IsHex(t[j])
  }

  /** The regular expression read group by group, as it is written. */
  predicate UuidGroups(s: string, versions: set<char>) {
    && |s| == 36
    && AllHex(s[..8]) && s[8] == '-'
    && AllHex(s[9..13]) && s[13] == '-'
    && s[14] in versions && AllHex(s[15..18]) && s[18] == '-'
    && IsVariant(s[19]) && AllHex(s[20..23]) && s[23] == '-'
    && AllHex(s[24..])
  }

  /** The position-wise reading and the group-wise reading of the pattern accept the same strings. */
  lemma {:induction false} UuidGroupsAgree(s: string, versions: set<char>)
    ensures UuidShaped(s, versions) <==> UuidGroups(s, versions)
  {
    if UuidShaped(s, versions) {
      assert s[8] == '-' by { assert UuidCharAt(s, 8, versions); }
      assert s[13] == '-' by { assert UuidCharAt(s, 13, versions); }
      assert s[14] in versions by { assert UuidCharAt(s, 14, versions); }
      assert s[18] == '-' by { assert UuidCharAt(s, 18, versions); }
      assert IsVariant(s[19]) by { assert UuidCharAt(s, 19, versions); }
      assert s[23] == '-' by { assert UuidCharAt(s, 23, versions); }
      GroupHex(s, versions, 0, 8);
      GroupHex(s, versions, 9, 13);
      GroupHex(s, versions, 15, 18);
      GroupHex(s, versions, 20, 23);
      GroupHex(s, versions, 24, 36);
      assert s[..8] == s[0..8] && s[24..] == s[24..36];
    }
    if UuidGroups(s, versions) {
      forall i | 0 <= i < 36
        ensures UuidCharAt(s, i, versions)
      {
        if i < 8 { assert IsHex(s[..8][i]); }
        else if 9 <= i < 13 { assert IsHex(s[9..13][i - 9]); }
        else if 15 <= i < 18 { assert IsHex(s[15..18][i - 15]); }
        else if 20 <= i < 23 { assert IsHex(s[20..23][i - 20]); }
        else if 24 <= i { assert IsHex(s[24..][i - 24]); }
      }
    }
  }

  /** A group of positions that the pattern fills with hex digits holds only hex digits. */
  lemma GroupHex(s: string, versions: set<char>, lo: nat, hi: nat)
    requires UuidShaped(s, versions)
    requires (lo, hi) in {(0, 8), (9, 13), (15, 18), (20, 23), (24, 36)}
    ensures AllHex(s[lo..hi])
  {
    forall j | 0 <= j < hi - lo
      ensures IsHex(s[lo..hi][j])
    {
      assert UuidCharAt(s, lo + j, versions);
    }
  }

  /** The `i` flag: lower-casing a string does not change whether it is a UUID. */
  lemma {:induction false} UuidIgnoresCase(s: string)
    ensures IsUuid(Lower(s)) <==> IsUuid(s)
  {
    var vs := {'1', '2', '3', '4', '5'};
    if |s| == 36 {
      forall i | 0 <= i < 36
        ensures UuidCharAt(Lower(s), i, vs) <==> UuidCharAt(s, i, vs)
      {
        assert Lower(s)[i] == LowerChar(s[i]);
      }
    }
  }

  /** Whatever `isUUID(4)` lets through is dispatched by id. */
  lemma V4IsUuid(s: string)
    requires IsUuidV4(s)
    ensures IsUuid(s)
  {
    assert forall i :: 0 <= i < 36 ==> UuidCharAt(s, i, {'4'}) ==> UuidCharAt(s, i, {'1', '2', '3', '4', '5'});
  }

  /** A lower-case version-4 id passes `isUUID(4)`. */
  lemma UuidV4Example()
    ensures IsUuidV4("123e4567-e89b-42d3-a456-426614174000")
  {
    var a := "123e4567-e89b-42d3-a456-426614174000";
    forall i | 0 <= i < 36 ensures UuidCharAt(a, i, {'4'}) { }
  }

  /** An upper-case version-1 id matches `UUID_REGEX`. */
  lemma UuidUpperCaseExample()
    ensures IsUuid("123E4567-E89B-12D3-A456-426614174000")
  {
    var b := "123E4567-E89B-12D3-A456-426614174000";
    forall i | 0 <= i < 36 ensures UuidCharAt(b, i, {'1', '2', '3', '4', '5'}) { }
  }

  /** The nil UUID (version 0) and an ordinary slug do not match, so both are looked up as slugs. */
  lemma NotUuidExamples()
    ensures !IsUuid("00000000-0000-0000-0000-000000000000")
    ensures !IsUuid("maple-street-gardeners")
  {
    assert !UuidCharAt("00000000-0000-0000-0000-000000000000", 14, {'1', '2', '3', '4', '5'});
  }

  // ---------------------------------------------------------------- id or slug

  /** One active community carries this slug. */
  ghost predicate SlugOfActive(db: Db, slug: string)
    reads db
  {
    exists id :: id in db.communities && db.communities[id].slug == slug && db.communities[id].isActive
  }

  /** `getBySlug(slug)`: the active community with that slug, read through `getById`. */
  ghost function BySlug(db: Db, slug: string): (r: Option<CommunityView>)
    reads db
    ensures r.Some? <==> SlugOfActive(db, slug)
    ensures r.Some? ==> r.value.row.slug == slug && r.value.row.isActive
    ensures r.Some? ==> Some(r.value) == db.GetById(r.value.id, false)
  {
    if SlugOfActive(db, slug) then
      var id :| id in db.communities && db.communities[id].slug == slug && db.communities[id].isActive;
      db.GetById(id, false)
    else None
  }

  /** `UUID_REGEX.test(idOrSlug) ? getById(idOrSlug) : getBySlug(idOrSlug)`. */
  ghost function FindCommunity(db: Db, idOrSlug: string): (r: Option<CommunityView>)
    reads db
    ensures r.Some? ==> r.value.row.isActive && Some(r.value) == db.GetById(r.value.id, false)
    ensures IsUuid(idOrSlug) ==> (r.Some? <==> idOrSlug in db.communities && db.communities[idOrSlug].isActive)
    ensures IsUuid(idOrSlug) && r.Some? ==> r.value.id == idOrSlug
    ensures !IsUuid(idOrSlug) ==> (r.Some? <==> SlugOfActive(db, idOrSlug))
    ensures !IsUuid(idOrSlug) && r.Some? ==> r.value.row.slug == idOrSlug
  {
    if IsUuid(idOrSlug) then db.GetById(idOrSlug, false) else BySlug(db, idOrSlug)
  }

  /** With unique slugs, a community whose slug is not UUID-shaped is found by its slug. */
  lemma FoundBySlug(db: Db, id: Id)
    requires db.SlugsUnique()
    requires id in db.communities && db.communities[id].isActive && !IsUuid(db.communities[id].slug)
    ensures FindCommunity(db, db.communities[id].slug) == db.GetById(id, false)
  {
  }

  /**
   * A UUID-shaped slug is never looked up as a slug: unless it is also the id
   * of an active community, that community is unreachable by its slug.
   */
  lemma UuidSlugShadowed(db: Db, id: Id)
    requires id in db.communities && IsUuid(db.communities[id].slug)
    requires db.CommunityById(db.communities[id].slug, false).None?
    ensures FindCommunity(db, db.communities[id].slug).None?
  {
  }

  /**
   * `GET /communities/:id`: the trimmed parameter must not be empty (400); a
   * community that is not found is 404.
   */
  ghost function GetCommunity(db: Db, raw: string): (r: Result<CommunityView, nat>)
    reads db
    ensures r.Err? ==> r.error in {400, 404}
    ensures r.Err? && r.error == 400 <==> Trim(raw) == ""
    ensures Trim(raw) != "" ==> (r.Ok? <==> FindCommunity(db, Trim(raw)).Some?)
    ensures r.Ok? ==> Some(r.value) == FindCommunity(db, Trim(raw))
  {
    var idOrSlug := Trim(raw);
    if idOrSlug == "" then Err(400)
    else
      match FindCommunity(db, idOrSlug)
      case None => Err(404)
      case Some(c) => Ok(c)
  }

  /** Surrounding spaces do not change which community the parameter names. */
  lemma GetCommunityTrims(db: Db, raw: string)
    ensures GetCommunity(db, raw) == GetCommunity(db, Trim(raw))
  {
    TrimIdempotent(raw);
  }

  // ---------------------------------------------------------------- member pagination

  /** The page of `GET /communities/:id/members`. */
  datatype Page = Page(limit: nat, offset: nat)

  /** `query('limit').optional().isInt({ min: 1, max: 100 })`. */
  predicate LimitValid(q: Option<string>) {
    q.None? || (IntText(q.value).Some? && 1 <= IntText(q.value).value <= 100)
  }

  /** `query('offset').optional().isInt({ min: 0 })`. */
  predicate OffsetValid(q: Option<string>) {
    q.None? || (IntText(q.value).Some? && IntText(q.value).value >= 0)
  }

  /**
   * The page once the query is valid: `limit ? Number(limit) : 50` and
   * `offset ? Number(offset) : 0` on the values `toInt` produced.
   */
  function MembersPage(limit: Option<string>, offset: Option<string>): (r: Result<Page, nat>)
    ensures r.Err? ==> r.error == 400
    ensures r.Ok? <==> LimitValid(limit) && OffsetValid(offset)
    ensures r.Ok? ==> 1 <= r.value.limit <= 100
    ensures r.Ok? && limit.None? ==> r.value.limit == 50
    ensures r.Ok? && offset.None? ==> r.value.offset == 0
    ensures r.Ok? && limit.Some? ==> r.value.limit as int == IntText(limit.value).value
    ensures r.Ok? && offset.Some? ==> r.value.offset as int == IntText(offset.value).value
  {
    if !(LimitValid(limit) && OffsetValid(offset)) then Err(400)
    else
      var l := if limit.Some? then IntText(limit.value).value else 50;
      var o := if offset.Some? then IntText(offset.value).value else 0;
      Ok(Page(l, o))
  }

  /** Any written limit in 1..100 and offset is taken as written; 0 and 101 are refused. */
  lemma MembersPageOfNat(l: nat, o: nat)
    ensures 1 <= l <= 100 ==> MembersPage(Some(NatToString(l)), Some(NatToString(o))) == Ok(Page(l, o))
    ensures l == 0 || l > 100 ==> MembersPage(Some(NatToString(l)), None).Err?
    ensures MembersPage(None, Some("-" + NatToString(o + 1))).Err?
  {
    IntTextOfNat(l);
    IntTextOfNat(o);
    NegatedIntText(o + 1);
  }

  /** `IntText` reads a minus sign followed by digits as a negative number. */
  lemma NegatedIntText(n: nat)
    requires n > 0
    ensures IntText("-" + NatToString(n)) == Some(0 - n)
  {
    IntTextOfNat(n);
    var s := "-" + NatToString(n);
    assert s[1..] == NatToString(n);
    assert s[0] == '-';
  }

  /**
   * `GET /communities/:id/members`: every validation error is 400 before the
   * lookup; otherwise the community found and the page `getMembers` is asked for.
   */
  ghost function GetMembersRequest(db: Db, raw: string, limit: Option<string>, offset: Option<string>)
    : (r: Result<(CommunityView, Page), nat>)
    reads db
    ensures r.Err? ==> r.error in {400, 404}
    ensures r.Err? && r.error == 400 <==> Trim(raw) == "" || MembersPage(limit, offset).Err?
    ensures r.Ok? ==> Some(r.value.0) == FindCommunity(db, Trim(raw)) && Ok(r.value.1) == MembersPage(limit, offset)
    ensures r.Ok? ==> 1 <= r.value.1.limit <= 100
  {
    var page := MembersPage(limit, offset);
    if Trim(raw) == "" || page.Err? then Err(400)
    else
      match FindCommunity(db, Trim(raw))
      case None => Err(404)
      case Some(c) => Ok((c, page.value))
  }

  // ---------------------------------------------------------------- listing

  /** `isIn(['LOCATION', 'SUB', 'PRIVATE'])`. */
  predicate KnownType(t: string) {
    t == "LOCATION" || t == "SUB" || t == "PRIVATE"
  }

  /** `isBoolean()`: the strict texts `true`, `false`, `1` and `0`. */
  predicate BooleanText(t: string) {
    t == "true" || t == "false" || t == "1" || t == "0"
  }

  /**
   * `GET /communities`: 400 for an invalid `type`, `parent_id` or `active_only`;
   * else the filters, where only the text `false` turns `activeOnly` off.
   */
  function ListRequest(kind: Option<string>, parentId: Option<string>, activeOnly: Option<string>, userId: Option<Id>)
    : (r: Result<CommunityService.Filters, nat>)
    ensures r.Err? ==> r.error == 400
    ensures r.Ok? <==> (kind.None? || KnownType(kind.value)) && (parentId.None? || IsUuidV4(parentId.value))
                       && (activeOnly.None? || BooleanText(activeOnly.value))
    ensures r.Ok? ==> (r.value.activeOnly <==> activeOnly != Some("false"))
    ensures r.Ok? ==> r.value.kind == kind && r.value.parentId == parentId && r.value.userId == userId
  {
    if !((kind.None? || KnownType(kind.value)) && (parentId.None? || IsUuidV4(parentId.value))
         && (activeOnly.None? || BooleanText(activeOnly.value))) then Err(400)
    else Ok(CommunityService.Filters(kind, parentId, activeOnly != Some("false"), userId))
  }

  /**
   * `active_only=0` passes `isBoolean` yet still lists active communities only;
   * only `false` admits inactive ones, and a missing value means active only.
   */
  lemma ActiveOnlyUnlessFalse(u: Option<Id>)
    ensures ListRequest(None, None, Some("0"), u) == Ok(CommunityService.Filters(None, None, true, u))
    ensures ListRequest(None, None, None, u) == Ok(CommunityService.Filters(None, None, true, u))
    ensures ListRequest(None, None, Some("false"), u) == Ok(CommunityService.Filters(None, None, false, u))
    ensures ListRequest(None, None, Some("no"), u) == Err(400)
  {
  }

  /** An anonymous listing never shows a PRIVATE community, whatever the query. */
  lemma AnonymousListingHasNoPrivate(db: Db, kind: Option<string>, parentId: Option<string>, activeOnly: Option<string>)
    requires ListRequest(kind, parentId, activeOnly, None).Ok?
    ensures forall id :: id in CommunityService.ListCommunities(db, ListRequest(kind, parentId, activeOnly, None).value)
              ==> db.communities[id].kind != Private
  {
  }

  // ---------------------------------------------------------------- create

  /** The fields of a `POST /communities` body. */
  datatype CreateBody = CreateBody(name: string, slug: string, kind: Option<string>, parentId: Option<string>,
                                   parentIds: Option<seq<string>>, description: Option<string>,
                                   profileData: Option<Json>)

  /** The validation chain, each `.trim()` applied before the length checks. */
  predicate ValidCreateBody(b: CreateBody) {
    && Trim(b.name) != "" && |Trim(b.name)| <= 255
    && Trim(b.slug) != "" && |Trim(b.slug)| <= 255
    && (b.kind.None? || b.kind.value == "PRIVATE")
    && (b.parentId.None? || IsUuidV4(b.parentId.value))
    && (b.parentIds.Some? ==> forall i :: 0 <= i < |b.parentIds.value| ==> IsUuidV4(b.parentIds.value[i]))
    && (b.description.Some? ==> |Trim(b.description.value)| <= 2000)
    && (b.profileData.Some? ==> b.profileData.value.Obj?)
  }

  /** The create function a body reaches, with the sanitised values it passes. */
  datatype CreateCall =
    | PrivateCall(name: string, slug: string, description: Option<string>, profileData: Option<Json>, parentIds: seq<Id>)
    | SubCall(name: string, slug: string, parentId: Id, description: Option<string>, profileData: Option<Json>)

  /** `description` after `.optional().trim()`. */
  function TrimmedDescription(d: Option<string>): (r: Option<string>)
    ensures r.None? <==> d.None?
    ensures r.Some? ==> r.value == Trim(d.value)
  {
    if d.Some? then Some(Trim(d.value)) else None
  }

  /**
   * `type === 'PRIVATE'` goes to `createPrivateCommunity` with `parent_ids || []`;
   * anything else needs a `parent_id` (400 without one) and goes to `createSubCommunity`.
   */
  function CreateDispatch(b: CreateBody): (r: Result<CreateCall, nat>)
    ensures r.Err? ==> r.error == 400
    ensures r.Err? <==> !ValidCreateBody(b) || (b.kind != Some("PRIVATE") && (b.parentId.None? || b.parentId.value == ""))
    ensures r.Ok? ==> (r.value.PrivateCall? <==> b.kind == Some("PRIVATE"))
    ensures r.Ok? ==> r.value.name == Trim(b.name) && r.value.slug == Trim(b.slug)
    ensures r.Ok? ==> r.value.description == TrimmedDescription(b.description) && r.value.profileData == b.profileData
    ensures r.Ok? && r.value.PrivateCall? ==> r.value.parentIds == OrElse(b.parentIds, [])
    ensures r.Ok? && r.value.SubCall? ==> b.parentId == Some(r.value.parentId) && IsUuidV4(r.value.parentId)
  {
    if !ValidCreateBody(b) then Err(400)
    else if b.kind == Some("PRIVATE") then
      Ok(PrivateCall(Trim(b.name), Trim(b.slug), TrimmedDescription(b.description), b.profileData, OrElse(b.parentIds, [])))
    else if b.parentId.None? || b.parentId.value == "" then Err(400)
    else Ok(SubCall(Trim(b.name), Trim(b.slug), b.parentId.value, TrimmedDescription(b.description), b.profileData))
  }

  /** A PRIVATE body ignores `parent_id`; without `type`, a body lacking `parent_id` is refused. */
  lemma {:induction false} CreateDispatchOnType(b: CreateBody, p: Option<string>)
    requires ValidCreateBody(b) && (p.None? || IsUuidV4(p.value))
    ensures b.kind == Some("PRIVATE") ==> CreateDispatch(b.(parentId := p)) == CreateDispatch(b)
    ensures b.kind.None? ==> CreateDispatch(b.(parentId := None)) == Err(400)
  {
    assert ValidCreateBody(b.(parentId := p));
    assert ValidCreateBody(b.(parentId := None));
  }

  /** The status of a `createPrivateCommunity` error. */
  function PrivateCreateStatus(c: Code): (r: nat)
    ensures c == SlugTaken <==> r == 409
    ensures c == ParentNotFound <==> r == 400
    ensures c == NotMemberOfParent <==> r == 403
  {
    match c
    case SlugTaken => 409
    case ParentNotFound => 400
    case NotMemberOfParent => 403
    case _ => 500
  }

  /** The status of a `createSubCommunity` error. */
  function SubCreateStatus(c: Code): (r: nat)
    ensures c == ParentNotLocation <==> r == 400
    ensures c == NotLocal <==> r == 403
    ensures c == SlugTaken <==> r == 409
  {
    match c
    case ParentNotLocation => 400
    case NotLocal => 403
    case SlugTaken => 409
    case _ => 500
  }

  /** The checks of the create function a body reaches all pass. */
  predicate CreateAllowed(db: Db, userId: Id, call: CreateCall)
    reads db
  {
    match call
    case PrivateCall(_, slug, _, _, parentIds) =>
      !db.SlugInUse(slug) && CommunityService.ParentError(db, userId, parentIds).None?
    case SubCall(_, slug, parentId, _, _) =>
      CommunityService.ActiveLocation(db, parentId) && db.IsMember(userId, parentId) && !db.SlugInUse(slug)
  }

  /**
   * `POST /communities`: 201 with the stored community, or a client error with
   * nothing written; no refusal of either create function is answered with 500.
   */
  method PostCommunity(db: Db, userId: Id, b: CreateBody, newId: Id) returns (status: nat, created: Option<CommunityView>)
    requires db.Valid() && newId !in db.communities
    modifies db`communities, db`members, db`parents
    ensures db.Valid()
    ensures status in {201, 400, 403, 409}
    ensures CreateDispatch(b).Err? ==> status == 400
    ensures status == 201 <==> CreateDispatch(b).Ok? && old(CreateAllowed(db, userId, CreateDispatch(b).value))
    ensures status != 201 ==> unchanged(db) && created.None?
    ensures status == 409 ==> old(db.SlugInUse(Trim(b.slug)))
    ensures status == 201 ==>
              created.Some? && created.value.id == newId && Some(created.value) == db.GetById(newId, false)
              && created.value.row.name == Trim(b.name) && created.value.row.slug == Trim(b.slug)
              && created.value.row.kind == (if b.kind == Some("PRIVATE") then Private else Sub)
              && (b.kind == Some("PRIVATE") ==> db.members == old(db.members)[(newId, userId) := Owner])
              && (b.kind != Some("PRIVATE") ==> db.members == old(db.members)[(newId, userId) := Moderator])
  {
    var call := CreateDispatch(b);
    if call.Err? {
      return 400, None;
    }
    match call.value
    case PrivateCall(name, slug, description, profileData, parentIds) =>
      var r := CommunityService.CreatePrivateCommunity(db, userId, name, slug, description, profileData, parentIds, newId);
      if r.Ok? {
        status, created := 201, Some(r.value);
      } else {
        status, created := PrivateCreateStatus(r.error), None;
      }
    case SubCall(name, slug, parentId, description, profileData) =>
      var r := CommunityService.CreateSubCommunity(db, userId, name, slug, parentId, description, profileData, newId);
      if r.Ok? {
        status, created := 201, Some(r.value);
      } else {
        status, created := SubCreateStatus(r.error), None;
      }
  }

  // ---------------------------------------------------------------- invitations

  /** The status of an `inviteToCommunity` error. */
  function InviteStatus(c: Code): (r: nat)
    ensures c in {NotFound, UserNotFound} <==> r == 404
    ensures c == NotFounder <==> r == 403
    ensures c in {AlreadyMember, InvitePending} <==> r == 400
  {
    match c
    case NotFound => 404
    case NotFounder => 403
    case UserNotFound => 404
    case AlreadyMember => 400
    case InvitePending => 400
    case _ => 500
  }

  /**
   * `POST /communities/:id/invite`: the id and any `user_id` must be version-4
   * UUIDs and any email valid (`isEmail`); with neither `user_id` nor `email`
   * the route answers 400 before the service is called.
   */
  method PostInvite(db: Db, communityId: Id, inviterId: Id, userIdTarget: Option<string>, email: Option<string>,
                    isEmail: string -> bool, newInviteId: Id) returns (status: nat)
    requires db.Valid() && newInviteId !in db.invites
    modifies db`invites
    ensures db.Valid()
    ensures status in {201, 400, 403, 404, 500}
    ensures status != 201 ==> unchanged(db)
    ensures (|| !IsUuidV4(communityId) || (userIdTarget.Some? && !IsUuidV4(userIdTarget.value))
             || (email.Some? && !isEmail(email.value))) ==> status == 400
    ensures !CommunityService.Truthy(userIdTarget) && !CommunityService.Truthy(email) ==> status == 400
    ensures status == 201 <==>
              && IsUuidV4(communityId) && (userIdTarget.Some? ==> IsUuidV4(userIdTarget.value))
              && (email.Some? ==> isEmail(email.value))
              && (CommunityService.Truthy(userIdTarget) || CommunityService.Truthy(email))
              && old(CommunityService.MayInvite(db, communityId, inviterId))
              && old(CommunityService.Invitee(db, userIdTarget, email)).Ok?
              && !old(db.IsMember(CommunityService.Invitee(db, userIdTarget, email).value, communityId))
              && !old(CommunityService.HasPendingInvite(db, communityId, CommunityService.Invitee(db, userIdTarget, email).value))
    ensures status == 201 ==>
              newInviteId in db.invites && db.invites[newInviteId].communityId == communityId
              && db.invites[newInviteId].inviterId == inviterId && db.invites[newInviteId].status == Pending
  {
    if !IsUuidV4(communityId) || (userIdTarget.Some? && !IsUuidV4(userIdTarget.value))
       || (email.Some? && !isEmail(email.value)) {
      return 400;
    }
    if !CommunityService.Truthy(userIdTarget) && !CommunityService.Truthy(email) {
      return 400;
    }
    var r := CommunityService.InviteToCommunity(db, communityId, inviterId, userIdTarget, email, newInviteId);
    status := if r.Ok? then 201 else InviteStatus(r.error);
  }

  /** The status of an `acceptInvite` error. */
  function AcceptInviteStatus(c: Code): (r: nat)
    ensures c == NotFound <==> r == 404
    ensures c in {Forbidden, InviteInvalid} <==> r == 400
  {
    match c
    case NotFound => 404
    case Forbidden => 400
    case InviteInvalid => 400
    case _ => 500
  }

  /** `POST /communities/invites/:inviteId/accept`: 200, 404 for an unknown invite, 400 otherwise. */
  method PostAcceptInvite(db: Db, inviteId: Id, userId: Id) returns (status: nat)
    requires db.Valid()
    modifies db`members, db`invites
    ensures db.Valid()
    ensures status in {200, 400, 404}
    ensures !IsUuidV4(inviteId) ==> status == 400
    ensures IsUuidV4(inviteId) && inviteId !in old(db.invites) ==> status == 404
    ensures status != 200 ==> unchanged(db)
    ensures status == 200 <==>
              IsUuidV4(inviteId) && inviteId in old(db.invites) && old(db.invites[inviteId]).inviteeId == userId
              && old(db.invites[inviteId]).status == Pending
    ensures status == 200 ==>
              inviteId in old(db.invites)
              && db.members == old(db.members)[(old(db.invites[inviteId]).communityId, userId) := Member]
  {
    if !IsUuidV4(inviteId) {
      return 400;
    }
    var r := CommunityService.AcceptInvite(db, inviteId, userId);
    status := if r.Ok? then 200 else AcceptInviteStatus(r.error);
  }

  /** The status of a `declineInvite` error. */
  function DeclineInviteStatus(c: Code): (r: nat)
    ensures c == NotFound <==> r == 404
    ensures c == Forbidden <==> r == 400
  {
    match c
    case NotFound => 404
    case Forbidden => 400
    case _ => 500
  }

  /** `POST /communities/invites/:inviteId/decline`: 200 exactly for the invitee of a known invite. */
  method PostDeclineInvite(db: Db, inviteId: Id, userId: Id) returns (status: nat)
    requires db.Valid()
    modifies db`invites
    ensures db.Valid()
    ensures status in {200, 400, 404}
    ensures status == 200 <==> IsUuidV4(inviteId) && inviteId in old(db.invites) && old(db.invites[inviteId]).inviteeId == userId
    ensures status == 404 <==> IsUuidV4(inviteId) && inviteId !in old(db.invites)
    ensures status != 200 ==> unchanged(db)
  {
    if !IsUuidV4(inviteId) {
      return 400;
    }
    var r := CommunityService.DeclineInvite(db, inviteId, userId);
    status := if r.Ok? then 200 else DeclineInviteStatus(r.error);
  }

  // ---------------------------------------------------------------- update and membership

  /** The status of an `updateCommunity` error. */
  function UpdateStatus(c: Code): (r: nat)
    ensures c == NotFound <==> r == 404
    ensures c in {LocationReadonly, NotMember, NotModerator, NotFounder} <==> r == 403
    ensures c == SlugTaken <==> r == 409
  {
    match c
    case NotFound => 404
    case LocationReadonly => 403
    case NotMember => 403
    case NotModerator => 403
    case NotFounder => 403
    case SlugTaken => 409
    case _ => 500
  }

  /** The fields of a `PATCH /communities/:id` body; `Keep` is a field the body leaves out. */
  datatype PatchBody = PatchBody(name: Update<string>, slug: Update<string>, description: Update<string>,
                                 profileData: Update<Json>, parentIds: Update<Json>)

  /** `.optional().trim().isLength({ max })`: an absent field passes, a given one within `max` once trimmed. */
  predicate TrimmedWithin(f: Update<string>, max: nat) {
    f.SetTo? ==> |Trim(f.value)| <= max
  }

  /** `parent_ids` is an array and each of its elements passes `isUUID(4)`. */
  predicate ParentIdsValid(j: Json) {
    j.Arr? && forall i :: 0 <= i < |j.items| ==> j.items[i].Str? && IsUuidV4(j.items[i].s)
  }

  /** The checks of `profile_data` and `parent_ids`. */
  predicate JsonFieldsValid(profileData: Update<Json>, parentIds: Update<Json>) {
    && (profileData.SetTo? ==> profileData.value.Obj?)
    && (parentIds.SetTo? ==> ParentIdsValid(parentIds.value))
  }

  /** The PATCH validation chain, each `.trim()` applied before its length check. */
  predicate ValidPatchBody(b: PatchBody) {
    && TrimmedWithin(b.name, 255)
    && TrimmedWithin(b.slug, 255)
    && TrimmedWithin(b.description, 2000)
    && JsonFieldsValid(b.profileData, b.parentIds)
  }

  /** `.trim()` of a field. */
  function TrimField(f: Update<string>): (r: Update<string>)
    ensures r.SetTo? <==> f.SetTo?
    ensures r.SetTo? ==> r.value == Trim(f.value)
  {
    if f.SetTo? then SetTo(Trim(f.value)) else Keep
  }

  /** A given description is written as text, never as null. */
  function StoredDescriptionUpdate(f: Update<string>): (r: Update<Option<string>>)
    ensures r.SetTo? <==> f.SetTo?
    ensures r.SetTo? ==> r.value == Some(f.value)
  {
    if f.SetTo? then SetTo(Some(f.value)) else Keep
  }

  /** A trimmed field passes the length check exactly when the field does. */
  lemma TrimmedWithinTrimmed(f: Update<string>, max: nat)
    ensures TrimmedWithin(TrimField(f), max) <==> TrimmedWithin(f, max)
  {
    if f.SetTo? { TrimIdempotent(f.value); }
  }

  /** Trimming a field twice is trimming it once, and does not change its length verdict. */
  lemma TrimFieldTwice(f: Update<string>, max: nat)
    ensures TrimField(TrimField(f)) == TrimField(f)
    ensures TrimmedWithin(TrimField(f), max) <==> TrimmedWithin(f, max)
  {
    if f.SetTo? { TrimIdempotent(f.value); }
  }

  /**
   * The `req.body` `updateCommunity` receives once validation passed: the
   * sanitisers have trimmed name, slug and description in place.
   */
  function PatchUpdate(b: PatchBody): (r: CommunityService.CommunityUpdate)
    requires ValidPatchBody(b)
    ensures r.name.SetTo? <==> b.name.SetTo?
    ensures r.name.SetTo? ==> r.name.value == Trim(b.name.value) && |r.name.value| <= 255
    ensures r.slug.SetTo? <==> b.slug.SetTo?
    ensures r.slug.SetTo? ==> r.slug.value == Trim(b.slug.value) && |r.slug.value| <= 255
    ensures r.description.SetTo? <==> b.description.SetTo?
    ensures r.description.SetTo? ==>
              r.description.value == Some(Trim(b.description.value)) && |Trim(b.description.value)| <= 2000
    ensures r.profileData == b.profileData
    ensures r.profileData.SetTo? ==> r.profileData.value.Obj?
    ensures r.parentIds.SetTo? <==> b.parentIds.SetTo?
    ensures r.parentIds.SetTo? ==>
              |r.parentIds.value| == |b.parentIds.value.items|
              && forall i :: 0 <= i < |r.parentIds.value| ==>
                   Str(r.parentIds.value[i]) == b.parentIds.value.items[i] && IsUuidV4(r.parentIds.value[i])
  {
    CommunityService.CommunityUpdate(
      StoredDescriptionUpdate(TrimField(b.description)),
      b.profileData,
      TrimField(b.name),
      TrimField(b.slug),
      if b.parentIds.SetTo? then
        SetTo(seq(|b.parentIds.value.items|, i requires 0 <= i < |b.parentIds.value.items| =>
                    b.parentIds.value.items[i].s))
      else Keep)
  }

  /** The body with its text fields already trimmed. */
  function TrimmedPatchBody(b: PatchBody): (r: PatchBody)
    ensures r.profileData == b.profileData && r.parentIds == b.parentIds
    ensures r.name == TrimField(b.name) && r.slug == TrimField(b.slug) && r.description == TrimField(b.description)
  {
    b.(name := TrimField(b.name), slug := TrimField(b.slug), description := TrimField(b.description))
  }

  /** Surrounding white space in name, slug or description does not change the validation verdict. */
  lemma {:induction false} PatchBodyTrimsValid(b: PatchBody)
    ensures ValidPatchBody(TrimmedPatchBody(b)) <==> ValidPatchBody(b)
  {
    var t := TrimmedPatchBody(b);
    TrimmedWithinTrimmed(b.name, 255);
    TrimmedWithinTrimmed(b.slug, 255);
    TrimmedWithinTrimmed(b.description, 2000);
    assert JsonFieldsValid(t.profileData, t.parentIds) == JsonFieldsValid(b.profileData, b.parentIds);
  }

  /** Surrounding white space in name, slug or description does not change the update. */
  lemma {:induction false} PatchBodyTrims(b: PatchBody)
    requires ValidPatchBody(b)
    ensures ValidPatchBody(TrimmedPatchBody(b)) && PatchUpdate(TrimmedPatchBody(b)) == PatchUpdate(b)
  {
    var t := TrimmedPatchBody(b);
    PatchBodyTrimsValid(b);
    TrimFieldTwice(b.name, 255);
    TrimFieldTwice(b.slug, 255);
    TrimFieldTwice(b.description, 2000);
    assert t.parentIds == b.parentIds && t.profileData == b.profileData;
  }

  /**
   * `PATCH /communities/:id`: a failed validation is 400 before the service
   * runs; otherwise 200, or the status of the service's refusal with nothing
   * written.
   */
  method PatchCommunity(db: Db, communityId: Id, userId: Id, b: PatchBody) returns (status: nat)
    requires db.Valid()
    modifies db`communities, db`parents
    ensures db.Valid()
    ensures status in {200, 400, 403, 404, 409}
    ensures status == 400 <==> !IsUuidV4(communityId) || !ValidPatchBody(b)
    ensures IsUuidV4(communityId) && ValidPatchBody(b) && communityId !in old(db.communities) ==> status == 404
    ensures IsUuidV4(communityId) && ValidPatchBody(b) && communityId in old(db.communities)
            && old(db.communities[communityId]).kind == Location
            ==> status == 403
    ensures status == 200 <==>
              IsUuidV4(communityId) && ValidPatchBody(b) && old(CommunityService.MayUpdate(db, communityId, userId))
              && !old(CommunityService.SlugClash(db, communityId, userId, PatchUpdate(b)))
    ensures status == 409 <==>
              IsUuidV4(communityId) && ValidPatchBody(b) && old(CommunityService.MayUpdate(db, communityId, userId))
              && old(CommunityService.SlugClash(db, communityId, userId, PatchUpdate(b)))
    ensures status != 200 ==> unchanged(db)
  {
    if !IsUuidV4(communityId) || !ValidPatchBody(b) {
      return 400;
    }
    var r := CommunityService.UpdateCommunity(db, communityId, userId, PatchUpdate(b));
    status := if r.Ok? then 200 else UpdateStatus(r.error);
  }

  /** The status of a `removeMember` error. */
  function RemoveStatus(c: Code): (r: nat)
    ensures c == NotFound <==> r == 404
    ensures c == NotFounder <==> r == 403
    ensures c == CannotRemoveFounder <==> r == 400
  {
    match c
    case NotFound => 404
    case NotFounder => 403
    case CannotRemoveFounder => 400
    case _ => 500
  }

  /** `DELETE /communities/:id/members/:userId`: the founder removes anyone but themself. */
  method DeleteMember(db: Db, communityId: Id, actorId: Id, memberUserId: Id) returns (status: nat)
    requires db.Valid()
    modifies db`members
    ensures db.Valid()
    ensures status in {200, 400, 403, 404}
    ensures !IsUuidV4(communityId) || !IsUuidV4(memberUserId) ==> status == 400
    ensures status != 200 ==> unchanged(db)
    ensures status == 200 <==>
              IsUuidV4(communityId) && IsUuidV4(memberUserId)
              && communityId in old(db.communities) && old(db.communities[communityId]).kind == Private
              && old(db.communities[communityId]).founderId == Some(actorId) && actorId != memberUserId
    ensures status == 200 ==> db.members == old(db.members) - {(communityId, memberUserId)}
  {
    if !IsUuidV4(communityId) || !IsUuidV4(memberUserId) {
      return 400;
    }
    var r := CommunityService.RemoveMember(db, communityId, actorId, memberUserId);
    status := if r.Ok? then 200 else RemoveStatus(r.error);
  }

  /** The status of a `join` error. */
  function JoinStatus(c: Code): (r: nat)
    ensures c == NotFound <==> r == 404
    ensures c == PrivateInviteOnly <==> r == 400
  {
    match c
    case NotFound => 404
    case PrivateInviteOnly => 400
    case _ => 500
  }

  /**
   * `POST /communities/:id/join`: 201 exactly when a membership row was added,
   * 200 for someone who already belongs, and a client error otherwise.
   */
  method PostJoin(db: Db, userId: Id, communityId: Id) returns (status: nat)
    requires db.Valid()
    modifies db`members
    ensures db.Valid()
    ensures status in {200, 201, 400, 404}
    ensures !IsUuidV4(communityId) ==> status == 400
    ensures status == 201 <==>
              IsUuidV4(communityId) && old(db.CommunityById(communityId, false)).Some?
              && old(db.communities[communityId]).kind != Private && !old(db.IsMember(userId, communityId))
    ensures status == 200 ==> old(db.IsMember(userId, communityId))
    ensures status == 201 ==> db.members == old(db.members)[(communityId, userId) := Member]
    ensures status != 201 ==> db.members == old(db.members)
  {
    if !IsUuidV4(communityId) {
      return 400;
    }
    var r := CommunityService.Join(db, userId, communityId);
    status := if r.Err? then JoinStatus(r.error) else if r.value.joined then 201 else 200;
  }

  /** The status of a `leave` error. */
  function LeaveStatus(c: Code): (r: nat)
    ensures c == NotFound <==> r == 404
    ensures c == CannotLeaveFriendGroup <==> r == 403
  {
    match c
    case NotFound => 404
    case CannotLeaveFriendGroup => 403
    case _ => 500
  }

  /** `POST /communities/:id/leave`: the founder of a friend group is refused with 403. */
  method PostLeave(db: Db, userId: Id, communityId: Id) returns (status: nat)
    requires db.Valid()
    modifies db`members, db`invites, db`parents, db`communities
    ensures db.Valid()
    ensures status in {200, 400, 403, 404}
    ensures !IsUuidV4(communityId) ==> status == 400
    ensures IsUuidV4(communityId) && communityId !in old(db.communities) ==> status == 404
    ensures (&& IsUuidV4(communityId) && communityId in old(db.communities)
             && old(db.communities[communityId]).kind == Private && old(db.communities[communityId]).isFriendGroup
             && old(db.communities[communityId]).founderId == Some(userId)) ==> status == 403
    ensures status == 200 <==>
              IsUuidV4(communityId) && communityId in old(db.communities)
              && !(old(db.communities[communityId]).kind == Private && old(db.communities[communityId]).isFriendGroup
                   && old(db.communities[communityId]).founderId == Some(userId))
    ensures status == 200 ==> (db.members == old(db.members) <==> !old(db.IsMember(userId, communityId)))
    ensures status != 200 ==> unchanged(db)
  {
    if !IsUuidV4(communityId) {
      return 400;
    }
    var r := CommunityService.Leave(db, userId, communityId);
    status := if r.Ok? then 200 else LeaveStatus(r.error);
  }
}
