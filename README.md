# A verified model of the Whats-- community tree-planting app

The repository is a small social app for organising neighbourhood events,
presented as "planting trees" on a map. It has four parts, and the model
follows each of them module by module:

- **The Python event board** (`mainhost.py`, `Whats--main/mainhost.py`).
  Events are created over HTTP and stored either in a module-level list or
  in a SQL table. A published event schedules a chat invitation carrying its
  title and host. The listing returns the public fields only. Modules:
  `BoardRequest`, `ListBoard`, `SqlBoard`.
- **The community and event backend** (`src/`). Communities come in three
  kinds: LOCATION, SUB and PRIVATE. The backend covers memberships,
  invitations, friendships, events, RSVPs and ratings, all over a relational
  store. The tables are one class, `Database.Db`, holding maps and sets. Its
  `Valid()` states the UNIQUE and CHECK constraints `src/db/init.js`
  declares on users, invites, friendships and ratings, plus one invariant
  the schema does not declare: each user founds at most one friend group.
  The slug UNIQUE constraint is the separate `SlugsUnique()`. Every
  operation that writes a slug keeps it, except the friend-group creation,
  which inserts `friends-<id>` unchecked and keeps it exactly when no
  community has that slug yet. Every service operation is a module-level
  method that takes the `Database.Db` it reads and writes, keeps `Valid()`
  and states its whole new state. Modules: `Database`,
  `CommunityService`, `EventService`, `FriendService`, `CommunityRoutes`,
  `EventRoutes`.
- **The user backend** (`server/`). It covers users, profiles and
  per-user configuration, plus the `/users` routes. Modules: `UserService`,
  `ProfileService`, `UserConfigService`, `UserRoutes`.
- **The two React front ends** (`frontend/` and `client/`). The model
  covers the map page and its sheets, markers and lines, the tree cards, the
  friends, search, profile, onboarding and explore pages. Each component's
  state is a class whose methods are its event handlers. Each handler states
  the component's new state, and what it renders is a function of that
  state. Modules: `MapPage`, `FilterSheet`, `LocationPicker`, `BranchLines`,
  `SeedMarkerFrontend`, `SeedMarkerClient`, `PlantTreeFrontend`,
  `PlantTreeClient`, `PostCardFrontend`, `PostCardClient`, `MyTreesFrontend`,
  `MyTreesClient`, `FriendsClient`, `FriendsSearchPage`, `FindFriendsPage`,
  `TreesSearchPage`, `ProfilePage`, `OnboardingPage`, `ExplorePage`.

Shared modules:

- `Wrappers`: Option and Result.
- `Seqs`: filter, map, clip and subsequence, with their lemmas.
- `Text`: trim, split, ASCII lower-casing, substring search and integer
  parsing, with their lemmas.
- `Json`: JSON values, with JavaScript truthiness, `||` and `??`.
- `Growth`: the five growth stages.

They are helpers and have no rows below.

Some inputs are not computed by the app itself:

- Generated identifiers (SQL identities, `Date.now()`, uuids) and the
  current time are parameters.
- The outcome of each network call is a parameter: the reply, or whether
  it fails.
- The database driver's number rounding and date printing are parameters.

## Model

| member | source | states |
|---|---|---|
| Database.DropFirst | src/services/communityService.js:610-612 | the rows left after deleting those of a community: exactly the keys of other communities, with their rows unchanged |
| Database.DropCommunityInvites | src/services/communityService.js:610 | the invites left after `DELETE FROM community_invites WHERE community_id = ?`: exactly those of other communities, unchanged |
| Database.Db.constructor | src/db/init.js:21-160 | a fresh store has every table empty and satisfies the declared keys and constraints |
| Database.Db.CommunityById | src/services/communityService.js:63-74 | a community is found iff the id exists and it is active or inactive rows are included; the row is the stored one |
| Database.Db.GetById | src/services/communityService.js:63-81 | found exactly when `CommunityById` finds it; the view carries the id, the stored row and the number of its members |
| Database.Db.IsMember | src/services/communityService.js:666-672 | true iff the user is among the community's members |
| Database.Db.MembersOf | src/services/communityService.js:75-80 | a user is listed iff a community_members row with that key exists |
| Database.Db.MemberCount | src/services/communityService.js:75-80 | the count equals the number of members, and is 0 iff the community has no member row |
| Database.Db.FriendGroupOf | src/services/communityService.js:258-264 | a found group is an active friend group founded by the user; none is found only when no such group exists |
| Database.Db.SetFriendshipStatus | src/services/friendService.js:102 | only that friendship's status changes, and the constraints still hold |
| Database.Db.SetInviteStatus | src/services/communityService.js:457 | only that invite's status changes, and the constraints still hold |
| Database.Db.DeleteCommunity | src/services/communityService.js:610-613 | the community, with its invites, member rows and parent links, is removed, nothing else changes, and slugs stay unique |
| Database.Db.Deactivate | src/services/communityService.js:624-626 | only that community's `is_active` becomes false; slugs stay unique |
| Database.Db.GetFriendGroupForUser | src/services/communityService.js:258-266 | the method returns the group `FriendGroupOf` specifies: an active friend group founded by the user |
| Database.Db.ActiveUserByEmail | src/services/communityService.js:351 | a found user has that email and is active; none is found only when every user with that email is inactive |
| Database.Db.FindActiveUserByEmail | src/services/communityService.js:351 | returns the active user with that email, chosen among the users and unique by the email UNIQUE constraint in `Valid()`, or none when no active user has it |
| CommunityService.KindName | src/db/init.js:53 | each kind maps to its own column text, 'PRIVATE', 'LOCATION' or 'SUB', in both directions |
| CommunityService.StoredDescription | src/services/communityService.js:203 | `description \|\| null`: stored iff given and non-empty, and then unchanged |
| CommunityService.StoredProfile | src/services/communityService.js:194-204 | a missing profile is stored as JSON null, a given one as itself |
| CommunityService.RowToCommunity | src/services/communityService.js:8-36 | a missing row gives null; a row gives an object holding every always-defined key and no key outside the community shape |
| CommunityService.CommunityField | src/services/communityService.js:22-35 | every always-defined key has a value |
| CommunityService.RowToCommunityColumns | src/services/communityService.js:10-13 | id, name, slug and type are the upper-case column when present, else the lower-case one |
| CommunityService.RowToCommunityDefaults | src/services/communityService.js:14-32 | parent, founder and description default to null; `is_friend_group` defaults to false and `is_active` to true, and present values are kept |
| CommunityService.ListCommunities | src/services/communityService.js:110-156 | only existing ids; a PRIVATE row only for one of its members; every filter given is met by each row; PRIVATE without a user gives nothing; conversely every row meeting the parent and active filters is listed when it is of the typed LOCATION or SUB kind, when it is PRIVATE with the user as member under type PRIVATE, and, with no type, when it is LOCATION or SUB or a PRIVATE community of the user |
| CommunityService.GetLocalStatus | src/services/communityService.js:857-865 | an unknown or inactive community gives (false, false); membership is read from the table; a member of a LOCATION is local, and elsewhere local means a member of the parent |
| CommunityService.CreateSubCommunity | src/services/communityService.js:164-220 | PARENT_NOT_LOCATION iff the parent is not an active LOCATION, NOT_LOCAL iff it is one but the creator is not its member, SLUG_TAKEN iff both pass but the slug is in use, and success iff none of these holds; an error leaves the store unchanged; on success the new SUB row and the creator as moderator, with slugs still unique |
| CommunityService.FriendGroupName | src/services/communityService.js:228-230 | the group is named after the username, or "User's friends" when the user is unknown |
| CommunityService.FriendGroupSlug | src/services/communityService.js:231 | the slug is a fixed 8-character prefix followed by the user id |
| CommunityService.CreateFriendGroupForUser | src/services/communityService.js:227-252 | the new PRIVATE friend-group row founded by the user, found afterwards by `FriendGroupOf`; the owner row goes to the first row the re-select by slug returns, which is the new group when the slug was free and may be an older community carrying it otherwise; slugs stay unique iff they were and the slug was free; the reply is `getById` of that row |
| CommunityService.ParentError | src/services/communityService.js:284-303 | no error iff every listed parent exists, is active and has the user as member; otherwise PARENT_NOT_FOUND or NOT_MEMBER_OF_PARENT |
| CommunityService.CheckParents | src/services/communityService.js:284-303 | the validation loop returns the error `ParentError` specifies |
| CommunityService.ParentLinks | src/services/communityService.js:319-321 | the links are exactly (community, p) for each listed parent p |
| CommunityService.InsertParents | src/services/communityService.js:319-321 | the insert loop adds exactly `ParentLinks` to the parent table |
| CommunityService.CreatePrivateCommunity | src/services/communityService.js:274-328 | SLUG_TAKEN first, then the parent error; success iff neither; on success the PRIVATE row founded by the caller, its parent links and the caller as owner; an error changes nothing |
| CommunityService.DropInvite | src/services/communityService.js:385-388 | exactly the invites of other (community, invitee) pairs remain, unchanged |
| CommunityService.Invitee | src/services/communityService.js:349-363 | a given user id is used as is; neither id nor email is INVALID_INPUT; a resolved id is non-empty |
| CommunityService.InviteToCommunity | src/services/communityService.js:337-406 | NOT_FOUND iff not an existing PRIVATE community, NOT_FOUNDER iff the inviter is not its founder, the invitee lookup's error next, then ALREADY_MEMBER and INVITE_PENDING each iff; success iff every check passes; errors change nothing; success replaces any earlier invite of the pair by a pending one from the founder |
| CommunityService.AcceptInvite | src/services/communityService.js:436-459 | NOT_FOUND, FORBIDDEN for another user, INVITE_INVALID unless pending; success iff a pending invite to the caller; success adds the invitee as member and marks the invite accepted |
| CommunityService.DeclineInvite | src/services/communityService.js:467-481 | NOT_FOUND and FORBIDDEN only; succeeds iff the caller is the invitee, whatever the current status, and marks it declined |
| CommunityService.RemoveMember | src/services/communityService.js:521-543 | NOT_FOUND, NOT_FOUNDER, and CANNOT_REMOVE_FOUNDER iff the founder removes themselves; success iff the founder of a PRIVATE community, active or not, removes someone else, and deletes exactly that member row |
| CommunityService.Join | src/services/communityService.js:551-577 | NOT_FOUND and PRIVATE_INVITE_ONLY under their conditions; success iff an active non-PRIVATE community; `joined` iff not yet a member, only then adding the member row |
| CommunityService.Leave | src/services/communityService.js:586-631 | NOT_FOUND iff the community is missing, CANNOT_LEAVE_FRIEND_GROUP iff the caller founded it as a friend group, success otherwise; `left` iff a member; a PRIVATE founder leaving deletes the community with its rows; otherwise the member row goes and an emptied SUB becomes inactive |
| CommunityService.AddMember | src/services/communityService.js:640-645 | the member row with that role is set, and nothing else changes |
| CommunityService.RemoveMemberFromCommunity | src/services/communityService.js:653-658 | exactly that member row is removed |
| CommunityService.GetMembers | src/services/communityService.js:690-711 | exactly the users with a member row for the community whose account is active; a deactivated member is never listed |
| CommunityService.UpdatedRow | src/services/communityService.js:759-789 | kind, parent, founder and flags are kept; description and profile change when given; name and slug change only for a PRIVATE founder |
| CommunityService.KeptParents | src/services/communityService.js:793-804 | the parent links kept are exactly the listed parents that are active and have the user as member |
| CommunityService.ReinsertParents | src/services/communityService.js:793-804 | the re-insert loop adds exactly `KeptParents`, so invalid parents are skipped silently |
| CommunityService.UpdateCommunity | src/services/communityService.js:721-807 | NOT_FOUND, LOCATION_READONLY and NOT_FOUNDER each iff, NOT_MEMBER and NOT_MODERATOR under their conditions, SLUG_TAKEN iff the caller may update and the PRIVATE founder's new slug is used by another community, and success iff the caller may update and there is no such clash; errors change nothing; success writes `UpdatedRow` and the kept parents; slugs stay unique |
| CommunityService.WriteUpdate | src/services/communityService.js:785-805 | the row becomes `UpdatedRow`; a PRIVATE founder's given parents replace the old links by the kept ones; slugs stay unique unless the new slug is taken |
| EventService.DefaultVisibility | src/services/eventService.js:6-15 | an object with exactly the eight visibility flags, each false |
| EventService.JsString | src/services/eventService.js:50 | `String(v)` of a string is that string |
| EventService.ParsedSettings | src/services/eventService.js:33-40 | a value that is not a truthy string is kept; a string that does not parse becomes null |
| EventService.DatePrefix | src/services/eventService.js:50 | null iff the date is nullish; otherwise at most the first ten characters of the date's text |
| EventService.RowToEvent | src/services/eventService.js:21-60 | a missing row gives null; a row gives an event object with every defaulted property defined |
| EventService.RowToEventDefaults | src/services/eventService.js:23-56 | missing `is_public` and `is_active` read as true and a missing description as null; a lower-case column is read when the upper-case one is absent |
| EventService.StoredRowCells | src/services/eventService.js:131 | every column of a stored event's row reads as that event's cell |
| EventService.StoredRowCell | src/services/eventService.js:131 | one column of a stored event's row reads as its cell |
| EventService.RowToEventIdentity | src/services/eventService.js:23-26 | id, community, creator and title are read back as stored |
| EventService.RowToEventFlags | src/services/eventService.js:32-56 | `is_public` and `is_active` are read back as stored |
| EventService.RowToEventSettings | src/services/eventService.js:33-55 | the visibility settings are read back as stored, a stored string parsed |
| EventService.RowToEventTexts | src/services/eventService.js:27-53 | description, date prefix, time and both locations are read back as stored |
| EventService.RowToEventOfCells | src/services/eventService.js:21-60 | any row whose columns read as a stored event's cells maps to that event's stored view |
| EventService.RowToEventOfStoredRow | src/services/eventService.js:129-140 | the row of a stored event maps back to its stored view |
| EventService.Attendees | src/services/eventService.js:143 | exactly the users with an RSVP row for the event |
| EventService.Raters | src/services/eventService.js:147 | exactly the users with a rating row for the event |
| EventService.RsvpsOf | src/services/eventService.js:143-151 | exactly the users with an RSVP row for the event in the store |
| EventService.RatersOf | src/services/eventService.js:146-152 | exactly the users with a rating row for the event in the store |
| EventService.Aggregate | src/services/eventService.js:153-155 | the aggregate is null iff the event has no rating |
| EventService.GetEventById | src/services/eventService.js:129-163 | found iff the event exists and is active or inactive rows are included; the result is the stored event with its counts |
| EventService.EventObjectFields | src/services/eventService.js:140-162 | a stored event reads back with its id, community, creator, title, flags, settings, ten-character date, its RSVP and rating counts, and an aggregate that is null iff there are no ratings |
| EventService.Settings | src/services/eventService.js:184 | a truthy stored setting is used, otherwise the defaults |
| EventService.Shown | src/services/eventService.js:191-198 | a detail is copied iff its flag is truthy and the value is not nullish, and then unchanged |
| EventService.FullViewKeepsEvent | src/services/eventService.js:175-182 | a public event, or any event its creator views, is returned whole, with only `creator` added when given and the event has a creator |
| EventService.MaskHidesInternals | src/services/eventService.js:184-190 | a masked view keeps id, community, title and `is_public`, and never carries the creator id, the settings, the active flag or the timestamps |
| EventService.MaskShowsToggled | src/services/eventService.js:191-206 | in a masked view each detail is present iff its flag is on and it is not null, with the event's own value; counts follow their flags; a creator only under `show_creator` |
| EventService.DefaultFlagsOff | src/services/eventService.js:6-15 | no flag of the default settings is truthy |
| EventService.BaseView | src/services/eventService.js:185-190 | the bare masked view keeps exactly id, community, title and `is_public` |
| EventService.DefaultSettingsShowBase | src/services/eventService.js:184-207 | with no settings or the default ones, a non-creator sees exactly the four base properties of a private event |
| EventService.BoardShowsDate | src/services/eventService.js:215-218 | a private event that passes the board rule shows its non-null date in its masked view |
| EventService.CreatorOf | src/services/eventService.js:267-274 | `creatorMap.get(event.creator_id) \|\| null`: a creator is attached only when the event's creator id was found |
| EventService.Entries | src/services/eventService.js:277-298 | one entry per query row |
| EventService.EntriesAt | src/services/eventService.js:277-298 | the i-th entry is the i-th row's entry: its masked event when the board rule keeps it, else none |
| EventService.Board | src/services/eventService.js:276-299 | the board has at most one event per row |
| EventService.BoardComplete | src/services/eventService.js:294-297 | every row the board rule keeps appears in its masked form |
| EventService.BoardSound | src/services/eventService.js:294-297 | every board entry is the masked form of a row the board rule keeps |
| EventService.BoardMembers | src/services/eventService.js:276-299 | the board holds exactly the masked forms of the kept rows |
| EventService.BoardPrivateDated | src/services/eventService.js:215-218 | every private event on the board shows a date |
| EventService.CollectBoard | src/services/eventService.js:276-299 | the loop over the query rows builds exactly `Board` |
| EventService.ListEventsForCommunity | src/services/eventService.js:229-300 | a missing community gives []; LOCATION and SUB fail, because the descendant lookup does not exist; a PRIVATE board is [] without a member viewer, else the board of its rows |
| EventService.PublicChildren | src/services/eventService.js:236-239 | exactly the active LOCATION or SUB communities whose `parent_id` is in the given set |
| EventService.PublicClosure | src/services/eventService.js:236-239 | contains the given set, is closed under public children, and adds only active public communities |
| EventService.Descendants | src/services/eventService.js:236-239 | the community, every active public community under it at any depth, and nothing else but active public communities |
| EventService.DescendantsCoversChildren | src/services/eventService.js:236-239 | an active public child and grandchild of the community are both covered |
| EventService.BoardScope | src/services/eventService.js:235-246 | a LOCATION or SUB board covers `Descendants`; a PRIVATE board only its own community |
| EventService.ListEventsForCommunityInScope | src/services/eventService.js:229-300 | a missing community gives []; a PRIVATE board is [] without a member viewer; otherwise the board of the rows queried for `BoardScope`, each entry showing an active kept event of a community in that scope |
| EventService.BoardInScope | src/services/eventService.js:249-264 | every board event lies in the queried communities, is active and is kept by the board rule |
| EventService.NewSettings | src/services/eventService.js:93-98 | given settings are kept; without them a private event gets the defaults and a public one null |
| EventService.StoredEvent | src/services/eventService.js:93-125 | the inserted row has the target community, the creator and `is_active`; it is public unless `is_public` is exactly false; a private one without settings gets the defaults |
| EventService.CreateEvent | src/services/eventService.js:68-127 | NO_FRIEND_COMMUNITY, NOT_FOUND and NOT_MEMBER leave the events unchanged; otherwise exactly the new row is added and the reply is its stored view |
| EventService.NewPrivateEventShowsBase | src/services/eventService.js:93-97 | a private event created without settings shows a non-creator only its four base properties |
| EventService.SetClause | src/services/eventService.js:336-346 | an absent key writes nothing |
| EventService.ApplyPatch | src/services/eventService.js:335-354 | community and creator never change; flags are coerced to booleans; a payload with no allowed key changes nothing |
| EventService.ApplyFlagKeys | src/services/eventService.js:331-342 | the last three clauses write the coerced flags and the settings as given |
| EventService.ApplyPlaceKeys | src/services/eventService.js:328-330 | the clauses for time and both locations write those fields |
| EventService.ApplyTextKeys | src/services/eventService.js:325-327 | the clauses for title, description and date write those fields |
| EventService.ApplyAllowedKeys | src/services/eventService.js:324-347 | folding the clauses over the allowed keys gives the fieldwise update `ApplyPatch` |
| EventService.ApplyPatchIdempotent | src/services/eventService.js:335-354 | applying the same update twice equals applying it once |
| EventService.SetClauses | src/services/eventService.js:335-348 | the loop gives the row `ApplyPatch` specifies, and no clause iff the payload changes nothing |
| EventService.ChangesAllowedKey | src/services/eventService.js:324-336 | a payload changes the row iff one of the allowed keys is present |
| EventService.UpdateEvent | src/services/eventService.js:309-356 | NOT_FOUND and FORBIDDEN change nothing; the creator's update writes `ApplyPatch` when something changes, else nothing; the reply is the event as re-read |
| EventService.DeleteEvent | src/services/eventService.js:364-380 | NOT_FOUND and FORBIDDEN change nothing; it succeeds iff the caller is the creator and then only `is_active` becomes false |
| EventService.DeletedEventHidden | src/services/eventService.js:135-139 | a deleted event is not found by default but is found with `includeInactive` |
| EventService.RsvpToEvent | src/services/eventService.js:384-397 | NOT_FOUND for a missing or inactive event with no change; otherwise the pair is in the RSVP set exactly once |
| EventService.AttendeesAfterRsvp | src/services/eventService.js:391-395 | an RSVP adds its user; the count rises by one iff it is new, and repeating it changes nothing |
| EventService.RemoveRsvp | src/services/eventService.js:399-405 | exactly that RSVP row is removed and `rsvped` is false |
| EventService.GetRsvpCount | src/services/eventService.js:407-413 | the number of RSVP rows of the event |
| EventService.ActiveAttendees | src/services/eventService.js:432-439 | exactly the RSVP'd users whose user row is active |
| EventService.GetRsvpsForEvent | src/services/eventService.js:421-445 | NOT_FOUND iff missing or inactive; a non-creator gets only the count; the creator gets exactly the active users who RSVP'd |
| EventService.RsvpListWithinCount | src/services/eventService.js:428-439 | the creator's list never names more users than the count |
| EventService.SubsetCard | src/services/eventService.js:432-439 | a subset has no more elements than its superset |
| EventService.RateEvent | src/services/eventService.js:516-544 | INVALID_RATING outside 1..5 first, then NOT_FOUND, errors change nothing; success iff a rating in 1..5 for an active event; then the pair's rating is set, so each pair has at most one |
| EventService.RatersAfterRating | src/services/eventService.js:528-542 | a rating adds its user to the raters; rating again adds no row |
| EventService.GetRatingAggregate | src/services/eventService.js:546-556 | the count is the number of raters, and the aggregate is null iff the count is 0 |
| FriendService.DropPair | src/services/friendService.js:50-53 | the delete keeps exactly the rows of other pairs, in either direction, unchanged |
| FriendService.SendRequest | src/services/friendService.js:10-70 | SELF_REQUEST; PENDING iff a same-direction pending row; REVERSE_PENDING iff only a reverse pending row; ALREADY_FRIENDS only for an accepted row either way; errors change nothing; success replaces the pair's rows by one pending row, so the unordered pair has exactly one row |
| FriendService.AddIfAbsent | src/services/friendService.js:111-118 | the user becomes a member of the group, the row is added as 'member' only when absent, and every other row is kept |
| FriendService.AcceptRequest | src/services/friendService.js:78-126 | NOT_FOUND iff no such request, FORBIDDEN iff the caller is not the addressee, NOT_PENDING iff the addressee's request is not pending, each changing nothing; success iff a pending request to the caller whose two users both have friend groups; otherwise the status becomes accepted first; FRIEND_GROUP_MISSING then leaves it accepted with no members added; success puts each user in the other's group without duplicates |
| FriendService.DeclineRequest | src/services/friendService.js:134-152 | NOT_FOUND and FORBIDDEN only; succeeds iff the caller is the addressee, whatever the status, and marks it declined |
| FriendService.ListFriends | src/services/friendService.js:185-190 | never the user; none without a friend group; otherwise exactly the active members of the user's group other than the user |
| FriendService.RemoveFriend | src/services/friendService.js:198-212 | each user leaves the other's group when it exists, and every row of the pair goes in both directions, whether or not they were friends |
| FriendService.DropPairSymmetric | src/services/friendService.js:207-210 | the rows removed are the same whichever side asks |
| CommunityRoutes.UuidGroupsAgree | src/routes/communities.js:8 | reading `UUID_REGEX` position by position and group by group (8-4-4-4-12 hex, version 1-5, variant 8/9/a/b) accepts the same strings |
| CommunityRoutes.GroupHex | src/routes/communities.js:8 | every position a hex group of the pattern covers holds a hex digit |
| CommunityRoutes.UuidIgnoresCase | src/routes/communities.js:8 | the `i` flag: lower-casing a string does not change whether it matches |
| CommunityRoutes.V4IsUuid | src/routes/communities.js:63 | every id that passes `isUUID(4)` also matches `UUID_REGEX` |
| CommunityRoutes.UuidV4Example | src/routes/communities.js:63 | a lower-case version-4 id passes `isUUID(4)` |
| CommunityRoutes.UuidUpperCaseExample | src/routes/communities.js:8 | an upper-case version-1 id matches `UUID_REGEX` |
| CommunityRoutes.NotUuidExamples | src/routes/communities.js:8 | the nil UUID (version 0) and an ordinary slug do not match |
| CommunityRoutes.BySlug | src/services/communityService.js:89-101 | found iff an active community has the slug; the view is that community's `getById` view |
| CommunityRoutes.FindCommunity | src/routes/communities.js:126-129 | a UUID-shaped parameter is looked up as an active id, anything else as an active slug; a found view is the `getById` view |
| CommunityRoutes.FoundBySlug | src/routes/communities.js:126-129 | with unique slugs, a community whose slug is not UUID-shaped is found by its slug |
| CommunityRoutes.UuidSlugShadowed | src/routes/communities.js:126-129 | a UUID-shaped slug is never looked up as a slug, so its community is not found by it unless it is also an active id |
| CommunityRoutes.GetCommunity | src/routes/communities.js:116-139 | 400 iff the trimmed parameter is empty, 404 iff no community is found, otherwise the community found |
| CommunityRoutes.GetCommunityTrims | src/routes/communities.js:118 | surrounding spaces do not change the answer |
| CommunityRoutes.MembersPage | src/routes/communities.js:148-149 | valid iff `limit` is an integer in 1..100 and `offset` an integer of at least 0; the limit defaults to 50 and the offset to 0, and given values are taken as written |
| CommunityRoutes.MembersPageOfNat | src/routes/communities.js:148-166 | a written limit in 1..100 and any offset are accepted as written; 0, over 100 and a negative offset are refused |
| CommunityRoutes.NegatedIntText | src/routes/communities.js:148-149 | a minus sign followed by digits reads as the negative number |
| CommunityRoutes.GetMembersRequest | src/routes/communities.js:144-174 | every validation error is 400 before the lookup; 404 iff not found; otherwise the community found and a page with a limit in 1..100 |
| CommunityRoutes.ListRequest | src/routes/communities.js:14-34 | 400 iff `type`, `parent_id` or `active_only` is invalid; otherwise the filters, with `activeOnly` false iff the text is exactly 'false' |
| CommunityRoutes.ActiveOnlyUnlessFalse | src/routes/communities.js:20-28 | '0' and a missing value still list active communities only, 'false' admits inactive ones, 'no' is refused |
| CommunityRoutes.AnonymousListingHasNoPrivate | src/routes/communities.js:28-35 | an anonymous listing never shows a PRIVATE community |
| CommunityRoutes.TrimmedDescription | src/routes/communities.js:189 | a given description is trimmed and a missing one stays missing |
| CommunityRoutes.CreateDispatch | src/routes/communities.js:179-232 | 400 for an invalid body or a non-PRIVATE body without `parent_id`; PRIVATE goes to the private create with `parent_ids \|\| []`, else to the SUB create with its version-4 parent; name, slug and description are trimmed |
| CommunityRoutes.CreateDispatchOnType | src/routes/communities.js:197-224 | a PRIVATE body ignores `parent_id`; a body without type lacking `parent_id` is refused |
| CommunityRoutes.PrivateCreateStatus | src/routes/communities.js:209-217 | SLUG_TAKEN is 409, PARENT_NOT_FOUND 400 and NOT_MEMBER_OF_PARENT 403, each iff |
| CommunityRoutes.SubCreateStatus | src/routes/communities.js:235-243 | PARENT_NOT_LOCATION is 400, NOT_LOCAL 403 and SLUG_TAKEN 409, each iff |
| CommunityRoutes.PostCommunity | src/routes/communities.js:179-248 | 201 iff the body dispatches to a valid call whose checks all pass (a free slug and acceptable parents for PRIVATE; an active LOCATION parent the caller belongs to and a free slug for SUB), storing the community under the new id with trimmed name and slug; any other status writes nothing; 409 only for a slug in use |
| CommunityRoutes.InviteStatus | src/routes/communities.js:328-342 | NOT_FOUND and USER_NOT_FOUND are 404, NOT_FOUNDER 403, ALREADY_MEMBER and INVITE_PENDING 400, each iff |
| CommunityRoutes.PostInvite | src/routes/communities.js:305-347 | an invalid id, `user_id` or email is 400, as is a body with neither; 201 iff the ids are valid, a target is given, the inviter founded the PRIVATE community, the invitee is found and neither a member nor already invited; any status but 201 writes nothing; 201 stores a pending invite from the inviter |
| CommunityRoutes.AcceptInviteStatus | src/routes/communities.js:73-78 | NOT_FOUND is 404, FORBIDDEN and INVITE_INVALID 400, each iff |
| CommunityRoutes.PostAcceptInvite | src/routes/communities.js:60-83 | 400 for an invalid id, 404 for an unknown invite; 200 iff the caller is the invitee of a pending invite, who becomes a member; anything else writes nothing |
| CommunityRoutes.DeclineInviteStatus | src/routes/communities.js:101-106 | NOT_FOUND is 404 and FORBIDDEN 400, each iff |
| CommunityRoutes.PostDeclineInvite | src/routes/communities.js:88-111 | 200 iff a valid id of a known invite whose invitee is the caller; 404 iff valid and unknown; anything else writes nothing |
| CommunityRoutes.UpdateStatus | src/routes/communities.js:278-295 | NOT_FOUND is 404, LOCATION_READONLY, NOT_MEMBER, NOT_MODERATOR and NOT_FOUNDER 403, SLUG_TAKEN 409, each iff |
| CommunityRoutes.TrimField | src/routes/communities.js:258-260 | an absent field stays absent and a given one becomes its trimmed text |
| CommunityRoutes.TrimFieldTwice | src/routes/communities.js:258-260 | trimming a field again changes neither it nor its length verdict |
| CommunityRoutes.PatchUpdate | src/routes/communities.js:258-278 | the update the service receives: each field present iff in the body, name, slug and description trimmed and within their limits, `profile_data` an object, each parent id a version-4 UUID string of the body's array, in order |
| CommunityRoutes.TrimmedPatchBody | src/routes/communities.js:258-260 | the body with name, slug and description trimmed and everything else kept |
| CommunityRoutes.PatchBodyTrimsValid | src/routes/communities.js:258-263 | surrounding white space in the text fields does not change the validation verdict |
| CommunityRoutes.PatchBodyTrims | src/routes/communities.js:258-278 | for a valid body, trimming the text fields first leaves it valid and gives the same update |
| CommunityRoutes.PatchCommunity | src/routes/communities.js:253-300 | 400 iff the id is not a version-4 UUID or the body fails validation (name or slug over 255 characters once trimmed, description over 2000, a non-object `profile_data`, `parent_ids` not an array of version-4 UUIDs); then 404 for an unknown id, 403 for a LOCATION; 200 iff the caller may update and the trimmed slug does not clash, 409 iff it clashes; anything but 200 writes nothing |
| CommunityRoutes.RemoveStatus | src/routes/communities.js:368-376 | NOT_FOUND is 404, NOT_FOUNDER 403 and CANNOT_REMOVE_FOUNDER 400, each iff |
| CommunityRoutes.DeleteMember | src/routes/communities.js:352-381 | 400 for an invalid id; 200 iff both ids are valid and the founder of the PRIVATE community removes someone else, and removes exactly that member; anything else writes nothing |
| CommunityRoutes.JoinStatus | src/routes/communities.js:399-404 | NOT_FOUND is 404 and PRIVATE_INVITE_ONLY 400, each iff |
| CommunityRoutes.PostJoin | src/routes/communities.js:386-409 | 201 iff a membership row was added, for an active non-PRIVATE community the caller was not in; 200 for a current member; only 201 changes the members |
| CommunityRoutes.LeaveStatus | src/routes/communities.js:427-432 | NOT_FOUND is 404 and CANNOT_LEAVE_FRIEND_GROUP 403, each iff |
| CommunityRoutes.PostLeave | src/routes/communities.js:414-437 | 400 for an invalid id, 404 for an unknown one, 403 for the founder of a friend group; 200 iff none of these, and then the memberships change iff the caller was a member; anything but 200 writes nothing |
| EventRoutes.CreateDate | src/routes/events.js:34-40 | the date is sent iff it is given and non-empty; it is a prefix of the given text, the first ten characters when there are that many |
| EventRoutes.PatchDate | src/routes/events.js:134-140 | a missing key stays missing, an empty or null date is passed unchanged, and any other date is cut as on create |
| EventRoutes.DateNormalisation | src/routes/events.js:34-40 | cutting a date twice gives the same as cutting it once, on create and on update; an ISO date-time keeps its `YYYY-MM-DD` part |
| EventRoutes.ShowEventCreator | src/routes/events.js:89-101 | the masked reply names a creator iff the event has one, it is needed (public, the viewer's own event, or `show_creator`), and `findById` found it |
| EventRoutes.GetRatings | src/routes/events.js:323-351 | 404 iff the event is not found; `{aggregate: null, count: 0}` unless public, the creator's, or `show_ratings`; otherwise the aggregate |
| EventRoutes.RatingsMatchMask | src/routes/events.js:339-345 | the ratings endpoint answers iff the masked event carries its rating count |
| EventRoutes.RatingValue | src/routes/events.js:293 | an accepted rating is 1 to 5, and booleans, null and objects are refused |
| EventRoutes.RatingValueAccepts | src/routes/events.js:293 | each of 1 to 5 passes as a number, as its digit text and with a leading `+` |
| EventRoutes.CreateStatus | src/routes/events.js:55-63 | NOT_FOUND is 404, NOT_MEMBER 403 and NO_FRIEND_COMMUNITY 400, each iff |
| EventRoutes.ChangeStatus | src/routes/events.js:148-152 | NOT_FOUND is 404 and FORBIDDEN 403 for update and delete, each iff |
| EventRoutes.RateStatus | src/routes/events.js:308-312 | NOT_FOUND is 404 and INVALID_RATING 400, each iff |
| EventRoutes.CreateRefusalsAreClientErrors | src/routes/events.js:52-63 | every way `createEvent` can refuse maps to 400, 403 or 404, never to 500 |
| UserService.RowToUser | server/services/userService.js:11-38 | a missing row gives null; a row gives a user with every optional text defined, `is_active` defined and `avatar_color` null |
| UserService.RowToUserDefaults | server/services/userService.js:18-34 | a missing `is_active` reads as true and a missing bio as null; the password hash column never changes the object |
| UserService.StoredUserRowCell | server/services/userService.js:103 | each column of a stored user's row reads as that user's cell |
| UserService.RowToUserIdentity | server/services/userService.js:13-34 | id, username, email and `is_active` are read back as stored |
| UserService.RowToUserTexts | server/services/userService.js:16-33 | phone, display name, bio, avatar and location are read back as stored |
| UserService.RowToUserOfCells | server/services/userService.js:11-38 | any row whose columns read as a stored user's cells maps to that user's view |
| UserService.RowToUserOfStoredRow | server/services/userService.js:101-107 | the stored row of a user maps to its view |
| UserService.FindById | server/services/userService.js:101-107 | found iff the id exists, active or not, with its id and active flag; the result is `rowToUser` of the stored row |
| UserService.ActiveUserByUsername | server/services/userService.js:75-81 | a found user has the username and is active; none is found only when every user with it is inactive |
| UserService.FindByUsername | server/services/userService.js:75-81 | the lookup returns the user `ActiveUserByUsername` specifies, and finds one iff an active user has the username |
| UserService.DeactivatedUserHidden | server/services/userService.js:75-106 | an inactive user is found by id but not by username or email |
| UserService.StoredText | server/services/userService.js:130-139 | null is stored as NULL and a string as itself |
| UserService.Given | server/services/userService.js:129-134 | the value used for a key is one its entries give; none only when every entry for it is undefined |
| UserService.ColumnAfter | server/services/userService.js:129-139 | a column keeps its value unless the update gives it one, and then stores that value |
| UserService.ApplyEntriesIsUpdate | server/services/userService.js:126-139 | applying the entries in order is the column-by-column update: the last defined value of each allowed key wins, other keys are ignored, and username, email and `is_active` never change |
| UserService.NoWriteKeepsUser | server/services/userService.js:135 | with no allowed, defined entry the row is unchanged |
| UserService.UpdateIdempotent | server/services/userService.js:125-141 | repeating an update changes nothing more |
| UserService.SetClauses | server/services/userService.js:129-134 | the loop gives the row `UpdatedUser` specifies, and no clause iff nothing is written |
| UserService.UpdateUser | server/services/userService.js:125-141 | no write without an allowed defined entry or for an unknown user; otherwise exactly that user's row becomes `UpdatedUser`; the reply is `findById`, null iff the user is unknown |
| UserService.AvatarValue | server/services/userService.js:152 | `url \|\| null`: null iff the url is missing or empty, else the url |
| UserService.SetAvatarUrl | server/services/userService.js:149-155 | only that user's avatar becomes `url \|\| null`; an unknown user changes nothing; the reply is `findById` |
| UserService.AvatarAfterSet | server/services/userService.js:149-155 | after the update the user's view shows the url, or null when it was empty |
| ProfileService.RsvpCountOf | server/services/profileService.js:76-82 | the number of RSVP rows of the user |
| ProfileService.RatingCountOf | server/services/profileService.js:84-90 | the number of rating rows of the user |
| ProfileService.Privacy | server/services/profileService.js:18 | truthy privacy settings are used, otherwise an empty object |
| ProfileService.ProfileVisibility | server/services/profileService.js:39 | a truthy `profile_visibility` is used, otherwise 'public' |
| ProfileService.When | server/services/profileService.js:60-71 | a property added by an `if` is present iff the condition holds, with the value given |
| ProfileService.ProfileReply | server/services/profileService.js:13-74 | null iff the user is unknown; the owner's view iff the viewer is the owner; the limited view iff another viewer may not see the full profile |
| ProfileService.OwnerSeesEverything | server/services/profileService.js:22-37 | the owner always gets the full record with every count, the local communities and the config |
| ProfileService.PrivateProfileIsLimited | server/services/profileService.js:42-48 | a private profile shows everyone else exactly id, username and avatar |
| ProfileService.FriendsOnlyProfile | server/services/profileService.js:20-40 | a friends-only profile is shown in full iff the viewer is signed in and a friend |
| ProfileService.AnonymousSeesFriendsOnlyLimited | server/services/profileService.js:20 | an anonymous viewer is never a friend, so a friends-only profile is limited for them |
| ProfileService.HiddenLocation | server/services/profileService.js:56-62 | `show_location: false` hides both the location and the local communities |
| ProfileService.DefaultPrivacyShowsAll | server/services/profileService.js:50-73 | under the default, missing or falsy privacy settings anyone sees the full profile with every count, since a count is hidden only by a flag that is exactly false |
| ProfileService.GetPublicProfile | server/services/profileService.js:13-17 | an unknown user gives null and writes nothing; otherwise the default config row is created when missing and the reply is `ProfileReply` on the config read back |
| UserConfigService.DefaultGui | server/services/userConfigService.js:3-10 | the default GUI settings: system theme, English, both e-mail notifications on |
| UserConfigService.DefaultPrivacy | server/services/userConfigService.js:12-18 | the default privacy settings: a public profile with every other flag true |
| UserConfigService.ParseVariant | server/services/userConfigService.js:25-36 | null, booleans and numbers give null, an object is kept as it is, a string is parsed as JSON and gives null when parsing fails |
| UserConfigService.Section | server/services/userConfigService.js:50-51 | a section whose cell parses to a truthy value is that value; anything else reads as the default |
| UserConfigService.ReadConfig | server/services/userConfigService.js:48-53 | both sections of an existing row, each falling back to its default on its own |
| UserConfigService.DefaultRow | server/services/userConfigService.js:66-71 | the row inserted holds both defaults |
| UserConfigService.WithDefaultConfig | server/services/userConfigService.js:63-72 | after the call the user has a row; an existing row is left as it was, a missing one becomes the default row, and no other user's row changes |
| UserConfigService.DefaultConfigIdempotent | server/services/userConfigService.js:63-72 | creating the default row twice is the same as creating it once, and a new row reads back as the two defaults |
| UserConfigService.GetOrCreateDefaultConfig | server/services/userConfigService.js:63-72 | the table becomes `WithDefaultConfig` of the old table |
| UserConfigService.GetConfig | server/services/userConfigService.js:43-56 | the row is created when missing; the reply is what the row reads as, which is the two defaults when the row was missing |
| UserConfigService.Spread | server/services/userConfigService.js:83 | spreading an object copies its own properties; null, a boolean or a number copies none |
| UserConfigService.Merge | server/services/userConfigService.js:83-86 | the merged keys are the union; a key of the update takes the update's value and every other key keeps its current value |
| UserConfigService.MergedSection | server/services/userConfigService.js:82-87 | a null or missing update keeps the section; any other update is merged into it |
| UserConfigService.MergeIdempotent | server/services/userConfigService.js:82-87 | merging the same update twice is merging it once, and an empty update keeps an object unchanged |
| UserConfigService.UpdateConfig | server/services/userConfigService.js:80-96 | each section is the current one with the update merged in; the row is created when missing and then holds the reply; a given section is always an object, and a reply made of two object sections reads back as itself |
| UserConfigService.ObjectSectionsReadBack | server/services/userConfigService.js:48-53 | a row whose sections are objects reads back as exactly those sections |
| UserConfigService.NumberSectionReadsAsDefault | server/services/userConfigService.js:27-35 | a stored section that is a number is not an object, so it reads back as the default |
| UserRoutes.QueryInt | server/routes/users.js:332-333 | a missing query value is NaN; a present one is read by `parseInt` with radix 10 |
| UserRoutes.PageLimit | server/routes/users.js:332 | never above 100; 50 when the value is missing, not a number or zero; otherwise the number, capped at 100 |
| UserRoutes.PageOffset | server/routes/users.js:333 | 0 when the value is missing or not a number, otherwise the number |
| UserRoutes.PageLimitDefault | server/routes/users.js:332 | the limit is 50 for an absent value, for text that is not a number and for "0" |
| UserRoutes.PageLimitOfNat | server/routes/users.js:332 | digits followed by any text give their number when it is 1 to 100, and 100 above that |
| UserRoutes.PageLimitNegative | server/routes/users.js:332 | a negative limit is passed on unchanged, because there is no lower clamp |
| UserRoutes.PageOffsetCases | server/routes/users.js:333 | the offset is 0 when absent or not a number, and otherwise the number given |
| UserRoutes.AvatarParam | server/routes/users.js:414-416 | a null or missing url gives null; otherwise the trimmed string form of the value, or null when that is empty |
| UserRoutes.AvatarNormalised | server/routes/users.js:407-416 | the stored url is null exactly for a missing or blank url; otherwise it is non-empty with no white space at either end, and `setAvatarUrl` stores it unchanged |
| UserRoutes.Nested | server/routes/users.js:379-380 | a nested property is undefined when its section is missing, and otherwise the section's property |
| UserRoutes.ConfigUpdates | server/routes/users.js:388-391 | a section is forwarded exactly when it is neither null nor undefined |
| UserRoutes.ConfigPatchForwarding | server/routes/users.js:376-392 | a valid PATCH forwards only objects; a null section never passes validation; dropping nullish sections changes nothing `updateConfig` would have done with the raw body |
| UserRoutes.ConfigPatchKnownLevels | server/routes/users.js:379-380 | a valid PATCH forwards only the themes system, light and dark and only the visibilities public, friends and private |
| UserRoutes.GetMyFriendGroup | server/routes/users.js:49-65 | the tables stay valid; an existing group changes nothing; a missing one is created under the new id, with the owner row on the first community the slug re-select returns, so the user, when active, is listed in the new group whenever the slug was free; the reply is always the group with the members `getMembers` lists, exactly its active members, so the 500 branch is unreachable |
| UserRoutes.SendRequestStatus | server/routes/users.js:108-120 | every refusal of `sendRequest` is answered 400; anything else is 500 |
| UserRoutes.AcceptRequestStatus | server/routes/users.js:139-151 | 404 exactly for an unknown request; 400 exactly for the wrong user or a settled request; 500 for a missing friend group |
| UserRoutes.DeclineRequestStatus | server/routes/users.js:170-179 | 404 exactly for an unknown request and 400 exactly for the wrong user |
| UserRoutes.PostFriendRequest | server/routes/users.js:96-122 | the tables stay valid; the reply is 201 or 400; a `user_id` that fails `isUUID(4)` is 400; 201 iff the id passes, the users differ and no pending or accepted request joins them in either direction; a 400 changes nothing; a request to oneself is always 400 |
| UserRoutes.PostAcceptRequest | server/routes/users.js:127-153 | the tables stay valid; 400 iff the id fails `isUUID(4)`, the caller is not the addressee or the request is not pending; 404 iff a valid id names no request; 200 iff a valid id names a pending request to the caller whose users both have friend groups; a 400 or 404 changes nothing |
| UserRoutes.PostDeclineRequest | server/routes/users.js:158-181 | the tables stay valid; 400 iff the id fails `isUUID(4)` or the caller is not the addressee; 404 iff a valid id names no request; 200 iff a valid id names a request to the caller; any reply other than 200 changes nothing |
| BoardRequest.Validate | mainhost.py:10-15 | a body is accepted exactly when the four required strings are present; a refusal is 422; an accepted event holds exactly the given fields and is published only when `is_published` is true |
| BoardRequest.ValidateRoundTrip | Whats--main/mainhost.py:52-57 | a validated event's body validates back to the same event, and leaving out `is_published` gives the unpublished event |
| ListBoard.InviteMessage | mainhost.py:21-25 | the invitation names the event's title and its host |
| ListBoard.Board.constructor | mainhost.py:18 | the board starts with no events and no pending invitation |
| ListBoard.Board.CreateEvent | mainhost.py:29-37 | the event is appended after the earlier ones, which are kept in order; an invitation is scheduled exactly when the event is published; the reply is Success with the title |
| ListBoard.Board.GetAllEvents | mainhost.py:39-41 | the listing is the stored list itself, vault details included |
| ListBoard.InvitesOfAppend | mainhost.py:34-35 | the invitations of two batches of events are those of the first followed by those of the second |
| ListBoard.InvitesArePublished | mainhost.py:34-35 | an invitation is scheduled exactly for each published event, with its title and host |
| SqlBoard.Public | Whats--main/mainhost.py:119 | a listed row keeps id, title, host and public description |
| SqlBoard.Listing | Whats--main/mainhost.py:117-119 | one entry per row, in table order, each the public projection of its row |
| SqlBoard.ListingHidesPrivateColumns | Whats--main/mainhost.py:118-119 | two tables that differ only in vault details and publication list the same, so neither column can leak |
| SqlBoard.InviteMessage | Whats--main/mainhost.py:86-93 | the invitation names the title, the host and the public description |
| SqlBoard.InviteHidesVault | Whats--main/mainhost.py:86-93 | changing a row's vault details or its flag does not change its invitation |
| SqlBoard.FindRow | Whats--main/mainhost.py:78 | nothing is found exactly when no row has the id; a row found is in the table and has the id |
| SqlBoard.SendInvite | Whats--main/mainhost.py:71-97 | nothing is posted exactly when the id is not found; otherwise the post is the invitation of the row found |
| SqlBoard.Store.constructor | Whats--main/mainhost.py:49 | the table starts empty, with nothing scheduled |
| SqlBoard.Store.CreateEvent | Whats--main/mainhost.py:100-112 | a row holding exactly the submitted fields is appended under the next id; that id is scheduled exactly when the event is published; the reply gives the id and title, and the id finds the new row |
| SqlBoard.Store.GetAllEvents | Whats--main/mainhost.py:114-119 | the reply is the public projection of every row, in table order |
| SqlBoard.FindLast | Whats--main/mainhost.py:103-106 | in a table keyed by position, the id given to the last row finds it |
| SqlBoard.FindKeyed | Whats--main/mainhost.py:78 | in a table keyed by position, every row is found by its own id |
| SqlBoard.ScheduledInvitesPost | Whats--main/mainhost.py:108-110 | every scheduled id names a row, so its invitation is posted when the background job runs |
| BranchLines.Find | frontend/src/components/Map/BranchLines.jsx:24 | nothing is found exactly when no post has the id; a post found is among the posts and has the id |
| BranchLines.FindIsFirst | frontend/src/components/Map/BranchLines.jsx:24 | when some post has the id, the one found is the first such post |
| BranchLines.FirstIndex | frontend/src/components/Map/BranchLines.jsx:24 | the index of a post with the id, such that no earlier post has it |
| BranchLines.LineOf | frontend/src/components/Map/BranchLines.jsx:26-36 | the line runs from the parent's `[lng, lat]` to the branch's and carries both ids |
| BranchLines.Lines | frontend/src/components/Map/BranchLines.jsx:23-38 | no more lines than candidates, since a missing parent yields none |
| BranchLines.LinesIff | frontend/src/components/Map/BranchLines.jsx:23-38 | a feature is drawn exactly when it is the line of a candidate whose parent is among the posts |
| BranchLines.LinesCount | frontend/src/components/Map/BranchLines.jsx:23-38 | there is exactly one line per candidate whose parent is present |
| BranchLines.FeaturesIff | frontend/src/components/Map/BranchLines.jsx:20-41 | the features are exactly the lines of the branches with a truthy parent id whose parent is shown, one per such branch |
| BranchLines.DrawnIffLinked | frontend/src/components/Map/BranchLines.jsx:43 | the layer is drawn exactly when some branch's parent is among the posts |
| LocationPicker.NamesDistinct | frontend/src/components/Map/LocationPicker.jsx:6-13 | no two preset neighbourhoods share a name |
| LocationPicker.Offered | frontend/src/components/Map/LocationPicker.jsx:20-22 | the search never offers more presets than there are |
| LocationPicker.Filtered | frontend/src/components/Map/LocationPicker.jsx:20-22 | the search over the six presets offers at most six |
| LocationPicker.OfferedIff | frontend/src/components/Map/LocationPicker.jsx:20-22 | a preset is offered exactly when its name holds the query, ignoring case |
| LocationPicker.EmptyQueryOffersAll | frontend/src/components/Map/LocationPicker.jsx:20-22 | an empty query offers every preset, in order |
| LocationPicker.AtMostOneHighlighted | frontend/src/components/Map/LocationPicker.jsx:127-135 | pills are highlighted by name, so at most one preset is highlighted |
| LocationPicker.Picker.constructor | frontend/src/components/Map/LocationPicker.jsx:18 | the search starts empty and nothing has been chosen |
| LocationPicker.Picker.SetQuery | frontend/src/components/Map/LocationPicker.jsx:18 | the search field holds the text typed |
| LocationPicker.Picker.Pick | frontend/src/components/Map/LocationPicker.jsx:24-27 | the neighbourhood is reported once and the search is cleared |
| LocationPicker.Picker.HandleSearchSubmit | frontend/src/components/Map/LocationPicker.jsx:29-32 | with nothing offered, nothing changes; otherwise the first preset offered is reported and the search cleared |
| LocationPicker.SubmitPicksAMatch | frontend/src/components/Map/LocationPicker.jsx:29-32 | what a submit reports is a preset whose name holds the search |
| LocationPicker.EmptySubmitPicksFirst | frontend/src/components/Map/LocationPicker.jsx:7 | submitting an empty search reports West Philadelphia |
| PlantTreeClient.TrimmedOrUndefined | client/src/components/Map/PlantTree.jsx:44-46 | the field is present exactly when its trimmed text is not empty, and is then that trimmed text |
| PlantTreeClient.DateTimePartsOfJoined | client/src/components/Map/PlantTree.jsx:48-49 | a value made of a date, 'T' and a time splits into that date and that time; a value without 'T' is all date and has no time |
| PlantTreeClient.SpecificLocationRoundTrip | client/src/components/Map/PlantTree.jsx:47 | the location text splits on its comma back into the two coordinates |
| PlantTreeClient.RequestFields | client/src/components/Map/PlantTree.jsx:42-50 | the title is the trimmed name; description and link are sent exactly when not blank; the address exactly in address mode when not blank; the location exactly when there are coordinates; date and time only for a set datetime |
| PlantTreeClient.PickedDateTimeSent | client/src/components/Map/PlantTree.jsx:48-49 | a date and time picked together reach the request as that date and that time |
| PlantTreeClient.Sheet.constructor | client/src/components/Map/PlantTree.jsx:29-35 | every field starts empty, the toast hidden and address mode off |
| PlantTreeClient.Sheet.HandleSubmit | client/src/components/Map/PlantTree.jsx:37-62 | a blank name sends nothing and changes nothing; otherwise the request is sent; a success clears name, description, link and date, closes the sheet and shows the toast, and a failure changes nothing else |
| PlantTreeClient.Sheet.Send | client/src/components/Map/PlantTree.jsx:41-61 | the request is sent once; a success clears four fields, closes the sheet and shows the toast, a failure leaves them |
| PlantTreeClient.Sheet.ClearAfterSuccess | client/src/components/Map/PlantTree.jsx:52-57 | name, description, link and datetime become empty, the sheet is closed and the toast shown |
| PlantTreeClient.Sheet.HandleCancel | client/src/components/Map/PlantTree.jsx:64-72 | every field is cleared, address mode is turned off and the sheet is closed |
| FriendsClient.ListOf | client/src/pages/FriendsPage.jsx:322 | an array body gives its elements; anything else gives an empty list |
| FriendsClient.NameOf | client/src/pages/FriendsPage.jsx:325 | the first truthy value of display name and username, and otherwise 'User' |
| FriendsClient.FriendOf | client/src/pages/FriendsPage.jsx:323-329 | the id is `user_id` when truthy and `id` otherwise; the name is `NameOf` |
| FriendsClient.RequestOf | client/src/pages/FriendsPage.jsx:336-340 | the request keeps the row's id and takes `NameOf` as its name |
| FriendsClient.NameAlwaysTruthy | client/src/pages/FriendsPage.jsx:325 | the name shown is never falsy |
| FriendsClient.ShownCircle | client/src/pages/FriendsPage.jsx:472 | at most three friends are shown; with friends, the first ones; with none, the first three sample friends |
| FriendsClient.WithoutRequest | client/src/pages/FriendsPage.jsx:356 | removing a request never lengthens the list |
| FriendsClient.WithoutRequestSpec | client/src/pages/FriendsPage.jsx:356 | exactly the requests with another id are kept, in their order, and removing the same id again changes nothing |
| FriendsClient.Page.constructor | client/src/pages/FriendsPage.jsx:301-304 | no friends, no requests, and the first section active |
| FriendsClient.Page.LoadFriends | client/src/pages/FriendsPage.jsx:320-331 | a rejected call, or a list holding a null whose mapping throws, leaves the circle; otherwise it becomes one mapped friend per element |
| FriendsClient.Page.LoadRequests | client/src/pages/FriendsPage.jsx:333-342 | a rejected call or a throwing mapping leaves the requests; otherwise they become one mapped request per element |
| FriendsClient.Page.HandleAnswer | client/src/pages/FriendsPage.jsx:353-368 | a failed accept or decline changes nothing; a success removes that request |
| FriendsClient.Page.SelectSection | client/src/pages/FriendsPage.jsx:345-346 | the chosen section becomes active |
| FriendsClient.LoadedListLength | client/src/pages/FriendsPage.jsx:322-323 | a non-array body clears both lists; an array gives one entry per element |
| PlantTreeFrontend.TzLabel | frontend/src/components/Map/PlantTree.jsx:66-71 | a zone's label never holds an underscore |
| PlantTreeFrontend.TzLabelPlain | frontend/src/components/Map/PlantTree.jsx:66-71 | a zone name without '/' is its own label, with underscores shown as spaces |
| PlantTreeFrontend.TzLabelTwoParts | frontend/src/components/Map/PlantTree.jsx:66-71 | 'Area/City' is labelled 'Area / City', with underscores shown as spaces |
| PlantTreeFrontend.TzLabelThreeParts | frontend/src/components/Map/PlantTree.jsx:66-71 | 'Area/Region/City' shows only the first and the last part |
| PlantTreeFrontend.FilteredZones | frontend/src/components/Map/PlantTree.jsx:76-78 | the search never offers more zones than there are |
| PlantTreeFrontend.FilteredZonesIff | frontend/src/components/Map/PlantTree.jsx:76-78 | a zone is offered exactly when its label holds the search, ignoring case |
| PlantTreeFrontend.EmptySearchOffersAll | frontend/src/components/Map/PlantTree.jsx:76-78 | an empty search offers every zone, in order |
| PlantTreeFrontend.ZonePicker.constructor | frontend/src/components/Map/PlantTree.jsx:74-75 | the dropdown starts closed with an empty search |
| PlantTreeFrontend.ZonePicker.ToggleOpen | frontend/src/components/Map/PlantTree.jsx:84 | the button flips the dropdown open or closed |
| PlantTreeFrontend.ZonePicker.SetSearch | frontend/src/components/Map/PlantTree.jsx:124 | the search field holds the text typed |
| PlantTreeFrontend.ZonePicker.Choose | frontend/src/components/Map/PlantTree.jsx:142 | the chosen zone is reported, the list closes and the search is cleared |
| PlantTreeFrontend.PrivacyToast | frontend/src/components/Map/PlantTree.jsx:6-39 | a privacy option has a toast exactly when its id is one of the three options |
| PlantTreeFrontend.TrimmedOrNone | frontend/src/components/Map/PlantTree.jsx:202 | the field is present exactly when its trimmed text is not empty, and is then that trimmed text |
| PlantTreeFrontend.PlantAt | frontend/src/components/Map/PlantTree.jsx:195-207 | a branch sits within 0.0015 degrees of its parent; in address mode a tree falls back to the city centre; otherwise it is placed at the tap |
| PlantTreeFrontend.BuildPost | frontend/src/components/Map/PlantTree.jsx:195-219 | the post carries the trimmed title and description; the link only when not blank; a time, with its timezone, exactly for a set datetime; the address only in address mode; it is a branch exactly when there is a parent, with that parent's id, within 0.0015 degrees of it; it keeps the chosen privacy |
| PlantTreeFrontend.NewPostIsSeed | frontend/src/components/Map/PlantTree.jsx:208-213 | a new post has no waters and no branches, and its stage name 'seed' agrees with the stage the card computes for 0 waters |
| PlantTreeFrontend.PlantedWhereTapped | frontend/src/components/Map/PlantTree.jsx:195-207 | with a tap and no address, a new tree is planted exactly where the map was tapped, has no address and is not a branch |
| PlantTreeFrontend.EmptyFormClean | frontend/src/components/Map/PlantTree.jsx:233-248 | a reset form is not dirty, so a cancel right after planting closes without asking |
| PlantTreeFrontend.PlantedToast | frontend/src/components/Map/PlantTree.jsx:227-228 | a branch shows the branch message; a tree shows the toast of its privacy option |
| PlantTreeFrontend.WithInput | frontend/src/components/Map/PlantTree.jsx:356-396 | an input changes only its own field |
| PlantTreeFrontend.Sheet.constructor | frontend/src/components/Map/PlantTree.jsx:172-182 | the form starts empty and public, with no toast, no confirmation and nothing planted |
| PlantTreeFrontend.Sheet.SetInput | frontend/src/components/Map/PlantTree.jsx:356-396 | the form stays valid and only that field changes |
| PlantTreeFrontend.Sheet.SetPrivacy | frontend/src/components/Map/PlantTree.jsx:416 | the form stays valid and only the privacy changes |
| PlantTreeFrontend.Sheet.SetUseAddress | frontend/src/components/Map/PlantTree.jsx:320 | the form stays valid and only the address toggle changes |
| PlantTreeFrontend.Sheet.ResetForm | frontend/src/components/Map/PlantTree.jsx:233-243 | every field goes back to its start and the confirmation closes |
| PlantTreeFrontend.Sheet.WarnNameRequired | frontend/src/components/Map/PlantTree.jsx:188-193 | the name-required warning toast is shown |
| PlantTreeFrontend.Sheet.Plant | frontend/src/components/Map/PlantTree.jsx:222-230 | the post is handed over once, the form resets, the sheet closes and the toast shows the message |
| PlantTreeFrontend.Sheet.HandleSubmit | frontend/src/components/Map/PlantTree.jsx:186-231 | the toast always shows; a blank name only warns and changes nothing else; otherwise the post built from the form is handed over, the form resets, the sheet closes and the toast names what was planted |
| PlantTreeFrontend.Sheet.DoClose | frontend/src/components/Map/PlantTree.jsx:254-257 | the form resets and the sheet closes |
| PlantTreeFrontend.Sheet.HandleCancel | frontend/src/components/Map/PlantTree.jsx:245-252 | a dirty form asks for confirmation and changes nothing else; a clean one resets and closes at once |
| PlantTreeFrontend.Sheet.KeepEditing | frontend/src/components/Map/PlantTree.jsx:509 | the confirmation closes |
| FilterSheet.CountActive | frontend/src/components/Map/FilterSheet.jsx:25-33 | at least one per chosen stage, and at most four more |
| FilterSheet.CountZeroIffDefault | frontend/src/components/Map/FilterSheet.jsx:19-33 | the count is zero exactly when every choice is its default, the custom radius aside |
| FilterSheet.Clamp | frontend/src/components/Map/FilterSheet.jsx:68-69 | the radius always lies between 5 and 100; one already in range is kept, one below goes to 5 and one above to 100 |
| FilterSheet.Toggle | frontend/src/components/Map/FilterSheet.jsx:82-86 | the stage is chosen afterwards exactly when it was not before, and no other stage changes |
| FilterSheet.Without | frontend/src/components/Map/FilterSheet.jsx:84 | the stage is gone, every other stage stays, and the list does not grow |
| FilterSheet.WithoutAbsent | frontend/src/components/Map/FilterSheet.jsx:84 | removing a stage that is not chosen keeps the list as it is |
| FilterSheet.ToggleTwice | frontend/src/components/Map/FilterSheet.jsx:82-86 | toggling a stage twice gives back the same stages, and the very same list when the stage was not chosen |
| FilterSheet.WithoutAppend | frontend/src/components/Map/FilterSheet.jsx:84-85 | removing a stage just appended gives back the earlier list |
| FilterSheet.WithoutDistinct | frontend/src/components/Map/FilterSheet.jsx:84 | removal keeps a list without repeats and shortens it by one when the stage was there |
| FilterSheet.ToggleCount | frontend/src/components/Map/FilterSheet.jsx:25-33 | on a list without repeats a toggle keeps it without repeats and moves the active count by exactly one, down when removing and up when adding |
| FilterSheet.SetSingle | frontend/src/components/Map/FilterSheet.jsx:89-93 | only that field changes; a distance other than Custom also drops the custom radius |
| FilterSheet.TypeFilterChoices | frontend/src/pages/MapPage.jsx:172-176 | 'Trees Only' keeps exactly the trees, 'Branches Only' exactly the branches, and a type none of the three keeps nothing |
| FilterSheet.Sheet.constructor | frontend/src/components/Map/FilterSheet.jsx:73 | the radius starts at 25 |
| FilterSheet.Sheet.Sync | frontend/src/components/Map/FilterSheet.jsx:76-80 | opening with a custom distance and radius takes that radius, clamped; otherwise the radius is kept |
| FilterSheet.Sheet.ToggleStage | frontend/src/components/Map/FilterSheet.jsx:82-87 | the filters become the old ones with that stage toggled |
| FilterSheet.Sheet.Choose | frontend/src/components/Map/FilterSheet.jsx:89-93 | the filters become the old ones with that one choice set |
| FilterSheet.Sheet.ChooseDistance | frontend/src/components/Map/FilterSheet.jsx:178-181 | a distance other than Custom is set alone; Custom is stored together with the current radius, from the record as it was before the click |
| FilterSheet.Sheet.SetRadiusAndNotify | frontend/src/components/Map/FilterSheet.jsx:95-101 | the radius becomes the clamped value; under Custom the filters take it, otherwise they are unchanged |
| FilterSheet.Sheet.StepDown | frontend/src/components/Map/FilterSheet.jsx:189-191 | the radius drops by five but never below 5, and always drops; the filters follow only under Custom |
| FilterSheet.Sheet.StepUp | frontend/src/components/Map/FilterSheet.jsx:208-210 | the radius rises by five but never above 100, and always rises; the filters follow only under Custom |
| FilterSheet.Sheet.Reset | frontend/src/components/Map/FilterSheet.jsx:103-106 | the radius is 25 and the filters are the defaults, with nothing active |
| ExplorePage.VisiblePosts | frontend/src/pages/ExplorePage.jsx:266-286 | the list never holds more posts than there are |
| ExplorePage.FilteredIsShown | frontend/src/pages/ExplorePage.jsx:266-281 | the four chained filters keep exactly what one filter by all four tests keeps, in order |
| ExplorePage.VisibleIffShown | frontend/src/pages/ExplorePage.jsx:266-286 | a post is listed exactly when it is one of the posts, its title holds the query ignoring case, its stage is chosen or none is, its type is kept, and under 'Branches' it has a branch |
| ExplorePage.VisibleOrder | frontend/src/pages/ExplorePage.jsx:283-286 | 'Most Watered' lists by non-increasing waters, 'Branches' by non-increasing branches, and any other tab keeps the posts' own order |
| ExplorePage.VisibleTiesKeepOrder | frontend/src/pages/ExplorePage.jsx:283-286 | on 'Most Watered', the posts with any one water count appear in the order of the filtered feed |
| Seqs.InsertDescStable | frontend/src/pages/ExplorePage.jsx:283-286 | the inserted element comes before every element of its own key, and the others of that key keep their order |
| Seqs.SortDescStable | frontend/src/pages/ExplorePage.jsx:283-286 | the sort is stable: the elements of any one key come out in their input order |
| ExplorePage.DefaultsShowAll | frontend/src/pages/ExplorePage.jsx:266-286 | with no query, the default filters and the 'Newest' tab every post is listed, in order |
| TreesSearchPage.BaseForTab | client/src/pages/TreesSearchPage.jsx:56 | each tab lists its own data: planted, watered or branches |
| TreesSearchPage.VisiblePosts | client/src/pages/TreesSearchPage.jsx:226-245 | the list never holds more posts than the active tab |
| TreesSearchPage.FilteredIsShown | client/src/pages/TreesSearchPage.jsx:227-240 | the three chained filters keep exactly what one filter by all three tests keeps, in order |
| TreesSearchPage.VisibleIffShown | client/src/pages/TreesSearchPage.jsx:226-245 | a post is listed exactly when it is in the active tab and its title or content holds the query and its stage and type are kept; other tabs are never searched |
| TreesSearchPage.VisibleOrder | client/src/pages/TreesSearchPage.jsx:241-245 | 'Most Watered' and 'Growing Fast' list by non-increasing waters; any other sort keeps the tab's order |
| TreesSearchPage.VisibleTiesKeepOrder | client/src/pages/TreesSearchPage.jsx:241-245 | under a sort by waters, the posts with any one water count keep the tab's filtered order |
| MapPage.MaxMiles | frontend/src/pages/MapPage.jsx:83-92 | a distance missing from the table gives the limit 999 |
| MapPage.SheetDistancesNeverFilter | frontend/src/pages/MapPage.jsx:164-170 | every distance the filter sheet offers except '10 mi' is missing from the table, and '10 mi' maps to 999, so the distance test keeps every post |
| MapPage.FilteredPosts | frontend/src/pages/MapPage.jsx:158-184 | the map never shows more posts than there are |
| MapPage.FilteredIffShown | frontend/src/pages/MapPage.jsx:158-184 | a post is shown exactly when it passes the stage, distance and type tests; 'Most Watered' lists by non-increasing waters and any other sort keeps the posts' order |
| MapPage.FilteredTiesKeepOrder | frontend/src/pages/MapPage.jsx:158-184 | on 'Most Watered', the posts with any one water count keep their filtered order |
| MapPage.CountKey | frontend/src/pages/MapPage.jsx:95-100 | the counter at a key never exceeds the number of posts seen |
| MapPage.SeenStep | frontend/src/pages/MapPage.jsx:97-100 | counting one more post raises the counter at its key by one and leaves every other key alone |
| MapPage.Shift | frontend/src/pages/MapPage.jsx:101-106 | a moved post keeps its id, waters, stage and kind, and an offset of 0 leaves it where it is |
| MapPage.Spread | frontend/src/pages/MapPage.jsx:94-109 | spreading keeps the number of posts |
| MapPage.SpreadAt | frontend/src/pages/MapPage.jsx:94-109 | the i-th spread post is the i-th post moved by the number of earlier posts at its key |
| MapPage.SpreadPosts | frontend/src/pages/MapPage.jsx:94-109 | the loop gives one post per post, in order, the k-th post at a key moved by k steps of 0.0003 degrees |
| MapPage.FirstAtKeyUnmoved | frontend/src/pages/MapPage.jsx:98-99 | a post whose key no earlier post has is not moved |
| MapPage.LaterMovedFurther | frontend/src/pages/MapPage.jsx:98-100 | a later post at the same key is moved further, so no two posts at one spot share an offset |
| MapPage.Nearby | frontend/src/pages/MapPage.jsx:202-205 | every nearby post lies within 0.0005 degrees of the tap in both directions |
| MapPage.Merged | frontend/src/pages/MapPage.jsx:149 | the merged post keeps its id, each field the update carries replaces the old one, and every other field is kept |
| MapPage.View.constructor | frontend/src/pages/MapPage.jsx:113-122 | the map starts with the given posts, nothing selected and every sheet closed |
| MapPage.View.HandleMapClick | frontend/src/pages/MapPage.jsx:196-216 | with a post selected, a tap only deselects it; otherwise two or more nearby markers open the picker with them, one is selected, and none opens the planting sheet at the tap |
| MapPage.View.HandleSelectPost | frontend/src/pages/MapPage.jsx:218-222 | that post is selected, and the planting sheet and the picker close |
| MapPage.View.OnUpdate | frontend/src/pages/MapPage.jsx:146-151 | the list keeps its length; the post with the update's id is merged with it and every other post stays |
| MapPage.UnknownIdChangesNothing | frontend/src/pages/MapPage.jsx:149 | an update whose id matches no post leaves the list as it was |
| FindFriendsPage.EffectiveRadius | frontend/src/pages/FindFriendsPage.jsx:90-94 | under Custom the custom radius, 25 when unset; otherwise the integer the distance text starts with, or 10 when it starts with none |
| FindFriendsPage.SheetRadii | frontend/src/pages/FindFriendsPage.jsx:90-94 | each distance the filter sheet offers, such as '20 mi', means the miles it names |
| FindFriendsPage.FindsOwnUsername | frontend/src/pages/FindFriendsPage.jsx:96-103 | searching for a person's own username, in any letter case and with spaces around it, finds them |
| FindFriendsPage.Recency | frontend/src/pages/FindFriendsPage.jsx:128-129 | the five known labels rank 0 to 4, and exactly the unknown labels rank 5, last |
| FindFriendsPage.FilteredSimilar | frontend/src/pages/FindFriendsPage.jsx:124-130 | the list never holds more people than there are |
| FindFriendsPage.FilteredNearby | frontend/src/pages/FindFriendsPage.jsx:132-135 | the list never holds more people than there are |
| FindFriendsPage.SimilarOrder | frontend/src/pages/FindFriendsPage.jsx:124-130 | exactly the matching people are listed, by shared trees descending and, among equal shared trees, the more recent interaction first |
| FindFriendsPage.NearbyOrder | frontend/src/pages/FindFriendsPage.jsx:132-135 | exactly the matching people within the radius are listed, by non-decreasing distance |
| FindFriendsPage.MarkAdded | frontend/src/pages/FindFriendsPage.jsx:137-138 | the list keeps its length; the people with that id are marked requested and every other person stays |
| FindFriendsPage.Page.constructor | frontend/src/pages/FindFriendsPage.jsx:110-111 | the page starts with the given lists |
| FindFriendsPage.Page.MarkSimilarAdded | frontend/src/pages/FindFriendsPage.jsx:137 | the similar list becomes the old one with that person marked |
| FindFriendsPage.Page.MarkNearbyAdded | frontend/src/pages/FindFriendsPage.jsx:138 | the nearby list becomes the old one with that person marked |
| FindFriendsPage.MarkAddedIdempotent | frontend/src/pages/FindFriendsPage.jsx:137-138 | marking twice is marking once, and marking changes nothing but the requested flag |
| FriendsSearchPage.ChipValue | client/src/pages/friends/FriendsSearchPage.jsx:48-54 | no section's chip has the value 'all' |
| FriendsSearchPage.IfVisible | client/src/pages/friends/FriendsSearchPage.jsx:280-283 | a shown section keeps its list and a hidden one is empty |
| FriendsSearchPage.Visible | client/src/pages/friends/FriendsSearchPage.jsx:274-283 | no section shows more than its data |
| FriendsSearchPage.TotalResults | client/src/pages/friends/FriendsSearchPage.jsx:285 | the total is zero exactly when all four visible lists are empty |
| FriendsSearchPage.ClipPreview | client/src/pages/friends/FriendsSearchPage.jsx:289-290 | preview mode shows the first three, and otherwise the whole list |
| FriendsSearchPage.Rendered | client/src/pages/friends/FriendsSearchPage.jsx:407-449 | every section is a prefix of its visible list, and the requests are always shown whole |
| FriendsSearchPage.CountLabel | client/src/pages/friends/FriendsSearchPage.jsx:402-444 | a section's count is shown exactly while there is a query, and is then its number of results |
| FriendsSearchPage.HasQueryIffTyped | client/src/pages/friends/FriendsSearchPage.jsx:271-272 | there is a query exactly when the typed text is not empty |
| FriendsSearchPage.VisibleIff | client/src/pages/friends/FriendsSearchPage.jsx:274-283 | an item is visible exactly when its section is shown and it matches the query |
| FriendsSearchPage.NoQueryShowsEverything | client/src/pages/friends/FriendsSearchPage.jsx:274-283 | with no query and the 'all' chip every list is visible whole, in its own order |
| FriendsSearchPage.ChipShowsOneSection | client/src/pages/friends/FriendsSearchPage.jsx:280-283 | a section's chip shows that section exactly as 'all' does, and no other |
| FriendsSearchPage.EmptyIffNoMatch | client/src/pages/friends/FriendsSearchPage.jsx:286 | the page shows its empty state exactly when a query is typed and nothing in a shown section matches it |
| FriendsSearchPage.LongerQueryNarrows | client/src/pages/friends/FriendsSearchPage.jsx:274-277 | typing more only narrows: whatever a longer query shows, the shorter one shows too |
| FriendsSearchPage.PreviewClipsToThree | client/src/pages/friends/FriendsSearchPage.jsx:289-290 | the preview shows at most three of each section but every request; outside it, each visible list is shown whole |
| OnboardingPage.InterestOptionsDistinct | frontend/src/pages/OnboardingPage.jsx:6-11 | the ten interest options are all different |
| OnboardingPage.Direction | frontend/src/pages/OnboardingPage.jsx:310 | the direction is 1 exactly when moving to a later slide and -1 otherwise |
| OnboardingPage.LeftLabelMatchesAction | frontend/src/pages/OnboardingPage.jsx:17-54 | the left button says 'Skip Intro' exactly on the first slide, where it finishes, and 'Go Back' everywhere else |
| OnboardingPage.RightLabelMatchesAction | frontend/src/pages/OnboardingPage.jsx:17-54 | the right button says 'GET STARTED' exactly on the last slide, where it finishes |
| OnboardingPage.WithCustom | frontend/src/pages/OnboardingPage.jsx:330-336 | the trimmed text is appended when it is not blank and not yet chosen; otherwise the list is unchanged |
| OnboardingPage.WithCustomIdempotent | frontend/src/pages/OnboardingPage.jsx:330-336 | adding the same interest again changes nothing, and a list without repeats keeps none |
| OnboardingPage.ToggleKeepsDistinct | frontend/src/pages/OnboardingPage.jsx:324-328 | toggling an interest on a list without repeats never adds one |
| OnboardingPage.Carousel.constructor | frontend/src/pages/OnboardingPage.jsx:300-303 | the carousel starts on the first slide, facing forwards, with no interests |
| OnboardingPage.Carousel.GoTo | frontend/src/pages/OnboardingPage.jsx:309-312 | the slide becomes the one asked for, with the direction of travel |
| OnboardingPage.Carousel.HandleLeft | frontend/src/pages/OnboardingPage.jsx:314-317 | on the first slide it finishes; elsewhere it goes one slide back, facing backwards |
| OnboardingPage.Carousel.HandleRight | frontend/src/pages/OnboardingPage.jsx:319-322 | before the last slide it goes one on, facing forwards; on the last it finishes |
| OnboardingPage.Carousel.ToggleInterest | frontend/src/pages/OnboardingPage.jsx:324-328 | the interest is chosen afterwards exactly when it was not before |
| OnboardingPage.Carousel.SetCustomInterest | frontend/src/pages/OnboardingPage.jsx:303 | the text field holds the text typed |
| OnboardingPage.Carousel.AddCustomInterest | frontend/src/pages/OnboardingPage.jsx:330-336 | the interests become `WithCustom` of the old ones and the field is cleared |
| OnboardingPage.RightThenLeft | frontend/src/pages/OnboardingPage.jsx:309-322 | right then left returns to the same slide, facing backwards |
| ProfilePage.SetField | frontend/src/pages/ProfilePage.jsx:191-210 | only the field edited (name, neighborhood, user type or email, the keys of lines 197, 202, 210 and 307) changes |
| ProfilePage.SetFieldTwice | frontend/src/pages/ProfilePage.jsx:191 | setting a field twice keeps only the second value |
| ProfilePage.CustomChips | frontend/src/pages/ProfilePage.jsx:251-252 | there are never more custom chips than chosen interests |
| ProfilePage.ChosenShownOnce | frontend/src/pages/ProfilePage.jsx:238-262 | every chosen interest is shown selected exactly once: an offered one as an option chip, any other as a custom chip |
| ProfilePage.Editor.constructor | frontend/src/pages/ProfilePage.jsx:164-167 | profile and draft both start as the initial profile, not editing |
| ProfilePage.Editor.StartEdit | frontend/src/pages/ProfilePage.jsx:177-180 | the draft becomes a copy of the profile and editing starts |
| ProfilePage.Editor.SaveEdit | frontend/src/pages/ProfilePage.jsx:182-185 | the draft becomes the profile and editing stops |
| ProfilePage.Editor.CancelEdit | frontend/src/pages/ProfilePage.jsx:187-189 | editing stops and the profile is untouched |
| ProfilePage.Editor.Set | frontend/src/pages/ProfilePage.jsx:191-210 | the draft becomes the old draft with that field set |
| ProfilePage.Editor.ToggleOption | frontend/src/pages/ProfilePage.jsx:243-247 | the option is dropped from the draft when chosen and appended otherwise |
| ProfilePage.Editor.RemoveCustom | frontend/src/pages/ProfilePage.jsx:258-261 | the custom interest is removed from the draft |
| ProfilePage.Editor.SetCustomInterest | frontend/src/pages/ProfilePage.jsx:167 | the text field holds the text typed |
| ProfilePage.Editor.AddCustomInterest | frontend/src/pages/ProfilePage.jsx:169-175 | the draft's interests become `WithCustom` of the old ones and the field is cleared |
| PostCardFrontend.GetStage | frontend/src/components/Posts/PostCard.jsx:35-41 | 0 waters is a seed, 1 to 2 a sprout, 3 to 5 a sapling, 6 to 10 a tree and more than 10 an oak, each exactly |
| PostCardFrontend.GetStageMonotone | frontend/src/components/Posts/PostCard.jsx:35-41 | more water never gives an earlier stage |
| PostCardFrontend.GetStageStep | frontend/src/components/Posts/PostCard.jsx:35-41 | one more water moves a tree on by at most one stage |
| PostCardFrontend.CanBranchAtTree | frontend/src/components/Posts/PostCard.jsx:604 | a branch can be planted exactly from the tree stage on |
| PostCardFrontend.ShownContent | frontend/src/components/Posts/PostCard.jsx:789-791 | a gated viewer reads the first 60 characters followed by '...'; anyone else reads the whole content |
| PostCardFrontend.WatersLine | frontend/src/components/Posts/PostCard.jsx:810-814 | a gated viewer sees '??' instead of the count; anyone else sees the count |
| PostCardFrontend.PublicNeverGated | frontend/src/components/Posts/PostCard.jsx:605 | a public post always shows its whole content and its count |
| PostCardFrontend.Card.constructor | frontend/src/components/Posts/PostCard.jsx:465-472 | the card starts with no waters, the seed stage, no toast and nothing loading |
| PostCardFrontend.Card.OpenPost | frontend/src/components/Posts/PostCard.jsx:480-487 | a different post restarts count, stage, watered flag, loading and stage toast from the post, with 0 and 'seed' for missing values; with no post nothing changes |
| PostCardFrontend.Card.CheckWatered | frontend/src/components/Posts/PostCard.jsx:494-509 | a signed-in user with a stored water on the post sees it as watered, and nothing else changes |
| PostCardFrontend.Card.HandleWater | frontend/src/components/Posts/PostCard.jsx:527-598 | a signed-out user only gets the sign-in toast; a user who already watered writes nothing and sees the post as watered; otherwise the count goes up at once with the celebration for a new stage, both writes succeed and keep it, and a failed write puts count and stage back without a second write after a failed insert |
| PostCardFrontend.WaterLabel | frontend/src/components/Posts/PostCard.jsx:858-865 | the button reads 'Growing...' while loading and 'Water' before the first water |
| PostCardFrontend.DoneLabel | frontend/src/components/Posts/PostCard.jsx:21-27 | the caption of each of the five stage names, the oak's being "🌟 Ancient Oak ✨"; an unknown stage has none, and a caption is non-empty iff the stage is known |
| PostCardFrontend.OakOnEleventhWater | frontend/src/components/Posts/PostCard.jsx:558 | the oak celebration fires exactly on the eleventh water |
| PostCardClient.GetStage | client/src/components/Posts/PostCard.jsx:28-34 | 0 waters is exactly a seed and more than 10 exactly an oak |
| PostCardClient.SameThresholds | client/src/components/Posts/PostCard.jsx:28-34 | this card names the same stage as the map app's card for every count |
| PostCardClient.Card.constructor | client/src/components/Posts/PostCard.jsx:69-72 | the card starts with no waters, the seed stage, nothing loading and no toast |
| PostCardClient.Card.OpenPost | client/src/components/Posts/PostCard.jsx:76-82 | a different post restarts count, stage, watered flag and loading from the post; with no post nothing changes |
| PostCardClient.Card.CheckWatered | client/src/components/Posts/PostCard.jsx:85-90 | a stored water marks the card watered, and nothing else changes |
| PostCardClient.Card.HandleWater | client/src/components/Posts/PostCard.jsx:97-125 | the count never drops and rises by at most one, and rises exactly for a signed-in user whose water the server accepts; a signed-out user only gets a toast; otherwise loading ends false; a fresh water keeps the new count and stage; an 'already' reply restores them and marks the card watered; a failure restores them and shows the failure toast |
| SeedMarkerFrontend.Field | frontend/src/components/Map/SeedMarker.jsx:24-26 | a property of a missing or null post is undefined; otherwise it is the post's property |
| SeedMarkerFrontend.NoPostNotFallen | frontend/src/components/Map/SeedMarker.jsx:25 | a missing or null post is neither fallen nor decayed |
| SeedMarkerFrontend.StageOf | frontend/src/components/Map/SeedMarker.jsx:24-32 | a missing stage is a seed, and a known stage name gives that stage |
| SeedMarkerFrontend.LookOf | frontend/src/components/Map/SeedMarker.jsx:25-32 | the fallen look exactly for a fallen or decayed post; the branch look exactly for any other truthy branch; otherwise the look of the post's stage |
| SeedMarkerFrontend.Size | frontend/src/components/Map/SeedMarker.jsx:4-13 | the fallen look is 32 wide and the branch look 30 |
| SeedMarkerFrontend.SizesIncrease | frontend/src/components/Map/SeedMarker.jsx:4-10 | a later stage is exactly a strictly larger marker |
| SeedMarkerFrontend.StemHeight | frontend/src/components/Map/SeedMarker.jsx:96 | the stem is 4 exactly for a branch and 6 otherwise |
| SeedMarkerFrontend.FallenBranch | frontend/src/components/Map/SeedMarker.jsx:25-32 | a fallen branch gets the fallen look but keeps the branch's short stem |
| SeedMarkerClient.NumberOf | client/src/components/Map/SeedMarker.jsx:30-35 | a number compares as itself, null as 0, and a missing value as NaN, for which every comparison is false |
| SeedMarkerClient.GetStage | client/src/components/Map/SeedMarker.jsx:30-36 | 10 or more waters is exactly an oak, 6 to under 10 a tree, 3 to under 6 a sapling, 1 to under 3 a sprout; anything else, NaN included, is a seed |
| SeedMarkerClient.GetStageMonotone | client/src/components/Map/SeedMarker.jsx:30-36 | more water never gives an earlier stage |
| SeedMarkerClient.DisagreeOnlyAtTen | client/src/components/Map/SeedMarker.jsx:30-36 | on a whole number of waters this marker and the map app's card agree except at exactly 10, where the marker shows an oak and the card a tree |
| SeedMarkerClient.MarkerStage | client/src/components/Map/SeedMarker.jsx:41 | a truthy stored stage is used; otherwise the stage the count reaches |
| SeedMarkerClient.RingFromTenWaters | client/src/components/Map/SeedMarker.jsx:41-52 | with no stored stage the oak ring appears exactly from ten waters on, and a ring then always comes with the water badge |
| SeedMarkerClient.StoredStageWins | client/src/components/Map/SeedMarker.jsx:41-52 | a stored stage decides the ring whatever the count says |
| MyTreesFrontend.Remove | frontend/src/pages/MyTreesPage.jsx:106 | no member with that id is left |
| MyTreesFrontend.AcceptIn | frontend/src/pages/MyTreesPage.jsx:111-113 | the list keeps its length; the members with that id are accepted and every other one stays |
| MyTreesFrontend.Accepted | frontend/src/pages/MyTreesPage.jsx:129 | every member on the accepted tab is accepted |
| MyTreesFrontend.Pending | frontend/src/pages/MyTreesPage.jsx:130 | every member on the pending tab is pending |
| MyTreesFrontend.RemoveKeepsOthers | frontend/src/pages/MyTreesPage.jsx:106-118 | removing or declining drops exactly the members with that id and keeps the others in order |
| MyTreesFrontend.Partition | frontend/src/pages/MyTreesPage.jsx:129-130 | a member is on a tab exactly when it has that tab's status; the tabs never hold more than all members, and hold them all when every status is accepted or pending |
| MyTreesFrontend.AcceptMovesToAccepted | frontend/src/pages/MyTreesPage.jsx:110-130 | an accepted member is on the accepted tab and no member with that id is left pending |
| MyTreesFrontend.InviteOnlyIsManaged | frontend/src/pages/MyTreesPage.jsx:428-632 | a tree whose sheet has the invite button is one whose card offers member management on the planted tab |
| MyTreesFrontend.MemberSheet.constructor | frontend/src/pages/MyTreesPage.jsx:84-87 | the sheet starts on the accepted tab with the tree's members, or none, and no invite input |
| MyTreesFrontend.MemberSheet.Reset | frontend/src/pages/MyTreesPage.jsx:91-98 | opening another tree resets tab, members, invite input and toast from it; with no tree nothing changes |
| MyTreesFrontend.MemberSheet.HandleRemove | frontend/src/pages/MyTreesPage.jsx:105-108 | the member is removed and the removal toast shown |
| MyTreesFrontend.MemberSheet.HandleAccept | frontend/src/pages/MyTreesPage.jsx:110-115 | the member is accepted and the acceptance toast shown |
| MyTreesFrontend.MemberSheet.HandleDecline | frontend/src/pages/MyTreesPage.jsx:117-120 | the member is removed and the decline toast shown |
| MyTreesFrontend.MemberSheet.HandleSendInvite | frontend/src/pages/MyTreesPage.jsx:122-127 | a blank input does nothing; otherwise the invite toast is shown and the input cleared and hidden |
| MyTreesClient.EventToTreeCard | client/src/pages/MyTreesPage.jsx:26-38 | the card keeps id and title; waters come from `waters_count`, else `rsvp_count`, else 0; the stage is the one those waters reach; content and time fall back through the given fields to ''; it is never a branch |
| MyTreesClient.NewEventIsSeed | client/src/pages/MyTreesPage.jsx:26-38 | an event with no waters and no RSVPs is a seed with no waters |
| MyTreesClient.Page.constructor | client/src/pages/MyTreesPage.jsx:333-335 | the page starts on the planted tab with empty lists and zero counts |
| MyTreesClient.Page.LoadEvents | client/src/pages/MyTreesPage.jsx:337-345 | a failed request changes nothing; an array body becomes the cards and the planted count, any other body an empty list and 0; the count always matches the list |
| MyTreesClient.Page.Posts | client/src/pages/MyTreesPage.jsx:347-348 | each tab shows its own list, and the branches tab is empty |

## Left out

- Storage, transport and the platform are not modelled: the Snowflake and SQL connections, HTTP parsing, CORS and the Express and FastAPI routers. The services read and write `Database.Db` directly, and a database error (the routes' generic 500 replies) never happens.
- Authentication is not modelled. That covers password hashing, `createUser`/`verifyPassword` in `server/services/userService.js` and the JWT middleware. The signed-in user is a parameter.
- The chat webhook of the Python board is not modelled as a network call. It is a queue of pending invitations that the background task would post. The webhook address and its token are not part of the model.
- Timers and visual effects are not modelled: toast time-outs, animations, confetti and scrolling. The `handleSelectSection` scroll in `client/src/pages/FriendsPage.jsx` is one of them. A toast is a flag its handler sets.
- The `navigate` calls of the pages are recorded as the target they name; routing itself is not modelled.
- Generated identifiers, `Date.now()`, random map jitter and the current time are parameters, because the app takes them from the platform.
- The database driver's printing of dates, its `JSON.parse` of stored JSON and its rounding of `AVG` are parameters of `EventService.Driver`, because they live in the driver.
- Timestamps (`created_at`, `updated_at`, `CURRENT_TIMESTAMP`) are not stored, because nothing in the core reads them back except for ordering.
- The board query's `ORDER BY`, `LIMIT`, `OFFSET` and date filters are not computed. The rows the query returns are a parameter, and the model states which rows may appear.
- The `instanceof Date` branch of the date cut in `src/services/eventService.js` is not modelled, because the modelled driver returns dates as text.
- Snowflake does not enforce primary keys, `UNIQUE` or `CHECK`. `Database.Db.Valid()` states the UNIQUE and CHECK constraints on users, invites, friendships and ratings, and `Database.Db.SlugsUnique()` the slug constraint, as invariants the service operations keep instead of a refusal by the store; the friend-group creation keeps `SlugsUnique()` only when its slug was free. `Valid()` also holds the one-friend-group-per-user invariant, which the schema does not declare. Primary keys are map keys.
- The haversine distance of the map page is the parameter `miles`, because it is floating-point trigonometry.
- The `toFixed` keys that group overlapping posts are the parameter `keyOf`, because they are floating-point formatting.
- JavaScript number-to-text conversion of coordinates is not modelled. Coordinates reach the request builders as text.
- Text handling is simplified. Lower-casing covers ASCII letters only. White space for `trim` is space, tab, the line breaks, vertical tab, form feed, U+00A0 and U+FEFF. Slicing counts Dafny characters rather than UTF-16 code units.
- These `src/services/communityService.js` functions are not modelled: `getInviteById`, `getPendingInvitesForUser`, `listMyCommunities`, `getLocalLocationIds` and `rowToMember`. Their results only feed replies that are not part of the model. `isLocal` is the same test as `isMember` and is modelled by it.
- These `src/services/eventService.js` functions are not modelled, because they are single-row or single-user reads with no logic of their own: `getMyRsvp`, `listEventsAttendedByUser`, `listMyEventRatings` and `getMyRating`.
- `listPendingRequests` in `src/services/friendService.js` is not modelled, because it is a plain filtered read.
- `areFriends` and `listLocationCommunitiesForUser` are not part of this model. Their answers are parameters of `ProfileService.GetPublicProfile`.
- Some `server/routes/users.js` handlers are modelled only through the services they call: `GET /me`, `GET /:id`, `PATCH /me`, `DELETE /me/friends/:userId` and `GET /me/config`. `/me/communities`, `/me/locations`, `/me/events` and `/me/ratings` are not modelled beyond their page parameters (`UserRoutes.PageLimit`, `UserRoutes.PageOffset`).
- The `local-status`, RSVP and `my-rating` routes of `src/` are not modelled, because they forward to reads that are not modelled.
- The fixed placeholder author object of the planting sheet in `frontend/` is not modelled, because it is constant display data.
- Some front-end code is written twice in the source and is modelled once. `ProfilePage` reuses `OnboardingPage.WithCustom` and the interest options, which `frontend/src/pages/ProfilePage.jsx` repeats. `MyTreesClient` reuses `PostCardClient.GetStage`, which `client/src/pages/MyTreesPage.jsx` repeats. The explore and tree-search pages reuse `FilterSheet.CountActive` for their active-filter count.
- Some display predicates are definitions without a separate contract, because each is a single comparison: `MyTreesFrontend.ShowsRemove`, `FriendsClient.Page.RequestsShown`, `SeedMarkerClient.Badge`, `OnboardingPage.LeftLabel` and `OnboardingPage.RightLabel`.
- FriendService.ListFriends: returns the friends as a set, so it does not model the member query's 500-row limit or its order.
- CommunityRoutes.PostCommunity: like the other route methods, it leaves out the 500 reply for a failing database, since the model's store does not fail.
- UserConfigService.Spread: copies nothing out of an array or a string, while JavaScript's `{...array}` copies its elements, and `{..."ab"}` its characters, under the index keys "0", "1", …; a configuration update is an object, so these cases only matter for a malformed body.
- UserRoutes.GetMyFriendGroup: the member list is a set of user ids; the `LIMIT 500`, the join-date order and the columns of each listed member are not modelled, so a group with more than 500 active members is listed whole.
- CommunityService.GetMembers: models who is listed, not the page: `limit`, `offset`, the `ORDER BY joined_at` and the row mapping are not modelled.
- SeedMarkerClient.NumberOf: gives no number for text or a boolean, while JavaScript's `>=` converts "12" to 12 and `true` to 1; the stored `waters` count is a number or null.
- SqlBoard.Store.Valid: ties only the row keys to their positions; it does not state that every scheduled id names a published row.
- `server/routes/users.js` imports `communityService.js`, `friendService.js` and `eventService.js` from `server/services/`. Those files are not part of this model; `UserRoutes` calls the models of the `src/services/` files of the same names (`CommunityService`, `FriendService`, `EventService`) in their place.
- CommunityRoutes.PatchCommunity: a body's `description` is a string or absent, and `parent_ids` element values other than strings are refused; a JSON null description and express-validator's conversion of non-string values before `.trim()` are not modelled, because that conversion lives in the library.
- CommunityService.CreateFriendGroupForUser: stores a second member row for the same pair as one map entry, so an owner row added where the user was already a member overwrites the role rather than duplicating the row.
- PostCardFrontend.Card.HandleWater: requires `WaterEnabled`, because the water button is disabled otherwise and its handler cannot run.

## Findings

| source | as written | input that shows it | evidently intended | confidence | as-written member | corrected member |
|---|---|---|---|---|---|---|
| src/services/eventService.js:236-239 | a LOCATION or SUB board calls `communityService.getDescendantPublicCommunityIds`, which `src/services/communityService.js` does not define | listing the events of any existing LOCATION or SUB community: the call throws a TypeError | the board lists the active public events of the community and of the public communities under it | not executed | EventService.ListEventsForCommunity | EventService.ListEventsForCommunityInScope |
