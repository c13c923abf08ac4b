/**
 * The public profile (server/services/profileService.js): what a viewer sees
 * of a user, decided by ownership, the profile's `privacy_settings` and
 * friendship.
 */
module ProfileService {
  import opened Wrappers
  import opened Json
  import opened Database
  import opened UserService
  import opened UserConfigService

  /**
   * What `getPublicProfile` learns from services this model does not hold:
   * `areFriends(profileUserId, viewerId)`, `listLocationCommunitiesForUser`
   * and the length of `listFriends`.
   */
  datatype Facts = Facts(areFriends: bool, localCommunities: Json, friendsCount: nat)

  /** The three shapes of reply. */
  datatype Profile =
    /** The owner: the whole user object, every count and the config. */
    | OwnerView(user: UserObj, localCommunities: Json, eventsAttendedCount: nat, ratingsCount: nat,
                friendsCount: nat, config: Config)
    /** A viewer who may not see the profile: id, username and avatar only. */
    | LimitedView(id: Prop, username: Prop, avatarUrl: Json)
    /** A viewer who may: the public fields, each count only when its flag is not `false`. */
    | FullView(id: Prop, username: Prop, displayName: Json, bio: Json, avatarUrl: Json, location: Json,
               createdAt: Prop, shownCommunities: Option<Json>, shownEventsAttended: Option<nat>,
               shownRatings: Option<nat>, shownFriends: Option<nat>)

  /** `COUNT(*) FROM event_rsvps WHERE user_id = ?`. */
  function RsvpCountOf(rsvps: set<(Id, Id)>, u: Id): (r: nat)
    ensures r == |set k | k in rsvps && k.1 == u|
  {
    |set k | k in rsvps && k.1 == u|
  }

  /** `COUNT(*) FROM event_ratings WHERE user_id = ?`. */
  function RatingCountOf(ratings: map<(Id, Id), int>, u: Id): (r: nat)
    ensures r == |set k | k in ratings && k.1 == u|
  {
    |set k | k in ratings && k.1 == u|
  }

  /** `viewerId === profileUserId`. */
  predicate IsOwner(profileUserId: Id, viewerId: Option<Id>) {
    viewerId == Some(profileUserId)
  }

  /** `viewerId ? areFriends(...) : false`. */
  predicate IsFriend(viewerId: Option<Id>, facts: Facts) {
    viewerId.Some? && viewerId.value != "" && facts.areFriends
  }

  /** `config.privacy_settings || {}`. */
  function Privacy(config: Config): (r: Json)
    ensures Truthy(Some(config.privacy)) ==> r == config.privacy
    ensures !Truthy(Some(config.privacy)) ==> r == Obj(map[])
  {
    if Truthy(Some(config.privacy)) then config.privacy else Obj(map[])
  }

  /** `privacy.profile_visibility || 'public'`. */
  function ProfileVisibility(privacy: Json): (r: Json)
    ensures Truthy(Get(privacy, "profile_visibility")) ==> r == privacy.fields["profile_visibility"]
    ensures !Truthy(Get(privacy, "profile_visibility")) ==> r == Str("public")
  {
    var v := Get(privacy, "profile_visibility");
    if Truthy(v) then v.value else Str("public")
  }

  /** `canSeeFull`: a public profile, or a friends-only one seen by a friend. */
  predicate CanSeeFull(privacy: Json, viewerId: Option<Id>, facts: Facts) {
    var vis := ProfileVisibility(privacy);
    vis == Str("public") || (vis == Str("friends") && IsFriend(viewerId, facts))
  }

  /** `privacy.<flag> !== false`. */
  predicate Allows(privacy: Json, flag: string) {
    NotFalse(Get(privacy, flag))
  }

  /** `cond ? value : undefined` for a property added by an `if`. */
  function When<T>(cond: bool, value: T): (r: Option<T>)
    ensures r.Some? <==> cond
    ensures r.Some? ==> r.value == value
  {
    if cond then Some(value) else None
  }

  /**
   * `getPublicProfile(profileUserId, viewerId)` once the user record, the
   * config and the counts are known.
   */
  function ProfileReply(profileUserId: Id, user: Option<UserObj>, config: Config, viewerId: Option<Id>,
                        facts: Facts, eventsCount: nat, ratingsCount: nat): (r: Option<Profile>)
    ensures r.None? <==> user.None?
    ensures r.Some? && r.value.OwnerView? <==> user.Some? && IsOwner(profileUserId, viewerId)
    ensures r.Some? && r.value.LimitedView? <==>
              user.Some? && !IsOwner(profileUserId, viewerId) && !CanSeeFull(Privacy(config), viewerId, facts)
  {
    if user.None? then None
    else
      var u := user.value;
      var privacy := Privacy(config);
      if IsOwner(profileUserId, viewerId) then
        Some(OwnerView(u, facts.localCommunities, eventsCount, ratingsCount, facts.friendsCount, config))
      else if !CanSeeFull(privacy, viewerId, facts) then
        Some(LimitedView(u.id, u.username, OrNull(u.avatarUrl)))
      else
        var showLocation := Allows(privacy, "show_location");
        Some(FullView(u.id, u.username, OrNull(u.displayName), OrNull(u.bio), OrNull(u.avatarUrl),
                      if showLocation then OrNull(u.location) else Null, u.createdAt,
                      When(showLocation, facts.localCommunities),
                      When(Allows(privacy, "show_events_attended"), eventsCount),
                      When(Allows(privacy, "show_ratings"), ratingsCount),
                      When(Allows(privacy, "show_friends_list"), facts.friendsCount)))
  }

  /** The owner always gets the full record with every count and the config, whatever the settings. */
  lemma OwnerSeesEverything(u: UserObj, config: Config, profileUserId: Id, facts: Facts, events: nat, ratings: nat)
    ensures ProfileReply(profileUserId, Some(u), config, Some(profileUserId), facts, events, ratings) ==
              Some(OwnerView(u, facts.localCommunities, events, ratings, facts.friendsCount, config))
  {
  }

  /** A private profile shows anyone else only id, username and avatar: never the details. */
  lemma PrivateProfileIsLimited(u: UserObj, config: Config, profileUserId: Id, viewerId: Option<Id>,
                                facts: Facts, events: nat, ratings: nat)
    requires !IsOwner(profileUserId, viewerId)
    requires Get(Privacy(config), "profile_visibility") == Some(Str("private"))
    ensures ProfileReply(profileUserId, Some(u), config, viewerId, facts, events, ratings) ==
              Some(LimitedView(u.id, u.username, OrNull(u.avatarUrl)))
  {
  }

  /** A friends-only profile is shown in full exactly to a signed-in friend. */
  lemma FriendsOnlyProfile(u: UserObj, config: Config, profileUserId: Id, viewerId: Option<Id>,
                           facts: Facts, events: nat, ratings: nat)
    requires !IsOwner(profileUserId, viewerId)
    requires Get(Privacy(config), "profile_visibility") == Some(Str("friends"))
    ensures ProfileReply(profileUserId, Some(u), config, viewerId, facts, events, ratings).value.FullView? <==>
              viewerId.Some? && viewerId.value != "" && facts.areFriends
  {
  }

  /** An anonymous viewer of a friends-only profile gets the limited view. */
  lemma AnonymousSeesFriendsOnlyLimited(u: UserObj, config: Config, profileUserId: Id, facts: Facts,
                                        events: nat, ratings: nat)
    requires Get(Privacy(config), "profile_visibility") == Some(Str("friends"))
    ensures ProfileReply(profileUserId, Some(u), config, None, facts, events, ratings).value.LimitedView?
  {
  }

  /** `show_location: false` hides both the location and the local communities. */
  lemma HiddenLocation(u: UserObj, config: Config, profileUserId: Id, viewerId: Option<Id>,
                       facts: Facts, events: nat, ratings: nat)
    requires Get(Privacy(config), "show_location") == Some(Bool(false))
    requires ProfileReply(profileUserId, Some(u), config, viewerId, facts, events, ratings).value.FullView?
    ensures ProfileReply(profileUserId, Some(u), config, viewerId, facts, events, ratings).value.location == Null
    ensures ProfileReply(profileUserId, Some(u), config, viewerId, facts, events, ratings).value.shownCommunities.None?
  {
  }

  /**
   * Under the default privacy settings (and under settings that are missing
   * or falsy) anyone sees the full profile with every count.
   */
  lemma DefaultPrivacyShowsAll(u: UserObj, gui: Json, privacy: Json, profileUserId: Id, viewerId: Option<Id>,
                               facts: Facts, events: nat, ratings: nat)
    requires privacy == DefaultPrivacy() || !Truthy(Some(privacy))
    requires !IsOwner(profileUserId, viewerId)
    ensures ProfileReply(profileUserId, Some(u), Config(gui, privacy), viewerId, facts, events, ratings) ==
              Some(FullView(u.id, u.username, OrNull(u.displayName), OrNull(u.bio), OrNull(u.avatarUrl),
                            OrNull(u.location), u.createdAt, Some(facts.localCommunities), Some(events),
                            Some(ratings), Some(facts.friendsCount)))
  {
    var p := Privacy(Config(gui, privacy));
    assert Get(p, "show_location") != Some(Bool(false));
    assert Get(p, "show_events_attended") != Some(Bool(false));
    assert Get(p, "show_ratings") != Some(Bool(false));
    assert Get(p, "show_friends_list") != Some(Bool(false));
  }

  /**
   * `getPublicProfile`: null for an unknown user (nothing written); otherwise
   * `getConfig` runs, creating the default config row when there is none, and
   * the reply is decided on what it returns.
   */
  method GetPublicProfile(db: Db, profileUserId: Id, viewerId: Option<Id>, facts: Facts, parse: string -> Option<Json>)
    returns (r: Option<Profile>)
    modifies db`configs
    ensures profileUserId !in db.users ==> r.None? && db.configs == old(db.configs)
    ensures profileUserId in db.users ==> db.configs == WithDefaultConfig(old(db.configs), profileUserId)
    ensures profileUserId in db.users ==>
              r == ProfileReply(profileUserId, FindById(db, profileUserId), ReadConfig(db.configs[profileUserId], parse),
                                viewerId, facts, RsvpCountOf(db.rsvps, profileUserId), RatingCountOf(db.ratings, profileUserId))
  {
    var user := FindById(db, profileUserId);
    if user.None? {
      return None;
    }
    var config := GetConfig(db, profileUserId, parse);
    r := ProfileReply(profileUserId, user, config, viewerId, facts,
                      RsvpCountOf(db.rsvps, profileUserId), RatingCountOf(db.ratings, profileUserId));
  }
}
