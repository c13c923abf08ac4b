/**
 * The decisions the event routes make around the service (src/routes/events.js):
 * date normalisation, when the creator record is fetched, when ratings are
 * shown, which ratings pass validation, and the error-to-status mapping.
 */
module EventRoutes {
  import opened Wrappers
  import opened Json
  import opened Text
  import opened Database
  import opened EventService

  // ---------------------------------------------------------------- dates

  /** `eventDate ? String(eventDate).slice(0, 10) : undefined` on create. */
  function CreateDate(d: Option<string>): (r: Option<string>)
    ensures r.Some? <==> d.Some? && d.value != ""
    ensures r.Some? ==> |r.value| <= 10 && StartsWith(d.value, r.value)
    ensures r.Some? && |d.value| >= 10 ==> r.value == d.value[..10]
  {
    if d.Some? && d.value != "" then Some(Take(d.value, 10)) else None
  }

  /** `if (payload.event_date) payload.event_date = String(...).slice(0, 10)` on update. */
  function PatchDate(d: Update<Option<string>>): (r: Update<Option<string>>)
    ensures d.Keep? <==> r.Keep?
    ensures d.SetTo? && (d.value.None? || d.value.value == "") ==> r == d
    ensures d.SetTo? && d.value.Some? && d.value.value != "" ==> r == SetTo(CreateDate(d.value))
  {
    if d.SetTo? && d.value.Some? && d.value.value != "" then SetTo(Some(Take(d.value.value, 10))) else d
  }

  /** Normalising a date twice is normalising it once; an ISO date-time keeps its `YYYY-MM-DD`. */
  lemma DateNormalisation(d: string)
    ensures CreateDate(Some(d)).Some? ==> CreateDate(CreateDate(Some(d))) == CreateDate(Some(d))
    ensures |d| >= 10 ==> CreateDate(Some(d)) == Some(d[..10])
    ensures PatchDate(PatchDate(SetTo(Some(d)))) == PatchDate(SetTo(Some(d)))
  {
    if d != "" {
      var t := Take(d, 10);
      assert Take(t, 10) == t;
    }
  }

  // ---------------------------------------------------------------- creator record

  /** `event.creator_id === req.user?.id`. */
  predicate SameId(creatorId: Prop, viewerId: Option<Id>) {
    if viewerId.None? then creatorId.None? else creatorId == Some(Str(viewerId.value))
  }

  /**
   * `needCreator`: the event is public, the viewer is its creator, or its
   * stored settings have `show_creator`.
   */
  predicate NeedCreator(ev: EventObj, viewerId: Option<Id>) {
    || Truthy(ev.isPublic)
    || SameId(ev.creatorId, viewerId)
    || (Truthy(ev.visibility) && Truthy(Get(ev.visibility.value, "show_creator")))
  }

  /**
   * `GET /events/:id` once the event is found: the creator record is looked up
   * (`found` is what `findById` returns for each id) only when it may be shown,
   * and handed to the mask as `creator || undefined`.
   */
  function ShowEvent(ev: EventObj, viewerId: Option<Id>, found: map<Id, Json>): (r: EventObj)
  {
    var creator :=
      if Truthy(ev.creatorId) && NeedCreator(ev, viewerId) && ev.creatorId.value.Str? && ev.creatorId.value.s in found
      then Some(found[ev.creatorId.value.s]) else Some(Null);
    ApplyEventVisibility(ev, viewerId, if Truthy(creator) then creator else None)
  }

  /**
   * The route fetches the creator exactly when the mask would show it: the
   * reply names a creator iff one is needed and `findById` found one.
   */
  lemma ShowEventCreator(ev: EventObj, viewerId: Option<Id>, found: map<Id, Json>)
    requires ev.creator.None? && ev.creatorId.Some? && ev.creatorId.value.Str?
    ensures ShowEvent(ev, viewerId, found).creator.Some? <==>
              && Truthy(ev.creatorId) && NeedCreator(ev, viewerId)
              && ev.creatorId.value.s in found && Truthy(Some(found[ev.creatorId.value.s]))
  {
  }

  // ---------------------------------------------------------------- ratings

  /** `showRatings` of `GET /events/:id/ratings`. */
  predicate ShowRatings(ev: EventObj, viewerId: Option<Id>) {
    || Truthy(ev.isPublic)
    || SameId(ev.creatorId, viewerId)
    || (Truthy(ev.visibility) && Truthy(Get(ev.visibility.value, "show_ratings")))
  }

  /** The ratings endpoint: 404 for a missing event, else the aggregate or `{aggregate: null, count: 0}`. */
  function GetRatings(db: Db, eventId: Id, viewerId: Option<Id>, drv: Driver): (r: Result<(Json, nat), Code>)
    reads db
    ensures r.Err? <==> GetEventById(db, eventId, false, drv).None?
    ensures r.Ok? && !ShowRatings(GetEventById(db, eventId, false, drv).value, viewerId) ==> r.value == (Null, 0)
    ensures r.Ok? && ShowRatings(GetEventById(db, eventId, false, drv).value, viewerId) ==>
              r.value == GetRatingAggregate(db, eventId, drv)
  {
    var ev := GetEventById(db, eventId, false, drv);
    if ev.None? then Err(NotFound)
    else if !ShowRatings(ev.value, viewerId) then Ok((Null, 0))
    else Ok(GetRatingAggregate(db, eventId, drv))
  }

  /** The ratings endpoint answers exactly when the masked event carries its ratings. */
  lemma RatingsMatchMask(ev: EventObj, viewerId: Option<Id>, creator: Prop)
    requires ev.ratingCount.Some? && Truthy(ev.creatorId) && ev.creatorId.value.Str?
    ensures ShowRatings(ev, viewerId) <==> ApplyEventVisibility(ev, viewerId, creator).ratingCount.Some?
  {
  }

  /**
   * `body('rating').isInt({ min: 1, max: 5 })`: an integral number, or a text
   * `[-+]?[0-9]+`, with value 1 to 5; the value the service then receives.
   */
  function RatingValue(v: Json): (r: Option<int>)
    ensures r.Some? ==> 1 <= r.value <= 5
    ensures v.Bool? || v.Null? || v.Obj? ==> r.None?
  {
    match v
    case Num(x) => if x == x.Floor as real && 1.0 <= x <= 5.0 then Some(x.Floor) else None
    case Str(s) =>
      var n := IntText(s);
      if n.Some? && 1 <= n.value <= 5 then n else None
    case _ => None
  }

  /** Each of 1 to 5 passes, as a number, as its digit and with a leading `+`. */
  lemma RatingValueAccepts(n: nat)
    requires 1 <= n <= 5
    ensures RatingValue(Num(n as real)) == Some(n)
    ensures RatingValue(Str(NatToString(n))) == Some(n)
    ensures RatingValue(Str("+" + NatToString(n))) == Some(n)
  {
    IntTextOfNat(n);
  }

  // ---------------------------------------------------------------- status codes

  /** The status `POST /events` answers for an error of `createEvent`. */
  function CreateStatus(c: Code): (r: nat)
    ensures c == NotFound <==> r == 404
    ensures c == NotMember <==> r == 403
    ensures c == NoFriendCommunity <==> r == 400
  {
    match c
    case NotFound => 404
    case NotMember => 403
    case NoFriendCommunity => 400
    case _ => 500
  }

  /** The status `PATCH` and `DELETE /events/:id` answer for a service error. */
  function ChangeStatus(c: Code): (r: nat)
    ensures c == NotFound <==> r == 404
    ensures c == Forbidden <==> r == 403
  {
    match c
    case NotFound => 404
    case Forbidden => 403
    case _ => 500
  }

  /** The status `POST /events/:id/rate` answers for a service error. */
  function RateStatus(c: Code): (r: nat)
    ensures c == NotFound <==> r == 404
    ensures c == InvalidRating <==> r == 400
  {
    match c
    case NotFound => 404
    case InvalidRating => 400
    case _ => 500
  }

  /** Every way `createEvent` can refuse maps to a client error, never to 500. */
  lemma CreateRefusalsAreClientErrors(db: Db, creatorId: Id, p: EventPayload)
    requires CreateTarget(db, creatorId, p).Err?
    ensures CreateStatus(CreateTarget(db, creatorId, p).error) in {400, 403, 404}
  {
  }
}
