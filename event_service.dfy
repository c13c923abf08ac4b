/**
 * Events, their visibility mask, the event board, RSVPs and ratings
 * (src/services/eventService.js).
 */
module EventService {
  import opened Wrappers
  import opened Json
  import opened Text
  import opened Database

  /**
   * What the model takes from outside: `String(v)` of a driver value that is
   * not a string (a DATE cell), `JSON.parse` (None when it throws), and the
   * rounded `AVG(rating)` of an event that has ratings.
   */
  datatype Driver = Driver(show: Json -> string, parse: string -> Option<Json>, average: Id -> real)

  // ---------------------------------------------------------------- visibility settings

  /** The eight visibility flags of a private event. */
  const VisibilityFlags: set<string> :=
    {"show_date", "show_time", "show_broad_location", "show_specific_location",
     "show_rsvp_count", "show_ratings", "show_description", "show_creator"}

  /** `DEFAULT_VISIBILITY`: every flag present and false. */
  function DefaultVisibility(): (r: Json)
    ensures r.Obj? && r.fields.Keys == VisibilityFlags
    ensures forall f :: f in VisibilityFlags ==> r.fields[f] == Bool(false)
  {
    Obj(map f | f in VisibilityFlags :: Bool(false))
  }

  // ---------------------------------------------------------------- row mapping

  /**
   * An event as the services hand it around: each property is `undefined`
   * (None) or a JSON value. `rowToEvent` fills the first fourteen,
   * `getEventById` the three counts, and `applyEventVisibility` may add `creator`.
   */
  datatype EventObj = EventObj(
    id: Prop, communityId: Prop, creatorId: Prop, title: Prop,
    description: Prop, eventDate: Prop, eventTime: Prop,
    broadLocation: Prop, specificLocation: Prop,
    isPublic: Prop, visibility: Prop, isActive: Prop,
    createdAt: Prop, updatedAt: Prop,
    rsvpCount: Prop, ratingCount: Prop, ratingAggregate: Prop,
    creator: Prop)

  /** The columns of the events table. */
  datatype Column =
    | CId | CCommunityId | CCreatorId | CTitle | CDescription | CEventDate | CEventTime
    | CBroadLocation | CSpecificLocation | CIsPublic | CVisibility | CIsActive | CCreatedAt | CUpdatedAt

  /** `String(v)`. */
  function JsString(v: Json, drv: Driver): (r: string)
    ensures v.Str? ==> r == v.s
  {
    if v.Str? then v.s else drv.show(v)
  }

  /** A truthy string VARIANT is parsed; a parse failure gives null. */
  function ParsedSettings(v: Prop, drv: Driver): (r: Prop)
    ensures !(Truthy(v) && v.value.Str?) ==> r == v
    ensures Truthy(v) && v.value.Str? && drv.parse(v.value.s).None? ==> r == Some(Null)
  {
    if Truthy(v) && v.value.Str? then
      match drv.parse(v.value.s)
      case Some(j) => Some(j)
      case None => Some(Null)
    else v
  }

  /** `event_date != null ? String(event_date).slice(0, 10) : null`. */
  function DatePrefix(d: Prop, drv: Driver): (r: Json)
    ensures IsNullish(d) <==> r == Null
    ensures r.Str? ==> |r.s| <= 10
    ensures !IsNullish(d) && d.value.Str? ==> r == Str(Take(d.value.s, 10))
  {
    if IsNullish(d) then Null else Str(Take(JsString(d.value, drv), 10))
  }

  /**
   * `rowToEvent(row)`: columns read upper-case first; optional ones default to
   * null, `is_public` and `is_active` to true; `event_date` is cut to its first
   * ten characters; a string `visibility_settings` is parsed. A missing row
   * gives null.
   */
  function RowToEvent(row: Option<Row<Column>>, drv: Driver): (r: Option<EventObj>)
    ensures row.None? <==> r.None?
    ensures r.Some? ==> var o := r.value;
      && o.description.Some? && o.eventDate.Some? && o.eventTime.Some?
      && o.broadLocation.Some? && o.specificLocation.Some? && o.visibility.Some?
      && o.isPublic.Some? && o.isActive.Some?
      && o.rsvpCount.None? && o.ratingCount.None? && o.ratingAggregate.None? && o.creator.None?
  {
    match row
    case None => None
    case Some(w) =>
      Some(EventObj(
        id := Cell(w, CId),
        communityId := Cell(w, CCommunityId),
        creatorId := Cell(w, CCreatorId),
        title := Cell(w, CTitle),
        description := Some(OrNull(Cell(w, CDescription))),
        eventDate := Some(DatePrefix(Cell(w, CEventDate), drv)),
        eventTime := Some(OrNull(Cell(w, CEventTime))),
        broadLocation := Some(OrNull(Cell(w, CBroadLocation))),
        specificLocation := Some(OrNull(Cell(w, CSpecificLocation))),
        isPublic := Some(OrDefault(Cell(w, CIsPublic), Bool(true))),
        visibility := Some(OrNull(ParsedSettings(Cell(w, CVisibility), drv))),
        isActive := Some(OrDefault(Cell(w, CIsActive), Bool(true))),
        createdAt := Cell(w, CCreatedAt),
        updatedAt := Cell(w, CUpdatedAt),
        rsvpCount := None, ratingCount := None, ratingAggregate := None, creator := None))
  }

  /** Flags missing from the row read as their defaults; a lower-case row reads the same. */
  lemma RowToEventDefaults(w: Row<Column>, drv: Driver)
    ensures IsNullish(Cell(w, CIsPublic)) ==> RowToEvent(Some(w), drv).value.isPublic == Some(Bool(true))
    ensures IsNullish(Cell(w, CIsActive)) ==> RowToEvent(Some(w), drv).value.isActive == Some(Bool(true))
    ensures IsNullish(Cell(w, CDescription)) ==> RowToEvent(Some(w), drv).value.description == Some(Null)
    ensures (CId, true) !in w && (CId, false) in w ==> RowToEvent(Some(w), drv).value.id == Some(w[(CId, false)])
  {
  }

  // ---------------------------------------------------------------- stored rows

  /** The cell of column `c` in the stored row of event `e` (undefined for a NULL cell). */
  function StoredCell(id: Id, e: Event, c: Column): (r: Prop)
  {
    match c
    case CId => Some(Str(id))
    case CCommunityId => Some(Str(e.communityId))
    case CCreatorId => Some(Str(e.creatorId))
    case CTitle => Some(Str(e.title))
    case CDescription => if e.description.Some? then Some(Str(e.description.value)) else None
    case CEventDate => if e.eventDate.Some? then Some(Str(e.eventDate.value)) else None
    case CEventTime => if e.eventTime.Some? then Some(Str(e.eventTime.value)) else None
    case CBroadLocation => if e.broadLocation.Some? then Some(Str(e.broadLocation.value)) else None
    case CSpecificLocation => if e.specificLocation.Some? then Some(Str(e.specificLocation.value)) else None
    case CIsPublic => Some(Bool(e.isPublic))
    case CVisibility => if e.visibility.Null? then None else Some(e.visibility)
    case CIsActive => Some(Bool(e.isActive))
    case CCreatedAt => None
    case CUpdatedAt => None
  }

  /** The row Snowflake returns for a stored event, under upper-case column names; timestamps are not modelled. */
  function StoredRow(id: Id, e: Event): (r: Row<Column>)
  {
    map[(CId, true) := Str(id), (CCommunityId, true) := Str(e.communityId),
        (CCreatorId, true) := Str(e.creatorId), (CTitle, true) := Str(e.title),
        (CDescription, true) := OptStr(e.description), (CEventDate, true) := OptStr(e.eventDate),
        (CEventTime, true) := OptStr(e.eventTime), (CBroadLocation, true) := OptStr(e.broadLocation),
        (CSpecificLocation, true) := OptStr(e.specificLocation), (CIsPublic, true) := Bool(e.isPublic),
        (CVisibility, true) := e.visibility, (CIsActive, true) := Bool(e.isActive)]
  }

  /** Every column of a stored row reads as its cell. */
  lemma StoredRowCells(id: Id, e: Event)
    ensures forall c :: Cell(StoredRow(id, e), c) == StoredCell(id, e, c)
  {
    forall c ensures Cell(StoredRow(id, e), c) == StoredCell(id, e, c) {
      StoredRowCell(id, e, c);
    }
  }

  lemma StoredRowCell(id: Id, e: Event, c: Column)
    ensures Cell(StoredRow(id, e), c) == StoredCell(id, e, c)
  {
    var w := StoredRow(id, e);
    assert (c, false) !in w;
    match c
    case CCreatedAt => assert (c, true) !in w;
    case CUpdatedAt => assert (c, true) !in w;
    case _ => assert (c, true) in w;
  }

  /**
   * What `rowToEvent` reads back from stored event `e`: its own values, a
   * missing text as null, the date cut to ten characters, string settings parsed.
   */
  function StoredView(id: Id, e: Event, drv: Driver): (r: EventObj)
  {
    EventObj(
      id := Some(Str(id)),
      communityId := Some(Str(e.communityId)),
      creatorId := Some(Str(e.creatorId)),
      title := Some(Str(e.title)),
      description := Some(OptStr(e.description)),
      eventDate := Some(if e.eventDate.Some? then Str(Take(e.eventDate.value, 10)) else Null),
      eventTime := Some(OptStr(e.eventTime)),
      broadLocation := Some(OptStr(e.broadLocation)),
      specificLocation := Some(OptStr(e.specificLocation)),
      isPublic := Some(Bool(e.isPublic)),
      visibility := Some(OrNull(ParsedSettings(Some(e.visibility), drv))),
      isActive := Some(Bool(e.isActive)),
      createdAt := None, updatedAt := None,
      rsvpCount := None, ratingCount := None, ratingAggregate := None, creator := None)
  }

  /** `rowToEvent` reads the identifying columns of a row whose columns read as the cells of `e`. */
  lemma RowToEventIdentity(w: Row<Column>, id: Id, e: Event, drv: Driver)
    requires forall c :: Cell(w, c) == StoredCell(id, e, c)
    ensures RowToEvent(Some(w), drv).value.id == StoredView(id, e, drv).id
    ensures RowToEvent(Some(w), drv).value.communityId == StoredView(id, e, drv).communityId
    ensures RowToEvent(Some(w), drv).value.creatorId == StoredView(id, e, drv).creatorId
    ensures RowToEvent(Some(w), drv).value.title == StoredView(id, e, drv).title
  {
  }

  /** `rowToEvent` reads the flags of a row whose columns read as the cells of `e`. */
  lemma RowToEventFlags(w: Row<Column>, id: Id, e: Event, drv: Driver)
    requires forall c :: Cell(w, c) == StoredCell(id, e, c)
    ensures RowToEvent(Some(w), drv).value.isPublic == StoredView(id, e, drv).isPublic
    ensures RowToEvent(Some(w), drv).value.isActive == StoredView(id, e, drv).isActive
  {
  }

  /** `rowToEvent` reads the settings of a row whose columns read as the cells of `e`. */
  lemma RowToEventSettings(w: Row<Column>, id: Id, e: Event, drv: Driver)
    requires forall c :: Cell(w, c) == StoredCell(id, e, c)
    ensures RowToEvent(Some(w), drv).value.visibility == StoredView(id, e, drv).visibility
  {
  }

  /** `rowToEvent` reads the text columns of a row whose columns read as the cells of `e`. */
  lemma RowToEventTexts(w: Row<Column>, id: Id, e: Event, drv: Driver)
    requires forall c :: Cell(w, c) == StoredCell(id, e, c)
    ensures RowToEvent(Some(w), drv).value.description == StoredView(id, e, drv).description
    ensures RowToEvent(Some(w), drv).value.eventDate == StoredView(id, e, drv).eventDate
    ensures RowToEvent(Some(w), drv).value.eventTime == StoredView(id, e, drv).eventTime
    ensures RowToEvent(Some(w), drv).value.broadLocation == StoredView(id, e, drv).broadLocation
    ensures RowToEvent(Some(w), drv).value.specificLocation == StoredView(id, e, drv).specificLocation
  {
  }

  /** `rowToEvent` of any row whose columns read as the cells of `e`. */
  lemma RowToEventOfCells(w: Row<Column>, id: Id, e: Event, drv: Driver)
    requires forall c :: Cell(w, c) == StoredCell(id, e, c)
    ensures RowToEvent(Some(w), drv) == Some(StoredView(id, e, drv))
  {
    RowToEventIdentity(w, id, e, drv);
    RowToEventFlags(w, id, e, drv);
    RowToEventSettings(w, id, e, drv);
    RowToEventTexts(w, id, e, drv);
    assert Cell(w, CCreatedAt) == None && Cell(w, CUpdatedAt) == None;
  }

  /** `rowToEvent` of the stored row of event `e` is its stored view. */
  lemma RowToEventOfStoredRow(id: Id, e: Event, drv: Driver)
    ensures RowToEvent(Some(StoredRow(id, e)), drv) == Some(StoredView(id, e, drv))
  {
    StoredRowCells(id, e);
    RowToEventOfCells(StoredRow(id, e), id, e, drv);
  }

  /** The users with a row for event `e` in an RSVP table. */
  function Attendees(rsvps: set<(Id, Id)>, e: Id): (r: set<Id>)
    ensures forall u :: u in r <==> (e, u) in rsvps
  {
    set k | k in rsvps && k.0 == e :: k.1
  }

  /** The users with a row for event `e` in a ratings table. */
  function Raters(ratings: map<(Id, Id), int>, e: Id): (r: set<Id>)
    ensures forall u :: u in r <==> (e, u) in ratings
  {
    set k | k in ratings && k.0 == e :: k.1
  }

  /** The users with an RSVP row for event `e`. */
  function RsvpsOf(db: Db, e: Id): (r: set<Id>)
    reads db
    ensures forall u :: u in r <==> (e, u) in db.rsvps
  {
    Attendees(db.rsvps, e)
  }

  /** The users with a rating row for event `e`. */
  function RatersOf(db: Db, e: Id): (r: set<Id>)
    reads db
    ensures forall u :: u in r <==> (e, u) in db.ratings
  {
    Raters(db.ratings, e)
  }

  /** The rating aggregate: `AVG(rating)` rounded, or null when there is no rating. */
  function Aggregate(db: Db, id: Id, drv: Driver): (r: Json)
    reads db
    ensures r == Null <==> RatersOf(db, id) == {}
  {
    if RatersOf(db, id) == {} then Null else Num(drv.average(id))
  }

  /**
   * The object `getEventById` builds: `rowToEvent` of the stored row (its
   * stored view, by `RowToEventOfStoredRow`) plus the three counts.
   */
  function EventObject(db: Db, id: Id, drv: Driver): (r: EventObj)
    reads db
    requires id in db.events
  {
    StoredView(id, db.events[id], drv).(
      rsvpCount := Some(Num(|RsvpsOf(db, id)| as real)),
      ratingCount := Some(Num(|RatersOf(db, id)| as real)),
      ratingAggregate := Some(Aggregate(db, id, drv)))
  }

  /** `getEventById(id, { includeInactive })`; null for a missing (or inactive) event. */
  function GetEventById(db: Db, id: Id, includeInactive: bool, drv: Driver): (r: Option<EventObj>)
    reads db
    ensures r.Some? <==> id in db.events && (includeInactive || db.events[id].isActive)
    ensures r.Some? ==> r.value == EventObject(db, id, drv)
  {
    if id in db.events && (includeInactive || db.events[id].isActive) then Some(EventObject(db, id, drv)) else None
  }

  /** A stored event reads back with its own fields, its table counts and no creator. */
  lemma EventObjectFields(db: Db, id: Id, drv: Driver)
    requires id in db.events
    ensures var o, e := EventObject(db, id, drv), db.events[id];
      && o.id == Some(Str(id))
      && o.communityId == Some(Str(e.communityId))
      && o.creatorId == Some(Str(e.creatorId))
      && o.title == Some(Str(e.title))
      && o.isPublic == Some(Bool(e.isPublic))
      && o.isActive == Some(Bool(e.isActive))
      && (!e.visibility.Str? ==> o.visibility == Some(e.visibility))
      && (e.eventDate.Some? ==> o.eventDate == Some(Str(Take(e.eventDate.value, 10))))
      && o.rsvpCount == Some(Num(|RsvpsOf(db, id)| as real))
      && o.ratingCount == Some(Num(|RatersOf(db, id)| as real))
      && (RatersOf(db, id) == {} <==> o.ratingAggregate == Some(Null))
      && o.creator.None?
  {
  }

  // ---------------------------------------------------------------- visibility mask

  /** `event.visibility_settings || DEFAULT_VISIBILITY`. */
  function Settings(event: EventObj): (r: Json)
    ensures Truthy(event.visibility) ==> r == event.visibility.value
    ensures !Truthy(event.visibility) ==> r == DefaultVisibility()
  {
    if Truthy(event.visibility) then event.visibility.value else DefaultVisibility()
  }

  /** `viewerId && event.creator_id === viewerId`. */
  predicate IsCreatorViewer(event: EventObj, viewerId: Option<string>) {
    viewerId.Some? && viewerId.value != "" && event.creatorId == Some(Str(viewerId.value))
  }

  /** `if (vis[flag] && value != null) out[key] = value`. */
  function Shown(vis: Json, flag: string, v: Prop): (r: Prop)
    ensures r.Some? <==> Truthy(Get(vis, flag)) && !IsNullish(v)
    ensures r.Some? ==> r == v
  {
    if Truthy(Get(vis, flag)) && !IsNullish(v) then v else None
  }

  /**
   * `applyEventVisibility(event, viewerId, { creator })`: the whole event (with
   * the creator record) for a public event or its creator; otherwise id,
   * community, title and `is_public`, plus what the settings switch on.
   */
  function ApplyEventVisibility(event: EventObj, viewerId: Option<string>, creator: Prop): (r: EventObj)
  {
    if Truthy(event.isPublic) || IsCreatorViewer(event, viewerId) then
      if Truthy(creator) && Truthy(event.creatorId) then event.(creator := creator) else event
    else
      var vis := Settings(event);
      var showRatings := Truthy(Get(vis, "show_ratings"));
      EventObj(
        id := event.id, communityId := event.communityId, creatorId := None, title := event.title,
        description := Shown(vis, "show_description", event.description),
        eventDate := Shown(vis, "show_date", event.eventDate),
        eventTime := Shown(vis, "show_time", event.eventTime),
        broadLocation := Shown(vis, "show_broad_location", event.broadLocation),
        specificLocation := Shown(vis, "show_specific_location", event.specificLocation),
        isPublic := event.isPublic, visibility := None, isActive := None,
        createdAt := None, updatedAt := None,
        rsvpCount := if Truthy(Get(vis, "show_rsvp_count")) then Some(OrDefault(event.rsvpCount, Num(0.0))) else None,
        ratingCount := if showRatings then Some(OrDefault(event.ratingCount, Num(0.0))) else None,
        ratingAggregate := if showRatings then Some(OrNull(event.ratingAggregate)) else None,
        creator := if Truthy(Get(vis, "show_creator")) && Truthy(creator) && Truthy(event.creatorId) then creator else None)
  }

  /** A public event, or any event seen by its creator, is returned whole; only `creator` may be added. */
  lemma FullViewKeepsEvent(event: EventObj, viewerId: Option<string>, creator: Prop)
    requires Truthy(event.isPublic) || IsCreatorViewer(event, viewerId)
    ensures ApplyEventVisibility(event, viewerId, creator).(creator := event.creator) == event
    ensures Truthy(creator) && Truthy(event.creatorId) ==> ApplyEventVisibility(event, viewerId, creator).creator == creator
  {
  }

  /** The masked view never carries the creator id, the settings, the active flag or the timestamps. */
  lemma MaskHidesInternals(event: EventObj, viewerId: Option<string>, creator: Prop)
    requires !Truthy(event.isPublic) && !IsCreatorViewer(event, viewerId)
    ensures var r := ApplyEventVisibility(event, viewerId, creator);
      && r.id == event.id && r.communityId == event.communityId && r.title == event.title
      && r.isPublic == event.isPublic
      && r.creatorId.None? && r.visibility.None? && r.isActive.None?
      && r.createdAt.None? && r.updatedAt.None?
  {
  }

  /** A detail appears in the masked view exactly when its flag is on and it is not null. */
  lemma MaskShowsToggled(event: EventObj, viewerId: Option<string>, creator: Prop)
    requires !Truthy(event.isPublic) && !IsCreatorViewer(event, viewerId)
    ensures var r, vis := ApplyEventVisibility(event, viewerId, creator), Settings(event);
      && (r.eventDate.Some? <==> Truthy(Get(vis, "show_date")) && !IsNullish(event.eventDate))
      && (r.eventTime.Some? <==> Truthy(Get(vis, "show_time")) && !IsNullish(event.eventTime))
      && (r.broadLocation.Some? <==> Truthy(Get(vis, "show_broad_location")) && !IsNullish(event.broadLocation))
      && (r.specificLocation.Some? <==> Truthy(Get(vis, "show_specific_location")) && !IsNullish(event.specificLocation))
      && (r.description.Some? <==> Truthy(Get(vis, "show_description")) && !IsNullish(event.description))
      && (r.rsvpCount.Some? <==> Truthy(Get(vis, "show_rsvp_count")))
      && (r.ratingCount.Some? <==> Truthy(Get(vis, "show_ratings")))
      && (r.creator.Some? ==> Truthy(Get(vis, "show_creator")) && r.creator == creator)
      && (r.eventDate.Some? ==> r.eventDate == event.eventDate)
      && (r.eventTime.Some? ==> r.eventTime == event.eventTime)
      && (r.broadLocation.Some? ==> r.broadLocation == event.broadLocation)
      && (r.specificLocation.Some? ==> r.specificLocation == event.specificLocation)
      && (r.description.Some? ==> r.description == event.description)
  {
  }

  /** Every flag of the default settings is off. */
  lemma DefaultFlagsOff(f: string)
    ensures !Truthy(Get(DefaultVisibility(), f))
  {
  }

  /** The four properties every masked view has; nothing else is defined. */
  function BaseView(event: EventObj): (r: EventObj)
    ensures r.id == event.id && r.communityId == event.communityId && r.title == event.title
    ensures r.isPublic == event.isPublic
  {
    EventObj(event.id, event.communityId, None, event.title, None, None, None, None, None,
             event.isPublic, None, None, None, None, None, None, None, None)
  }

  /**
   * With no settings, or with the default settings a private event is created
   * with, a non-creator sees only id, community, title and `is_public`.
   */
  lemma DefaultSettingsShowBase(event: EventObj, viewerId: Option<string>, creator: Prop)
    requires !Truthy(event.isPublic) && !IsCreatorViewer(event, viewerId)
    requires !Truthy(event.visibility) || event.visibility == Some(DefaultVisibility())
    ensures ApplyEventVisibility(event, viewerId, creator) == BaseView(event)
  {
    assert Settings(event) == DefaultVisibility();
    DefaultFlagsOff("show_date");
    DefaultFlagsOff("show_time");
    DefaultFlagsOff("show_broad_location");
    DefaultFlagsOff("show_specific_location");
    DefaultFlagsOff("show_description");
    DefaultFlagsOff("show_rsvp_count");
    DefaultFlagsOff("show_ratings");
    DefaultFlagsOff("show_creator");
  }

  // ---------------------------------------------------------------- the event board

  /** `isDateVisibleForBoard(event)`: public, or `show_date === true` with a date. */
  predicate IsDateVisibleForBoard(event: EventObj) {
    Truthy(event.isPublic) || (IsTrue(Get(Settings(event), "show_date")) && !IsNullish(event.eventDate))
  }

  /** A private event on the board always shows its date, whoever looks. */
  lemma BoardShowsDate(event: EventObj, viewerId: Option<string>, creator: Prop)
    requires IsDateVisibleForBoard(event) && !Truthy(event.isPublic)
    ensures ApplyEventVisibility(event, viewerId, creator).eventDate == event.eventDate
    ensures !IsNullish(event.eventDate)
  {
  }

  /** `a <= b` for two ISO dates, compared as strings. */
  predicate DateLe(a: string, b: string)
    decreases |a|
  {
    |a| == 0 || (|b| > 0 && (a[0] < b[0] || (a[0] == b[0] && DateLe(a[1..], b[1..]))))
  }

  /** `from_date` or `to_date` was given (a non-empty string). */
  predicate Given(d: Option<string>) {
    d.Some? && d.value != ""
  }

  /** The WHERE clause of the board query: community in `ids`, active, within the date range. */
  predicate Selected(e: Event, ids: set<Id>, fromDate: Option<string>, toDate: Option<string>) {
    && e.communityId in ids
    && e.isActive
    && (Given(fromDate) ==> e.eventDate.Some? && DateLe(fromDate.value, e.eventDate.value))
    && (Given(toDate) ==> e.eventDate.Some? && DateLe(e.eventDate.value, toDate.value))
  }

  /**
   * `rows` is a page the board query can return: distinct selected events, at
   * most `limit` of them, and every selected event when the first page is not full.
   */
  predicate QueryAnswer(db: Db, ids: set<Id>, fromDate: Option<string>, toDate: Option<string>,
                        limit: nat, offset: nat, rows: seq<Id>)
    reads db
  {
    && |rows| <= limit
    && (forall i :: 0 <= i < |rows| ==> rows[i] in db.events && Selected(db.events[rows[i]], ids, fromDate, toDate))
    && (forall i, j :: 0 <= i < j < |rows| ==> rows[i] != rows[j])
    && (offset == 0 && |rows| < limit ==>
          forall id :: id in db.events && Selected(db.events[id], ids, fromDate, toDate) ==> id in rows)
  }

  /** `creatorMap.get(event.creator_id) || null`, where `creators` holds what `findById` returned. */
  function CreatorOf(creators: map<Id, Json>, event: EventObj): (r: Prop)
    ensures Truthy(r) ==> event.creatorId.Some? && event.creatorId.value.Str?
                          && event.creatorId.value.s in creators && r == Some(creators[event.creatorId.value.s])
  {
    if event.creatorId.Some? && event.creatorId.value.Str? && event.creatorId.value.s != ""
       && event.creatorId.value.s in creators && Truthy(Some(creators[event.creatorId.value.s]))
    then Some(creators[event.creatorId.value.s])
    else Some(Null)
  }

  /** An event the board keeps. */
  predicate OnBoard(db: Db, id: Id, drv: Driver)
    reads db
    requires id in db.events
  {
    IsDateVisibleForBoard(EventObject(db, id, drv))
  }

  /** What the board shows of event `id`: the masked event object. */
  function Shows(db: Db, id: Id, viewerId: Option<string>, creators: map<Id, Json>, drv: Driver): (r: EventObj)
    reads db
    requires id in db.events
  {
    var ev := EventObject(db, id, drv);
    ApplyEventVisibility(ev, viewerId, CreatorOf(creators, ev))
  }

  /** What the board does with row `id`: its masked event when it is kept, nothing otherwise. */
  function Entry(db: Db, id: Id, viewerId: Option<string>, creators: map<Id, Json>, drv: Driver): (r: Option<EventObj>)
    reads db
    requires id in db.events
  {
    if OnBoard(db, id, drv) then Some(Shows(db, id, viewerId, creators, drv)) else None
  }

  /** The entry of each query row, in order. */
  function Entries(db: Db, rows: seq<Id>, viewerId: Option<string>, creators: map<Id, Json>, drv: Driver): (r: seq<Option<EventObj>>)
    reads db
    requires forall i :: 0 <= i < |rows| ==> rows[i] in db.events
    ensures |r| == |rows|
  {
    if rows == [] then []
    else Entries(db, rows[..|rows| - 1], viewerId, creators, drv) + [Entry(db, rows[|rows| - 1], viewerId, creators, drv)]
  }

  /** The `i`-th entry is the entry of the `i`-th row. */
  lemma {:induction false} EntriesAt(db: Db, rows: seq<Id>, viewerId: Option<string>, creators: map<Id, Json>, drv: Driver)
    requires forall i :: 0 <= i < |rows| ==> rows[i] in db.events
    ensures forall i :: 0 <= i < |rows| ==> Entries(db, rows, viewerId, creators, drv)[i] == Entry(db, rows[i], viewerId, creators, drv)
  {
    if rows != [] {
      var front := rows[..|rows| - 1];
      EntriesAt(db, front, viewerId, creators, drv);
      var e, ef := Entries(db, rows, viewerId, creators, drv), Entries(db, front, viewerId, creators, drv);
      forall i | 0 <= i < |rows|
        ensures e[i] == Entry(db, rows[i], viewerId, creators, drv)
      {
        if i < |front| {
          assert e[i] == ef[i];
          assert front[i] == rows[i];
        }
      }
    }
  }

  /** The board for the query rows, in their order: the kept events, each masked. */
  function Board(db: Db, rows: seq<Id>, viewerId: Option<string>, creators: map<Id, Json>, drv: Driver): (r: seq<EventObj>)
    reads db
    requires forall i :: 0 <= i < |rows| ==> rows[i] in db.events
    ensures |r| <= |rows|
  {
    Somes(Entries(db, rows, viewerId, creators, drv))
  }

  /** Every kept row appears on the board in its masked form. */
  lemma BoardComplete(db: Db, rows: seq<Id>, viewerId: Option<string>, creators: map<Id, Json>, drv: Driver)
    requires forall i :: 0 <= i < |rows| ==> rows[i] in db.events
    ensures forall i :: 0 <= i < |rows| && OnBoard(db, rows[i], drv) ==>
              Shows(db, rows[i], viewerId, creators, drv) in Board(db, rows, viewerId, creators, drv)
  {
    var entries := Entries(db, rows, viewerId, creators, drv);
    EntriesAt(db, rows, viewerId, creators, drv);
    SomesMembers(entries);
    forall i | 0 <= i < |rows| && OnBoard(db, rows[i], drv)
      ensures Shows(db, rows[i], viewerId, creators, drv) in Somes(entries)
    {
      assert entries[i] == Some(Shows(db, rows[i], viewerId, creators, drv));
    }
  }

  /** Everything on the board is the masked form of a kept row. */
  lemma BoardSound(db: Db, rows: seq<Id>, viewerId: Option<string>, creators: map<Id, Json>, drv: Driver)
    requires forall i :: 0 <= i < |rows| ==> rows[i] in db.events
    ensures forall x :: x in Board(db, rows, viewerId, creators, drv) ==>
              exists i :: 0 <= i < |rows| && OnBoard(db, rows[i], drv) && x == Shows(db, rows[i], viewerId, creators, drv)
  {
    var entries := Entries(db, rows, viewerId, creators, drv);
    EntriesAt(db, rows, viewerId, creators, drv);
    SomesMembers(entries);
    forall x | x in Somes(entries)
      ensures exists i :: 0 <= i < |rows| && OnBoard(db, rows[i], drv) && x == Shows(db, rows[i], viewerId, creators, drv)
    {
      var i :| 0 <= i < |entries| && entries[i] == Some(x);
      assert Entry(db, rows[i], viewerId, creators, drv) == Some(x);
    }
  }

  /** The board holds exactly the masked form of each kept row. */
  lemma BoardMembers(db: Db, rows: seq<Id>, viewerId: Option<string>, creators: map<Id, Json>, drv: Driver)
    requires forall i :: 0 <= i < |rows| ==> rows[i] in db.events
    ensures forall x :: x in Board(db, rows, viewerId, creators, drv) <==>
              exists i :: 0 <= i < |rows| && OnBoard(db, rows[i], drv) && x == Shows(db, rows[i], viewerId, creators, drv)
  {
    BoardComplete(db, rows, viewerId, creators, drv);
    BoardSound(db, rows, viewerId, creators, drv);
  }

  /** Every private event on the board shows a date. */
  lemma BoardPrivateDated(db: Db, rows: seq<Id>, viewerId: Option<string>, creators: map<Id, Json>, drv: Driver)
    requires forall i :: 0 <= i < |rows| ==> rows[i] in db.events
    ensures forall x :: x in Board(db, rows, viewerId, creators, drv) && !Truthy(x.isPublic) ==> !IsNullish(x.eventDate)
  {
    BoardSound(db, rows, viewerId, creators, drv);
    forall x | x in Board(db, rows, viewerId, creators, drv) && !Truthy(x.isPublic)
      ensures !IsNullish(x.eventDate)
    {
      var i :| 0 <= i < |rows| && OnBoard(db, rows[i], drv) && x == Shows(db, rows[i], viewerId, creators, drv);
      var ev := EventObject(db, rows[i], drv);
      if !Truthy(ev.isPublic) {
        BoardShowsDate(ev, viewerId, CreatorOf(creators, ev));
      }
    }
  }

  /** The loop of `listEventsForCommunity` over the query rows. */
  method CollectBoard(db: Db, rows: seq<Id>, viewerId: Option<string>, creators: map<Id, Json>, drv: Driver)
    returns (result: seq<EventObj>)
    requires forall i :: 0 <= i < |rows| ==> rows[i] in db.events
    ensures result == Board(db, rows, viewerId, creators, drv)
  {
    result := [];
    var i := 0;
    while i < |rows|
      invariant 0 <= i <= |rows|
      invariant result == Board(db, rows[..i], viewerId, creators, drv)
    {
      assert rows[..i + 1][..i] == rows[..i];
      SomesSnoc(Entries(db, rows[..i], viewerId, creators, drv), Entry(db, rows[i], viewerId, creators, drv));
      var event := EventObject(db, rows[i], drv);
      if IsDateVisibleForBoard(event) {
        var creator := CreatorOf(creators, event);
        result := result + [ApplyEventVisibility(event, viewerId, creator)];
      }
      i := i + 1;
    }
    assert rows[..|rows|] == rows;
  }

  /** `if (!viewerId) return []` and the membership check of a PRIVATE board. */
  predicate PrivateGateCloses(db: Db, c: Community, communityId: Id, viewerId: Option<string>)
    reads db
  {
    c.kind == Private && (viewerId.None? || viewerId.value == "" || !db.IsMember(viewerId.value, communityId))
  }

  /**
   * `listEventsForCommunity(communityId, viewerId, opts)` as written: a missing
   * community gives []; for a LOCATION or SUB community it calls
   * `communityService.getDescendantPublicCommunityIds`, which that module does
   * not define, so the call throws; a PRIVATE board needs a member viewer.
   */
  method ListEventsForCommunity(db: Db, communityId: Id, viewerId: Option<string>, fromDate: Option<string>,
                                toDate: Option<string>, limit: nat, offset: nat, rows: seq<Id>,
                                creators: map<Id, Json>, drv: Driver)
    returns (r: Result<seq<EventObj>, Code>)
    requires QueryAnswer(db, {communityId}, fromDate, toDate, limit, offset, rows)
    ensures db.CommunityById(communityId, false).None? ==> r == Ok([])
    ensures db.CommunityById(communityId, false).Some? ==>
              var c := db.communities[communityId];
              && (c.kind == Location || c.kind == Sub ==> r == Err(NotAFunction))
              && (PrivateGateCloses(db, c, communityId, viewerId) ==> r == Ok([]))
              && (c.kind == Private && !PrivateGateCloses(db, c, communityId, viewerId) ==>
                    r == Ok(Board(db, rows, viewerId, creators, drv)))
  {
    var community := db.CommunityById(communityId, false);
    if community.None? {
      return Ok([]);
    }
    if community.value.kind == Location || community.value.kind == Sub {
      return Err(NotAFunction);
    }
    if community.value.kind == Private {
      if viewerId.None? || viewerId.value == "" {
        return Ok([]);
      }
      if !db.IsMember(viewerId.value, communityId) {
        return Ok([]);
      }
    }
    var result := CollectBoard(db, rows, viewerId, creators, drv);
    r := Ok(result);
  }

  /** The active public (LOCATION or SUB) communities whose `parent_id` is one of `f`. */
  function PublicChildren(db: Db, f: set<Id>): (r: set<Id>)
    reads db
    ensures r <= db.communities.Keys
    ensures forall id :: id in r <==>
              id in db.communities && db.communities[id].kind != Private && db.communities[id].isActive
              && db.communities[id].parentId.Some? && db.communities[id].parentId.value in f
  {
    set id | id in db.communities && db.communities[id].kind != Private && db.communities[id].isActive
             && db.communities[id].parentId.Some? && db.communities[id].parentId.value in f
  }

  /** `f` and every public community under one of its members, at any depth. */
  function PublicClosure(db: Db, f: set<Id>): (r: set<Id>)
    reads db
    ensures f <= r
    ensures PublicChildren(db, r) <= r
    ensures forall id :: id in r && id !in f ==>
              id in db.communities && db.communities[id].kind != Private && db.communities[id].isActive
    decreases |db.communities.Keys - f|
  {
    var next := f + PublicChildren(db, f);
    if next == f then f
    else
      StrictSubsetCard(db.communities.Keys - next, db.communities.Keys - f);
      PublicClosure(db, next)
  }

  lemma {:induction false} StrictSubsetCard<T>(a: set<T>, b: set<T>)
    requires a < b
    ensures |a| < |b|
  {
    assert b - a != {};
    var x :| x in b - a;
    SubsetCard(a, b - {x});
  }

  /**
   * The communities a LOCATION or SUB board evidently means to cover: the
   * community itself and every active public community under it.
   */
  function Descendants(db: Db, communityId: Id): (r: set<Id>)
    reads db
    ensures communityId in r
    ensures PublicChildren(db, r) <= r
    ensures forall id :: id in r && id != communityId ==>
              id in db.communities && db.communities[id].kind != Private && db.communities[id].isActive
  {
    PublicClosure(db, {communityId})
  }

  /** Every public community directly under the community is covered, and so is every one under those. */
  lemma DescendantsCoversChildren(db: Db, communityId: Id, child: Id, grandchild: Id)
    requires child in db.communities && db.communities[child].kind != Private && db.communities[child].isActive
    requires db.communities[child].parentId == Some(communityId)
    requires grandchild in db.communities && db.communities[grandchild].kind != Private
    requires db.communities[grandchild].isActive && db.communities[grandchild].parentId == Some(child)
    ensures child in Descendants(db, communityId) && grandchild in Descendants(db, communityId)
  {
    var d := Descendants(db, communityId);
    assert child in PublicChildren(db, d);
    assert grandchild in PublicChildren(db, d);
  }

  /** The communities the board query covers: the descendants for LOCATION and SUB, else the community. */
  function BoardScope(db: Db, c: Community, communityId: Id): (r: set<Id>)
    reads db
    ensures communityId in r
    ensures c.kind == Private ==> r == {communityId}
    ensures c.kind != Private ==> r == Descendants(db, communityId)
  {
    if c.kind == Location || c.kind == Sub then Descendants(db, communityId) else {communityId}
  }

  /**
   * `listEventsForCommunity` with the descendant lookup it evidently intends:
   * a LOCATION or SUB board covers the events of the community and of every
   * active public community under it; a PRIVATE board only its own.
   */
  method ListEventsForCommunityInScope(db: Db, communityId: Id, viewerId: Option<string>, fromDate: Option<string>,
                                       toDate: Option<string>, limit: nat, offset: nat,
                                       rows: seq<Id>, creators: map<Id, Json>, drv: Driver)
    returns (r: seq<EventObj>)
    requires communityId in db.communities ==>
               QueryAnswer(db, BoardScope(db, db.communities[communityId], communityId),
                           fromDate, toDate, limit, offset, rows)
    ensures db.CommunityById(communityId, false).None? ==> r == []
    ensures db.CommunityById(communityId, false).Some? ==>
              var c := db.communities[communityId];
              && (PrivateGateCloses(db, c, communityId, viewerId) ==> r == [])
              && (!PrivateGateCloses(db, c, communityId, viewerId) ==> r == Board(db, rows, viewerId, creators, drv))
    ensures forall x :: x in r ==>
              exists i :: 0 <= i < |rows| && db.events[rows[i]].isActive && OnBoard(db, rows[i], drv)
                          && db.events[rows[i]].communityId in BoardScope(db, db.communities[communityId], communityId)
                          && x == Shows(db, rows[i], viewerId, creators, drv)
  {
    var community := db.CommunityById(communityId, false);
    if community.None? {
      return [];
    }
    if community.value.kind == Private {
      if viewerId.None? || viewerId.value == "" {
        return [];
      }
      if !db.IsMember(viewerId.value, communityId) {
        return [];
      }
    }
    r := CollectBoard(db, rows, viewerId, creators, drv);
    BoardInScope(db, BoardScope(db, community.value, communityId), fromDate, toDate, limit, offset, rows,
                 viewerId, creators, drv);
  }

  /** Every event on a board lies in its scope, is active and is kept by the board rule. */
  lemma BoardInScope(db: Db, ids: set<Id>, fromDate: Option<string>, toDate: Option<string>, limit: nat,
                     offset: nat, rows: seq<Id>, viewerId: Option<string>, creators: map<Id, Json>, drv: Driver)
    requires QueryAnswer(db, ids, fromDate, toDate, limit, offset, rows)
    ensures forall x :: x in Board(db, rows, viewerId, creators, drv) ==>
              exists i :: 0 <= i < |rows| && db.events[rows[i]].communityId in ids && db.events[rows[i]].isActive
                          && OnBoard(db, rows[i], drv) && x == Shows(db, rows[i], viewerId, creators, drv)
  {
    BoardMembers(db, rows, viewerId, creators, drv);
  }

  // ---------------------------------------------------------------- create

  /** The fields `createEvent` reads from its payload. */
  datatype EventPayload = EventPayload(
    communityId: Option<Id>,
    title: string,
    description: Option<string>,
    eventDate: Option<string>,
    eventTime: Option<string>,
    broadLocation: Option<string>,
    specificLocation: Option<string>,
    isPublic: Prop,
    visibility: Prop)

  /** The settings a new event stores: the given ones, the defaults for a private event, or null. */
  function NewSettings(isPublic: bool, settings: Prop): (r: Json)
    ensures !IsNullish(settings) ==> r == settings.value
    ensures IsNullish(settings) ==> (r == DefaultVisibility() <==> !isPublic) && (isPublic ==> r == Null)
  {
    if !IsNullish(settings) then settings.value
    else if !isPublic then DefaultVisibility()
    else Null
  }

  /** The row `createEvent` inserts (`is_active` takes its column default, true). */
  function StoredEvent(communityId: Id, creatorId: Id, p: EventPayload): (r: Event)
    ensures r.communityId == communityId && r.creatorId == creatorId && r.isActive
    ensures r.isPublic <==> p.isPublic != Some(Bool(false))
    ensures !r.isPublic && IsNullish(p.visibility) ==> r.visibility == DefaultVisibility()
  {
    var isPublic := NotFalse(p.isPublic);
    Event(communityId, creatorId, p.title, p.description, p.eventDate, p.eventTime,
          p.broadLocation, p.specificLocation, isPublic, NewSettings(isPublic, p.visibility), true)
  }

  /** The community a new event goes into, or why there is none. */
  ghost function CreateTarget(db: Db, creatorId: Id, p: EventPayload): (r: Result<Id, Code>)
    reads db
  {
    var cid :=
      if p.communityId.Some? && p.communityId.value != "" then Ok(p.communityId.value)
      else if db.FriendGroupOf(creatorId).None? then Err(NoFriendCommunity)
      else Ok(db.FriendGroupOf(creatorId).value);
    if cid.Err? then cid
    else if db.CommunityById(cid.value, false).None? then Err(NotFound)
    else if !db.IsMember(creatorId, cid.value) then Err(NotMember)
    else cid
  }

  /**
   * `createEvent(creatorId, payload)`: the event goes into the given community,
   * or the creator's friend group; the creator must be a member; `newId` is the
   * generated UUID.
   */
  method CreateEvent(db: Db, creatorId: Id, p: EventPayload, newId: Id, drv: Driver) returns (r: Result<EventObj, Code>)
    requires db.Valid()
    requires newId !in db.events
    modifies db`events
    ensures CreateTarget(db, creatorId, p).Err? ==>
              r == Err(CreateTarget(db, creatorId, p).error) && db.events == old(db.events)
    ensures CreateTarget(db, creatorId, p).Ok? ==>
              && db.events == old(db.events)[newId := StoredEvent(CreateTarget(db, creatorId, p).value, creatorId, p)]
              && r == Ok(EventObject(db, newId, drv))
  {
    var communityId: Id;
    if p.communityId.Some? && p.communityId.value != "" {
      communityId := p.communityId.value;
    } else {
      var friendGroup := db.GetFriendGroupForUser(creatorId);
      if friendGroup.None? {
        return Err(NoFriendCommunity);
      }
      communityId := friendGroup.value;
    }
    if db.CommunityById(communityId, false).None? {
      return Err(NotFound);
    }
    if !db.IsMember(creatorId, communityId) {
      return Err(NotMember);
    }
    db.events := db.events[newId := StoredEvent(communityId, creatorId, p)];
    var created := GetEventById(db, newId, false, drv);
    r := Ok(created.value);
  }

  /**
   * A private event created without settings shows anyone but its creator only
   * its id, community, title and `is_public`.
   */
  lemma NewPrivateEventShowsBase(db: Db, id: Id, communityId: Id, creatorId: Id, p: EventPayload, drv: Driver,
                                 viewerId: Option<string>, creator: Prop)
    requires id in db.events && db.events[id] == StoredEvent(communityId, creatorId, p)
    requires p.isPublic == Some(Bool(false)) && IsNullish(p.visibility)
    requires viewerId != Some(creatorId)
    ensures ApplyEventVisibility(EventObject(db, id, drv), viewerId, creator) == BaseView(EventObject(db, id, drv))
  {
    var ev := EventObject(db, id, drv);
    assert db.events[id].visibility == DefaultVisibility();
    assert ev.visibility == Some(DefaultVisibility());
    DefaultSettingsShowBase(ev, viewerId, creator);
  }

  // ---------------------------------------------------------------- update

  /** The payload keys `updateEvent` may write, in its order. */
  datatype Key = KTitle | KDescription | KEventDate | KEventTime | KBroadLocation | KSpecificLocation
               | KIsPublic | KVisibility | KIsActive

  const AllowedKeys: seq<Key> :=
    [KTitle, KDescription, KEventDate, KEventTime, KBroadLocation, KSpecificLocation,
     KIsPublic, KVisibility, KIsActive]

  /**
   * An update payload: each allowed key absent (`undefined`) or given; a text
   * given as null clears the column, and the flags are any JSON value.
   */
  datatype EventPatch = EventPatch(
    title: Update<string>,
    description: Update<Option<string>>,
    eventDate: Update<Option<string>>,
    eventTime: Update<Option<string>>,
    broadLocation: Update<Option<string>>,
    specificLocation: Update<Option<string>>,
    isPublic: Update<Json>,
    visibility: Update<Json>,
    isActive: Update<Json>)

  /** `payload[key] !== undefined`. */
  predicate Present(p: EventPatch, k: Key) {
    match k
    case KTitle => p.title.SetTo?
    case KDescription => p.description.SetTo?
    case KEventDate => p.eventDate.SetTo?
    case KEventTime => p.eventTime.SetTo?
    case KBroadLocation => p.broadLocation.SetTo?
    case KSpecificLocation => p.specificLocation.SetTo?
    case KIsPublic => p.isPublic.SetTo?
    case KVisibility => p.visibility.SetTo?
    case KIsActive => p.isActive.SetTo?
  }

  /** Some allowed key is present. */
  predicate Changes(p: EventPatch) {
    || p.title.SetTo? || p.description.SetTo? || p.eventDate.SetTo? || p.eventTime.SetTo?
    || p.broadLocation.SetTo? || p.specificLocation.SetTo? || p.isPublic.SetTo?
    || p.visibility.SetTo? || p.isActive.SetTo?
  }

  /** The SET clause of key `k` when it is present (flags coerced with `!!`, settings stored as given). */
  function SetClause(e: Event, p: EventPatch, k: Key): (r: Event)
    ensures !Present(p, k) ==> r == e
  {
    match k
    case KTitle => e.(title := Patched(p.title, e.title))
    case KDescription => e.(description := Patched(p.description, e.description))
    case KEventDate => e.(eventDate := Patched(p.eventDate, e.eventDate))
    case KEventTime => e.(eventTime := Patched(p.eventTime, e.eventTime))
    case KBroadLocation => e.(broadLocation := Patched(p.broadLocation, e.broadLocation))
    case KSpecificLocation => e.(specificLocation := Patched(p.specificLocation, e.specificLocation))
    case KIsPublic => e.(isPublic := if p.isPublic.SetTo? then Truthy(Some(p.isPublic.value)) else e.isPublic)
    case KVisibility => e.(visibility := Patched(p.visibility, e.visibility))
    case KIsActive => e.(isActive := if p.isActive.SetTo? then Truthy(Some(p.isActive.value)) else e.isActive)
  }

  /** The clauses for `keys`, applied in order. */
  function ApplyKeys(e: Event, p: EventPatch, keys: seq<Key>): (r: Event)
    decreases |keys|
  {
    if keys == [] then e else ApplyKeys(SetClause(e, p, keys[0]), p, keys[1..])
  }

  /** The row after an update, field by field: a given key replaces its column, nothing else moves. */
  function ApplyPatch(e: Event, p: EventPatch): (r: Event)
    ensures r.communityId == e.communityId && r.creatorId == e.creatorId
    ensures p.isPublic.SetTo? ==> r.isPublic == Truthy(Some(p.isPublic.value))
    ensures p.isActive.SetTo? ==> r.isActive == Truthy(Some(p.isActive.value))
    ensures !Changes(p) ==> r == e
  {
    Event(e.communityId, e.creatorId,
          Patched(p.title, e.title),
          Patched(p.description, e.description),
          Patched(p.eventDate, e.eventDate),
          Patched(p.eventTime, e.eventTime),
          Patched(p.broadLocation, e.broadLocation),
          Patched(p.specificLocation, e.specificLocation),
          if p.isPublic.SetTo? then Truthy(Some(p.isPublic.value)) else e.isPublic,
          Patched(p.visibility, e.visibility),
          if p.isActive.SetTo? then Truthy(Some(p.isActive.value)) else e.isActive)
  }

  /** The last three clauses: the flags and the settings. */
  lemma ApplyFlagKeys(x: Event, p: EventPatch)
    ensures ApplyKeys(x, p, AllowedKeys[6..]) ==
              x.(isPublic := if p.isPublic.SetTo? then Truthy(Some(p.isPublic.value)) else x.isPublic,
                 visibility := Patched(p.visibility, x.visibility),
                 isActive := if p.isActive.SetTo? then Truthy(Some(p.isActive.value)) else x.isActive)
  {
    var ks := AllowedKeys[6..];
    assert ks == [KIsPublic, KVisibility, KIsActive];
    var x1 := SetClause(x, p, KIsPublic);
    assert ks[1..] == [KVisibility, KIsActive];
    var x2 := SetClause(x1, p, KVisibility);
    assert ks[1..][1..] == [KIsActive];
    var x3 := SetClause(x2, p, KIsActive);
    assert ks[1..][1..][1..] == [];
    assert ApplyKeys(x2, p, ks[1..][1..]) == ApplyKeys(x3, p, []) == x3;
  }

  /** The clauses for the time and the two locations. */
  lemma ApplyPlaceKeys(x: Event, p: EventPatch)
    ensures ApplyKeys(x, p, AllowedKeys[3..]) ==
              ApplyKeys(x.(eventTime := Patched(p.eventTime, x.eventTime),
                           broadLocation := Patched(p.broadLocation, x.broadLocation),
                           specificLocation := Patched(p.specificLocation, x.specificLocation)),
                        p, AllowedKeys[6..])
  {
    var ks := AllowedKeys[3..];
    assert ks[0] == KEventTime && ks[1..] == AllowedKeys[4..];
    var x1 := SetClause(x, p, KEventTime);
    assert AllowedKeys[4..][0] == KBroadLocation && AllowedKeys[4..][1..] == AllowedKeys[5..];
    var x2 := SetClause(x1, p, KBroadLocation);
    assert AllowedKeys[5..][0] == KSpecificLocation && AllowedKeys[5..][1..] == AllowedKeys[6..];
    assert ApplyKeys(x1, p, AllowedKeys[4..]) == ApplyKeys(x2, p, AllowedKeys[5..]);
  }

  /** The clauses for the title, the description and the date. */
  lemma ApplyTextKeys(x: Event, p: EventPatch)
    ensures ApplyKeys(x, p, AllowedKeys) ==
              ApplyKeys(x.(title := Patched(p.title, x.title),
                           description := Patched(p.description, x.description),
                           eventDate := Patched(p.eventDate, x.eventDate)),
                        p, AllowedKeys[3..])
  {
    var ks := AllowedKeys;
    assert ks[1..] == AllowedKeys[1..];
    assert ks[1..][1..] == AllowedKeys[2..];
    assert ks[1..][1..][1..] == AllowedKeys[3..];
  }

  /** The clause loop over the allowed keys writes exactly the fieldwise update. */
  lemma ApplyAllowedKeys(e: Event, p: EventPatch)
    ensures ApplyKeys(e, p, AllowedKeys) == ApplyPatch(e, p)
  {
    ApplyTextKeys(e, p);
    var x := e.(title := Patched(p.title, e.title), description := Patched(p.description, e.description),
                eventDate := Patched(p.eventDate, e.eventDate));
    ApplyPlaceKeys(x, p);
    var y := x.(eventTime := Patched(p.eventTime, x.eventTime),
                broadLocation := Patched(p.broadLocation, x.broadLocation),
                specificLocation := Patched(p.specificLocation, x.specificLocation));
    ApplyFlagKeys(y, p);
  }

  /** Applying the same update twice is applying it once. */
  lemma ApplyPatchIdempotent(e: Event, p: EventPatch)
    ensures ApplyPatch(ApplyPatch(e, p), p) == ApplyPatch(e, p)
  {
  }

  /** The loop of `updateEvent` over the allowed keys: the updated row and the number of SET clauses. */
  method SetClauses(e: Event, p: EventPatch) returns (updated: Event, clauses: nat)
    ensures updated == ApplyPatch(e, p)
    ensures clauses == 0 <==> !Changes(p)
    ensures clauses <= |AllowedKeys|
  {
    updated := e;
    clauses := 0;
    for i := 0 to |AllowedKeys|
      invariant ApplyKeys(updated, p, AllowedKeys[i..]) == ApplyKeys(e, p, AllowedKeys)
      invariant clauses <= i
      invariant clauses == 0 <==> forall j :: 0 <= j < i ==> !Present(p, AllowedKeys[j])
    {
      assert AllowedKeys[i..][1..] == AllowedKeys[i + 1..];
      var key := AllowedKeys[i];
      if Present(p, key) {
        updated := SetClause(updated, p, key);
        clauses := clauses + 1;
      }
    }
    ApplyAllowedKeys(e, p);
    ChangesAllowedKey(p);
  }

  /** A payload changes something exactly when one of the allowed keys is present. */
  lemma ChangesAllowedKey(p: EventPatch)
    ensures Changes(p) <==> exists j :: 0 <= j < |AllowedKeys| && Present(p, AllowedKeys[j])
  {
    assert Present(p, AllowedKeys[0]) == p.title.SetTo? && Present(p, AllowedKeys[1]) == p.description.SetTo?;
    assert Present(p, AllowedKeys[2]) == p.eventDate.SetTo? && Present(p, AllowedKeys[3]) == p.eventTime.SetTo?;
    assert Present(p, AllowedKeys[4]) == p.broadLocation.SetTo? && Present(p, AllowedKeys[5]) == p.specificLocation.SetTo?;
    assert Present(p, AllowedKeys[6]) == p.isPublic.SetTo? && Present(p, AllowedKeys[7]) == p.visibility.SetTo?;
    assert Present(p, AllowedKeys[8]) == p.isActive.SetTo?;
  }

  /**
   * `updateEvent(eventId, userId, payload)`: creator only; one SET clause per
   * present allowed key; no clause, no write. The reply is `getEventById`
   * without `includeInactive`, so null once the update deactivates the event.
   */
  method UpdateEvent(db: Db, eventId: Id, userId: Id, p: EventPatch, drv: Driver)
    returns (r: Result<Option<EventObj>, Code>)
    modifies db`events
    ensures eventId !in old(db.events) ==> r == Err(NotFound) && db.events == old(db.events)
    ensures eventId in old(db.events) && old(db.events[eventId]).creatorId != userId ==>
              r == Err(Forbidden) && db.events == old(db.events)
    ensures eventId in old(db.events) && old(db.events[eventId]).creatorId == userId ==>
              && db.events == (if Changes(p) then old(db.events)[eventId := ApplyPatch(old(db.events[eventId]), p)]
                               else old(db.events))
              && r == Ok(GetEventById(db, eventId, false, drv))
  {
    if GetEventById(db, eventId, true, drv).None? {
      return Err(NotFound);
    }
    var e := db.events[eventId];
    if e.creatorId != userId {
      return Err(Forbidden);
    }
    var updated, clauses := SetClauses(e, p);
    if clauses == 0 {
      return Ok(GetEventById(db, eventId, false, drv));
    }
    db.events := db.events[eventId := updated];
    r := Ok(GetEventById(db, eventId, false, drv));
  }

  // ---------------------------------------------------------------- delete

  /** `deleteEvent(eventId, userId)`: creator only; sets `is_active = false` and nothing else. */
  method DeleteEvent(db: Db, eventId: Id, userId: Id) returns (r: Result<(), Code>)
    modifies db`events
    ensures eventId !in old(db.events) ==> r == Err(NotFound)
    ensures eventId in old(db.events) && old(db.events[eventId]).creatorId != userId ==> r == Err(Forbidden)
    ensures r.Err? ==> db.events == old(db.events)
    ensures r.Ok? <==> eventId in old(db.events) && old(db.events[eventId]).creatorId == userId
    ensures r.Ok? ==> db.events == old(db.events)[eventId := old(db.events[eventId]).(isActive := false)]
  {
    if eventId !in db.events {
      return Err(NotFound);
    }
    if db.events[eventId].creatorId != userId {
      return Err(Forbidden);
    }
    db.events := db.events[eventId := db.events[eventId].(isActive := false)];
    r := Ok(());
  }

  /** A deleted event is hidden from `getEventById`, but still found with `includeInactive`. */
  lemma DeletedEventHidden(db: Db, id: Id, drv: Driver)
    requires id in db.events && !db.events[id].isActive
    ensures GetEventById(db, id, false, drv).None?
    ensures GetEventById(db, id, true, drv) == Some(EventObject(db, id, drv))
  {
  }

  // ---------------------------------------------------------------- RSVPs

  /** `rsvpToEvent(eventId, userId)`: an active event gets the row unless it already exists. */
  method RsvpToEvent(db: Db, eventId: Id, userId: Id) returns (r: Result<bool, Code>)
    modifies db`rsvps
    ensures !(eventId in old(db.events) && old(db.events[eventId]).isActive) ==>
              r == Err(NotFound) && db.rsvps == old(db.rsvps)
    ensures eventId in old(db.events) && old(db.events[eventId]).isActive ==>
              r == Ok(true) && db.rsvps == old(db.rsvps) + {(eventId, userId)}
  {
    if eventId !in db.events || !db.events[eventId].isActive {
      return Err(NotFound);
    }
    if (eventId, userId) !in db.rsvps {
      db.rsvps := db.rsvps + {(eventId, userId)};
    }
    r := Ok(true);
  }

  /** An RSVP adds its user to the attendees; the count rises by one exactly when it is new. */
  lemma {:induction false} AttendeesAfterRsvp(rsvps: set<(Id, Id)>, e: Id, u: Id)
    ensures Attendees(rsvps + {(e, u)}, e) == Attendees(rsvps, e) + {u}
    ensures |Attendees(rsvps + {(e, u)}, e)| == |Attendees(rsvps, e)| + (if (e, u) in rsvps then 0 else 1)
    ensures Attendees((rsvps + {(e, u)}) + {(e, u)}, e) == Attendees(rsvps + {(e, u)}, e)
  {
    var before, after := Attendees(rsvps, e), Attendees(rsvps + {(e, u)}, e);
    assert after == before + {u};
    if (e, u) !in rsvps {
      assert u !in before;
    } else {
      assert before + {u} == before;
    }
  }

  /** `removeRsvp(eventId, userId)`: deletes the row if there is one. */
  method RemoveRsvp(db: Db, eventId: Id, userId: Id) returns (rsvped: bool)
    modifies db`rsvps
    ensures !rsvped && db.rsvps == old(db.rsvps) - {(eventId, userId)}
  {
    db.rsvps := db.rsvps - {(eventId, userId)};
    rsvped := false;
  }

  /** `getRsvpCount(eventId)`. */
  function GetRsvpCount(db: Db, eventId: Id): (r: nat)
    reads db
    ensures r == |RsvpsOf(db, eventId)|
  {
    |RsvpsOf(db, eventId)|
  }

  /** What `getRsvpsForEvent` answers: a count for others, the attendee list for the creator. */
  datatype RsvpReply = RsvpCount(count: nat) | RsvpList(attendees: set<Id>)

  /** The RSVP'd users whose user row is active (the JOIN of `getRsvpsForEvent`). */
  function ActiveAttendees(db: Db, eventId: Id): (r: set<Id>)
    reads db
    ensures r <= RsvpsOf(db, eventId)
    ensures forall u :: u in r <==> (eventId, u) in db.rsvps && u in db.users && db.users[u].isActive
  {
    set u | u in RsvpsOf(db, eventId) && u in db.users && db.users[u].isActive
  }

  /** `getRsvpsForEvent(eventId, requesterId)`. */
  function GetRsvpsForEvent(db: Db, eventId: Id, requesterId: Id): (r: Result<RsvpReply, Code>)
    reads db
    ensures r.Err? <==> !(eventId in db.events && db.events[eventId].isActive)
    ensures r.Err? ==> r.error == NotFound
    ensures r.Ok? && db.events[eventId].creatorId != requesterId ==> r.value == RsvpCount(|RsvpsOf(db, eventId)|)
    ensures r.Ok? && db.events[eventId].creatorId == requesterId ==>
              r.value.RsvpList?
              && forall u :: u in r.value.attendees <==> (eventId, u) in db.rsvps && u in db.users && db.users[u].isActive
  {
    if eventId !in db.events || !db.events[eventId].isActive then Err(NotFound)
    else if db.events[eventId].creatorId != requesterId then Ok(RsvpCount(GetRsvpCount(db, eventId)))
    else Ok(RsvpList(ActiveAttendees(db, eventId)))
  }

  /** The creator's list never names more users than the count others see. */
  lemma RsvpListWithinCount(db: Db, eventId: Id)
    requires eventId in db.events && db.events[eventId].isActive
    ensures |ActiveAttendees(db, eventId)| <= GetRsvpCount(db, eventId)
  {
    SubsetCard(ActiveAttendees(db, eventId), RsvpsOf(db, eventId));
  }

  lemma {:induction false} SubsetCard<T>(a: set<T>, b: set<T>)
    requires a <= b
    ensures |a| <= |b|
    decreases |b|
  {
    if a != {} {
      var x :| x in a;
      SubsetCard(a - {x}, b - {x});
    }
  }

  // ---------------------------------------------------------------- ratings

  /**
   * `rateEvent(eventId, userId, rating)`: the range check comes first, then the
   * active event; an existing rating is replaced, otherwise one is inserted.
   */
  method RateEvent(db: Db, eventId: Id, userId: Id, rating: int) returns (r: Result<int, Code>)
    requires db.Valid()
    modifies db`ratings
    ensures db.Valid()
    ensures !(1 <= rating <= 5) ==> r == Err(InvalidRating)
    ensures 1 <= rating <= 5 && !(eventId in old(db.events) && old(db.events[eventId]).isActive) ==> r == Err(NotFound)
    ensures r.Err? ==> db.ratings == old(db.ratings)
    ensures r.Ok? <==> 1 <= rating <= 5 && eventId in old(db.events) && old(db.events[eventId]).isActive
    ensures r.Ok? ==> r == Ok(rating) && db.ratings == old(db.ratings)[(eventId, userId) := rating]
  {
    if rating < 1 || rating > 5 {
      return Err(InvalidRating);
    }
    if eventId !in db.events || !db.events[eventId].isActive {
      return Err(NotFound);
    }
    // The UPDATE of an existing rating and the INSERT of a new one leave the same row.
    db.ratings := db.ratings[(eventId, userId) := rating];
    r := Ok(rating);
  }

  /** A rating adds its user to the raters: a second rating by the same user adds no row. */
  lemma {:induction false} RatersAfterRating(ratings: map<(Id, Id), int>, e: Id, u: Id, v: int)
    ensures Raters(ratings[(e, u) := v], e) == Raters(ratings, e) + {u}
    ensures |Raters(ratings[(e, u) := v], e)| == |Raters(ratings, e)| + (if (e, u) in ratings then 0 else 1)
  {
    var before, after := Raters(ratings, e), Raters(ratings[(e, u) := v], e);
    assert after == before + {u};
    if (e, u) !in ratings {
      assert u !in before;
    } else {
      assert before + {u} == before;
    }
  }

  /** `getRatingAggregate(eventId)`: the rounded average (null without ratings) and the count. */
  function GetRatingAggregate(db: Db, eventId: Id, drv: Driver): (r: (Json, nat))
    reads db
    ensures r.1 == |RatersOf(db, eventId)|
    ensures r.0 == Null <==> r.1 == 0
  {
    (Aggregate(db, eventId, drv), |RatersOf(db, eventId)|)
  }
}
