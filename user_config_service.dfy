/**
 * Per-user settings (server/services/userConfigService.js): the two VARIANT
 * sections of a user_configs row, their defaults, the row created on first
 * read, and the shallow merge of a partial update.
 */
module UserConfigService {
  import opened Wrappers
  import opened Json
  import opened Database

  /** The two sections `getConfig` and `updateConfig` return. */
  datatype Config = Config(gui: Json, privacy: Json)

  /** `DEFAULT_GUI_SETTINGS`. */
  function DefaultGui(): (r: Json)
    ensures r.Obj? && r.fields.Keys == {"theme", "language", "notifications"}
    ensures Get(r, "theme") == Some(Str("system")) && Get(r, "language") == Some(Str("en"))
  {
    Obj(map["theme" := Str("system"), "language" := Str("en"),
            "notifications" := Obj(map["email_friend_request" := Bool(true), "email_event_reminder" := Bool(true)])])
  }

  /** `DEFAULT_PRIVACY_SETTINGS`: a public profile with every detail shown. */
  function DefaultPrivacy(): (r: Json)
    ensures r.Obj? && Get(r, "profile_visibility") == Some(Str("public"))
    ensures forall k :: k in r.fields && k != "profile_visibility" ==> r.fields[k] == Bool(true)
    ensures r.fields.Keys == {"profile_visibility", "show_location", "show_events_attended", "show_ratings", "show_friends_list"}
  {
    Obj(map["profile_visibility" := Str("public"), "show_location" := Bool(true),
            "show_events_attended" := Bool(true), "show_ratings" := Bool(true), "show_friends_list" := Bool(true)])
  }

  /** `typeof val === 'object'` for a non-null JSON value. */
  predicate IsObject(v: Json) {
    v.Obj? || v.Arr?
  }

  /**
   * `parseVariant(val)`: null stays null, an object is itself, a string is
   * `JSON.parse`d (`parse`, `None` when it throws) and null on failure, any
   * other value is null.
   */
  function ParseVariant(v: Json, parse: string -> Option<Json>): (r: Json)
    ensures IsObject(v) ==> r == v
    ensures v.Null? || v.Bool? || v.Num? ==> r == Null
    ensures v.Str? ==> r == OrElse(parse(v.s), Null)
  {
    match v
    case Obj(_) => v
    case Arr(_) => v
    case Str(s) => OrElse(parse(s), Null)
    case _ => Null
  }

  /** `parseVariant(cell) || DEFAULT`: a falsy or unparsable cell reads as the default. */
  function Section(cell: Json, default: Json, parse: string -> Option<Json>): (r: Json)
    ensures Truthy(Some(ParseVariant(cell, parse))) ==> r == ParseVariant(cell, parse)
    ensures !Truthy(Some(ParseVariant(cell, parse))) ==> r == default
  {
    var p := ParseVariant(cell, parse);
    if Truthy(Some(p)) then p else default
  }

  /** The config `getConfig` returns for an existing row. */
  function ReadConfig(row: ConfigRow, parse: string -> Option<Json>): (r: Config)
    ensures r.gui == Section(row.gui, DefaultGui(), parse)
    ensures r.privacy == Section(row.privacy, DefaultPrivacy(), parse)
  {
    Config(Section(row.gui, DefaultGui(), parse), Section(row.privacy, DefaultPrivacy(), parse))
  }

  /** The row `getOrCreateDefaultConfig` inserts: both defaults through `PARSE_JSON`. */
  function DefaultRow(): (r: ConfigRow)
    ensures r.gui == DefaultGui() && r.privacy == DefaultPrivacy()
  {
    ConfigRow(DefaultGui(), DefaultPrivacy())
  }

  /** The row of user `u` after `getOrCreateDefaultConfig(u)`. */
  function WithDefaultConfig(configs: map<Id, ConfigRow>, u: Id): (r: map<Id, ConfigRow>)
    ensures u in r
    ensures u in configs ==> r == configs
    ensures u !in configs ==> r == configs[u := DefaultRow()]
  {
    if u in configs then configs else configs[u := DefaultRow()]
  }

  /** Creating the default row twice is creating it once, and it reads as the defaults. */
  lemma DefaultConfigIdempotent(configs: map<Id, ConfigRow>, u: Id, parse: string -> Option<Json>)
    ensures WithDefaultConfig(WithDefaultConfig(configs, u), u) == WithDefaultConfig(configs, u)
    ensures ReadConfig(DefaultRow(), parse) == Config(DefaultGui(), DefaultPrivacy())
    ensures u !in configs ==> ReadConfig(WithDefaultConfig(configs, u)[u], parse) == Config(DefaultGui(), DefaultPrivacy())
  {
  }

  /** `getOrCreateDefaultConfig(userId)`: insert the defaults unless a row exists. */
  method GetOrCreateDefaultConfig(db: Db, userId: Id)
    modifies db`configs
    ensures db.configs == WithDefaultConfig(old(db.configs), userId)
  {
    if userId !in db.configs {
      db.configs := db.configs[userId := DefaultRow()];
    }
  }

  /**
   * `getConfig(userId)`: the sections of the existing row, each falling back
   * to its default; with no row, the default row is created and the defaults
   * returned. Either way the reply is what the row now reads as.
   */
  method GetConfig(db: Db, userId: Id, parse: string -> Option<Json>) returns (r: Config)
    modifies db`configs
    ensures db.configs == WithDefaultConfig(old(db.configs), userId)
    ensures r == ReadConfig(db.configs[userId], parse)
    ensures userId !in old(db.configs) ==> r == Config(DefaultGui(), DefaultPrivacy())
  {
    if userId in db.configs {
      var row := db.configs[userId];
      r := Config(Section(row.gui, DefaultGui(), parse), Section(row.privacy, DefaultPrivacy(), parse));
    } else {
      GetOrCreateDefaultConfig(db, userId);
      r := Config(DefaultGui(), DefaultPrivacy());
    }
  }

  // ---------------------------------------------------------------- updateConfig

  /** The own properties `{...v}` copies out of a value (those of an object). */
  function Spread(v: Json): (r: map<string, Json>)
    ensures v.Obj? ==> r == v.fields
    ensures v.Null? || v.Bool? || v.Num? ==> r == map[]
  {
    if v.Obj? then v.fields else map[]
  }

  /** `{ ...current, ...update }`: the update's keys win, the others are kept. */
  function Merge(current: Json, update: Json): (r: Json)
    ensures r.Obj? && r.fields.Keys == Spread(current).Keys + Spread(update).Keys
    ensures forall k :: k in Spread(update) ==> r.fields[k] == Spread(update)[k]
    ensures forall k :: k in Spread(current) && k !in Spread(update) ==> r.fields[k] == Spread(current)[k]
  {
    Obj(Spread(current) + Spread(update))
  }

  /** `updates.x != null ? { ...current.x, ...updates.x } : current.x`. */
  function MergedSection(current: Json, update: Prop): (r: Json)
    ensures IsNullish(update) ==> r == current
    ensures !IsNullish(update) ==> r == Merge(current, update.value)
  {
    if IsNullish(update) then current else Merge(current, update.value)
  }

  /** Merging the same update again changes nothing, and an empty update keeps every key. */
  lemma {:induction false} MergeIdempotent(current: Json, update: Json)
    ensures Merge(Merge(current, update), update) == Merge(current, update)
    ensures current.Obj? && Spread(update) == map[] ==> Merge(current, update) == current
  {
    var m, n := Spread(current), Spread(update);
    assert (m + n) + n == m + n;
    if current.Obj? && n == map[] {
      assert m + n == m;
    }
  }

  /**
   * `updateConfig(userId, updates)`: read the current config (creating the
   * row), merge each given section into it and store both sections. Reading
   * the row back gives the reply whenever both sections are objects, which a
   * given update always makes its section.
   */
  method UpdateConfig(db: Db, userId: Id, gui: Prop, privacy: Prop, parse: string -> Option<Json>) returns (r: Config)
    modifies db`configs
    ensures r.gui == MergedSection(ReadConfig(WithDefaultConfig(old(db.configs), userId)[userId], parse).gui, gui)
    ensures r.privacy == MergedSection(ReadConfig(WithDefaultConfig(old(db.configs), userId)[userId], parse).privacy, privacy)
    ensures db.configs == WithDefaultConfig(old(db.configs), userId)[userId := ConfigRow(r.gui, r.privacy)]
    ensures !IsNullish(gui) ==> r.gui.Obj?
    ensures !IsNullish(privacy) ==> r.privacy.Obj?
    ensures IsObject(r.gui) && IsObject(r.privacy) ==> ReadConfig(db.configs[userId], parse) == r
  {
    var current := GetConfig(db, userId, parse);
    r := Config(MergedSection(current.gui, gui), MergedSection(current.privacy, privacy));
    db.configs := db.configs[userId := ConfigRow(r.gui, r.privacy)];
  }

  /** An object section reads back as itself: what `updateConfig` stores is what `getConfig` returns. */
  lemma ObjectSectionsReadBack(c: Config, parse: string -> Option<Json>)
    requires IsObject(c.gui) && IsObject(c.privacy)
    ensures ReadConfig(ConfigRow(c.gui, c.privacy), parse) == c
  {
  }

  /** A stored number is not an object: it reads back as the default, not as itself. */
  lemma NumberSectionReadsAsDefault(n: real, parse: string -> Option<Json>)
    ensures ReadConfig(ConfigRow(Num(n), Num(n)), parse) == Config(DefaultGui(), DefaultPrivacy())
  {
  }
}
