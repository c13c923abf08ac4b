/**
 * The user service (server/services/userService.js): the row mapper, the
 * lookups by id and by username, the profile update over a whitelist of
 * columns, and the avatar setter. Password hashing is outside the model.
 */
module UserService {
  import opened Wrappers
  import opened Json
  import opened Database

  // ---------------------------------------------------------------- row mapping

  /** The columns of the users table, including the hash `rowToUser` drops. */
  datatype UserColumn =
    | UId | UUsername | UEmail | UPhoneNumber | UDisplayName | UBio | UAvatarUrl
    | ULocation | UIsActive | UCreatedAt | UUpdatedAt | UPasswordHash

  /** The object `rowToUser` builds; `None` is an undefined property. */
  datatype UserObj = UserObj(
    id: Prop,
    username: Prop,
    email: Prop,
    phoneNumber: Prop,
    displayName: Prop,
    bio: Prop,
    avatarUrl: Prop,
    avatarColor: Prop,
    location: Prop,
    isActive: Prop,
    createdAt: Prop,
    updatedAt: Prop)

  /**
   * `rowToUser(row)`: each column read upper-case first; the optional texts
   * default to null, `is_active` to true, `avatar_color` is always null, and
   * there is no password property.
   */
  function RowToUser(row: Option<Row<UserColumn>>): (r: Option<UserObj>)
    ensures row.None? <==> r.None?
    ensures r.Some? ==> var o := r.value;
      && o.phoneNumber.Some? && o.displayName.Some? && o.bio.Some? && o.avatarUrl.Some?
      && o.location.Some? && o.isActive.Some? && o.avatarColor == Some(Null)
  {
    match row
    case None => None
    case Some(w) =>
      Some(UserObj(
        id := Cell(w, UId),
        username := Cell(w, UUsername),
        email := Cell(w, UEmail),
        phoneNumber := Some(OrNull(Cell(w, UPhoneNumber))),
        displayName := Some(OrNull(Cell(w, UDisplayName))),
        bio := Some(OrNull(Cell(w, UBio))),
        avatarUrl := Some(OrNull(Cell(w, UAvatarUrl))),
        avatarColor := Some(Null),
        location := Some(OrNull(Cell(w, ULocation))),
        isActive := Some(OrDefault(Cell(w, UIsActive), Bool(true))),
        createdAt := Cell(w, UCreatedAt),
        updatedAt := Cell(w, UUpdatedAt)))
  }

  /** A row whose `is_active` is missing reads as active; the password hash never reaches the object. */
  lemma RowToUserDefaults(w: Row<UserColumn>, hash: Json)
    ensures IsNullish(Cell(w, UIsActive)) ==> RowToUser(Some(w)).value.isActive == Some(Bool(true))
    ensures IsNullish(Cell(w, UBio)) ==> RowToUser(Some(w)).value.bio == Some(Null)
    ensures RowToUser(Some(w[(UPasswordHash, true) := hash])) == RowToUser(Some(w))
  {
    var w' := w[(UPasswordHash, true) := hash];
    assert forall c :: c != UPasswordHash ==> Cell(w', c) == Cell(w, c);
  }

  // ---------------------------------------------------------------- stored rows

  /** The cell of column `c` that `findById` selects for stored user `u` (undefined for NULL). */
  function StoredUserCell(id: Id, u: User, c: UserColumn): (r: Prop)
  {
    match c
    case UId => Some(Str(id))
    case UUsername => Some(Str(u.username))
    case UEmail => Some(Str(u.email))
    case UPhoneNumber => if u.phoneNumber.Some? then Some(Str(u.phoneNumber.value)) else None
    case UDisplayName => if u.displayName.Some? then Some(Str(u.displayName.value)) else None
    case UBio => if u.bio.Some? then Some(Str(u.bio.value)) else None
    case UAvatarUrl => if u.avatarUrl.Some? then Some(Str(u.avatarUrl.value)) else None
    case ULocation => if u.location.Some? then Some(Str(u.location.value)) else None
    case UIsActive => Some(Bool(u.isActive))
    case UCreatedAt => None
    case UUpdatedAt => None
    case UPasswordHash => None
  }

  /** The row `findById` selects for a stored user, upper-case names; timestamps are not modelled. */
  function StoredUserRow(id: Id, u: User): (r: Row<UserColumn>)
  {
    map[(UId, true) := Str(id), (UUsername, true) := Str(u.username), (UEmail, true) := Str(u.email),
        (UPhoneNumber, true) := OptStr(u.phoneNumber), (UDisplayName, true) := OptStr(u.displayName),
        (UBio, true) := OptStr(u.bio), (UAvatarUrl, true) := OptStr(u.avatarUrl),
        (ULocation, true) := OptStr(u.location), (UIsActive, true) := Bool(u.isActive)]
  }

  lemma StoredUserRowCell(id: Id, u: User, c: UserColumn)
    ensures Cell(StoredUserRow(id, u), c) == StoredUserCell(id, u, c)
  {
    var w := StoredUserRow(id, u);
    assert (c, false) !in w;
    match c
    case UCreatedAt => assert (c, true) !in w;
    case UUpdatedAt => assert (c, true) !in w;
    case UPasswordHash => assert (c, true) !in w;
    case _ => assert (c, true) in w;
  }

  /** What `findById` returns for stored user `u`: its values, a missing text as null. */
  function UserView(id: Id, u: User): (r: UserObj)
  {
    UserObj(
      id := Some(Str(id)),
      username := Some(Str(u.username)),
      email := Some(Str(u.email)),
      phoneNumber := Some(OptStr(u.phoneNumber)),
      displayName := Some(OptStr(u.displayName)),
      bio := Some(OptStr(u.bio)),
      avatarUrl := Some(OptStr(u.avatarUrl)),
      avatarColor := Some(Null),
      location := Some(OptStr(u.location)),
      isActive := Some(Bool(u.isActive)),
      createdAt := None, updatedAt := None)
  }

  /** `rowToUser` reads the identity and the flag of a row whose columns read as the cells of `u`. */
  lemma RowToUserIdentity(w: Row<UserColumn>, id: Id, u: User)
    requires forall c :: Cell(w, c) == StoredUserCell(id, u, c)
    ensures RowToUser(Some(w)).value.id == UserView(id, u).id
    ensures RowToUser(Some(w)).value.username == UserView(id, u).username
    ensures RowToUser(Some(w)).value.email == UserView(id, u).email
    ensures RowToUser(Some(w)).value.isActive == UserView(id, u).isActive
  {
  }

  /** `rowToUser` reads the optional texts of a row whose columns read as the cells of `u`. */
  lemma RowToUserTexts(w: Row<UserColumn>, id: Id, u: User)
    requires forall c :: Cell(w, c) == StoredUserCell(id, u, c)
    ensures RowToUser(Some(w)).value.phoneNumber == UserView(id, u).phoneNumber
    ensures RowToUser(Some(w)).value.displayName == UserView(id, u).displayName
    ensures RowToUser(Some(w)).value.bio == UserView(id, u).bio
    ensures RowToUser(Some(w)).value.avatarUrl == UserView(id, u).avatarUrl
    ensures RowToUser(Some(w)).value.location == UserView(id, u).location
  {
  }

  /** `rowToUser` of any row whose columns read as the cells of `u`. */
  lemma RowToUserOfCells(w: Row<UserColumn>, id: Id, u: User)
    requires forall c :: Cell(w, c) == StoredUserCell(id, u, c)
    ensures RowToUser(Some(w)) == Some(UserView(id, u))
  {
    RowToUserIdentity(w, id, u);
    RowToUserTexts(w, id, u);
    assert Cell(w, UCreatedAt) == None && Cell(w, UUpdatedAt) == None;
  }

  /** `rowToUser` of the stored row of user `u` is its view. */
  lemma {:induction false} RowToUserOfStoredRow(id: Id, u: User)
    ensures RowToUser(Some(StoredUserRow(id, u))) == Some(UserView(id, u))
  {
    forall c ensures Cell(StoredUserRow(id, u), c) == StoredUserCell(id, u, c) {
      StoredUserRowCell(id, u, c);
    }
    RowToUserOfCells(StoredUserRow(id, u), id, u);
  }

  // ---------------------------------------------------------------- lookups

  /** `findById(id)`: the user with that id, active or not, or null. */
  function FindById(db: Db, id: Id): (r: Option<UserObj>)
    reads db
    ensures r.Some? <==> id in db.users
    ensures r.Some? ==> r.value.id == Some(Str(id)) && r.value.isActive == Some(Bool(db.users[id].isActive))
    ensures r.Some? ==> RowToUser(Some(StoredUserRow(id, db.users[id]))) == r
  {
    if id in db.users then RowToUserOfStoredRow(id, db.users[id]); Some(UserView(id, db.users[id])) else None
  }

  /** The active user with this username, if any (`users WHERE username = ? AND is_active`). */
  ghost function ActiveUserByUsername(db: Db, username: string): (r: Option<Id>)
    reads db
    ensures r.Some? ==> r.value in db.users && db.users[r.value].username == username && db.users[r.value].isActive
    ensures r.None? ==> forall id :: id in db.users && db.users[id].username == username ==> !db.users[id].isActive
  {
    if exists id :: id in db.users && db.users[id].username == username && db.users[id].isActive then
      var id :| id in db.users && db.users[id].username == username && db.users[id].isActive; Some(id)
    else None
  }

  /**
   * `findByUsername(username)`: the first row of the active-user query, or
   * null. The username is UNIQUE, so there is at most one such row.
   */
  method FindByUsername(db: Db, username: string) returns (r: Option<Id>)
    requires db.Valid()
    ensures r == ActiveUserByUsername(db, username)
    ensures r.Some? <==> exists id :: id in db.users && db.users[id].username == username && db.users[id].isActive
  {
    if exists id :: id in db.users && db.users[id].username == username && db.users[id].isActive {
      var id :| id in db.users && db.users[id].username == username && db.users[id].isActive;
      r := Some(id);
    } else {
      r := None;
    }
  }

  /** An inactive user is found by id but not by username or email. */
  lemma DeactivatedUserHidden(db: Db, id: Id)
    requires db.Valid() && id in db.users && !db.users[id].isActive
    ensures FindById(db, id).Some?
    ensures ActiveUserByUsername(db, db.users[id].username).None?
    ensures db.ActiveUserByEmail(db.users[id].email).None?
  {
  }

  // ---------------------------------------------------------------- updateUser

  /** The keys `updateUser` writes: `display_name`, `bio`, `avatar_url`, `phone_number`, `location`. */
  const AllowedUserKeys: seq<string> := ["display_name", "bio", "avatar_url", "phone_number", "location"]

  /**
   * The value a bound parameter stores in a VARCHAR column: null stays NULL,
   * a string is itself, anything else its text (`show`).
   */
  function StoredText(v: Json, show: Json -> string): (r: Option<string>)
    ensures v.Null? <==> r.None?
    ensures v.Str? ==> r == Some(v.s)
  {
    match v
    case Null => None
    case Str(s) => Some(s)
    case _ => Some(show(v))
  }

  /** One entry of `Object.entries(updates)`: a defined value on an allowed key is written. */
  function ApplyEntry(u: User, key: string, value: Prop, show: Json -> string): (r: User)
  {
    if value.None? then u
    else if key == "display_name" then u.(displayName := StoredText(value.value, show))
    else if key == "bio" then u.(bio := StoredText(value.value, show))
    else if key == "avatar_url" then u.(avatarUrl := StoredText(value.value, show))
    else if key == "phone_number" then u.(phoneNumber := StoredText(value.value, show))
    else if key == "location" then u.(location := StoredText(value.value, show))
    else u
  }

  /** The entries in order, each applied to the result of the previous ones (the UPDATE's SET list). */
  function ApplyEntries(u: User, entries: seq<(string, Prop)>, show: Json -> string): (r: User)
  {
    if entries == [] then u
    else ApplyEntry(ApplyEntries(u, entries[..|entries| - 1], show), entries[|entries| - 1].0,
                    entries[|entries| - 1].1, show)
  }

  /** The last defined value `updates` gives `key`, if any. */
  function Given(entries: seq<(string, Prop)>, key: string): (r: Prop)
    ensures r.Some? ==> exists i :: 0 <= i < |entries| && entries[i] == (key, r)
    ensures r.None? ==> forall i :: 0 <= i < |entries| && entries[i].0 == key ==> entries[i].1.None?
  {
    if entries == [] then None
    else
      var last := entries[|entries| - 1];
      if last.0 == key && last.1.Some? then
        assert entries[|entries| - 1] == (key, last.1); last.1
      else
        var r := Given(entries[..|entries| - 1], key);
        if r.Some? then
          var i :| 0 <= i < |entries| - 1 && entries[..|entries| - 1][i] == (key, r);
          assert entries[i] == (key, r);
          r
        else
          assert forall i :: 0 <= i < |entries| - 1 ==> entries[i] == entries[..|entries| - 1][i];
          r
  }

  /** A column keeps its value unless `updates` gives it one. */
  function ColumnAfter(given: Prop, current: Option<string>, show: Json -> string): (r: Option<string>)
    ensures given.None? ==> r == current
    ensures given.Some? ==> r == StoredText(given.value, show)
  {
    if given.Some? then StoredText(given.value, show) else current
  }

  /** The user row after `updateUser`, column by column. */
  function UpdatedUser(u: User, entries: seq<(string, Prop)>, show: Json -> string): (r: User)
  {
    u.(displayName := ColumnAfter(Given(entries, "display_name"), u.displayName, show),
       bio := ColumnAfter(Given(entries, "bio"), u.bio, show),
       avatarUrl := ColumnAfter(Given(entries, "avatar_url"), u.avatarUrl, show),
       phoneNumber := ColumnAfter(Given(entries, "phone_number"), u.phoneNumber, show),
       location := ColumnAfter(Given(entries, "location"), u.location, show))
  }

  /**
   * Applying the entries in order is the column-by-column update: the last
   * defined value of each allowed key wins, every other key is ignored, and
   * username, email and `is_active` never change.
   */
  lemma {:induction false} ApplyEntriesIsUpdate(u: User, entries: seq<(string, Prop)>, show: Json -> string)
    ensures ApplyEntries(u, entries, show) == UpdatedUser(u, entries, show)
  {
    if entries != [] {
      ApplyEntriesIsUpdate(u, entries[..|entries| - 1], show);
    }
  }

  /** A key `updateUser` writes, with a defined value, occurs among the entries. */
  predicate Writes(entries: seq<(string, Prop)>)
  {
    exists i :: 0 <= i < |entries| && entries[i].0 in AllowedUserKeys && entries[i].1.Some?
  }

  /** With no allowed defined entry the row is unchanged. */
  lemma NoWriteKeepsUser(u: User, entries: seq<(string, Prop)>, show: Json -> string)
    requires !Writes(entries)
    ensures UpdatedUser(u, entries, show) == u
  {
    assert Given(entries, "display_name").None? && Given(entries, "bio").None?;
    assert Given(entries, "avatar_url").None? && Given(entries, "phone_number").None?;
    assert Given(entries, "location").None?;
  }

  /** Repeating an update changes nothing more. */
  lemma UpdateIdempotent(u: User, entries: seq<(string, Prop)>, show: Json -> string)
    ensures UpdatedUser(UpdatedUser(u, entries, show), entries, show) == UpdatedUser(u, entries, show)
  {
  }

  /** The loop over `Object.entries(updates)`: the updated row and the number of SET clauses. */
  method SetClauses(u: User, entries: seq<(string, Prop)>, show: Json -> string) returns (updated: User, clauses: nat)
    ensures updated == UpdatedUser(u, entries, show)
    ensures clauses == 0 <==> !Writes(entries)
    ensures clauses <= |entries|
  {
    updated, clauses := u, 0;
    for i := 0 to |entries|
      invariant updated == ApplyEntries(u, entries[..i], show)
      invariant clauses <= i
      invariant clauses == 0 <==> !Writes(entries[..i])
    {
      var (key, value) := entries[i];
      assert entries[..i + 1][..i] == entries[..i];
      if key in AllowedUserKeys && value.Some? {
        clauses := clauses + 1;
        assert entries[..i + 1][i].0 in AllowedUserKeys;
      } else {
        assert forall j :: (0 <= j < i + 1 && entries[..i + 1][j].0 in AllowedUserKeys && entries[..i + 1][j].1.Some?
          ==> j < i && entries[..i][j] == entries[..i + 1][j]);
      }
      updated := ApplyEntry(updated, key, value, show);
    }
    assert entries[..|entries|] == entries;
    ApplyEntriesIsUpdate(u, entries, show);
  }

  /**
   * `updateUser(userId, updates)`: with no allowed, defined entry nothing is
   * written; otherwise the UPDATE sets those columns. Either way the reply is
   * `findById(userId)`, null for an unknown user.
   */
  method UpdateUser(db: Db, userId: Id, entries: seq<(string, Prop)>, show: Json -> string) returns (r: Option<UserObj>)
    requires db.Valid()
    modifies db`users
    ensures db.Valid()
    ensures !Writes(entries) || userId !in old(db.users) ==> db.users == old(db.users)
    ensures Writes(entries) && userId in old(db.users) ==>
              db.users == old(db.users)[userId := UpdatedUser(old(db.users[userId]), entries, show)]
    ensures r == FindById(db, userId)
    ensures r.Some? <==> userId in old(db.users)
  {
    if userId in db.users {
      var updated, clauses := SetClauses(db.users[userId], entries, show);
      if clauses != 0 {
        db.users := db.users[userId := updated];
        assert db.UsersUnique();
      }
    }
    r := FindById(db, userId);
  }

  /** `url || null`: an empty or missing url clears the avatar. */
  function AvatarValue(url: Option<string>): (r: Option<string>)
    ensures r.None? <==> url.None? || url.value == ""
    ensures r.Some? ==> r == url
  {
    if url.Some? && url.value != "" then url else None
  }

  /** `setAvatarUrl(userId, url)`: stores `url || null` and returns `findById(userId)`. */
  method SetAvatarUrl(db: Db, userId: Id, url: Option<string>) returns (r: Option<UserObj>)
    requires db.Valid()
    modifies db`users
    ensures db.Valid()
    ensures userId !in old(db.users) ==> db.users == old(db.users)
    ensures userId in old(db.users) ==>
              db.users == old(db.users)[userId := old(db.users[userId]).(avatarUrl := AvatarValue(url))]
    ensures r == FindById(db, userId)
  {
    if userId in db.users {
      db.users := db.users[userId := db.users[userId].(avatarUrl := AvatarValue(url))];
      assert db.UsersUnique();
    }
    r := FindById(db, userId);
  }

  /** The avatar `findById` reports after `setAvatarUrl`: the url, or null when it was empty. */
  lemma AvatarAfterSet(id: Id, u: User, url: Option<string>)
    ensures UserView(id, u.(avatarUrl := AvatarValue(url))).avatarUrl ==
              Some(if url.Some? && url.value != "" then Str(url.value) else Null)
  {
  }
}
