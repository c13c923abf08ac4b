/**
 * The SQLite event board (Whats--main/mainhost.py): created events become
 * rows with an integer primary key, a published event schedules an
 * invitation by id that re-reads the row when it runs, and the listing shows
 * only the public columns.
 */
module SqlBoard {
  import opened Wrappers
  import opened Text
  import opened BoardRequest

  /** A row of the `events` table. */
  datatype Row = Row(id: nat, title: string, host: string, publicDescription: string, vaultDetails: string,
                     isPublished: bool)

  /** An item of the listing: `id`, `title`, `host` and `desc` only. */
  datatype PublicEvent = PublicEvent(id: nat, title: string, host: string, desc: string)

  /** `{"status": "Success", "event_id": ..., "title": ...}`. */
  datatype Reply = Reply(status: string, eventId: nat, title: string)

  /** The projection the listing applies to one row. */
  function Public(e: Row): (r: PublicEvent)
    ensures r.id == e.id && r.title == e.title && r.host == e.host && r.desc == e.publicDescription
  {
    PublicEvent(e.id, e.title, e.host, e.publicDescription)
  }

  /** `[{"id": e.id, "title": e.title, "host": e.host, "desc": e.public_description} for e in events]`. */
  function Listing(rows: seq<Row>): (r: seq<PublicEvent>)
    ensures |r| == |rows|
    ensures forall i :: 0 <= i < |rows| ==> r[i] == Public(rows[i])
  {
    if rows == [] then [] else [Public(rows[0])] + Listing(rows[1..])
  }

  /** Two tables that differ only in vault details and publication list the same. */
  lemma {:induction false} ListingHidesPrivateColumns(a: seq<Row>, b: seq<Row>)
    requires |a| == |b|
    requires forall i :: 0 <= i < |a| ==> a[i].(vaultDetails := b[i].vaultDetails, isPublished := b[i].isPublished) == b[i]
    ensures Listing(a) == Listing(b)
  {
    forall i | 0 <= i < |a|
      ensures Listing(a)[i] == Listing(b)[i]
    {
      assert a[i].(vaultDetails := b[i].vaultDetails, isPublished := b[i].isPublished) == b[i];
    }
  }

  /** The first line of every invitation. */
  const Banner := "\U{1F389} **New Event Alert!** \U{1F389}\n"

  /** The last line of every invitation. */
  const Footer := "*Head to the Event Board to request Vault access.*"

  /** The invitation text for a row: title, host and public description. */
  function InviteMessage(e: Row): (r: string)
    ensures Contains(r, e.title) && Contains(r, e.host) && Contains(r, e.publicDescription)
  {
    var afterDesc := "\n" + Footer;
    var afterHost := "**!\n\n**Details:** " + (e.publicDescription + afterDesc);
    var afterTitle := "** is being hosted by **" + (e.host + afterHost);
    var front := Banner + "**";
    ContainsStart(e.publicDescription, afterDesc);
    ContainsAfter("**!\n\n**Details:** ", e.publicDescription + afterDesc, e.publicDescription);
    ContainsStart(e.host, afterHost);
    ContainsAfter(e.host, afterHost, e.publicDescription);
    ContainsAfter("** is being hosted by **", e.host + afterHost, e.host);
    ContainsAfter("** is being hosted by **", e.host + afterHost, e.publicDescription);
    ContainsStart(e.title, afterTitle);
    ContainsAfter(e.title, afterTitle, e.host);
    ContainsAfter(e.title, afterTitle, e.publicDescription);
    ContainsAfter(front, e.title + afterTitle, e.title);
    ContainsAfter(front, e.title + afterTitle, e.host);
    ContainsAfter(front, e.title + afterTitle, e.publicDescription);
    front + (e.title + afterTitle)
  }

  /** The vault details and the flag never reach the invitation. */
  lemma InviteHidesVault(e: Row, vault: string, published: bool)
    ensures InviteMessage(e.(vaultDetails := vault, isPublished := published)) == InviteMessage(e)
  {
  }

  /** `db.query(DBEvent).filter(DBEvent.id == event_id).first()`. */
  function FindRow(rows: seq<Row>, id: nat): (r: Option<Row>)
    ensures r.Some? ==> r.value in rows && r.value.id == id
    ensures r.None? <==> forall i :: 0 <= i < |rows| ==> rows[i].id != id
  {
    if rows == [] then None else if rows[0].id == id then Some(rows[0]) else FindRow(rows[1..], id)
  }

  /** `send_discord_invite(event_id)`: the message it posts, or nothing when the id is not found. */
  function SendInvite(rows: seq<Row>, id: nat): (r: Option<string>)
    ensures r.None? <==> FindRow(rows, id).None?
    ensures r.Some? ==> r.value == InviteMessage(FindRow(rows, id).value)
  {
    match FindRow(rows, id)
    case None => None
    case Some(e) => Some(InviteMessage(e))
  }

  /** The database file and the background tasks not yet run. */
  class Store {
    var rows: seq<Row>
    var scheduled: seq<nat>

    /** Without deletions, the integer key SQLite assigns is one past the last; a row's key is its position plus one. */
    ghost predicate Valid()
      reads this
    {
      forall i :: 0 <= i < |rows| ==> rows[i].id == i + 1
    }

    constructor ()
      ensures rows == [] && scheduled == [] && Valid()
    {
      rows := [];
      scheduled := [];
    }

    /**
     * `POST /events/create/`: insert a row holding exactly the submitted
     * fields, then schedule its invitation by id when it is published.
     */
    method CreateEvent(e: EventIn) returns (r: Reply)
      requires Valid()
      modifies this
      ensures Valid()
      ensures rows == old(rows) + [Row(|old(rows)| + 1, e.title, e.host, e.publicDescription, e.vaultDetails, e.isPublished)]
      ensures scheduled == old(scheduled) + (if e.isPublished then [|old(rows)| + 1] else [])
      ensures r == Reply("Success", |old(rows)| + 1, e.title)
      ensures FindRow(rows, r.eventId) == Some(rows[|rows| - 1])
    {
      var row := Row(|rows| + 1, e.title, e.host, e.publicDescription, e.vaultDetails, e.isPublished);
      rows := rows + [row];
      if row.isPublished {
        scheduled := scheduled + [row.id];
      }
      r := Reply("Success", row.id, row.title);
      FindLast(rows);
    }

    /** `GET /events/`: the public projection of every row, in table order. */
    function GetAllEvents(): (r: seq<PublicEvent>)
      reads this
      ensures |r| == |rows|
      ensures forall i :: 0 <= i < |rows| ==> r[i] == Public(rows[i])
    {
      Listing(rows)
    }
  }

  /** In a table keyed by position, the last row is found by its own key. */
  lemma FindLast(rows: seq<Row>)
    requires rows != [] && forall i :: 0 <= i < |rows| ==> rows[i].id == i + 1
    ensures FindRow(rows, |rows|) == Some(rows[|rows| - 1])
  {
    FindKeyed(rows, |rows| - 1);
  }

  /** In a table keyed by position, every row is found by its key. */
  lemma {:induction false} FindKeyed(rows: seq<Row>, k: nat)
    requires k < |rows|
    requires forall i :: 0 <= i < |rows| ==> rows[i].id == i + 1 + rows[0].id - 1
    ensures FindRow(rows, rows[k].id) == Some(rows[k])
    decreases k
  {
    if k > 0 {
      FindKeyed(rows[1..], k - 1);
    }
  }

  /** Every scheduled id names a published row, so its invitation is posted when it runs. */
  lemma {:induction false} ScheduledInvitesPost(rows: seq<Row>, id: nat)
    requires forall i :: 0 <= i < |rows| ==> rows[i].id == i + 1
    requires 1 <= id <= |rows|
    ensures SendInvite(rows, id) == Some(InviteMessage(rows[id - 1]))
  {
    FindKeyed(rows, id - 1);
  }
}
