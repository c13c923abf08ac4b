/**
 * The in-memory event board (mainhost.py): created events are appended to a
 * module-level list, a published event schedules an invitation carrying its
 * title and host, and the listing returns the list as stored.
 */
module ListBoard {
  import opened Text
  import opened BoardRequest

  /** The arguments a scheduled `send_discord_invite` task receives. */
  datatype Invite = Invite(title: string, host: string)

  /** `{"status": "Success", "event_title": ...}`. */
  datatype Reply = Reply(status: string, eventTitle: string)

  /** The first line of every invitation. */
  const Banner := "\U{1F389} **New Event Alert!** \U{1F389}\n"

  /** The last line of every invitation. */
  const Footer := "*Head to the Event Board to request Vault access.*"

  /** The invitation text for an event title and host. */
  function InviteMessage(title: string, host: string): (r: string)
    ensures Contains(r, title) && Contains(r, host)
  {
    var afterHost := "!\n" + Footer;
    var afterTitle := "** is being hosted by " + (host + afterHost);
    var front := Banner + "**";
    ContainsStart(title, afterTitle);
    ContainsAfter(front, title + afterTitle, title);
    ContainsStart(host, afterHost);
    ContainsAfter("** is being hosted by ", host + afterHost, host);
    ContainsAfter(title, afterTitle, host);
    ContainsAfter(front, title + afterTitle, host);
    front + (title + afterTitle)
  }

  /** The process state: `db_events` and the background tasks not yet run. */
  class Board {
    var events: seq<EventIn>
    var scheduled: seq<Invite>

    constructor ()
      ensures events == [] && scheduled == []
    {
      events := [];
      scheduled := [];
    }

    /** The invitations the published events among `es` schedule, in order. */
    static function InvitesOf(es: seq<EventIn>): (r: seq<Invite>)
      ensures |r| <= |es|
      ensures (forall i :: 0 <= i < |es| ==> !es[i].isPublished) ==> r == []
    {
      if es == [] then []
      else InvitesOf(es[..|es| - 1]) + (if es[|es| - 1].isPublished then [Invite(es[|es| - 1].title, es[|es| - 1].host)] else [])
    }

    /** Every scheduled invitation belongs to a published event, and each published event scheduled one. */
    ghost predicate Valid()
      reads this
    {
      scheduled == InvitesOf(events)
    }

    /**
     * `POST /events/create/`: append the event, keeping the earlier ones in
     * order; schedule its invitation when it is published.
     */
    method CreateEvent(e: EventIn) returns (r: Reply)
      requires Valid()
      modifies this
      ensures Valid()
      ensures events == old(events) + [e]
      ensures scheduled == old(scheduled) + (if e.isPublished then [Invite(e.title, e.host)] else [])
      ensures r == Reply("Success", e.title)
    {
      events := events + [e];
      if e.isPublished {
        scheduled := scheduled + [Invite(e.title, e.host)];
      }
      assert events[..|events| - 1] == old(events);
      r := Reply("Success", e.title);
    }

    /** `GET /events/`: the stored list itself, vault details and all. */
    method GetAllEvents() returns (r: seq<EventIn>)
      ensures r == events
    {
      r := events;
    }
  }

  /** The invitations of a list of events are those of its prefix followed by those of the rest. */
  lemma {:induction false} InvitesOfAppend(a: seq<EventIn>, b: seq<EventIn>)
    ensures Board.InvitesOf(a + b) == Board.InvitesOf(a) + Board.InvitesOf(b)
    decreases |b|
  {
    if b == [] {
      assert a + b == a;
    } else {
      var c := b[..|b| - 1];
      assert (a + b)[..|a + b| - 1] == a + c;
      assert (a + b)[|a + b| - 1] == b[|b| - 1];
      InvitesOfAppend(a, c);
    }
  }

  /** An unpublished event schedules nothing, and exactly the published events are announced. */
  lemma {:induction false} InvitesArePublished(es: seq<EventIn>, k: Invite)
    ensures k in Board.InvitesOf(es) <==> exists i :: 0 <= i < |es| && es[i].isPublished && k == Invite(es[i].title, es[i].host)
    decreases |es|
  {
    if es != [] {
      var init := es[..|es| - 1];
      InvitesArePublished(init, k);
      if exists i :: 0 <= i < |init| && init[i].isPublished && k == Invite(init[i].title, init[i].host) {
        var i :| 0 <= i < |init| && init[i].isPublished && k == Invite(init[i].title, init[i].host);
        assert es[i] == init[i];
      }
      if exists i :: 0 <= i < |es| && es[i].isPublished && k == Invite(es[i].title, es[i].host) {
        var i :| 0 <= i < |es| && es[i].isPublished && k == Invite(es[i].title, es[i].host);
        if i < |init| {
          assert init[i] == es[i];
        }
      }
    }
  }
}
