/**
 * The own-trees page of the second client (client/src/pages/MyTreesPage.jsx):
 * the user's events turned into tree cards, the planted count, and the three
 * tabs.
 */
module MyTreesClient {
  import opened Wrappers
  import opened Json
  import opened Seqs
  import opened Growth
  import PostCardClient

  /** The fields of an event from `users.getEvents()` that the card uses; `None` is null or missing. */
  datatype Event = Event(id: Json, title: Json, description: Prop, watersCount: Option<nat>, rsvpCount: Option<nat>,
                         eventTime: Prop, eventDate: Prop)

  datatype TreeCard = TreeCard(id: Json, title: Json, content: Json, watersCount: nat, growthStage: string,
                               branchCount: nat, eventTime: Json, isBranch: bool)

  /**
   * `eventToTreeCard(event)`: waters from `waters_count`, else `rsvp_count`,
   * else 0; the stage those waters reach; the description or ''; the time,
   * else the date, else ''; never a branch and no branches.
   */
  function EventToTreeCard(e: Event): (r: TreeCard)
    ensures r.id == e.id && r.title == e.title
    ensures e.watersCount.Some? ==> r.watersCount == e.watersCount.value
    ensures e.watersCount.None? && e.rsvpCount.Some? ==> r.watersCount == e.rsvpCount.value
    ensures e.watersCount.None? && e.rsvpCount.None? ==> r.watersCount == 0
    ensures StageOfName(r.growthStage) == Some(PostCardClient.GetStage(r.watersCount))
    ensures r.content == Or(e.description, Str(""))
    ensures r.eventTime == Or(e.eventTime, Or(e.eventDate, Str("")))
    ensures r.branchCount == 0 && !r.isBranch
  {
    var waters := OrElse(e.watersCount, OrElse(e.rsvpCount, 0));
    var stage := PostCardClient.GetStage(waters);
    assert StageOfName(Name(stage)) == Some(stage) by { NameRoundTrip(stage, stage); }
    TreeCard(e.id, e.title, Or(e.description, Str("")), waters, Name(stage), 0,
             Or(e.eventTime, Or(e.eventDate, Str(""))), false)
  }

  /** A new event (no waters, no RSVPs) is a seed. */
  lemma NewEventIsSeed(e: Event)
    requires e.watersCount.None? && e.rsvpCount.None?
    ensures EventToTreeCard(e).growthStage == "seed" && EventToTreeCard(e).watersCount == 0
  {
  }

  /** What `getEvents` came back with: an error, or a body that may not be an array. */
  datatype EventsReply = Failed | Body(isArray: bool, events: seq<Event>)

  datatype Tab = Planted | Watered | Branches

  datatype Stats = Stats(planted: nat, watered: nat, branches: nat)

  class Page {
    var activeTab: Tab
    var myPlanted: seq<TreeCard>
    var myWatered: seq<TreeCard>
    var stats: Stats

    constructor ()
      ensures activeTab == Planted && myPlanted == [] && myWatered == [] && stats == Stats(0, 0, 0)
    {
      activeTab, myPlanted, myWatered, stats := Planted, [], [], Stats(0, 0, 0);
    }

    /**
     * The loading effect: an array body becomes the planted cards and the
     * planted count, any other body an empty list and 0; a failed request
     * changes nothing.
     */
    method LoadEvents(reply: EventsReply)
      modifies this`myPlanted, this`stats
      ensures reply.Failed? ==> myPlanted == old(myPlanted) && stats == old(stats)
      ensures reply.Body? ==>
                var list := if reply.isArray then reply.events else [];
                && myPlanted == Map(list, EventToTreeCard)
                && stats == old(stats).(planted := |list|)
      ensures reply.Body? ==> stats.planted == |myPlanted|
    {
      if reply.Failed? {
        return;
      }
      var list := if reply.isArray then reply.events else [];
      myPlanted := Map(list, EventToTreeCard);
      stats := stats.(planted := |list|);
    }

    /** `tabData[activeTab]`: the branches tab has no data. */
    function Posts(): (r: seq<TreeCard>)
      reads this
      ensures activeTab == Branches ==> r == []
      ensures activeTab == Planted ==> r == myPlanted
      ensures activeTab == Watered ==> r == myWatered
    {
      match activeTab
      case Planted => myPlanted
      case Watered => myWatered
      case Branches => []
    }
  }
}
