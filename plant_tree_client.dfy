/**
 * The planting sheet of the client app (client/src/components/Map/PlantTree.jsx):
 * the `events.create` request it builds from the form, and what a success,
 * a failure and a cancel leave in the form.
 */
module PlantTreeClient {
  import opened Wrappers
  import opened Text

  /**
   * `coords`, as the text `${coords.lat}` and `${coords.lng}` render to. A
   * JavaScript number's text never holds a comma.
   */
  datatype Coords = Coords(lat: string, lng: string)

  /** The body of `eventsApi.create`; `None` is a property left `undefined`. */
  datatype CreateEvent = CreateEvent(title: string, description: Option<string>, link: Option<string>,
                                     broadLocation: Option<string>, specificLocation: Option<string>,
                                     eventDate: Option<string>, eventTime: Option<string>)

  /** `s.trim() || undefined`. */
  function TrimmedOrUndefined(s: string): (r: Option<string>)
    ensures r.Some? <==> Trim(s) != ""
    ensures r.Some? ==> r.value == Trim(s)
  {
    if Trim(s) != "" then Some(Trim(s)) else None
  }

  /** `datetime.split('T')[0]` and `[1]`: the date, and the time when there is a 'T'. */
  function DateTimeParts(datetime: string): (r: (string, Option<string>))
  {
    var parts := Split(datetime, 'T');
    (parts[0], if |parts| > 1 then Some(parts[1]) else None)
  }

  /** A 'date T time' value splits into its date and its time; a value without 'T' is all date. */
  lemma DateTimePartsOfJoined(date: string, time: string)
    requires 'T' !in date && 'T' !in time
    ensures DateTimeParts(date + "T" + time) == (date, Some(time))
    ensures DateTimeParts(date) == (date, None)
  {
    SplitPair(date, time, 'T');
    SplitAbsent(date, 'T');
  }

  /** `${coords.lat},${coords.lng}`. */
  function SpecificLocation(c: Coords): (r: string)
  {
    c.lat + "," + c.lng
  }

  /** The location text splits back on its comma into the two coordinates. */
  lemma SpecificLocationRoundTrip(c: Coords)
    requires ',' !in c.lat && ',' !in c.lng
    ensures Split(SpecificLocation(c), ',') == [c.lat, c.lng]
  {
    SplitPair(c.lat, c.lng, ',');
  }

  /** The request `handleSubmit` sends for the form's fields. */
  function Request(name: string, description: string, link: string, useAddress: bool, address: string,
                   coords: Option<Coords>, datetime: string): CreateEvent
  {
    CreateEvent(Trim(name), TrimmedOrUndefined(description), TrimmedOrUndefined(link),
                if useAddress then TrimmedOrUndefined(address) else None,
                if coords.Some? then Some(SpecificLocation(coords.value)) else None,
                if datetime != "" then Some(DateTimeParts(datetime).0) else None,
                if datetime != "" then DateTimeParts(datetime).1 else None)
  }

  /**
   * The request's fields: the trimmed title; description, link and address
   * left out when blank, the address only in address mode; the location text
   * exactly when there are coordinates; date and time only for a set datetime.
   */
  lemma RequestFields(name: string, description: string, link: string, useAddress: bool, address: string,
                      coords: Option<Coords>, datetime: string)
    ensures var r := Request(name, description, link, useAddress, address, coords, datetime);
            && r.title == Trim(name)
            && (r.description.Some? <==> Trim(description) != "") && (r.link.Some? <==> Trim(link) != "")
            && (r.broadLocation.Some? <==> useAddress && Trim(address) != "")
            && (r.broadLocation.Some? ==> r.broadLocation.value == Trim(address))
            && (r.specificLocation.Some? <==> coords.Some?)
            && (coords.Some? ==> r.specificLocation == Some(SpecificLocation(coords.value)))
            && (datetime == "" ==> r.eventDate.None? && r.eventTime.None?)
            && (datetime != "" ==> r.eventDate == Some(DateTimeParts(datetime).0) && r.eventTime == DateTimeParts(datetime).1)
  {
  }

  /** A date and time picked together reach the request as separate date and time. */
  lemma PickedDateTimeSent(name: string, description: string, link: string, useAddress: bool, address: string,
                           coords: Option<Coords>, date: string, time: string)
    requires 'T' !in date && 'T' !in time
    ensures var r := Request(name, description, link, useAddress, address, coords, date + "T" + time);
            r.eventDate == Some(date) && r.eventTime == Some(time)
  {
    DateTimePartsOfJoined(date, time);
  }

  /**
   * The sheet's state; `closed` records that `onClose` was called and
   * `sent` the requests made to `events.create`.
   */
  class Sheet {
    var name: string
    var description: string
    var link: string
    var datetime: string
    var toast: bool
    var useAddress: bool
    var address: string
    var closed: bool
    var sent: seq<CreateEvent>

    constructor ()
      ensures name == "" && description == "" && link == "" && datetime == "" && address == ""
      ensures !toast && !useAddress && !closed && sent == []
    {
      name := "";
      description := "";
      link := "";
      datetime := "";
      toast := false;
      useAddress := false;
      address := "";
      closed := false;
      sent := [];
    }

    /**
     * `handleSubmit`, where `fails` says whether `events.create` throws. A
     * blank name sends nothing. Otherwise the request is sent; only a success
     * clears name, description, link and date (the address and its toggle
     * stay), closes the sheet and shows the toast.
     */
    method HandleSubmit(coords: Option<Coords>, fails: bool)
      modifies this`name, this`description, this`link, this`datetime, this`toast, this`closed, this`sent
      ensures Trim(old(name)) == "" ==>
                sent == old(sent) && name == old(name) && description == old(description) && link == old(link) &&
                datetime == old(datetime) && toast == old(toast) && closed == old(closed)
      ensures Trim(old(name)) != "" ==>
                sent == old(sent) + [Request(old(name), old(description), old(link), useAddress, address, coords, old(datetime))]
      ensures Trim(old(name)) != "" && !fails ==>
                name == "" && description == "" && link == "" && datetime == "" && closed && toast
      ensures Trim(old(name)) != "" && fails ==>
                name == old(name) && description == old(description) && link == old(link) &&
                datetime == old(datetime) && toast == old(toast) && closed == old(closed)
    {
      if Trim(name) != "" {
        var request := Request(name, description, link, useAddress, address, coords, datetime);
        Send(request, fails);
      }
    }

    /** The call to `events.create`, and what its outcome does to the form. */
    method Send(request: CreateEvent, fails: bool)
      modifies this`name, this`description, this`link, this`datetime, this`toast, this`closed, this`sent
      ensures sent == old(sent) + [request]
      ensures !fails ==> name == "" && description == "" && link == "" && datetime == "" && closed && toast
      ensures fails ==>
                name == old(name) && description == old(description) && link == old(link) &&
                datetime == old(datetime) && toast == old(toast) && closed == old(closed)
    {
      sent := sent + [request];
      if !fails {
        ClearAfterSuccess();
      }
    }

    /** What a successful create does: four fields cleared, the sheet closed, the toast shown. */
    method ClearAfterSuccess()
      modifies this`name, this`description, this`link, this`datetime, this`toast, this`closed
      ensures name == "" && description == "" && link == "" && datetime == "" && closed && toast
    {
      name := "";
      description := "";
      link := "";
      datetime := "";
      closed := true;
      toast := true;
    }

    /** `handleCancel`: every field cleared, the address toggle off, the sheet closed. */
    method HandleCancel()
      modifies this`name, this`description, this`link, this`datetime, this`address, this`useAddress, this`closed
      ensures name == "" && description == "" && link == "" && datetime == "" && address == ""
      ensures !useAddress && closed
    {
      name := "";
      description := "";
      link := "";
      datetime := "";
      address := "";
      useAddress := false;
      closed := true;
    }
  }
}
