/**
 * The request body both event boards accept (the pydantic models `Event` of
 * mainhost.py and `EventCreate` of Whats--main/mainhost.py): four required
 * strings and `is_published`, which defaults to `False`.
 */
module BoardRequest {
  import opened Wrappers

  /** A JSON body as it arrives: each field may be missing. */
  datatype Body = Body(title: Option<string>, host: Option<string>, publicDescription: Option<string>,
                       vaultDetails: Option<string>, isPublished: Option<bool>)

  /** The validated model. */
  datatype EventIn = EventIn(title: string, host: string, publicDescription: string, vaultDetails: string,
                             isPublished: bool)

  /**
   * Model validation: a missing required field is refused with 422 before the
   * endpoint runs; a missing `is_published` becomes `False`.
   */
  function Validate(b: Body): (r: Result<EventIn, nat>)
    ensures r.Err? ==> r.error == 422
    ensures r.Ok? <==> b.title.Some? && b.host.Some? && b.publicDescription.Some? && b.vaultDetails.Some?
    ensures r.Ok? ==> r.value.title == b.title.value && r.value.host == b.host.value
                      && r.value.publicDescription == b.publicDescription.value
                      && r.value.vaultDetails == b.vaultDetails.value
    ensures r.Ok? ==> (r.value.isPublished <==> b.isPublished == Some(true))
  {
    if b.title.None? || b.host.None? || b.publicDescription.None? || b.vaultDetails.None? then Err(422)
    else Ok(EventIn(b.title.value, b.host.value, b.publicDescription.value, b.vaultDetails.value,
                    OrElse(b.isPublished, false)))
  }

  /** The body of a validated event, with `is_published` written out, validates back to it. */
  lemma ValidateRoundTrip(e: EventIn)
    ensures Validate(Body(Some(e.title), Some(e.host), Some(e.publicDescription), Some(e.vaultDetails),
                          Some(e.isPublished))) == Ok(e)
    ensures Validate(Body(Some(e.title), Some(e.host), Some(e.publicDescription), Some(e.vaultDetails), None))
              == Ok(e.(isPublished := false))
  {
  }
}
