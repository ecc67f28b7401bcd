/** What a route handler produces: the response's status and content type,
    which the handler sets on the Response object, and the body it returns. */
module Http {
  import opened Entities
  import opened Services

  const JsonType: string := "application/json"

  /** A JSON document the handler serialises. */
  datatype Payload =
    | EventList(events: seq<Event>)
    | OneEvent(event: Event)
    | OneUser(user: User)
    | OneRegistration(registration: Registration)
    | RegistrationList(registrations: seq<Registration>)
    | DetailsList(details: seq<RegistrationDetails>)
    | VenueList(venues: seq<Venue>)
    | OneVenue(venue: Venue)

  /** `Message(m)` is `{"message":"m"}`; `Failure(context)` is the 500 body
      `{"message":"context: <exception message>"}`, the exception message
      left abstract; `TokenBody(t)` is `{"token":"t"}`. */
  datatype Body = Message(text: string) | Failure(context: string) | Json(payload: Payload) | TokenBody(token: string)

  /** Gson's reading of a request body: an object, or nothing usable (a syntax
      error, a bad date, or a null result that the next dereference turns
      into an exception). */
  datatype Parsed<+T> = Read(value: T) | Unreadable

  /** A handler's whole effect: the status it leaves (200 when it sets none,
      which is the response's default), its body, and the calls it made. */
  datatype Handled = Handled(status: int, body: Body, calls: seq<Call>)

  class Response {
    var status: int
    var contentType: string

    constructor ()
      ensures status == 200 && contentType == ""
    {
      status := 200;
      contentType := "";
    }
  }

  /** The handler answered as `h` says. No handler sets 200 explicitly, so a
      200 in `h` leaves the status as it was. */
  ghost predicate Answered(h: Handled, res: Response, statusBefore: int, body: Body,
                           calls: seq<Call>, callsBefore: seq<Call>)
    reads res
  {
    res.contentType == JsonType
    && res.status == (if h.status == 200 then statusBefore else h.status)
    && body == h.body
    && calls == callsBefore + h.calls
  }
}
