/** The organizer routes: the caller's own events, and the registrations of
    one of them after an ownership check. The caller's id is the `userId`
    request attribute the authentication filter wrote. */
module OrganizerController {
  import opened JavaText
  import opened Entities
  import opened Services
  import opened Http
  import AuthMiddleware

  // ---------------------------------------------------------------------------
  // GET /api/organizer/events
  // ---------------------------------------------------------------------------

  function OrganizerEventsReply(userId: Option<int>, store: Store): Handled {
    match userId
    case None => Handled(500, Failure("Error fetching organizer events"), [])
    case Some(organizerId) =>
      match store.eventsByOrganizer(organizerId)
      case Threw => Handled(500, Failure("Error fetching organizer events"), [QueryEventsByOrganizer(organizerId)])
      case Done(events) => Handled(200, Json(EventList(events)), [QueryEventsByOrganizer(organizerId)])
  }

  method OrganizerEvents(backend: Backend, req: AuthMiddleware.Request, res: Response) returns (body: Body)
    modifies res, backend`calls
    ensures Answered(OrganizerEventsReply(req.userId, backend.store), res, old(res.status), body,
                     backend.calls, old(backend.calls))
  {
    res.contentType := JsonType;
    var organizerId := req.userId;
    if organizerId.None? {
      res.status := 500;
      return Failure("Error fetching organizer events");
    }
    var events := backend.GetEventsByOrganizerId(organizerId.value);
    if events.Threw? {
      res.status := 500;
      return Failure("Error fetching organizer events");
    }
    return Json(EventList(events.value));
  }

  /** The events listed are those the store holds for the caller's id, and
      no other organizer's id is ever queried. */
  lemma OrganizerEventsOwnOnly(userId: Option<int>, store: Store)
    ensures OrganizerEventsReply(userId, store).calls != [] <==> userId.Some?
    ensures userId.Some? ==> OrganizerEventsReply(userId, store).calls == [QueryEventsByOrganizer(userId.value)]
    ensures OrganizerEventsReply(userId, store).status == 200 <==>
      userId.Some? && store.eventsByOrganizer(userId.value).Done?
    ensures OrganizerEventsReply(userId, store).status == 200 ==>
      OrganizerEventsReply(userId, store).body == Json(EventList(store.eventsByOrganizer(userId.value).value))
  {
  }

  // ---------------------------------------------------------------------------
  // GET /api/organizer/events/:id/registrations
  // ---------------------------------------------------------------------------

  function EventRegistrationsReply(userId: Option<int>, idParam: string, store: Store): Handled {
    match userId
    case None => Handled(500, Failure("Error fetching event registrations"), [])
    case Some(organizerId) =>
      match ParseInt(idParam)
      case None => Handled(400, Message("Invalid event ID"), [])
      case Some(eventId) =>
        var lookup := QueryEventById(eventId);
        match Owns(store, organizerId, eventId)
        case Threw => Handled(500, Failure("Error fetching event registrations"), [lookup])
        case Done(false) => Handled(403, Message("Forbidden: You do not own this event."), [lookup])
        case Done(true) =>
          var listing := QueryRegistrationDetailsByEvent(eventId);
          match store.registrationDetailsByEvent(eventId)
          case Threw => Handled(500, Failure("Error fetching event registrations"), [lookup, listing])
          case Done(details) => Handled(200, Json(DetailsList(details)), [lookup, listing])
  }

  method EventRegistrations(backend: Backend, req: AuthMiddleware.Request, res: Response, idParam: string)
    returns (body: Body)
    modifies res, backend`calls
    ensures Answered(EventRegistrationsReply(req.userId, idParam, backend.store), res, old(res.status), body,
                     backend.calls, old(backend.calls))
  {
    res.contentType := JsonType;
    var organizerId := req.userId;
    if organizerId.None? {
      res.status := 500;
      return Failure("Error fetching event registrations");
    }
    var eventId := ParseInt(idParam);
    if eventId.None? {
      res.status := 400;
      return Message("Invalid event ID");
    }
    var isOwner := backend.IsEventOwner(organizerId.value, eventId.value);
    if isOwner.Threw? {
      res.status := 500;
      return Failure("Error fetching event registrations");
    }
    if !isOwner.value {
      res.status := 403;
      return Message("Forbidden: You do not own this event.");
    }
    var details := backend.GetRegistrationDetailsByEventId(eventId.value);
    if details.Threw? {
      res.status := 500;
      return Failure("Error fetching event registrations");
    }
    return Json(DetailsList(details.value));
  }

  /** An event's registrations are read only for the caller who created that
      event: the listing query follows a lookup of the same event that found
      it with the caller as its creator. */
  lemma RegistrationsOnlyForOwner(userId: Option<int>, idParam: string, store: Store, eventId: int)
    requires QueryRegistrationDetailsByEvent(eventId) in EventRegistrationsReply(userId, idParam, store).calls
    ensures userId.Some? && ParseInt(idParam) == Some(eventId)
    ensures store.eventById(eventId).Done? && store.eventById(eventId).value.Some?
    ensures store.eventById(eventId).value.value.createdBy == userId.value
    ensures EventRegistrationsReply(userId, idParam, store).calls
      == [QueryEventById(eventId), QueryRegistrationDetailsByEvent(eventId)]
    ensures store.registrationDetailsByEvent(eventId).Done? ==>
      EventRegistrationsReply(userId, idParam, store).status == 200
      && EventRegistrationsReply(userId, idParam, store).body
         == Json(DetailsList(store.registrationDetailsByEvent(eventId).value))
  {
  }

  /** A non-numeric event id is refused before the ownership lookup. */
  lemma InvalidEventIdBeforeOwnership(organizerId: int, idParam: string, store: Store)
    requires ParseInt(idParam).None?
    ensures EventRegistrationsReply(Some(organizerId), idParam, store) == Handled(400, Message("Invalid event ID"), [])
  {
  }

  /** 403 exactly when the event lookup succeeds and the event is missing or
      was created by someone else; the listing is then never queried. */
  lemma ForbiddenIffNotOwner(userId: Option<int>, idParam: string, store: Store)
    ensures EventRegistrationsReply(userId, idParam, store).status == 403 <==>
      userId.Some? && ParseInt(idParam).Some?
      && store.eventById(ParseInt(idParam).value).Done?
      && (store.eventById(ParseInt(idParam).value).value.None?
          || store.eventById(ParseInt(idParam).value).value.value.createdBy != userId.value)
    ensures EventRegistrationsReply(userId, idParam, store).status == 403 ==>
      EventRegistrationsReply(userId, idParam, store).calls == [QueryEventById(ParseInt(idParam).value)]
  {
  }

  /** A missing event and someone else's event get the same 403: the reply
      does not reveal whether the event exists. */
  lemma MissingAndForeignLookAlike(organizerId: int, idParam: string, store: Store, other: Store, e: Event)
    requires ParseInt(idParam).Some?
    requires store.eventById(ParseInt(idParam).value) == Done(None)
    requires other.eventById(ParseInt(idParam).value) == Done(Some(e)) && e.createdBy != organizerId
    ensures EventRegistrationsReply(Some(organizerId), idParam, store)
         == EventRegistrationsReply(Some(organizerId), idParam, other)
  {
  }
}
