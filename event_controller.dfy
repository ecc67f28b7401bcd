/** The event routes: list, get by id, create, update and delete. Each
    handler is a method over the Response it sets and the Backend it calls,
    specified by a function giving its status, body and calls. */
module EventController {
  import opened JavaText
  import opened Entities
  import opened Services
  import opened Http

  // ---------------------------------------------------------------------------
  // GET /api/events
  // ---------------------------------------------------------------------------

  function GetEventsReply(store: Store): Handled {
    match store.allEvents
    case Threw => Handled(500, Failure("Error fetching events"), [QueryAllEvents])
    case Done(events) => Handled(200, Json(EventList(events)), [QueryAllEvents])
  }

  method GetEvents(backend: Backend, res: Response) returns (body: Body)
    modifies res, backend`calls
    ensures Answered(GetEventsReply(backend.store), res, old(res.status), body, backend.calls, old(backend.calls))
  {
    res.contentType := JsonType;
    var events := backend.GetAllEvents();
    if events.Threw? {
      res.status := 500;
      return Failure("Error fetching events");
    }
    return Json(EventList(events.value));
  }

  // ---------------------------------------------------------------------------
  // GET /api/events/:id
  // ---------------------------------------------------------------------------

  function GetEventReply(idParam: string, store: Store): Handled {
    match ParseInt(idParam)
    case None => Handled(400, Message("Invalid event ID"), [])
    case Some(eventId) =>
      match store.eventById(eventId)
      case Threw => Handled(500, Failure("Error fetching event"), [QueryEventById(eventId)])
      case Done(None) => Handled(404, Message("Event not found"), [QueryEventById(eventId)])
      case Done(Some(event)) => Handled(200, Json(OneEvent(event)), [QueryEventById(eventId)])
  }

  method GetEvent(backend: Backend, res: Response, idParam: string) returns (body: Body)
    modifies res, backend`calls
    ensures Answered(GetEventReply(idParam, backend.store), res, old(res.status), body, backend.calls, old(backend.calls))
  {
    res.contentType := JsonType;
    var eventId := ParseInt(idParam);
    if eventId.None? {
      res.status := 400;
      return Message("Invalid event ID");
    }
    var event := backend.GetEventById(eventId.value);
    match event
    case Threw =>
      res.status := 500;
      body := Failure("Error fetching event");
    case Done(found) =>
      if found.Some? {
        body := Json(OneEvent(found.value));
      } else {
        res.status := 404;
        body := Message("Event not found");
      }
  }

  /** 404 exactly when the id parses and the lookup finds no event; a found
      event is returned as it was read. */
  lemma GetEventNotFoundIff(idParam: string, store: Store)
    ensures GetEventReply(idParam, store).status == 404 <==>
      ParseInt(idParam).Some? && store.eventById(ParseInt(idParam).value) == Done(None)
    ensures GetEventReply(idParam, store).status == 200 <==>
      ParseInt(idParam).Some? && store.eventById(ParseInt(idParam).value).Done?
      && store.eventById(ParseInt(idParam).value).value.Some?
    ensures GetEventReply(idParam, store).status == 200 ==>
      GetEventReply(idParam, store).body == Json(OneEvent(store.eventById(ParseInt(idParam).value).value.value))
  {
  }

  // ---------------------------------------------------------------------------
  // POST /api/events
  // ---------------------------------------------------------------------------

  function PostEventReply(request: Parsed<Event>, store: Store): Handled {
    match request
    case Unreadable => Handled(500, Failure("Error creating event"), [])
    case Read(event) =>
      if NullOrBlank(event.title) then Handled(400, Message("Event title is required"), [])
      else if event.eventDate.None? then Handled(400, Message("Event date is required"), [])
      else
        match store.createEvent(event)
        case Threw => Handled(500, Failure("Error creating event"), [InsertEvent(event)])
        case Done(created) => Handled(201, Json(OneEvent(created)), [InsertEvent(event)])
  }

  method PostEvent(backend: Backend, res: Response, request: Parsed<Event>) returns (body: Body)
    modifies res, backend`calls
    ensures Answered(PostEventReply(request, backend.store), res, old(res.status), body, backend.calls, old(backend.calls))
  {
    res.contentType := JsonType;
    if request.Unreadable? {
      res.status := 500;
      return Failure("Error creating event");
    }
    var newEvent := request.value;
    if newEvent.title.None? || Trim(newEvent.title.value) == [] {
      res.status := 400;
      return Message("Event title is required");
    }
    if newEvent.eventDate.None? {
      res.status := 400;
      return Message("Event date is required");
    }
    var created := backend.CreateEvent(newEvent);
    if created.Threw? {
      res.status := 500;
      return Failure("Error creating event");
    }
    res.status := 201;
    return Json(OneEvent(created.value));
  }

  /** The title is checked first: a null or blank title is refused with its
      own message whatever the date, and nothing is created. */
  lemma PostEventTitleFirst(event: Event, store: Store)
    requires event.title.None? || IsBlank(event.title.value)
    ensures PostEventReply(Read(event), store) == Handled(400, Message("Event title is required"), [])
  {
    if event.title.Some? {
      TrimEmptyIffBlank(event.title.value);
    }
  }

  /** With a good title, a missing date is refused with its own message and
      nothing is created. */
  lemma PostEventDateRequired(event: Event, store: Store)
    requires !NullOrBlank(event.title) && event.eventDate.None?
    ensures PostEventReply(Read(event), store) == Handled(400, Message("Event date is required"), [])
  {
  }

  /** Every 400 from creation comes before the service is called. */
  lemma PostEventRejectsBeforeService(request: Parsed<Event>, store: Store)
    requires PostEventReply(request, store).status == 400
    ensures PostEventReply(request, store).calls == []
    ensures request.Read?
    ensures NullOrBlank(request.value.title) || request.value.eventDate.None?
  {
  }

  /** 201 exactly when the title is present and not blank, the date is
      present and the insert succeeds; the body is the created event, and the
      event inserted is the request's own, creator id included. */
  lemma PostEventCreatedIff(request: Parsed<Event>, store: Store)
    ensures PostEventReply(request, store).status == 201 <==>
      request.Read? && !NullOrBlank(request.value.title) && request.value.eventDate.Some?
      && store.createEvent(request.value).Done?
    ensures PostEventReply(request, store).status == 201 ==>
      PostEventReply(request, store).body == Json(OneEvent(store.createEvent(request.value).value))
      && PostEventReply(request, store).calls == [InsertEvent(request.value)]
  {
  }

  // ---------------------------------------------------------------------------
  // PUT /api/events/:id
  // ---------------------------------------------------------------------------

  function PutEventReply(idParam: string, request: Parsed<Event>, store: Store): Handled {
    match ParseInt(idParam)
    case None => Handled(400, Message("Invalid event ID"), [])
    case Some(eventId) =>
      match request
      case Unreadable => Handled(500, Failure("Error updating event"), [])
      case Read(event) =>
        var updated := event.(eventId := eventId);
        if NullOrBlank(updated.title) then Handled(400, Message("Event title is required"), [])
        else
          match store.updateEvent(updated)
          case Threw => Handled(500, Failure("Error updating event"), [UpdateEventRow(updated)])
          case Done(saved) => Handled(200, Json(OneEvent(saved)), [UpdateEventRow(updated)])
  }

  method PutEvent(backend: Backend, res: Response, idParam: string, request: Parsed<Event>) returns (body: Body)
    modifies res, backend`calls
    ensures Answered(PutEventReply(idParam, request, backend.store), res, old(res.status), body, backend.calls, old(backend.calls))
  {
    res.contentType := JsonType;
    var eventId := ParseInt(idParam);
    if eventId.None? {
      res.status := 400;
      return Message("Invalid event ID");
    }
    if request.Unreadable? {
      res.status := 500;
      return Failure("Error updating event");
    }
    var updatedEvent := request.value;
    updatedEvent := updatedEvent.(eventId := eventId.value);
    if updatedEvent.title.None? || Trim(updatedEvent.title.value) == [] {
      res.status := 400;
      return Message("Event title is required");
    }
    var saved := backend.UpdateEvent(updatedEvent);
    if saved.Threw? {
      res.status := 500;
      return Failure("Error updating event");
    }
    return Json(OneEvent(saved.value));
  }

  /** The row updated is the request's event under the path's id, whatever
      id the body carried; every other field is the body's. */
  lemma PutEventUsesPathId(idParam: string, request: Parsed<Event>, store: Store, e: Event)
    requires UpdateEventRow(e) in PutEventReply(idParam, request, store).calls
    ensures ParseInt(idParam).Some? && request.Read?
    ensures e.eventId == ParseInt(idParam).value
    ensures e == request.value.(eventId := ParseInt(idParam).value)
  {
  }

  /** A null or blank title on update is refused before anything is
      written, whatever the body's other fields. */
  lemma PutEventTitleRequired(idParam: string, event: Event, store: Store)
    requires ParseInt(idParam).Some?
    requires event.title.None? || IsBlank(event.title.value)
    ensures PutEventReply(idParam, Read(event), store) == Handled(400, Message("Event title is required"), [])
  {
    if event.title.Some? {
      TrimEmptyIffBlank(event.title.value);
    }
  }

  /** Update checks the title only: an event without a date is still
      handed to the update. */
  lemma PutEventIgnoresDate(idParam: string, event: Event, store: Store)
    requires ParseInt(idParam).Some?
    requires !NullOrBlank(event.title) && event.eventDate.None?
    ensures PutEventReply(idParam, Read(event), store).calls
      == [UpdateEventRow(event.(eventId := ParseInt(idParam).value))]
  {
  }

  // ---------------------------------------------------------------------------
  // DELETE /api/events/:id
  // ---------------------------------------------------------------------------

  function DeleteEventReply(idParam: string, store: Store): Handled {
    match ParseInt(idParam)
    case None => Handled(400, Message("Invalid event ID"), [])
    case Some(eventId) =>
      match store.deleteEvent(eventId)
      case Threw => Handled(500, Failure("Error deleting event"), [DeleteEventRow(eventId)])
      case Done(_) => Handled(200, Message("Event deleted successfully"), [DeleteEventRow(eventId)])
  }

  method DeleteEvent(backend: Backend, res: Response, idParam: string) returns (body: Body)
    modifies res, backend`calls
    ensures Answered(DeleteEventReply(idParam, backend.store), res, old(res.status), body, backend.calls, old(backend.calls))
  {
    res.contentType := JsonType;
    var eventId := ParseInt(idParam);
    if eventId.None? {
      res.status := 400;
      return Message("Invalid event ID");
    }
    var deleted := backend.DeleteEvent(eventId.value);
    if deleted.Threw? {
      res.status := 500;
      return Failure("Error deleting event");
    }
    return Message("Event deleted successfully");
  }

  /** GET, PUT and DELETE on a non-numeric id all answer 400 "Invalid event
      ID" and touch nothing. */
  lemma InvalidEventIdRejected(idParam: string, request: Parsed<Event>, store: Store)
    requires ParseInt(idParam).None?
    ensures GetEventReply(idParam, store) == Handled(400, Message("Invalid event ID"), [])
    ensures PutEventReply(idParam, request, store) == Handled(400, Message("Invalid event ID"), [])
    ensures DeleteEventReply(idParam, store) == Handled(400, Message("Invalid event ID"), [])
  {
  }

  /** A path id that parses is the id handed to the lookup, the update and
      the delete. */
  lemma EventIdComesFromPath(idParam: string, request: Parsed<Event>, store: Store, c: Call)
    requires c in GetEventReply(idParam, store).calls + PutEventReply(idParam, request, store).calls
                  + DeleteEventReply(idParam, store).calls
    ensures ParseInt(idParam).Some?
    ensures c.QueryEventById? || c.UpdateEventRow? || c.DeleteEventRow?
    ensures (c.QueryEventById? || c.DeleteEventRow?) ==> c.eventId == ParseInt(idParam).value
    ensures c.UpdateEventRow? ==> c.event.eventId == ParseInt(idParam).value
  {
    var lookups, updates, deletes :=
      GetEventReply(idParam, store).calls, PutEventReply(idParam, request, store).calls, DeleteEventReply(idParam, store).calls;
    assert c in lookups || c in updates || c in deletes;
  }
}
