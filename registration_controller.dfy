/** The registration routes: register for an event, list a user's
    registrations, and the admin listing of an event's registrations. */
module RegistrationController {
  import opened JavaText
  import opened Entities
  import opened Services
  import opened Http

  // ---------------------------------------------------------------------------
  // POST /api/events/:id/register
  // ---------------------------------------------------------------------------

  function RegisterForEventReply(idParam: string, request: Parsed<Registration>, store: Store): Handled {
    match ParseInt(idParam)
    case None => Handled(400, Message("Invalid event ID"), [])
    case Some(eventId) =>
      match request
      case Unreadable => Handled(500, Failure("Error creating registration"), [])
      case Read(registration) =>
        if registration.userId <= 0 then Handled(400, Message("Valid user ID is required"), [])
        else
          var stored := registration.(eventId := eventId);
          match store.createRegistration(stored)
          case Threw => Handled(500, Failure("Error creating registration"), [InsertRegistration(stored)])
          case Done(created) => Handled(201, Json(OneRegistration(created)), [InsertRegistration(stored)])
  }

  method RegisterForEvent(backend: Backend, res: Response, idParam: string, request: Parsed<Registration>)
    returns (body: Body)
    modifies res, backend`calls
    ensures Answered(RegisterForEventReply(idParam, request, backend.store), res, old(res.status), body,
                     backend.calls, old(backend.calls))
  {
    res.contentType := JsonType;
    var eventId := ParseInt(idParam);
    if eventId.None? {
      res.status := 400;
      return Message("Invalid event ID");
    }
    if request.Unreadable? {
      res.status := 500;
      return Failure("Error creating registration");
    }
    var newRegistration := request.value;
    if newRegistration.userId <= 0 {
      res.status := 400;
      return Message("Valid user ID is required");
    }
    newRegistration := newRegistration.(eventId := eventId.value);
    var created := backend.CreateRegistration(newRegistration);
    if created.Threw? {
      res.status := 500;
      return Failure("Error creating registration");
    }
    res.status := 201;
    return Json(OneRegistration(created.value));
  }

  /** What is stored is the body's registration with the path's event id:
      the user id is the body's (positive), not the caller's own. */
  lemma StoredRegistrationFromBodyAndPath(idParam: string, request: Parsed<Registration>, store: Store,
                                          r: Registration)
    requires InsertRegistration(r) in RegisterForEventReply(idParam, request, store).calls
    ensures ParseInt(idParam).Some? && request.Read?
    ensures r == request.value.(eventId := ParseInt(idParam).value)
    ensures r.userId == request.value.userId && r.userId > 0
  {
  }

  /** The event id is checked before the body: an invalid id answers 400
      even for an unreadable body, and a non-positive user id answers 400
      before anything is stored. */
  lemma RegisterForEventRejections(idParam: string, request: Parsed<Registration>, store: Store)
    ensures ParseInt(idParam).None? ==>
      RegisterForEventReply(idParam, request, store) == Handled(400, Message("Invalid event ID"), [])
    ensures RegisterForEventReply(idParam, request, store).status == 400 <==>
      ParseInt(idParam).None? || (request.Read? && request.value.userId <= 0)
    ensures RegisterForEventReply(idParam, request, store).status == 400 ==>
      RegisterForEventReply(idParam, request, store).calls == []
  {
  }

  /** 201 exactly when the path id parses, the body is readable with a
      positive user id, and the insert succeeds; the reply carries the
      created registration. */
  lemma RegisterForEventCreatedIff(idParam: string, request: Parsed<Registration>, store: Store)
    ensures RegisterForEventReply(idParam, request, store).status == 201 <==>
      ParseInt(idParam).Some? && request.Read? && request.value.userId > 0
      && store.createRegistration(request.value.(eventId := ParseInt(idParam).value)).Done?
    ensures RegisterForEventReply(idParam, request, store).status == 201 ==>
      RegisterForEventReply(idParam, request, store).body
        == Json(OneRegistration(store.createRegistration(request.value.(eventId := ParseInt(idParam).value)).value))
  {
  }

  // ---------------------------------------------------------------------------
  // GET /api/users/:id/registrations
  // ---------------------------------------------------------------------------

  function UserRegistrationsReply(idParam: string, store: Store): Handled {
    match ParseInt(idParam)
    case None => Handled(400, Message("Invalid user ID"), [])
    case Some(userId) =>
      match store.registrationDetailsByUser(userId)
      case Threw => Handled(500, Failure("Error fetching registrations"), [QueryRegistrationDetailsByUser(userId)])
      case Done(details) => Handled(200, Json(DetailsList(details)), [QueryRegistrationDetailsByUser(userId)])
  }

  method UserRegistrations(backend: Backend, res: Response, idParam: string) returns (body: Body)
    modifies res, backend`calls
    ensures Answered(UserRegistrationsReply(idParam, backend.store), res, old(res.status), body,
                     backend.calls, old(backend.calls))
  {
    res.contentType := JsonType;
    var userId := ParseInt(idParam);
    if userId.None? {
      res.status := 400;
      return Message("Invalid user ID");
    }
    var details := backend.GetRegistrationDetailsByUserId(userId.value);
    if details.Threw? {
      res.status := 500;
      return Failure("Error fetching registrations");
    }
    return Json(DetailsList(details.value));
  }

  /** The listing is queried for the path's user id and nobody else's. */
  lemma UserRegistrationsForPathUser(idParam: string, store: Store)
    ensures UserRegistrationsReply(idParam, store).calls != [] <==> ParseInt(idParam).Some?
    ensures ParseInt(idParam).Some? ==>
      UserRegistrationsReply(idParam, store).calls == [QueryRegistrationDetailsByUser(ParseInt(idParam).value)]
    ensures ParseInt(idParam).Some? && store.registrationDetailsByUser(ParseInt(idParam).value).Done? ==>
      UserRegistrationsReply(idParam, store).body
        == Json(DetailsList(store.registrationDetailsByUser(ParseInt(idParam).value).value))
  {
  }

  // ---------------------------------------------------------------------------
  // GET /api/admin/registrations?eventId=
  // ---------------------------------------------------------------------------

  function AdminRegistrationsReply(eventIdParam: Option<string>, store: Store): Handled {
    match eventIdParam
    case None => Handled(400, Message("Event ID parameter is required"), [])
    case Some(text) =>
      match ParseInt(text)
      case None => Handled(400, Message("Invalid event ID"), [])
      case Some(eventId) =>
        match store.registrationsByEvent(eventId)
        case Threw => Handled(500, Failure("Error fetching registrations"), [QueryRegistrationsByEvent(eventId)])
        case Done(registrations) =>
          Handled(200, Json(RegistrationList(registrations)), [QueryRegistrationsByEvent(eventId)])
  }

  method AdminRegistrations(backend: Backend, res: Response, eventIdParam: Option<string>) returns (body: Body)
    modifies res, backend`calls
    ensures Answered(AdminRegistrationsReply(eventIdParam, backend.store), res, old(res.status), body,
                     backend.calls, old(backend.calls))
  {
    res.contentType := JsonType;
    if eventIdParam.None? {
      res.status := 400;
      return Message("Event ID parameter is required");
    }
    var eventId := ParseInt(eventIdParam.value);
    if eventId.None? {
      res.status := 400;
      return Message("Invalid event ID");
    }
    var registrations := backend.GetRegistrationsByEventId(eventId.value);
    if registrations.Threw? {
      res.status := 500;
      return Failure("Error fetching registrations");
    }
    return Json(RegistrationList(registrations.value));
  }

  /** A missing parameter and a non-numeric one get different messages;
      an empty parameter is present but non-numeric. */
  lemma AdminRegistrationsParameter(eventIdParam: Option<string>, store: Store)
    ensures AdminRegistrationsReply(eventIdParam, store).status == 400 <==>
      eventIdParam.None? || ParseInt(eventIdParam.value).None?
    ensures AdminRegistrationsReply(Some(""), store) == Handled(400, Message("Invalid event ID"), [])
    ensures AdminRegistrationsReply(None, store) == Handled(400, Message("Event ID parameter is required"), [])
    ensures AdminRegistrationsReply(eventIdParam, store).status == 400 ==>
      AdminRegistrationsReply(eventIdParam, store).calls == []
  {
  }
}
