/** The venue routes. Both read the caller's id from the `userId` request
    attribute that the authentication filter wrote; unboxing a missing
    attribute throws, which the handlers' catch turns into a 500. */
module VenueController {
  import opened JavaText
  import opened Entities
  import opened Services
  import opened Http
  import AuthMiddleware

  // ---------------------------------------------------------------------------
  // GET /api/venues
  // ---------------------------------------------------------------------------

  function ListVenuesReply(userId: Option<int>, store: Store): Handled {
    match userId
    case None => Handled(500, Failure("Error fetching venues"), [])
    case Some(organizerId) =>
      match store.venuesByOrganizer(organizerId)
      case Threw => Handled(500, Failure("Error fetching venues"), [QueryVenuesByOrganizer(organizerId)])
      case Done(venues) => Handled(200, Json(VenueList(venues)), [QueryVenuesByOrganizer(organizerId)])
  }

  method ListVenues(backend: Backend, req: AuthMiddleware.Request, res: Response) returns (body: Body)
    modifies res, backend`calls
    ensures Answered(ListVenuesReply(req.userId, backend.store), res, old(res.status), body,
                     backend.calls, old(backend.calls))
  {
    res.contentType := JsonType;
    var organizerId := req.userId;
    if organizerId.None? {
      res.status := 500;
      return Failure("Error fetching venues");
    }
    var venues := backend.GetVenuesByOrganizerId(organizerId.value);
    if venues.Threw? {
      res.status := 500;
      return Failure("Error fetching venues");
    }
    return Json(VenueList(venues.value));
  }

  /** Only the caller's own venues are ever queried, and a successful
      listing is exactly what the store holds for the caller. */
  lemma ListVenuesOwnOnly(userId: Option<int>, store: Store)
    ensures ListVenuesReply(userId, store).calls != [] <==> userId.Some?
    ensures userId.Some? ==> ListVenuesReply(userId, store).calls == [QueryVenuesByOrganizer(userId.value)]
    ensures ListVenuesReply(userId, store).status == 200 <==>
      userId.Some? && store.venuesByOrganizer(userId.value).Done?
    ensures ListVenuesReply(userId, store).status == 200 ==>
      ListVenuesReply(userId, store).body == Json(VenueList(store.venuesByOrganizer(userId.value).value))
  {
  }

  // ---------------------------------------------------------------------------
  // POST /api/venues
  // ---------------------------------------------------------------------------

  function CreateVenueReply(userId: Option<int>, request: Parsed<Venue>, store: Store): Handled {
    match userId
    case None => Handled(500, Failure("Error creating venue"), [])
    case Some(organizerId) =>
      match request
      case Unreadable => Handled(500, Failure("Error creating venue"), [])
      case Read(venue) =>
        if NullOrBlank(venue.name) then Handled(400, Message("Venue name is required"), [])
        else
          var attributed := venue.(createdBy := organizerId);
          match store.createVenue(attributed)
          case Threw => Handled(500, Failure("Error creating venue"), [InsertVenue(attributed)])
          case Done(created) => Handled(201, Json(OneVenue(created)), [InsertVenue(attributed)])
  }

  method CreateVenue(backend: Backend, req: AuthMiddleware.Request, res: Response, request: Parsed<Venue>)
    returns (body: Body)
    modifies res, backend`calls
    ensures Answered(CreateVenueReply(req.userId, request, backend.store), res, old(res.status), body,
                     backend.calls, old(backend.calls))
  {
    res.contentType := JsonType;
    var organizerId := req.userId;
    if organizerId.None? {
      res.status := 500;
      return Failure("Error creating venue");
    }
    if request.Unreadable? {
      res.status := 500;
      return Failure("Error creating venue");
    }
    var newVenue := request.value;
    if newVenue.name.None? || Trim(newVenue.name.value) == [] {
      res.status := 400;
      return Message("Venue name is required");
    }
    var created := backend.CreateVenue(newVenue, organizerId.value);
    if created.Threw? {
      res.status := 500;
      return Failure("Error creating venue");
    }
    res.status := 201;
    return Json(OneVenue(created.value));
  }

  /** A stored venue always belongs to the caller, whatever creator the body
      named, has a non-blank name, and keeps every other field of the body. */
  lemma StoredVenueBelongsToCaller(userId: Option<int>, request: Parsed<Venue>, store: Store, v: Venue)
    requires InsertVenue(v) in CreateVenueReply(userId, request, store).calls
    ensures userId.Some? && request.Read?
    ensures v.createdBy == userId.value
    ensures v == request.value.(createdBy := userId.value)
    ensures v.name.Some? && !IsBlank(v.name.value)
  {
    TrimEmptyIffBlank(v.name.value);
  }

  /** A readable venue with a null or blank name is refused with its own
      message, and nothing is stored. */
  lemma VenueNameRequired(organizerId: int, venue: Venue, store: Store)
    requires venue.name.None? || IsBlank(venue.name.value)
    ensures CreateVenueReply(Some(organizerId), Read(venue), store)
      == Handled(400, Message("Venue name is required"), [])
  {
    if venue.name.Some? {
      TrimEmptyIffBlank(venue.name.value);
    }
  }

  /** 201 exactly when the caller is known, the body is readable with a
      non-blank name, and the insert succeeds. */
  lemma CreateVenueCreatedIff(userId: Option<int>, request: Parsed<Venue>, store: Store)
    ensures CreateVenueReply(userId, request, store).status == 201 <==>
      userId.Some? && request.Read? && !NullOrBlank(request.value.name)
      && store.createVenue(request.value.(createdBy := userId.value)).Done?
    ensures CreateVenueReply(userId, request, store).status == 400 ==>
      CreateVenueReply(userId, request, store).calls == []
  {
  }
}
