/** The service layer the handlers call. Each service method hands its
    argument to one data-access call and returns that call's answer; the SQL
    behind it is not modelled: a `Store` gives, for every argument, what the
    data-access object returns or that it throws. `Backend.calls` records the
    data-access calls in order, so that a handler's contract can say which
    calls it made and with which arguments. The user service (password
    hashing and checking) is recorded as a whole. */
module Services {
  import opened JavaText
  import opened Entities

  /** A value returned, or a RuntimeException thrown. */
  datatype DaoResult<+T> = Done(value: T) | Threw

  datatype Store = Store(
    allEvents: DaoResult<seq<Event>>,
    eventById: int -> DaoResult<Option<Event>>,
    createEvent: Event -> DaoResult<Event>,
    updateEvent: Event -> DaoResult<Event>,
    deleteEvent: int -> DaoResult<()>,
    eventsByOrganizer: int -> DaoResult<seq<Event>>,
    createRegistration: Registration -> DaoResult<Registration>,
    registrationDetailsByUser: int -> DaoResult<seq<RegistrationDetails>>,
    registrationsByEvent: int -> DaoResult<seq<Registration>>,
    registrationDetailsByEvent: int -> DaoResult<seq<RegistrationDetails>>,
    createVenue: Venue -> DaoResult<Venue>,
    venuesByOrganizer: int -> DaoResult<seq<Venue>>,
    registerUser: User -> DaoResult<User>,
    loginUser: (string, string) -> DaoResult<Option<string>>,
    userById: int -> DaoResult<Option<User>>)

  /** One call into the data-access layer (or into the user service), with
      the argument it received. */
  datatype Call =
    | QueryAllEvents
    | QueryEventById(eventId: int)
    | InsertEvent(event: Event)
    | UpdateEventRow(event: Event)
    | DeleteEventRow(eventId: int)
    | QueryEventsByOrganizer(organizerId: int)
    | InsertRegistration(registration: Registration)
    | QueryRegistrationDetailsByUser(userId: int)
    | QueryRegistrationsByEvent(eventId: int)
    | QueryRegistrationDetailsByEvent(eventId: int)
    | InsertVenue(venue: Venue)
    | QueryVenuesByOrganizer(organizerId: int)
    | RegisterUser(user: User)
    | LoginUser(email: string, password: string)
    | FindUserById(userId: int)

  /** EventService.isEventOwner: the event is looked up by id, and the user
      owns it when it exists and was created by that user. */
  function Owns(store: Store, userId: int, eventId: int): DaoResult<bool> {
    match store.eventById(eventId)
    case Threw => Threw
    case Done(found) => Done(found.Some? && found.value.createdBy == userId)
  }

  /** No event with that id: nobody owns it. */
  lemma NobodyOwnsAMissingEvent(store: Store, userId: int, eventId: int)
    requires store.eventById(eventId) == Done(None)
    ensures Owns(store, userId, eventId) == Done(false)
  {
  }

  /** For an existing event, ownership holds of its creator and of nobody
      else. */
  lemma CreatorIsTheOnlyOwner(store: Store, event: Event, eventId: int, userId: int)
    requires store.eventById(eventId) == Done(Some(event))
    ensures Owns(store, userId, eventId) == Done(userId == event.createdBy)
  {
  }

  /** Two users who both own an event are the same user. */
  lemma OwnerIsUnique(store: Store, eventId: int, u1: int, u2: int)
    requires Owns(store, u1, eventId) == Done(true) && Owns(store, u2, eventId) == Done(true)
    ensures u1 == u2
    ensures exists e: Event :: store.eventById(eventId) == Done(Some(e)) && e.createdBy == u1
  {
    var e := store.eventById(eventId).value.value;
    assert store.eventById(eventId) == Done(Some(e));
  }

  /** The services and their data-access objects, as the controllers hold
      them. */
  class Backend {
    const store: Store
    ghost var calls: seq<Call>

    constructor (store: Store)
      ensures this.store == store && calls == []
    {
      this.store := store;
      calls := [];
    }

    method GetAllEvents() returns (r: DaoResult<seq<Event>>)
      modifies this`calls
      ensures r == store.allEvents && calls == old(calls) + [QueryAllEvents]
    {
      calls := calls + [QueryAllEvents];
      r := store.allEvents;
    }

    method GetEventById(eventId: int) returns (r: DaoResult<Option<Event>>)
      modifies this`calls
      ensures r == store.eventById(eventId) && calls == old(calls) + [QueryEventById(eventId)]
    {
      calls := calls + [QueryEventById(eventId)];
      r := store.eventById(eventId);
    }

    method CreateEvent(event: Event) returns (r: DaoResult<Event>)
      modifies this`calls
      ensures r == store.createEvent(event) && calls == old(calls) + [InsertEvent(event)]
    {
      calls := calls + [InsertEvent(event)];
      r := store.createEvent(event);
    }

    method UpdateEvent(event: Event) returns (r: DaoResult<Event>)
      modifies this`calls
      ensures r == store.updateEvent(event) && calls == old(calls) + [UpdateEventRow(event)]
    {
      calls := calls + [UpdateEventRow(event)];
      r := store.updateEvent(event);
    }

    method DeleteEvent(eventId: int) returns (r: DaoResult<()>)
      modifies this`calls
      ensures r == store.deleteEvent(eventId) && calls == old(calls) + [DeleteEventRow(eventId)]
    {
      calls := calls + [DeleteEventRow(eventId)];
      r := store.deleteEvent(eventId);
    }

    method GetEventsByOrganizerId(organizerId: int) returns (r: DaoResult<seq<Event>>)
      modifies this`calls
      ensures r == store.eventsByOrganizer(organizerId)
      ensures calls == old(calls) + [QueryEventsByOrganizer(organizerId)]
    {
      calls := calls + [QueryEventsByOrganizer(organizerId)];
      r := store.eventsByOrganizer(organizerId);
    }

    /** Reads the event through the one lookup and changes nothing else. */
    method IsEventOwner(userId: int, eventId: int) returns (r: DaoResult<bool>)
      modifies this`calls
      ensures r == Owns(store, userId, eventId) && calls == old(calls) + [QueryEventById(eventId)]
    {
      var event := GetEventById(eventId);
      match event
      case Threw => r := Threw;
      case Done(found) => r := Done(found.Some? && found.value.createdBy == userId);
    }

    method CreateRegistration(registration: Registration) returns (r: DaoResult<Registration>)
      modifies this`calls
      ensures r == store.createRegistration(registration)
      ensures calls == old(calls) + [InsertRegistration(registration)]
    {
      calls := calls + [InsertRegistration(registration)];
      r := store.createRegistration(registration);
    }

    method GetRegistrationDetailsByUserId(userId: int) returns (r: DaoResult<seq<RegistrationDetails>>)
      modifies this`calls
      ensures r == store.registrationDetailsByUser(userId)
      ensures calls == old(calls) + [QueryRegistrationDetailsByUser(userId)]
    {
      calls := calls + [QueryRegistrationDetailsByUser(userId)];
      r := store.registrationDetailsByUser(userId);
    }

    method GetRegistrationsByEventId(eventId: int) returns (r: DaoResult<seq<Registration>>)
      modifies this`calls
      ensures r == store.registrationsByEvent(eventId)
      ensures calls == old(calls) + [QueryRegistrationsByEvent(eventId)]
    {
      calls := calls + [QueryRegistrationsByEvent(eventId)];
      r := store.registrationsByEvent(eventId);
    }

    method GetRegistrationDetailsByEventId(eventId: int) returns (r: DaoResult<seq<RegistrationDetails>>)
      modifies this`calls
      ensures r == store.registrationDetailsByEvent(eventId)
      ensures calls == old(calls) + [QueryRegistrationDetailsByEvent(eventId)]
    {
      calls := calls + [QueryRegistrationDetailsByEvent(eventId)];
      r := store.registrationDetailsByEvent(eventId);
    }

    /** VenueService.createVenue: the venue is attributed to the organizer
        before it is stored. */
    method CreateVenue(venue: Venue, organizerId: int) returns (r: DaoResult<Venue>)
      modifies this`calls
      ensures r == store.createVenue(venue.(createdBy := organizerId))
      ensures calls == old(calls) + [InsertVenue(venue.(createdBy := organizerId))]
    {
      var attributed := venue.(createdBy := organizerId);
      calls := calls + [InsertVenue(attributed)];
      r := store.createVenue(attributed);
    }

    method GetVenuesByOrganizerId(organizerId: int) returns (r: DaoResult<seq<Venue>>)
      modifies this`calls
      ensures r == store.venuesByOrganizer(organizerId)
      ensures calls == old(calls) + [QueryVenuesByOrganizer(organizerId)]
    {
      calls := calls + [QueryVenuesByOrganizer(organizerId)];
      r := store.venuesByOrganizer(organizerId);
    }

    method RegisterUser(user: User) returns (r: DaoResult<User>)
      modifies this`calls
      ensures r == store.registerUser(user) && calls == old(calls) + [Call.RegisterUser(user)]
    {
      calls := calls + [Call.RegisterUser(user)];
      r := store.registerUser(user);
    }

    method LoginUser(email: string, password: string) returns (r: DaoResult<Option<string>>)
      modifies this`calls
      ensures r == store.loginUser(email, password)
      ensures calls == old(calls) + [Call.LoginUser(email, password)]
    {
      calls := calls + [Call.LoginUser(email, password)];
      r := store.loginUser(email, password);
    }

    method GetUserById(userId: int) returns (r: DaoResult<Option<User>>)
      modifies this`calls
      ensures r == store.userById(userId) && calls == old(calls) + [FindUserById(userId)]
    {
      calls := calls + [FindUserById(userId)];
      r := store.userById(userId);
    }
  }
}
