/** A request passes the authentication filter and then reaches its
    handler, which reads the attributes the filter wrote on a request that
    arrived with none. These lemmas follow one request through both, from
    the Authorization header to the data-access calls the handler makes. */
module Pipeline {
  import opened JavaText
  import opened Entities
  import opened Services
  import opened Http
  import opened AuthMiddleware
  import EventController
  import OrganizerController
  import RegistrationController
  import UserController
  import VenueController

  /** The caller's id as the handler reads it: the filter's write, over a
      request that had no attribute. */
  function CallerId(run: GateRun): Option<int> {
    Apply(run.userId, None)
  }

  /** The identity the token carries. */
  function TokenOf(authorization: Option<string>): string
    requires authorization.Some? && |authorization.value| >= 7
  {
    authorization.value[7..]
  }

  lemma GetIsExactlyGet(path: string)
    ensures IsProtectedRoute("GET", path) <==> IsProtectedGetPath(path)
  {
    assert EqualsIgnoreCase("GET", "GET");
    GetProtectedIffListed("GET", path);
  }

  /** The organizer's event list is the list of the token's subject, and
      only an organizer token gets that far. */
  lemma OrganizerEventsScopedToToken(authorization: Option<string>, tokens: TokenVerifier, store: Store)
    requires Gate("GET", "/api/organizer/events", authorization, tokens).verdict == Proceed
    ensures authorization.Some? && StartsWith(authorization.value, "Bearer ")
    ensures var claims := tokens.claimsOf(TokenOf(authorization));
      var run := Gate("GET", "/api/organizer/events", authorization, tokens);
      RoleOf(claims.role) == Some("organizer")
      && SubjectId(claims.subject).Some?
      && OrganizerController.OrganizerEventsReply(CallerId(run), store).calls
         == [QueryEventsByOrganizer(SubjectId(claims.subject).value)]
  {
    GetIsExactlyGet("/api/organizer/events");
    ProtectedProceedIsAuthorised("GET", "/api/organizer/events", authorization, tokens);
    var claims := tokens.claimsOf(TokenOf(authorization));
    assert StartsWith("/api/organizer/events", "/api/organizer/");
    OrganizerNamespaceOnlyOrganizer("GET", "/api/organizer/events", RoleOf(claims.role), SubjectId(claims.subject).value);
  }

  /** A venue stored through POST /api/venues belongs to the token's subject,
      an organizer or an admin. */
  lemma VenueOwnedByTokenSubject(authorization: Option<string>, tokens: TokenVerifier, request: Parsed<Venue>,
                                 store: Store, v: Venue)
    requires Gate("POST", "/api/venues", authorization, tokens).verdict == Proceed
    requires InsertVenue(v) in
      VenueController.CreateVenueReply(CallerId(Gate("POST", "/api/venues", authorization, tokens)), request, store).calls
    ensures authorization.Some? && StartsWith(authorization.value, "Bearer ")
    ensures var claims := tokens.claimsOf(TokenOf(authorization));
      IsOrganizerOrAdmin(RoleOf(claims.role))
      && SubjectId(claims.subject).Some?
      && v.createdBy == SubjectId(claims.subject).value
  {
    VenueGateFacts(authorization, tokens);
    VenueController.StoredVenueBelongsToCaller(
      CallerId(Gate("POST", "/api/venues", authorization, tokens)), request, store, v);
  }

  lemma VenueGateFacts(authorization: Option<string>, tokens: TokenVerifier)
    requires Gate("POST", "/api/venues", authorization, tokens).verdict == Proceed
    ensures authorization.Some? && StartsWith(authorization.value, "Bearer ")
    ensures var claims := tokens.claimsOf(TokenOf(authorization));
      IsOrganizerOrAdmin(RoleOf(claims.role))
      && SubjectId(claims.subject).Some?
      && CallerId(Gate("POST", "/api/venues", authorization, tokens)) == SubjectId(claims.subject)
  {
    MutationProtectedIffNotAuth("POST", "/api/venues");
    assert !StartsWith("/api/venues", "/api/auth") by { assert "/api/venues"[6] == 'e'; }
    ProtectedProceedIsAuthorised("POST", "/api/venues", authorization, tokens);
    var claims := tokens.claimsOf(TokenOf(authorization));
    VenuesAndAdminRules(RoleOf(claims.role), SubjectId(claims.subject).value);
  }

  /** An event's registrations reach only an organizer token whose subject
      created that event. */
  lemma EventRegistrationsOnlyForOwningOrganizer(idParam: string, authorization: Option<string>,
                                                 tokens: TokenVerifier, store: Store, eventId: int)
    requires NoLineTerminator(idParam)
    requires Gate("GET", "/api/organizer/events/" + idParam + "/registrations", authorization, tokens).verdict == Proceed
    requires QueryRegistrationDetailsByEvent(eventId) in OrganizerController.EventRegistrationsReply(
      CallerId(Gate("GET", "/api/organizer/events/" + idParam + "/registrations", authorization, tokens)),
      idParam, store).calls
    ensures authorization.Some? && StartsWith(authorization.value, "Bearer ")
    ensures var claims := tokens.claimsOf(TokenOf(authorization));
      RoleOf(claims.role) == Some("organizer")
      && SubjectId(claims.subject).Some?
      && ParseInt(idParam) == Some(eventId)
      && store.eventById(eventId).Done? && store.eventById(eventId).value.Some?
      && store.eventById(eventId).value.value.createdBy == SubjectId(claims.subject).value
  {
    var path := "/api/organizer/events/" + idParam + "/registrations";
    assert path == "/api/organizer/events/" + idParam + "/registrations";
    WildcardMatchesIffDecomposes(path, "/api/organizer/events/", "/registrations");
    assert IsOrganizerEventRegistrationsPath(path);
    GetIsExactlyGet(path);
    ProtectedProceedIsAuthorised("GET", path, authorization, tokens);
    var claims := tokens.claimsOf(TokenOf(authorization));
    assert StartsWith(path, "/api/organizer/") by { assert path[..15] == "/api/organizer/"; }
    OrganizerNamespaceOnlyOrganizer("GET", path, RoleOf(claims.role), SubjectId(claims.subject).value);
    OrganizerController.RegistrationsOnlyForOwner(CallerId(Gate("GET", path, authorization, tokens)), idParam, store, eventId);
  }

  /** The self-or-admin rule, end to end: a caller who is not an admin lists
      the registrations of the user named in the path only when that is the
      token's own subject, and the handler queries exactly that user. */
  lemma OwnRegistrationsUnlessAdmin(idParam: string, authorization: Option<string>, tokens: TokenVerifier, store: Store)
    requires Lacks(idParam, '/') && NoLineTerminator(idParam)
    requires Gate("GET", "/api/users/" + idParam + "/registrations", authorization, tokens).verdict == Proceed
    ensures authorization.Some? && StartsWith(authorization.value, "Bearer ")
    ensures var claims := tokens.claimsOf(TokenOf(authorization));
      SubjectId(claims.subject).Some? && ParseInt(idParam).Some?
      && (ParseInt(idParam) == SubjectId(claims.subject) || RoleOf(claims.role) == Some("admin"))
    ensures RegistrationController.UserRegistrationsReply(idParam, store).calls
      == [QueryRegistrationDetailsByUser(ParseInt(idParam).value)]
  {
    var path := "/api/users/" + idParam + "/registrations";
    UserRegistrationsPathFacts(idParam);
    GetIsExactlyGet(path);
    ProtectedProceedIsAuthorised("GET", path, authorization, tokens);
    var claims := tokens.claimsOf(TokenOf(authorization));
    UserRegistrationsRule(path, RoleOf(claims.role), SubjectId(claims.subject).value);
  }

  lemma UserRegistrationsPathFacts(idParam: string)
    requires Lacks(idParam, '/') && NoLineTerminator(idParam)
    ensures IsUserRegistrationsPath("/api/users/" + idParam + "/registrations")
    ensures FirstField(("/api/users/" + idParam + "/registrations")[11..], '/') == idParam
  {
    var path := "/api/users/" + idParam + "/registrations";
    WildcardMatchesIffDecomposes(path, "/api/users/", "/registrations");
    assert IsUserRegistrationsPath(path);
    var rest := path[11..];
    assert rest == idParam + "/registrations";
    assert rest[..|idParam|] == idParam;
    FirstFieldAt(rest, '/', |idParam|);
  }

  lemma NoSlashAfterUsers(idParam: string)
    requires Lacks(idParam, '/')
    ensures !IsUserRegistrationsPath("/api/users/" + idParam)
  {
    var path := "/api/users/" + idParam;
    if 25 <= |path| {
      var k := |path| - 14;
      assert path[k] == idParam[k - 11] && path[k] != '/';
      assert path[k..][0] == path[k];
    }
  }

  /** A user's profile is public: GET /api/users/{id} needs no token, the
      filter writes nothing, and anyone can read any user's stored fields
      other than the password. */
  lemma UserProfileIsPublic(idParam: string, authorization: Option<string>, tokens: TokenVerifier)
    requires Lacks(idParam, '/')
    ensures Gate("GET", "/api/users/" + idParam, authorization, tokens) == GateRun(Proceed, Keep, Keep)
  {
    var path := "/api/users/" + idParam;
    GetIsExactlyGet(path);
    NoSlashAfterUsers(idParam);
    assert path[5] == 'u';
    assert !IsOrganizerEventRegistrationsPath(path) by { assert "/api/organizer/events/"[5] == 'o'; }
    assert path != "/api/admin/registrations" && path != "/api/venues" && path != "/api/organizer/events";
    PublicRequestPassesUntouched("GET", path, authorization, tokens);
  }

  // ---------------------------------------------------------------------------
  // What the server trusts from the request body
  // ---------------------------------------------------------------------------

  lemma RegisterPathParts()
    ensures IsProtectedRoute("POST", "/api/events/3/register")
    ensures IsEventRegisterPath("/api/events/3/register")
    ensures ParseInt("3") == Some(3)
  {
    var path := "/api/events/3/register";
    MutationProtectedIffNotAuth("POST", path);
    assert !StartsWith(path, "/api/auth") by { assert path[5] == 'e'; }
    assert path == "/api/events/" + "3" + "/register";
    WildcardMatchesIffDecomposes(path, "/api/events/", "/register");
    assert NoLineTerminator("3");
    assert DigitsValue("3") == 3 by { assert "3"[..0] == ""; }
  }

  /** An attendee may register someone else: a token for user 5 stores a
      registration of user 7, the user id being taken from the body. */
  lemma RegistrationTrustsBodyUserId(token: string, tokens: TokenVerifier, store: Store)
    requires tokens.isValid(token)
    requires tokens.claimsOf(token) == Claims(Some("5"), Text("attendee"))
    ensures Gate("POST", "/api/events/3/register", Some("Bearer " + token), tokens).verdict == Proceed
    ensures RegistrationController.RegisterForEventReply("3", Read(Registration(0, 7, 0, None)), store).calls
      == [InsertRegistration(Registration(0, 7, 3, None))]
  {
    RegisterPathParts();
    var h := "Bearer " + token;
    assert StartsWith(h, "Bearer ") && h[7..] == token;
    assert ParseInt("5") == Some(5) by { assert DigitsValue("5") == 5 by { assert "5"[..0] == ""; } }
    RegisterIsAttendeeOnly("/api/events/3/register", Some("attendee"), 5);
  }

  /** Event creation takes the creator from the body: an organizer or admin
      token creates an event recorded as anyone's. */
  lemma EventCreatorFromBody(authorization: Option<string>, tokens: TokenVerifier, event: Event, store: Store)
    requires Gate("POST", "/api/events", authorization, tokens).verdict == Proceed
    requires !NullOrBlank(event.title) && event.eventDate.Some?
    ensures authorization.Some? && StartsWith(authorization.value, "Bearer ")
    ensures IsOrganizerOrAdmin(RoleOf(tokens.claimsOf(TokenOf(authorization)).role))
    ensures EventController.PostEventReply(Read(event), store).calls == [InsertEvent(event)]
  {
    AuthPrefixCoversLongerWords();
    ProtectedProceedIsAuthorised("POST", "/api/events", authorization, tokens);
    var claims := tokens.claimsOf(TokenOf(authorization));
    EventWritesNeedOrganizerOrAdmin("POST", "/api/events", RoleOf(claims.role), SubjectId(claims.subject).value);
  }

  lemma EventPathFacts(idParam: string)
    requires NoLineTerminator(idParam)
    ensures IsProtectedRoute("PUT", "/api/events/" + idParam)
    ensures IsEventSubPath("/api/events/" + idParam)
  {
    var path := "/api/events/" + idParam;
    MutationProtectedIffNotAuth("PUT", path);
    assert !StartsWith(path, "/api/auth") by { assert path[5] == 'e'; }
    assert path == "/api/events/" + idParam + "";
    WildcardMatchesIffDecomposes(path, "/api/events/", "");
  }

  /** Update needs an organizer or admin token but no ownership: the event
      row is written without the event ever being read. */
  lemma EventUpdateWithoutOwnership(idParam: string, authorization: Option<string>, tokens: TokenVerifier,
                                    event: Event, store: Store)
    requires NoLineTerminator(idParam)
    requires Gate("PUT", "/api/events/" + idParam, authorization, tokens).verdict == Proceed
    ensures authorization.Some? && StartsWith(authorization.value, "Bearer ")
    ensures IsOrganizerOrAdmin(RoleOf(tokens.claimsOf(TokenOf(authorization)).role))
    ensures forall c :: c in EventController.PutEventReply(idParam, Read(event), store).calls ==> c.UpdateEventRow?
  {
    EventUpdateGateFacts(idParam, authorization, tokens);
  }

  lemma EventUpdateGateFacts(idParam: string, authorization: Option<string>, tokens: TokenVerifier)
    requires NoLineTerminator(idParam)
    requires Gate("PUT", "/api/events/" + idParam, authorization, tokens).verdict == Proceed
    ensures authorization.Some? && StartsWith(authorization.value, "Bearer ")
    ensures IsOrganizerOrAdmin(RoleOf(tokens.claimsOf(TokenOf(authorization)).role))
  {
    var path := "/api/events/" + idParam;
    EventPathFacts(idParam);
    ProtectedProceedIsAuthorised("PUT", path, authorization, tokens);
    var claims := tokens.claimsOf(TokenOf(authorization));
    EventWritesNeedOrganizerOrAdmin("PUT", path, RoleOf(claims.role), SubjectId(claims.subject).value);
  }
}
