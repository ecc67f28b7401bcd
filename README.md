# EventFlow request gate and handlers, in Dafny

This project models the access-control core of the EventFlow event-management backend, a Spark/Java REST
server, together with its client-side route guard. The model has these parts:

- **The authentication filter** (`AuthMiddleware`):
  - `isProtectedRoute` classifies a request by method and path.
  - `hasPermission` is a first-match chain of role rules. It includes a self-or-admin rule that parses the user id out of the path.
  - The `Spark.before` filter checks the `Bearer` header, validates the token and copies the role and subject into the `userRole` and `userId` request attributes. It then halts with 401 or 403, or lets the request through.
  - The token check is an abstract `TokenVerifier`: a validity predicate and a claims function.
- **The ownership predicate** `EventService.isEventOwner`, and the services the handlers call (`Services`). The data-access layer is a `Store`: for every argument it gives the value returned, or that an exception was thrown. A ghost log `Backend.calls` records every data-access call with its argument.
- **The route handlers** of the event, user, registration, venue and organizer controllers:
  - Each handler is a method over a `Response` object. It sets the content type and the status, and returns a body.
  - Each handler is proved equal to a reply function. The function gives its status, body and the exact data-access calls it makes.
  - Lemmas state the validation order, which 400 each refusal returns, that no service is called before validation passes, and where ids come from.
- **The client-side guard** `ProtectedRoute` (`ProtectedRoute.Guard`).
- **Composition** (`Pipeline`): one request followed from its Authorization header through the filter into its handler.

Java behaviour the decisions depend on is written out in `JavaText`:
- `String.matches` with a `.*` wildcard. The whole path must match, and the dot refuses the five regex line terminators.
- `trim()`, which removes every character up to U+0020.
- `length()`, which counts UTF-16 code units.
- `Integer.parseInt`: an optional sign, ASCII digits and the 32-bit range.
- `split("/")`, which drops trailing empty fields.
- `equalsIgnoreCase`, which also accepts ı and İ for I, ſ for S and the Kelvin sign for K.

Conventions:
- A null reference is `None`.
- An exception caught by a handler's catch-all becomes a 500 reply whose body is `Failure(context)`. The exception's message is left abstract.
- An exception that escapes the filter is the verdict `Threw`.
- A handler never sets status 200 itself, so a reply status of 200 means the response keeps its default.

Behaviour of the code, as written, that the lemmas pin down:
- The `.*` of the route patterns may match text containing `/`. So `/api/users/4/x/registrations` is a user-registrations path, and its id segment is `4`.
- Only the exact upper-case `POST`, `PUT` and `DELETE` are protected. A lower-case `post` is public.
- A token whose subject does not parse escapes the filter after `userRole` has already been written.
- Without a role claim, only the self rule can grant access.
- Event update and delete need an organizer or admin token, but no ownership.
- Event creation stores the `createdBy` that the request body names.
- Event registration stores the `userId` that the body names, so an attendee can register another user.
- `GET /api/users/{id}` is public: anyone can read any user's stored fields except the password.

How the filter treats unusual input:
- `.*` in the route patterns matches any text, `/` included, so a pattern wildcard can span several path components.
- A token that passes validation but whose subject claim does not parse as an int, or whose role claim is not a string, throws out of the filter (`Threw`); it is not answered with 401. A missing role claim leaves the role null.
- A non-numeric user id in a user-registrations path is denied before the admin role is looked at, so every caller, an admin included, gets 403.

## Model

| member | source | states |
|---|---|---|
| JavaText.WildcardMatchesIffDecomposes | backend/src/main/java/com/eventflow/util/AuthMiddleware.java:57-63 | the hand-written `prefix.*suffix` matcher holds exactly when the path is prefix, then dot-matchable text (possibly empty, possibly with `/`), then suffix |
| JavaText.TrimStart | backend/src/main/java/com/eventflow/controller/EventController.java:67 | the result is a suffix of the input and the removed prefix consists of characters at most U+0020; it is empty exactly for blank input; otherwise it starts with a character above U+0020 |
| JavaText.TrimEnd | backend/src/main/java/com/eventflow/controller/EventController.java:67 | the result is a prefix of the input and the removed suffix consists of characters at most U+0020; it is empty exactly for blank input; otherwise it ends with a character above U+0020 |
| JavaText.TrimEmptyIffBlank | backend/src/main/java/com/eventflow/controller/UserController.java:31 | `s.trim().isEmpty()` holds exactly when every character of `s` is at most U+0020 |
| JavaText.Utf16Length | backend/src/main/java/com/eventflow/controller/UserController.java:26 | `length()` is the number of characters plus the number of supplementary characters (two code units each); so it lies between the character count and twice that, and equals it exactly when no character is supplementary |
| JavaText.ParseInt | backend/src/main/java/com/eventflow/util/AuthMiddleware.java:32 | a parsed value lies in the 32-bit range, and the text starts with a digit or a sign |
| JavaText.NatToString | backend/src/main/java/com/eventflow/service/AuthService.java:25 | the decimal rendering is non-empty and all digits |
| JavaText.NatToStringValue | backend/src/main/java/com/eventflow/service/AuthService.java:25 | the digits of the rendering of n denote n |
| JavaText.ParseIntOfIntToString | backend/src/main/java/com/eventflow/util/AuthMiddleware.java:32 | `Integer.parseInt(Integer.toString(n)) == n` for every 32-bit n, so the subject the issuer writes parses back to the same id |
| JavaText.IndexOf | backend/src/main/java/com/eventflow/util/AuthMiddleware.java:86 | the first occurrence of the character, or the length when it does not occur |
| JavaText.Fields | backend/src/main/java/com/eventflow/util/AuthMiddleware.java:86 | at least one field; no field contains the separator; joining the fields with the separator gives back the input |
| JavaText.FieldsOfJoin | backend/src/main/java/com/eventflow/util/AuthMiddleware.java:86 | the fields of the join of separator-free fields are those fields, the other half of the round trip |
| JavaText.DropTrailingEmpty | backend/src/main/java/com/eventflow/util/AuthMiddleware.java:86 | the result is a prefix of the fields that is empty or ends in a non-empty field, and every field removed is empty |
| JavaText.FieldsLast | backend/src/main/java/com/eventflow/util/AuthMiddleware.java:86 | the last field of `a/t` is `t` when `t` has no separator |
| JavaText.FieldsAfterPrefix | backend/src/main/java/com/eventflow/util/AuthMiddleware.java:86 | the fields of `a/rest` are `a` followed by the fields of `rest` when `a` has no separator |
| JavaText.FirstFieldAt | backend/src/main/java/com/eventflow/util/AuthMiddleware.java:86 | the first field ends at the first separator |
| AuthMiddleware.OptionsNeverProtected | backend/src/main/java/com/eventflow/util/AuthMiddleware.java:45-48 | a method equal to OPTIONS ignoring case (`options` and `OPTİONS` included) is never protected, whatever the path |
| AuthMiddleware.MutationProtectedIffNotAuth | backend/src/main/java/com/eventflow/util/AuthMiddleware.java:50-53 | exact POST, PUT or DELETE is protected if and only if the path does not start with `/api/auth` |
| AuthMiddleware.AuthPrefixCoversLongerWords | backend/src/main/java/com/eventflow/util/AuthMiddleware.java:51 | the prefix has no trailing slash: POST `/api/authority` is public, POST `/api/events` is protected |
| AuthMiddleware.GetProtectedIffListed | backend/src/main/java/com/eventflow/util/AuthMiddleware.java:55-64 | a GET in any letter case is protected if and only if the whole path matches one of the five patterns |
| AuthMiddleware.OtherMethodsPublic | backend/src/main/java/com/eventflow/util/AuthMiddleware.java:66 | any other method (HEAD, PATCH, ...) is never protected |
| AuthMiddleware.LowerCaseMutationIsPublic | backend/src/main/java/com/eventflow/util/AuthMiddleware.java:51 | the mutation check is case-sensitive: `post` and `delete` are public |
| AuthMiddleware.MutationIsNeitherGetNorOptions | backend/src/main/java/com/eventflow/util/AuthMiddleware.java:45-56 | POST, PUT and DELETE equal neither GET nor OPTIONS ignoring case |
| AuthMiddleware.UserSegmentOfPath | backend/src/main/java/com/eventflow/util/AuthMiddleware.java:86-87 | on a user-registrations path, `split("/")[3]` exists and is the text between `/api/users/` and the next `/` |
| AuthMiddleware.UserRegistrationsRule | backend/src/main/java/com/eventflow/util/AuthMiddleware.java:82-91 | GET on a user-registrations path is permitted if and only if the path id parses and equals the token's user id, or the role is admin; a parse failure denies even an admin |
| AuthMiddleware.UserRegistrationsExamples | backend/src/main/java/com/eventflow/util/AuthMiddleware.java:82-91 | user 42 may read `/api/users/42/registrations`, user 7 may not unless admin, and `/api/users/x/registrations` is denied to an admin |
| AuthMiddleware.RegisterIsAttendeeOnly | backend/src/main/java/com/eventflow/util/AuthMiddleware.java:76-81 | POST on `/api/events/{x}/register` skips the update/delete rule and is permitted exactly for the attendee role |
| AuthMiddleware.EventWritesNeedOrganizerOrAdmin | backend/src/main/java/com/eventflow/util/AuthMiddleware.java:73-78 | POST `/api/events` and PUT/DELETE `/api/events/{x}` are permitted exactly for organizer or admin |
| AuthMiddleware.OrganizerNamespaceOnlyOrganizer | backend/src/main/java/com/eventflow/util/AuthMiddleware.java:96-98 | anything under `/api/organizer/`, any method, is permitted exactly for the organizer role |
| AuthMiddleware.VenuesAndAdminRules | backend/src/main/java/com/eventflow/util/AuthMiddleware.java:93-101 | GET/POST `/api/venues` are for organizer or admin; GET `/api/admin/registrations` is for admin only |
| AuthMiddleware.PermitComesFromARule | backend/src/main/java/com/eventflow/util/AuthMiddleware.java:73-103 | fail-closed: every permit comes from one of the seven rules |
| AuthMiddleware.NoRoleOnlySelf | backend/src/main/java/com/eventflow/util/AuthMiddleware.java:73-103 | without a role claim, only the self rule on user registrations can permit |
| AuthMiddleware.BeforeFilter | backend/src/main/java/com/eventflow/util/AuthMiddleware.java:17-38 | the filter's verdict and its writes of `userRole` and `userId` are exactly those of the gate specification; nothing else changes |
| AuthMiddleware.Request.constructor | backend/src/main/java/com/eventflow/util/AuthMiddleware.java:41-43 | a request arrives with its method, path and header and without either attribute |
| AuthMiddleware.PublicRequestPassesUntouched | backend/src/main/java/com/eventflow/util/AuthMiddleware.java:18 | an unprotected request proceeds and gets no attributes |
| AuthMiddleware.UnauthorizedIff | backend/src/main/java/com/eventflow/util/AuthMiddleware.java:19-27 | on a protected route, 401 exactly when the header is missing, lacks `Bearer `, or its token fails validation; nothing is written then |
| AuthMiddleware.ForbiddenOnlyAfterAuthentication | backend/src/main/java/com/eventflow/util/AuthMiddleware.java:29-36 | 403 only after a valid Bearer token, with both attributes already set from its claims and the permission check refusing them |
| AuthMiddleware.ProtectedProceedIsAuthorised | backend/src/main/java/com/eventflow/util/AuthMiddleware.java:18-36 | a protected request proceeds only with a valid token, both attributes set from its claims, and the permission granted for them |
| AuthMiddleware.IssuedSubjectRoundTrips | backend/src/main/java/com/eventflow/util/AuthMiddleware.java:32 | a token whose subject the issuer wrote as `Integer.toString(u)` yields `userId == u`, and the request either proceeds or gets 403 |
| AuthMiddleware.VenueGateExamples | backend/src/main/java/com/eventflow/util/AuthMiddleware.java:17-38 | on GET `/api/venues`: no header is 401, `Bearer garbage` is 401, an attendee token is 403, an organizer token proceeds |
| Services.NobodyOwnsAMissingEvent | backend/src/main/java/com/eventflow/service/EventService.java:34-37 | nobody owns an event that does not exist |
| Services.CreatorIsTheOnlyOwner | backend/src/main/java/com/eventflow/service/EventService.java:36 | for an existing event, ownership holds exactly of its `createdBy` |
| Services.OwnerIsUnique | backend/src/main/java/com/eventflow/service/EventService.java:36 | two owners of one event are the same user, and that user created the event |
| Services.Backend.IsEventOwner | backend/src/main/java/com/eventflow/service/EventService.java:34-37 | answers ownership through the one event lookup and makes no other call |
| Services.Backend.GetAllEvents | backend/src/main/java/com/eventflow/service/EventService.java:10-12 | passes through to the data-access call and returns its answer |
| Services.Backend.GetEventById | backend/src/main/java/com/eventflow/service/EventService.java:14-16 | passes the id unchanged to the lookup and returns its answer |
| Services.Backend.CreateEvent | backend/src/main/java/com/eventflow/service/EventService.java:18-20 | passes the event unchanged to the insert and returns its answer |
| Services.Backend.UpdateEvent | backend/src/main/java/com/eventflow/service/EventService.java:22-24 | passes the event unchanged to the update and returns its answer |
| Services.Backend.DeleteEvent | backend/src/main/java/com/eventflow/service/EventService.java:26-28 | passes the id unchanged to the delete |
| Services.Backend.GetEventsByOrganizerId | backend/src/main/java/com/eventflow/service/EventService.java:30-32 | passes the organizer id unchanged to the query and returns its answer |
| Services.Backend.CreateRegistration | backend/src/main/java/com/eventflow/service/RegistrationService.java:12-14 | passes the registration unchanged to the insert |
| Services.Backend.GetRegistrationDetailsByUserId | backend/src/main/java/com/eventflow/service/RegistrationService.java:20-22 | passes the user id unchanged to the query |
| Services.Backend.GetRegistrationsByEventId | backend/src/main/java/com/eventflow/service/RegistrationService.java:24-26 | passes the event id unchanged to the query |
| Services.Backend.GetRegistrationDetailsByEventId | backend/src/main/java/com/eventflow/service/RegistrationService.java:28-30 | passes the event id unchanged to the query |
| Services.Backend.CreateVenue | backend/src/main/java/com/eventflow/service/VenueService.java:11-14 | sets the venue's creator to the organizer id, then inserts it |
| Services.Backend.GetVenuesByOrganizerId | backend/src/main/java/com/eventflow/service/VenueService.java:16-18 | passes the organizer id unchanged to the query |
| Services.Backend.RegisterUser | backend/src/main/java/com/eventflow/service/UserService.java:12-16 | hands the user to the user service once and returns its answer |
| Services.Backend.LoginUser | backend/src/main/java/com/eventflow/service/UserService.java:18-24 | hands the credentials to the user service once and returns the token or null |
| Services.Backend.GetUserById | backend/src/main/java/com/eventflow/service/UserService.java:26-28 | passes the id unchanged to the lookup |
| Services.Backend.constructor | backend/src/main/java/com/eventflow/service/EventService.java:8 | a backend starts with no calls made |
| Http.Response.constructor | backend/src/main/java/com/eventflow/controller/EventController.java:28-29 | a response starts with status 200 and no content type |
| EventController.GetEvents | backend/src/main/java/com/eventflow/controller/EventController.java:28-36 | JSON; the event list, or 500 when the query throws |
| EventController.GetEvent | backend/src/main/java/com/eventflow/controller/EventController.java:39-58 | JSON; 400 on a bad id, 404 when absent, the event when found, 500 on an exception |
| EventController.GetEventNotFoundIff | backend/src/main/java/com/eventflow/controller/EventController.java:45-50 | 404 exactly when the id parses and the lookup finds nothing; 200 exactly when it finds an event, which is returned as read |
| EventController.PostEvent | backend/src/main/java/com/eventflow/controller/EventController.java:61-85 | JSON; title, then date validation, then creation with 201 |
| EventController.PostEventTitleFirst | backend/src/main/java/com/eventflow/controller/EventController.java:67-70 | a null or blank title gives 400 "Event title is required" whatever the date, with no call |
| EventController.PostEventDateRequired | backend/src/main/java/com/eventflow/controller/EventController.java:72-75 | with a good title, a missing date gives 400 "Event date is required" with no call |
| EventController.PostEventRejectsBeforeService | backend/src/main/java/com/eventflow/controller/EventController.java:67-75 | every 400 from creation comes from the title or date check and makes no call |
| EventController.PostEventCreatedIff | backend/src/main/java/com/eventflow/controller/EventController.java:72-79 | 201 exactly when the title is non-blank, the date present and the insert succeeds; the body is the created event, and the event inserted is the body's own |
| EventController.PutEvent | backend/src/main/java/com/eventflow/controller/EventController.java:88-110 | JSON; id, then body, then title validation, then the update |
| EventController.PutEventUsesPathId | backend/src/main/java/com/eventflow/controller/EventController.java:91-93 | the row updated is the body's event with the path id, whatever id the body gave |
| EventController.PutEventTitleRequired | backend/src/main/java/com/eventflow/controller/EventController.java:96-99 | with a good id, a null or blank title gives 400 "Event title is required" with no call |
| EventController.PutEventIgnoresDate | backend/src/main/java/com/eventflow/controller/EventController.java:96-101 | update checks only the title: an event with no date is still updated |
| EventController.DeleteEvent | backend/src/main/java/com/eventflow/controller/EventController.java:113-126 | JSON; 400 on a bad id, otherwise the delete and a success message, or 500 |
| EventController.InvalidEventIdRejected | backend/src/main/java/com/eventflow/controller/EventController.java:39-126 | GET, PUT and DELETE with a non-numeric id all give 400 "Invalid event ID" with no call |
| EventController.EventIdComesFromPath | backend/src/main/java/com/eventflow/controller/EventController.java:39-126 | every call of the by-id routes uses the id parsed from the path |
| UserController.IsValidEmail | backend/src/main/java/com/eventflow/controller/UserController.java:21 | an accepted address contains `@`, does not start with it, and does not end in a newline |
| UserController.ValidEmailIffDecomposes | backend/src/main/java/com/eventflow/controller/UserController.java:21 | the hand-written check accepts exactly the strings `local@rest` with a non-empty local part from `[A-Za-z0-9+_.-]` and a non-empty rest free of line terminators |
| UserController.EmailExamples | backend/src/main/java/com/eventflow/controller/UserController.java:21 | `a@b` is accepted; `@b`, `a@`, `ab` and `a b@c` are not |
| UserController.PasswordRuleOnBmpText | backend/src/main/java/com/eventflow/controller/UserController.java:26 | without supplementary characters, a password passes exactly when it has at least 8 characters (8 passes, 7 fails) |
| UserController.Register | backend/src/main/java/com/eventflow/controller/UserController.java:14-44 | JSON; e-mail, password, name checks in order, then registration with 201 and the password cleared |
| UserController.RegisteredUsersAreValidated | backend/src/main/java/com/eventflow/controller/UserController.java:21-36 | the user service only receives the request's own user, with a well-formed e-mail, a password of at least 8 code units and a non-blank name |
| UserController.RegisterRejectionsInOrder | backend/src/main/java/com/eventflow/controller/UserController.java:21-34 | the first failing check decides the 400: a null or malformed e-mail gets the e-mail message; a good e-mail with a null or under-8-unit password the password message; a good e-mail and password with a null or blank name the name message; no 400 makes a call |
| UserController.RegisterCreatedIff | backend/src/main/java/com/eventflow/controller/UserController.java:21-39 | 201 exactly when all three checks pass and the user service creates the user; the reply is the created user without password, after one call with the request's user |
| UserController.Login | backend/src/main/java/com/eventflow/controller/UserController.java:47-70 | JSON; credential presence check, then the login with token, 401 or 500 |
| UserController.LoginOutcomes | backend/src/main/java/com/eventflow/controller/UserController.java:53-65 | 400 exactly when a credential is missing, with no call; a token is returned exactly when issued, unchanged; 401 exactly when none is issued |
| UserController.GetUser | backend/src/main/java/com/eventflow/controller/UserController.java:73-94 | JSON; 400 on a bad id, 404 when absent, the user without password, or 500 |
| UserController.NoPasswordInReplies | backend/src/main/java/com/eventflow/controller/UserController.java:36-89 | no reply of the account routes carries a password; a returned user is the stored one with only the password cleared |
| UserController.GetUserNotFoundIff | backend/src/main/java/com/eventflow/controller/UserController.java:77-89 | 400 exactly for a non-numeric id, with no call; 404 exactly when the id parses and no user has it |
| RegistrationController.RegisterForEvent | backend/src/main/java/com/eventflow/controller/RegistrationController.java:14-37 | JSON; id, body, user-id check, then the insert with 201 |
| RegistrationController.StoredRegistrationFromBodyAndPath | backend/src/main/java/com/eventflow/controller/RegistrationController.java:21-27 | the stored registration is the body's, with the path's event id and the body's positive user id |
| RegistrationController.RegisterForEventRejections | backend/src/main/java/com/eventflow/controller/RegistrationController.java:17-32 | 400 exactly for a bad event id or a user id at most 0; the id is checked before the body; no 400 makes a call |
| RegistrationController.RegisterForEventCreatedIff | backend/src/main/java/com/eventflow/controller/RegistrationController.java:17-29 | 201 exactly when the id parses, the body is readable with a positive user id and the insert succeeds; the body is the created registration |
| RegistrationController.UserRegistrations | backend/src/main/java/com/eventflow/controller/RegistrationController.java:40-52 | JSON; 400 on a bad id, the user's registration details, or 500 |
| RegistrationController.UserRegistrationsForPathUser | backend/src/main/java/com/eventflow/controller/RegistrationController.java:43-44 | the listing queries exactly the path's user and returns what the store holds |
| RegistrationController.AdminRegistrations | backend/src/main/java/com/eventflow/controller/RegistrationController.java:55-74 | JSON; parameter presence, then number check, then the listing |
| RegistrationController.AdminRegistrationsParameter | backend/src/main/java/com/eventflow/controller/RegistrationController.java:58-69 | 400 exactly when `eventId` is missing or non-numeric, with different messages and no call |
| VenueController.ListVenues | backend/src/main/java/com/eventflow/controller/VenueController.java:14-23 | JSON; the caller's venues, or 500 when the attribute is missing or the query throws |
| VenueController.ListVenuesOwnOnly | backend/src/main/java/com/eventflow/controller/VenueController.java:17-18 | only the caller's own venues are queried, and a 200 lists exactly those |
| VenueController.CreateVenue | backend/src/main/java/com/eventflow/controller/VenueController.java:26-44 | JSON; attribute, body, name check, then creation with 201 |
| VenueController.StoredVenueBelongsToCaller | backend/src/main/java/com/eventflow/controller/VenueController.java:29-37 | a stored venue is the body's with the caller as creator, and its name is not blank |
| VenueController.VenueNameRequired | backend/src/main/java/com/eventflow/controller/VenueController.java:32-35 | a known caller's venue with a null or blank name gives 400 "Venue name is required" with no call |
| VenueController.CreateVenueCreatedIff | backend/src/main/java/com/eventflow/controller/VenueController.java:32-39 | 201 exactly when the caller is known, the name non-blank and the insert succeeds; a 400 makes no call |
| OrganizerController.OrganizerEvents | backend/src/main/java/com/eventflow/controller/OrganizerController.java:15-24 | JSON; the caller's events, or 500 |
| OrganizerController.OrganizerEventsOwnOnly | backend/src/main/java/com/eventflow/controller/OrganizerController.java:18-19 | only the caller's id is queried, and a 200 lists exactly those events |
| OrganizerController.EventRegistrations | backend/src/main/java/com/eventflow/controller/OrganizerController.java:27-48 | JSON; attribute, id, ownership check, then the listing |
| OrganizerController.InvalidEventIdBeforeOwnership | backend/src/main/java/com/eventflow/controller/OrganizerController.java:31-43 | a non-numeric event id gives 400 "Invalid event ID" before any ownership lookup |
| OrganizerController.RegistrationsOnlyForOwner | backend/src/main/java/com/eventflow/controller/OrganizerController.java:34-40 | an event's registrations are read only after a lookup of that event found the caller as its creator; when the listing succeeds the reply is 200 with exactly the store's details |
| OrganizerController.ForbiddenIffNotOwner | backend/src/main/java/com/eventflow/controller/OrganizerController.java:34-38 | 403 exactly when the event is missing or someone else's; the listing is then never queried |
| OrganizerController.MissingAndForeignLookAlike | backend/src/main/java/com/eventflow/controller/OrganizerController.java:34-38 | a missing event and someone else's event give the same reply |
| ProtectedRoute.Guard | frontend/src/components/auth/ProtectedRoute.jsx:4-16 | login redirect exactly when not authenticated; home redirect exactly when authenticated with a role list and a user whose role is not listed |
| ProtectedRoute.OutletIff | frontend/src/components/auth/ProtectedRoute.jsx:11-15 | the page renders exactly when authenticated and there is no list, no user, or a listed role |
| ProtectedRoute.EmptyListAndMissingRole | frontend/src/components/auth/ProtectedRoute.jsx:11 | an empty list is truthy and admits no user; a user without a role is refused wherever a list is given |
| ProtectedRoute.GuardsAgreeWithServerRules | frontend/src/components/auth/ProtectedRoute.jsx:11 | the organizer/admin guard admits exactly the roles the server admits for POST `/api/events`; the organizer guard those it admits for `/api/organizer/events` |
| Pipeline.OrganizerEventsScopedToToken | backend/src/main/java/com/eventflow/controller/OrganizerController.java:18-19 | after the filter lets GET `/api/organizer/events` through, the role is organizer and the handler queries the token subject's events |
| Pipeline.VenueOwnedByTokenSubject | backend/src/main/java/com/eventflow/controller/VenueController.java:29-37 | a venue stored through POST `/api/venues` belongs to the token's subject, an organizer or admin |
| Pipeline.EventRegistrationsOnlyForOwningOrganizer | backend/src/main/java/com/eventflow/controller/OrganizerController.java:30-40 | an event's registrations reach only an organizer token whose subject created the event |
| Pipeline.OwnRegistrationsUnlessAdmin | backend/src/main/java/com/eventflow/util/AuthMiddleware.java:82-91 | a user-registrations request that proceeds names the token's own subject unless the role is admin, and the handler queries that user |
| Pipeline.UserProfileIsPublic | backend/src/main/java/com/eventflow/util/AuthMiddleware.java:55-64 | GET `/api/users/{id}` proceeds with no token and no attributes |
| Pipeline.RegistrationTrustsBodyUserId | backend/src/main/java/com/eventflow/controller/RegistrationController.java:21-27 | an attendee token for user 5 proceeds and stores a registration for user 7 named in the body |
| Pipeline.EventCreatorFromBody | backend/src/main/java/com/eventflow/controller/EventController.java:64-77 | an organizer or admin token creates the body's event with its own `createdBy` |
| Pipeline.EventUpdateWithoutOwnership | backend/src/main/java/com/eventflow/controller/EventController.java:91-101 | PUT needs an organizer or admin token but no ownership: the only call is the row update |

## Left out

- Data access (the DAOs, SQL and connection pooling) is abstract: a `Store` answers every query, and the effect of a write on later reads is not modelled.
- The user service's BCrypt hashing and checking, and the JWT signing, parsing and expiry, are foreign cryptography. Login is one call to the user service, and the token check is an abstract validity predicate with a claims function.
- Gson serialisation and parsing, and `Date.valueOf`, are left out. A request body is either a parsed record or `Unreadable`. That covers syntax errors, bad dates and a null result that the next dereference turns into an exception.
- The reply text is kept only as the status, the fixed message and the failure context. The exception's own message, appended to 500 bodies, is left out.
- What Spark answers when an exception escapes the before-filter is outside the model; the filter's verdict is `Threw`.
- Spark's routing is left out: the path parameters and the `eventId` query parameter are given to the handlers. `Main.java` and the CORS headers are left out too.
- The Event, User and Venue classes are not part of this model. Their fields are those that the data-access layer reads and writes, `Event.registrationCount` (set by the organizer listing, EventDao.java:177) and `User.createdAt` (set on every loaded user) included.
- `Integer.parseInt` is modelled for ASCII digits only. The non-ASCII decimal digits Java also accepts are left out.
- Strings are sequences of code points, so a lone UTF-16 surrogate is not representable.
- Frontend files other than the route guard are left out: pages, the auth store, the API client and rendering.
- JavaText.ParseInt: the contract states the range and the leading character only. The full round trip is the separate lemma `ParseIntOfIntToString`.
- `RegistrationService.getRegistrationsByUserId` is left out, because no handler calls it.
