/** The request authentication and authorisation gate: which routes need a
    token, which role may do what, and the per-request before-filter that
    checks the Bearer header, validates the token, publishes the caller's
    identity as request attributes and halts with 401 or 403. */
module AuthMiddleware {
  import opened JavaText

  // ---------------------------------------------------------------------------
  // Route patterns (each `.*` is the regular-expression wildcard of String.matches)
  // ---------------------------------------------------------------------------

  /** `/api/users/.*\/registrations` */
  predicate IsUserRegistrationsPath(path: string) {
    MatchesWildcard(path, "/api/users/", "/registrations")
  }

  /** `/api/organizer/events/.*\/registrations` */
  predicate IsOrganizerEventRegistrationsPath(path: string) {
    MatchesWildcard(path, "/api/organizer/events/", "/registrations")
  }

  /** `/api/events/.*` */
  predicate IsEventSubPath(path: string) {
    MatchesWildcard(path, "/api/events/", "")
  }

  /** `/api/events/.*\/register` */
  predicate IsEventRegisterPath(path: string) {
    MatchesWildcard(path, "/api/events/", "/register")
  }

  /** The five GET routes that need a token, in source order. */
  predicate IsProtectedGetPath(path: string) {
    IsUserRegistrationsPath(path)
    || path == "/api/admin/registrations"
    || path == "/api/venues"
    || path == "/api/organizer/events"
    || IsOrganizerEventRegistrationsPath(path)
  }

  // ---------------------------------------------------------------------------
  // HTTP verb names compared ignoring case (String.equalsIgnoreCase)
  // ---------------------------------------------------------------------------

  /** Whether equalsIgnoreCase accepts `c` in place of the ASCII capital
      `upper`: the letter in either case, plus the four non-ASCII characters
      whose Character.toUpperCase or toLowerCase is an ASCII letter (dotless i,
      dotted capital I, long s, Kelvin sign). */
  predicate SameLetterIgnoringCase(c: char, upper: char)
    requires 'A' <= upper <= 'Z'
  {
    c == upper
    || c as int == upper as int + 32
    || (upper == 'I' && (c == '\U{0131}' || c == '\U{0130}'))
    || (upper == 'S' && c == '\U{017F}')
    || (upper == 'K' && c == '\U{212A}')
  }

  predicate IsUpperWord(word: string) {
    forall i :: 0 <= i < |word| ==> 'A' <= word[i] <= 'Z'
  }

  predicate EqualsIgnoreCase(s: string, word: string)
    requires IsUpperWord(word)
  {
    |s| == |word| && forall i :: 0 <= i < |s| ==> SameLetterIgnoringCase(s[i], word[i])
  }

  // ---------------------------------------------------------------------------
  // isProtectedRoute
  // ---------------------------------------------------------------------------

  predicate IsMutationMethod(verb: string) {
    verb == "POST" || verb == "PUT" || verb == "DELETE"
  }

  function IsProtectedRoute(verb: string, path: string): bool {
    if EqualsIgnoreCase(verb, "OPTIONS") then false
    else if IsMutationMethod(verb) && !StartsWith(path, "/api/auth") then true
    else if EqualsIgnoreCase(verb, "GET") then IsProtectedGetPath(path)
    else false
  }

  /** A pre-flight request, in any letter case (dotted and dotless i
      included), never needs a token. */
  lemma OptionsNeverProtected(verb: string, path: string)
    requires EqualsIgnoreCase(verb, "OPTIONS")
    ensures !IsProtectedRoute(verb, path)
    ensures !IsProtectedRoute("options", path) && !IsProtectedRoute("OPT\U{0130}ONS", path)
  {
    assert EqualsIgnoreCase("options", "OPTIONS");
    assert EqualsIgnoreCase("OPT\U{0130}ONS", "OPTIONS");
  }

  /** Mutations need a token exactly off the /api/auth prefix (which has no
      trailing slash, so /api/authority is public too). */
  lemma MutationProtectedIffNotAuth(verb: string, path: string)
    requires IsMutationMethod(verb)
    ensures IsProtectedRoute(verb, path) <==> !StartsWith(path, "/api/auth")
  {
    MutationIsNeitherGetNorOptions(verb);
  }

  lemma MutationIsNeitherGetNorOptions(verb: string)
    requires IsMutationMethod(verb)
    ensures !EqualsIgnoreCase(verb, "GET") && !EqualsIgnoreCase(verb, "OPTIONS")
  {
    if verb == "PUT" {
      assert !SameLetterIgnoringCase(verb[0], "GET"[0]);
    }
  }

  lemma AuthPrefixCoversLongerWords()
    ensures !IsProtectedRoute("POST", "/api/authority")
    ensures IsProtectedRoute("POST", "/api/events")
  {
    assert "/api/authority"[..9] == "/api/auth";
    MutationIsNeitherGetNorOptions("POST");
    assert !StartsWith("/api/events", "/api/auth") by { assert "/api/events"[5] == 'e'; }
  }

  /** A GET, in any letter case, needs a token exactly on the five patterns. */
  lemma GetProtectedIffListed(verb: string, path: string)
    requires EqualsIgnoreCase(verb, "GET")
    ensures IsProtectedRoute(verb, path) <==> IsProtectedGetPath(path)
  {
    if IsMutationMethod(verb) {
      MutationIsNeitherGetNorOptions(verb);
    }
  }

  /** Every other verb (HEAD, PATCH, or a lower-case "post") is public. */
  lemma OtherMethodsPublic(verb: string, path: string)
    requires !IsMutationMethod(verb) && !EqualsIgnoreCase(verb, "GET")
    ensures !IsProtectedRoute(verb, path)
  {
  }

  lemma LowerCaseMutationIsPublic(path: string)
    ensures !IsProtectedRoute("post", path)
    ensures !IsProtectedRoute("delete", path)
  {
    assert !EqualsIgnoreCase("post", "GET");
    assert "delete"[0] == 'd';
    assert !EqualsIgnoreCase("delete", "OPTIONS");
  }

  // ---------------------------------------------------------------------------
  // hasPermission
  // ---------------------------------------------------------------------------

  predicate IsOrganizerOrAdmin(role: Option<string>) {
    role == Some("organizer") || role == Some("admin")
  }

  /** The id segment of `/api/users/{id}/registrations`: `path.split("/")[3]`,
      or None where that index does not exist. */
  function UserSegment(path: string): Option<string> {
    var parts := Split(path, '/');
    if |parts| <= 3 then None else Some(parts[3])
  }

  /** First matching rule decides; no rule, no access. `userId` is the
      request attribute the filter has just set from the token. */
  function HasPermission(verb: string, path: string, role: Option<string>, userId: int): bool {
    if path == "/api/events" && verb == "POST" then IsOrganizerOrAdmin(role)
    else if IsEventSubPath(path) && (verb == "PUT" || verb == "DELETE") then IsOrganizerOrAdmin(role)
    else if IsEventRegisterPath(path) && verb == "POST" then role == Some("attendee")
    else if IsUserRegistrationsPath(path) && verb == "GET" then
      match UserSegment(path)
      case None => false
      case Some(segment) =>
        match ParseInt(segment)
        case None => false
        case Some(pathId) => userId == pathId || role == Some("admin")
    else if path == "/api/venues" && (verb == "GET" || verb == "POST") then IsOrganizerOrAdmin(role)
    else if StartsWith(path, "/api/organizer/") then role == Some("organizer")
    else if path == "/api/admin/registrations" && verb == "GET" then role == Some("admin")
    else false
  }

  /** The split always reaches index 3 on a user-registrations path, and that
      element is the text between `/api/users/` and the next '/', even when the
      wildcard itself spans several segments. */
  lemma UserSegmentOfPath(path: string)
    requires IsUserRegistrationsPath(path)
    ensures UserSegment(path) == Some(FirstField(path[11..], '/'))
  {
    UsersPathFields(path);
    DropTrailingEmptyKeeps(Fields(path, '/'));
    assert IndexOf(path, '/') == 0;
  }

  lemma UsersPathFields(path: string)
    requires IsUserRegistrationsPath(path)
    ensures |Fields(path, '/')| >= 5
    ensures Fields(path, '/')[3] == FirstField(path[11..], '/')
    ensures Fields(path, '/')[|Fields(path, '/')| - 1] == "registrations"
  {
    var rest := path[11..];
    UsersPathEnds(path);
    var tail := Fields(rest, '/');
    var fields := Fields(path, '/');
    assert fields == ["", "api", "users"] + tail by {
      FieldsOfUsersPath(path);
    }
    assert |tail| >= 2 && tail[0] == FirstField(rest, '/') && tail[|tail| - 1] == "registrations" by {
      FieldsOfRegistrationsTail(rest);
    }
    PrefixedFields(fields, tail);
  }

  lemma PrefixedFields(fields: seq<string>, tail: seq<string>)
    requires fields == ["", "api", "users"] + tail && |tail| >= 2
    ensures |fields| >= 5 && fields[3] == tail[0] && fields[|fields| - 1] == tail[|tail| - 1]
  {
  }

  lemma UsersPathEnds(path: string)
    requires IsUserRegistrationsPath(path)
    ensures StartsWith(path, "/api/users/") && EndsWith(path[11..], "/registrations")
  {
    assert path[11..][|path[11..]| - 14..] == path[|path| - 14..];
  }

  lemma FieldsOfUsersPath(path: string)
    requires StartsWith(path, "/api/users/")
    ensures Fields(path, '/') == ["", "api", "users"] + Fields(path[11..], '/')
  {
    var rest := path[11..];
    assert path == "/api/users/" + rest by {
      assert path == path[..11] + path[11..];
    }
    PeelLeadingSlash(path, rest);
    PeelApi("api/users/" + rest, rest);
    PeelUsers("users/" + rest, rest);
  }

  lemma PeelLeadingSlash(path: string, rest: string)
    requires path == "/api/users/" + rest
    ensures Fields(path, '/') == [""] + Fields("api/users/" + rest, '/')
  {
    assert path == "" + ['/'] + ("api/users/" + rest);
    FieldsAfterPrefix(path, '/', "", "api/users/" + rest);
  }

  // Kept apart from PeelLeadingSlash: one lemma over the literal prefix runs out of resource.
  lemma PeelApi(s: string, rest: string)
    requires s == "api/users/" + rest
    ensures Fields(s, '/') == ["api"] + Fields("users/" + rest, '/')
  {
    assert s == "api" + ['/'] + ("users/" + rest);
    FieldsAfterPrefix(s, '/', "api", "users/" + rest);
  }

  lemma PeelUsers(s: string, rest: string)
    requires s == "users/" + rest
    ensures Fields(s, '/') == ["users"] + Fields(rest, '/')
  {
    assert s == "users" + ['/'] + rest;
    FieldsAfterPrefix(s, '/', "users", rest);
  }

  lemma FieldsOfRegistrationsTail(rest: string)
    requires EndsWith(rest, "/registrations")
    ensures |Fields(rest, '/')| >= 2
    ensures Fields(rest, '/')[0] == FirstField(rest, '/')
    ensures Fields(rest, '/')[|Fields(rest, '/')| - 1] == "registrations"
  {
    var cut := |rest| - 14;
    assert rest[cut..] == "/registrations";
    assert rest[cut] == '/';
    assert IndexOf(rest, '/') < |rest|;
    assert rest == rest[..cut] + ['/'] + "registrations" by {
      assert rest == rest[..cut] + rest[cut..];
    }
    FieldsLast(rest, '/', rest[..cut], "registrations");
  }

  /** The self-or-admin rule: the id is read out of the path, never out of a
      body; a segment that does not parse denies even an admin. */
  lemma UserRegistrationsRule(path: string, role: Option<string>, userId: int)
    requires IsUserRegistrationsPath(path)
    ensures HasPermission("GET", path, role, userId) <==>
      (match ParseInt(FirstField(path[11..], '/'))
       case None => false
       case Some(pathId) => userId == pathId || role == Some("admin"))
  {
    UserSegmentOfPath(path);
    assert path[5] == 'u';
    assert !IsEventSubPath(path) && !IsEventRegisterPath(path);
  }

  lemma UserRegistrationsExamples()
    ensures HasPermission("GET", "/api/users/42/registrations", Some("attendee"), 42)
    ensures !HasPermission("GET", "/api/users/42/registrations", Some("attendee"), 7)
    ensures HasPermission("GET", "/api/users/42/registrations", Some("admin"), 7)
    ensures !HasPermission("GET", "/api/users/x/registrations", Some("admin"), 7)
  {
    var p := "/api/users/42/registrations";
    var q := "/api/users/x/registrations";
    SegmentExamples();
    UserRegistrationsRule(p, Some("attendee"), 42);
    UserRegistrationsRule(p, Some("attendee"), 7);
    UserRegistrationsRule(p, Some("admin"), 7);
    UserRegistrationsRule(q, Some("admin"), 7);
  }

  lemma SegmentExamples()
    ensures IsUserRegistrationsPath("/api/users/42/registrations")
    ensures IsUserRegistrationsPath("/api/users/x/registrations")
    ensures ParseInt(FirstField("/api/users/42/registrations"[11..], '/')) == Some(42)
    ensures ParseInt(FirstField("/api/users/x/registrations"[11..], '/')) == None
  {
    SegmentOfFortyTwo();
    SegmentOfX();
    ParseFortyTwo();
  }

  lemma SegmentOfFortyTwo()
    ensures IsUserRegistrationsPath("/api/users/42/registrations")
    ensures FirstField("/api/users/42/registrations"[11..], '/') == "42"
  {
    FortyTwoPathMatches();
    FortyTwoFirstField();
  }

  lemma FortyTwoPathMatches()
    ensures IsUserRegistrationsPath("/api/users/42/registrations")
  {
  }

  lemma FortyTwoFirstField()
    ensures FirstField("/api/users/42/registrations"[11..], '/') == "42"
  {
    var r := "/api/users/42/registrations"[11..];
    assert r == "42/registrations";
    FirstFieldAt(r, '/', 2);
  }

  lemma SegmentOfX()
    ensures IsUserRegistrationsPath("/api/users/x/registrations")
    ensures FirstField("/api/users/x/registrations"[11..], '/') == "x"
  {
    var r := "/api/users/x/registrations"[11..];
    assert r == "x/registrations";
    FirstFieldAt(r, '/', 1);
  }

  lemma ParseFortyTwo()
    ensures ParseInt("42") == Some(42)
  {
    assert AllDigits("42");
    assert "42"[..1] == "4" && "4"[..0] == "";
    assert DigitsValue("4") == 4;
    assert DigitsValue("42") == 42;
  }

  /** POST on `/api/events/{x}/register` skips the update/delete rule and is
      for attendees only. */
  lemma RegisterIsAttendeeOnly(path: string, role: Option<string>, userId: int)
    requires IsEventRegisterPath(path)
    ensures HasPermission("POST", path, role, userId) <==> role == Some("attendee")
  {
  }

  /** Event creation and event update/delete are for organizers and admins;
      ownership of the event is not checked here. */
  lemma EventWritesNeedOrganizerOrAdmin(verb: string, path: string, role: Option<string>, userId: int)
    requires (path == "/api/events" && verb == "POST")
          || (IsEventSubPath(path) && (verb == "PUT" || verb == "DELETE"))
    ensures HasPermission(verb, path, role, userId) <==> IsOrganizerOrAdmin(role)
  {
  }

  /** Anything under `/api/organizer/` is for the organizer role alone,
      whatever the verb: an admin is refused there. */
  lemma OrganizerNamespaceOnlyOrganizer(verb: string, path: string, role: Option<string>, userId: int)
    requires StartsWith(path, "/api/organizer/")
    ensures HasPermission(verb, path, role, userId) <==> role == Some("organizer")
  {
    assert path[..11] == "/api/organiz"[..11];
    assert !StartsWith(path, "/api/events/") by { assert path[5] == 'o'; }
    assert !StartsWith(path, "/api/users/") by { assert path[5] == 'o'; }
  }

  lemma VenuesAndAdminRules(role: Option<string>, userId: int)
    ensures HasPermission("GET", "/api/venues", role, userId) <==> IsOrganizerOrAdmin(role)
    ensures HasPermission("POST", "/api/venues", role, userId) <==> IsOrganizerOrAdmin(role)
    ensures HasPermission("GET", "/api/admin/registrations", role, userId) <==> role == Some("admin")
  {
    VenuesPathMatchesNoEarlierRule();
    AdminPathMatchesNoEarlierRule();
  }

  lemma VenuesPathMatchesNoEarlierRule()
    ensures !IsEventSubPath("/api/venues") && !IsEventRegisterPath("/api/venues")
    ensures !IsUserRegistrationsPath("/api/venues") && !StartsWith("/api/venues", "/api/organizer/")
  {
    assert "/api/venues"[5] == 'v';
  }

  lemma AdminPathMatchesNoEarlierRule()
    ensures !IsEventSubPath("/api/admin/registrations") && !IsEventRegisterPath("/api/admin/registrations")
    ensures !IsUserRegistrationsPath("/api/admin/registrations")
    ensures !StartsWith("/api/admin/registrations", "/api/organizer/")
  {
    assert "/api/admin/registrations"[5] == 'a';
  }

  /** Fail-closed: a permit always comes from one of the seven rules. */
  lemma PermitComesFromARule(verb: string, path: string, role: Option<string>, userId: int)
    requires HasPermission(verb, path, role, userId)
    ensures (path == "/api/events" && verb == "POST")
         || (IsEventSubPath(path) && (verb == "PUT" || verb == "DELETE"))
         || (IsEventRegisterPath(path) && verb == "POST")
         || (IsUserRegistrationsPath(path) && verb == "GET")
         || (path == "/api/venues" && (verb == "GET" || verb == "POST"))
         || StartsWith(path, "/api/organizer/")
         || (path == "/api/admin/registrations" && verb == "GET")
  {
  }

  /** Without a role claim only the self rule can grant access. */
  lemma NoRoleOnlySelf(verb: string, path: string, userId: int)
    requires HasPermission(verb, path, None, userId)
    ensures IsUserRegistrationsPath(path) && verb == "GET"
  {
  }

  // ---------------------------------------------------------------------------
  // The token verifier, abstracted
  // ---------------------------------------------------------------------------

  /** A claim read with `claims.get(name, String.class)`: missing (null), a
      string, or a value of another type (which makes the read throw). */
  datatype Claim = Missing | Text(text: string) | NotText

  datatype Claims = Claims(subject: Option<string>, role: Claim)

  /** Signature and expiry checking is not modelled: `isValid` is true exactly
      when parsing the signed claims would succeed, and `claimsOf` is what that
      parse returns. */
  datatype TokenVerifier = TokenVerifier(isValid: string -> bool, claimsOf: string -> Claims)

  // ---------------------------------------------------------------------------
  // The before-filter
  // ---------------------------------------------------------------------------

  /** How the filter ends: the request goes on to its handler, the pipeline is
      halted with a status, or an exception escapes the filter. */
  datatype Verdict = Proceed | Halt(status: int) | Threw

  /** A write of a request attribute, or none. */
  datatype Write<T> = Keep | Set(value: T)

  function Apply<T>(w: Write<T>, old_value: T): T {
    match w
    case Keep => old_value
    case Set(v) => v
  }

  /** One run of the filter: its verdict and the attributes it writes.
      Setting an attribute to null removes it, so a missing role claim
      writes None. */
  datatype GateRun = GateRun(verdict: Verdict, userRole: Write<Option<string>>, userId: Write<Option<int>>)

  function RoleOf(c: Claim): Option<string> {
    if c.Text? then Some(c.text) else None
  }

  function SubjectId(subject: Option<string>): Option<int> {
    if subject.None? then None else ParseInt(subject.value)
  }

  function Gate(verb: string, path: string, authorization: Option<string>, tokens: TokenVerifier): GateRun {
    if !IsProtectedRoute(verb, path) then GateRun(Proceed, Keep, Keep)
    else if authorization.None? || !StartsWith(authorization.value, "Bearer ") then GateRun(Halt(401), Keep, Keep)
    else
      var token := authorization.value[7..];
      if !tokens.isValid(token) then GateRun(Halt(401), Keep, Keep)
      else
        var claims := tokens.claimsOf(token);
        if claims.role.NotText? then GateRun(Threw, Keep, Keep)
        else
          var role := RoleOf(claims.role);
          match SubjectId(claims.subject)
          case None => GateRun(Threw, Set(role), Keep)
          case Some(id) =>
            if HasPermission(verb, path, role, id) then GateRun(Proceed, Set(role), Set(Some(id)))
            else GateRun(Halt(403), Set(role), Set(Some(id)))
  }

  /** The request as the filter sees it: its method, path and Authorization
      header, and the two attributes the filter writes. */
  class Request {
    const verb: string
    const path: string
    const authorization: Option<string>
    var userRole: Option<string>
    var userId: Option<int>

    constructor (verb: string, path: string, authorization: Option<string>)
      ensures this.verb == verb && this.path == path && this.authorization == authorization
      ensures userRole.None? && userId.None?
    {
      this.verb := verb;
      this.path := path;
      this.authorization := authorization;
      userRole := None;
      userId := None;
    }
  }

  /** The `Spark.before` filter. */
  method BeforeFilter(req: Request, tokens: TokenVerifier) returns (verdict: Verdict)
    modifies req
    ensures var run := Gate(req.verb, req.path, req.authorization, tokens);
      verdict == run.verdict
      && req.userRole == Apply(run.userRole, old(req.userRole))
      && req.userId == Apply(run.userId, old(req.userId))
  {
    if IsProtectedRoute(req.verb, req.path) {
      var token := req.authorization;
      if token.None? || !StartsWith(token.value, "Bearer ") {
        return Halt(401);
      }
      token := Some(token.value[7..]);
      if !tokens.isValid(token.value) {
        return Halt(401);
      }
      var claims := tokens.claimsOf(token.value);
      if claims.role.NotText? {
        return Threw;
      }
      var role := RoleOf(claims.role);
      req.userRole := role;
      var id := SubjectId(claims.subject);
      if id.None? {
        return Threw;
      }
      req.userId := Some(id.value);
      if !HasPermission(req.verb, req.path, role, id.value) {
        return Halt(403);
      }
    }
    return Proceed;
  }

  /** A request the classifier leaves public is never halted and gets no
      attributes. */
  lemma PublicRequestPassesUntouched(verb: string, path: string, authorization: Option<string>, tokens: TokenVerifier)
    requires !IsProtectedRoute(verb, path)
    ensures Gate(verb, path, authorization, tokens) == GateRun(Proceed, Keep, Keep)
  {
  }

  /** On a protected route, 401 exactly when the header is missing, lacks
      the "Bearer " prefix, or carries a token that fails validation; nothing
      is written in that case. */
  lemma UnauthorizedIff(verb: string, path: string, authorization: Option<string>, tokens: TokenVerifier)
    requires IsProtectedRoute(verb, path)
    ensures Gate(verb, path, authorization, tokens).verdict == Halt(401) <==>
      (authorization.None? || !StartsWith(authorization.value, "Bearer ")
       || !tokens.isValid(authorization.value[7..]))
    ensures Gate(verb, path, authorization, tokens).verdict == Halt(401) ==>
      Gate(verb, path, authorization, tokens).userRole.Keep? && Gate(verb, path, authorization, tokens).userId.Keep?
  {
  }

  /** 403 only ever follows a successful authentication: the header was a
      Bearer header, its token validated, and both attributes were set from
      the token's claims before the permission check refused. */
  lemma ForbiddenOnlyAfterAuthentication(verb: string, path: string, authorization: Option<string>, tokens: TokenVerifier)
    requires Gate(verb, path, authorization, tokens).verdict == Halt(403)
    ensures IsProtectedRoute(verb, path)
    ensures authorization.Some? && StartsWith(authorization.value, "Bearer ")
    ensures tokens.isValid(authorization.value[7..])
    ensures var claims := tokens.claimsOf(authorization.value[7..]);
      var run := Gate(verb, path, authorization, tokens);
      SubjectId(claims.subject).Some?
      && run.userRole == Set(RoleOf(claims.role))
      && run.userId == Set(SubjectId(claims.subject))
      && !HasPermission(verb, path, RoleOf(claims.role), SubjectId(claims.subject).value)
  {
  }

  /** A protected request reaches its handler only with both attributes set
      from the token and the permission granted for them. */
  lemma ProtectedProceedIsAuthorised(verb: string, path: string, authorization: Option<string>, tokens: TokenVerifier)
    requires IsProtectedRoute(verb, path)
    requires Gate(verb, path, authorization, tokens).verdict == Proceed
    ensures authorization.Some? && StartsWith(authorization.value, "Bearer ")
    ensures var token := authorization.value[7..];
      var claims := tokens.claimsOf(token);
      var run := Gate(verb, path, authorization, tokens);
      tokens.isValid(token)
      && SubjectId(claims.subject).Some?
      && run.userRole == Set(RoleOf(claims.role))
      && run.userId == Set(SubjectId(claims.subject))
      && HasPermission(verb, path, RoleOf(claims.role), SubjectId(claims.subject).value)
  {
  }

  /** The identity the filter publishes is the issuer's: a token whose
      subject is Integer.toString(u) yields userId u. */
  lemma IssuedSubjectRoundTrips(verb: string, path: string, authorization: Option<string>, tokens: TokenVerifier, u: int)
    requires IntMin <= u <= IntMax
    requires authorization.Some? && StartsWith(authorization.value, "Bearer ")
    requires tokens.isValid(authorization.value[7..])
    requires tokens.claimsOf(authorization.value[7..]).subject == Some(IntToString(u))
    requires !tokens.claimsOf(authorization.value[7..]).role.NotText?
    requires IsProtectedRoute(verb, path)
    ensures Gate(verb, path, authorization, tokens).userId == Set(Some(u))
    ensures Gate(verb, path, authorization, tokens).verdict.Proceed? || Gate(verb, path, authorization, tokens).verdict == Halt(403)
  {
    ParseIntOfIntToString(u);
  }

  /** The examples of the venue route: no header and a token that fails
      validation are both 401; an attendee gets 403, an organizer proceeds. */
  lemma VenueGateExamples(tokens: TokenVerifier, good: string)
    requires tokens.isValid(good) && !tokens.isValid("garbage")
    requires tokens.claimsOf(good).subject == Some("5")
    ensures Gate("GET", "/api/venues", None, tokens).verdict == Halt(401)
    ensures Gate("GET", "/api/venues", Some("Bearer garbage"), tokens).verdict == Halt(401)
    ensures tokens.claimsOf(good).role == Text("attendee") ==>
      Gate("GET", "/api/venues", Some("Bearer " + good), tokens).verdict == Halt(403)
    ensures tokens.claimsOf(good).role == Text("organizer") ==>
      Gate("GET", "/api/venues", Some("Bearer " + good), tokens).verdict == Proceed
  {
    assert IsProtectedRoute("GET", "/api/venues") by {
      assert EqualsIgnoreCase("GET", "GET");
      assert !EqualsIgnoreCase("GET", "OPTIONS");
    }
    assert ("Bearer garbage")[7..] == "garbage";
    assert StartsWith("Bearer garbage", "Bearer ");
    var h := "Bearer " + good;
    assert StartsWith(h, "Bearer ") && h[7..] == good;
    assert ParseInt("5") == Some(5);
    VenuesAndAdminRules(RoleOf(tokens.claimsOf(good).role), 5);
  }
}
