/** The account routes: register, log in, and read a user by id. The user
    service's password hashing and checking and the token issuing stay behind
    `Store.registerUser` and `Store.loginUser`. */
module UserController {
  import opened JavaText
  import opened Entities
  import opened Services
  import opened Http

  // ---------------------------------------------------------------------------
  // The e-mail pattern ^[A-Za-z0-9+_.-]+@(.+)$ under String.matches
  // ---------------------------------------------------------------------------

  predicate IsLocalPartChar(c: char) {
    ('A' <= c <= 'Z') || ('a' <= c <= 'z') || ('0' <= c <= '9')
    || c == '+' || c == '_' || c == '.' || c == '-'
  }

  predicate IsLocalPart(s: string) {
    forall i :: 0 <= i < |s| ==> IsLocalPartChar(s[i])
  }

  /** The pattern, read left to right: the local part runs up to the first
      '@' (it cannot contain one), and what follows is one or more characters
      other than line terminators, '@' allowed. */
  function IsValidEmail(s: string): (ok: bool)
    ensures ok ==> '@' in s && s[0] != '@' && s[|s| - 1] != '\n'
  {
    var at := IndexOf(s, '@');
    0 < at && at + 1 < |s| && IsLocalPart(s[..at]) && NoLineTerminator(s[at + 1..])
  }

  /** The pattern as a decomposition: a non-empty local part, an '@', and a
      non-empty rest that the dot can match. */
  ghost predicate EmailDecomposes(s: string) {
    exists local: string, domain: string ::
      local != [] && IsLocalPart(local) && domain != [] && NoLineTerminator(domain)
      && s == local + "@" + domain
  }

  lemma ValidEmailIffDecomposes(s: string)
    ensures IsValidEmail(s) <==> EmailDecomposes(s)
  {
    if IsValidEmail(s) {
      var at := IndexOf(s, '@');
      var local, domain := s[..at], s[at + 1..];
      assert s == local + "@" + domain;
    }
    if EmailDecomposes(s) {
      var local: string, domain: string :|
        local != [] && IsLocalPart(local) && domain != [] && NoLineTerminator(domain)
        && s == local + "@" + domain;
      assert s[|local|] == '@';
      assert forall j :: 0 <= j < |local| ==> s[j] == local[j] && IsLocalPartChar(s[j]);
      assert IndexOf(s, '@') == |local|;
      assert s[..|local|] == local;
      assert s[|local| + 1..] == domain;
    }
  }

  lemma EmailExamples()
    ensures IsValidEmail("a@b")
    ensures !IsValidEmail("@b") && !IsValidEmail("a@") && !IsValidEmail("ab")
    ensures !IsValidEmail("a b@c")
  {
    assert "a@b"[1] == '@';
    assert IndexOf("a@b", '@') == 1;
    assert "a@b"[..1] == "a" && "a@b"[2..] == "b";
    assert IndexOf("a@", '@') == 1;
    assert IndexOf("a b@c", '@') == 3;
    assert "a b@c"[..3][1] == ' ';
  }

  // ---------------------------------------------------------------------------
  // POST /api/auth/register
  // ---------------------------------------------------------------------------

  /** The password rule: present and at least eight UTF-16 code units. */
  predicate PasswordLongEnough(password: Option<string>) {
    password.Some? && Utf16Length(password.value) >= 8
  }

  /** For text without supplementary characters the rule is the plain
      length: eight characters pass and seven do not. */
  lemma PasswordRuleOnBmpText(p: string)
    requires forall i :: 0 <= i < |p| ==> p[i] as int < 0x1_0000
    ensures PasswordLongEnough(Some(p)) <==> |p| >= 8
  {
  }

  function RegisterReply(request: Parsed<User>, store: Store): Handled {
    match request
    case Unreadable => Handled(500, Failure("Registration failed"), [])
    case Read(user) =>
      if user.email.None? || !IsValidEmail(user.email.value) then
        Handled(400, Message("Invalid email format"), [])
      else if !PasswordLongEnough(user.password) then
        Handled(400, Message("Password must be at least 8 characters"), [])
      else if NullOrBlank(user.fullName) then
        Handled(400, Message("Full name is required"), [])
      else
        match store.registerUser(user)
        case Threw => Handled(500, Failure("Registration failed"), [Call.RegisterUser(user)])
        case Done(created) => Handled(201, Json(OneUser(created.(password := None))), [Call.RegisterUser(user)])
  }

  method Register(backend: Backend, res: Response, request: Parsed<User>) returns (body: Body)
    modifies res, backend`calls
    ensures Answered(RegisterReply(request, backend.store), res, old(res.status), body, backend.calls, old(backend.calls))
  {
    res.contentType := JsonType;
    if request.Unreadable? {
      res.status := 500;
      return Failure("Registration failed");
    }
    var newUser := request.value;
    if newUser.email.None? || !IsValidEmail(newUser.email.value) {
      res.status := 400;
      return Message("Invalid email format");
    }
    if newUser.password.None? || Utf16Length(newUser.password.value) < 8 {
      res.status := 400;
      return Message("Password must be at least 8 characters");
    }
    if newUser.fullName.None? || Trim(newUser.fullName.value) == [] {
      res.status := 400;
      return Message("Full name is required");
    }
    var created := backend.RegisterUser(newUser);
    if created.Threw? {
      res.status := 500;
      return Failure("Registration failed");
    }
    var createdUser := created.value;
    createdUser := createdUser.(password := None);
    res.status := 201;
    return Json(OneUser(createdUser));
  }

  /** A user reaches the user service only with a well-formed e-mail, a
      password of at least eight code units (so at least four characters)
      and a non-blank name; the record handed over is the request's own,
      role included. */
  lemma RegisteredUsersAreValidated(request: Parsed<User>, store: Store, u: User)
    requires Call.RegisterUser(u) in RegisterReply(request, store).calls
    ensures request == Read(u)
    ensures u.email.Some? && EmailDecomposes(u.email.value)
    ensures u.password.Some? && Utf16Length(u.password.value) >= 8 && |u.password.value| >= 4
    ensures u.fullName.Some? && !IsBlank(u.fullName.value)
  {
    assert request.Read? && request.value == u;
    assert u.email.Some? && IsValidEmail(u.email.value) && PasswordLongEnough(u.password)
      && !NullOrBlank(u.fullName);
    ValidEmailIffDecomposes(u.email.value);
    TrimEmptyIffBlank(u.fullName.value);
  }

  /** The checks run in order e-mail, password, name: the first that fails
      decides the message, and every refusal comes before the user service
      is called. */
  lemma RegisterRejectionsInOrder(user: User, store: Store)
    ensures user.email.None? || !IsValidEmail(user.email.value) ==>
            RegisterReply(Read(user), store) == Handled(400, Message("Invalid email format"), [])
    ensures user.email.Some? && IsValidEmail(user.email.value) && !PasswordLongEnough(user.password) ==>
            RegisterReply(Read(user), store) == Handled(400, Message("Password must be at least 8 characters"), [])
    ensures user.email.Some? && IsValidEmail(user.email.value) && user.password.Some?
            && |user.password.value| < 4 ==>
            RegisterReply(Read(user), store) == Handled(400, Message("Password must be at least 8 characters"), [])
    ensures user.email.Some? && IsValidEmail(user.email.value) && PasswordLongEnough(user.password)
            && NullOrBlank(user.fullName) ==>
            RegisterReply(Read(user), store) == Handled(400, Message("Full name is required"), [])
    ensures RegisterReply(Read(user), store).status == 400 ==> RegisterReply(Read(user), store).calls == []
  {
  }

  /** 201 exactly when every check passes and the user service creates the
      user; the reply carries the created user without its password. */
  lemma RegisterCreatedIff(request: Parsed<User>, store: Store)
    ensures RegisterReply(request, store).status == 201 <==>
      request.Read? && request.value.email.Some? && IsValidEmail(request.value.email.value)
      && PasswordLongEnough(request.value.password) && !NullOrBlank(request.value.fullName)
      && store.registerUser(request.value).Done?
    ensures RegisterReply(request, store).status == 201 ==>
      RegisterReply(request, store)
        == Handled(201, Json(OneUser(store.registerUser(request.value).value.(password := None))),
                   [Call.RegisterUser(request.value)])
  {
  }

  // ---------------------------------------------------------------------------
  // POST /api/auth/login
  // ---------------------------------------------------------------------------

  function LoginReply(request: Parsed<User>, store: Store): Handled {
    match request
    case Unreadable => Handled(500, Failure("Login failed"), [])
    case Read(attempt) =>
      if attempt.email.None? || attempt.password.None? then
        Handled(400, Message("Email and password are required"), [])
      else
        var call := Call.LoginUser(attempt.email.value, attempt.password.value);
        match store.loginUser(attempt.email.value, attempt.password.value)
        case Threw => Handled(500, Failure("Login failed"), [call])
        case Done(None) => Handled(401, Message("Invalid credentials"), [call])
        case Done(Some(token)) => Handled(200, TokenBody(token), [call])
  }

  method Login(backend: Backend, res: Response, request: Parsed<User>) returns (body: Body)
    modifies res, backend`calls
    ensures Answered(LoginReply(request, backend.store), res, old(res.status), body, backend.calls, old(backend.calls))
  {
    res.contentType := JsonType;
    if request.Unreadable? {
      res.status := 500;
      return Failure("Login failed");
    }
    var attempt := request.value;
    if attempt.email.None? || attempt.password.None? {
      res.status := 400;
      return Message("Email and password are required");
    }
    var token := backend.LoginUser(attempt.email.value, attempt.password.value);
    match token
    case Threw =>
      res.status := 500;
      body := Failure("Login failed");
    case Done(found) =>
      if found.Some? {
        body := TokenBody(found.value);
      } else {
        res.status := 401;
        body := Message("Invalid credentials");
      }
  }

  /** A missing credential is refused before the user service is asked. A
      token is returned exactly when both credentials are present and the
      user service issues one for them; it is returned unchanged. Login does
      not validate the e-mail's form. */
  lemma LoginOutcomes(request: Parsed<User>, store: Store)
    ensures LoginReply(request, store).status == 400 <==>
      request.Read? && (request.value.email.None? || request.value.password.None?)
    ensures LoginReply(request, store).status == 400 ==> LoginReply(request, store).calls == []
    ensures LoginReply(request, store).body.TokenBody? <==>
      request.Read? && request.value.email.Some? && request.value.password.Some?
      && store.loginUser(request.value.email.value, request.value.password.value).Done?
      && store.loginUser(request.value.email.value, request.value.password.value).value.Some?
    ensures LoginReply(request, store).body.TokenBody? ==>
      LoginReply(request, store).status == 200
      && LoginReply(request, store).body.token
         == store.loginUser(request.value.email.value, request.value.password.value).value.value
    ensures LoginReply(request, store).status == 401 <==>
      request.Read? && request.value.email.Some? && request.value.password.Some?
      && store.loginUser(request.value.email.value, request.value.password.value) == Done(None)
  {
  }

  // ---------------------------------------------------------------------------
  // GET /api/users/:id
  // ---------------------------------------------------------------------------

  function GetUserReply(idParam: string, store: Store): Handled {
    match ParseInt(idParam)
    case None => Handled(400, Message("Invalid user ID"), [])
    case Some(userId) =>
      match store.userById(userId)
      case Threw => Handled(500, Failure("Error fetching user"), [FindUserById(userId)])
      case Done(None) => Handled(404, Message("User not found"), [FindUserById(userId)])
      case Done(Some(user)) => Handled(200, Json(OneUser(user.(password := None))), [FindUserById(userId)])
  }

  method GetUser(backend: Backend, res: Response, idParam: string) returns (body: Body)
    modifies res, backend`calls
    ensures Answered(GetUserReply(idParam, backend.store), res, old(res.status), body, backend.calls, old(backend.calls))
  {
    res.contentType := JsonType;
    var userId := ParseInt(idParam);
    if userId.None? {
      res.status := 400;
      return Message("Invalid user ID");
    }
    var user := backend.GetUserById(userId.value);
    match user
    case Threw =>
      res.status := 500;
      body := Failure("Error fetching user");
    case Done(found) =>
      if found.Some? {
        var shown := found.value;
        shown := shown.(password := None);
        body := Json(OneUser(shown));
      } else {
        res.status := 404;
        body := Message("User not found");
      }
  }

  /** No reply of the account routes carries a password: a user in a body
      is the stored one with its password cleared and every other field
      kept. */
  lemma NoPasswordInReplies(request: Parsed<User>, idParam: string, store: Store)
    ensures RegisterReply(request, store).body.Json? ==>
      RegisterReply(request, store).body == Json(OneUser(store.registerUser(request.value).value.(password := None)))
    ensures GetUserReply(idParam, store).body.Json? ==>
      ParseInt(idParam).Some?
      && GetUserReply(idParam, store).body
         == Json(OneUser(store.userById(ParseInt(idParam).value).value.value.(password := None)))
    ensures forall b :: b in {RegisterReply(request, store).body, LoginReply(request, store).body,
                              GetUserReply(idParam, store).body} && b.Json? ==>
      b.payload.OneUser? && b.payload.user.password.None?
  {
  }

  /** 404 exactly when the id parses and no user has it. */
  lemma GetUserNotFoundIff(idParam: string, store: Store)
    ensures GetUserReply(idParam, store).status == 404 <==>
      ParseInt(idParam).Some? && store.userById(ParseInt(idParam).value) == Done(None)
    ensures GetUserReply(idParam, store).status == 400 <==> ParseInt(idParam).None?
    ensures GetUserReply(idParam, store).status == 400 ==> GetUserReply(idParam, store).calls == []
  {
  }
}
