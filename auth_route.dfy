/**
 * src/routes/auth.route.js: POST /signup and POST /login, each validating its body and then
 * calling its handler, with no guard in front. `AuthPipeline` is the composition on values;
 * `ServeAuth` runs it against a `UserStore`. The session lemma at the end follows one user
 * from signup through login to the guard of the todo routes.
 */
module AuthRoute {
  import opened Wrappers
  import opened Response
  import opened Http
  import Joi
  import opened Jwt
  import opened ObjectId
  import opened Bcrypt
  import opened UserModel
  import opened AuthValidation
  import opened AuthController
  import opened AuthMiddleware

  datatype AuthEndpoint = SignupRoute | LoginRoute

  /** POST /signup and POST /login; any other request falls through. */
  function AuthRouteOf(verb: Verb, path: seq<string>): (r: Option<AuthEndpoint>)
    ensures r.Some? <==> verb == Post && path in {["signup"], ["login"]}
  {
    if verb != Post then None
    else if path == ["signup"] then Some(SignupRoute)
    else if path == ["login"] then Some(LoginRoute)
    else None
  }

  /** What an auth request is answered with, and the users stored after it. */
  datatype AuthServed = AuthServed(reply: Reply<AuthData>, users: seq<User>)

  /** `validate(schema)`, then the handler. */
  function AuthPipeline(users: seq<User>, req: Request, key: string, now: int, newId: Id, rounds: int): (s: AuthServed)
    ensures UniqueEmails(users) && DistinctIds(users) ==> UniqueEmails(s.users) && DistinctIds(s.users)
    ensures s.users != users ==> AuthRouteOf(req.verb, req.path) == Some(SignupRoute) && SignupSchema(req.body).Ok?
  {
    match AuthRouteOf(req.verb, req.path)
    case None => AuthServed(Forwarded(NoRoute), users)
    case Some(SignupRoute) =>
      (match SignupSchema(req.body)
       case Err(message) => AuthServed(Forwarded(ValidationError(message)), users)
       case Ok(draft) =>
         var o := SignupStep(users, draft, newId, rounds);
         AuthServed(o.reply, o.users))
    case Some(LoginRoute) =>
      match LoginSchema(req.body)
      case Err(message) => AuthServed(Forwarded(ValidationError(message)), users)
      case Ok(credentials) => AuthServed(LoginStep(users, credentials.email, credentials.password, key, now), users)
  }

  /**
   * Each auth route reaches its own handler: a body its schema accepts is answered by
   * signup or login, with the users that handler leaves; a body its schema refuses is
   * passed on with the schema's message and nothing is stored.
   */
  lemma AuthRoutesReachTheirHandlers(users: seq<User>, req: Request, key: string, now: int, newId: Id, rounds: int)
    ensures var s := AuthPipeline(users, req, key, now, newId, rounds);
      req.verb == Post && req.path == ["signup"] && SignupSchema(req.body).Ok? ==>
        var o := SignupStep(users, SignupSchema(req.body).value, newId, rounds);
        s == AuthServed(o.reply, o.users)
    ensures var s := AuthPipeline(users, req, key, now, newId, rounds);
      req.verb == Post && req.path == ["signup"] && SignupSchema(req.body).Err? ==>
        s == AuthServed(Forwarded(ValidationError(SignupSchema(req.body).error)), users)
    ensures var s := AuthPipeline(users, req, key, now, newId, rounds);
      req.verb == Post && req.path == ["login"] && LoginSchema(req.body).Ok? ==>
        var credentials := LoginSchema(req.body).value;
        s == AuthServed(LoginStep(users, credentials.email, credentials.password, key, now), users)
    ensures var s := AuthPipeline(users, req, key, now, newId, rounds);
      req.verb == Post && req.path == ["login"] && LoginSchema(req.body).Err? ==>
        s == AuthServed(Forwarded(ValidationError(LoginSchema(req.body).error)), users)
  {
  }

  /** No guard runs on the auth routes: the Authorization header makes no difference. */
  lemma NoGuardOnAuth(users: seq<User>, req: Request, key: string, now: int, newId: Id, rounds: int,
                      header: Option<string>)
    ensures AuthPipeline(users, req.(authorization := header), key, now, newId, rounds)
            == AuthPipeline(users, req, key, now, newId, rounds)
  {
  }

  /**
   * A body the schema refuses never reaches the handler: the schema's message is passed on
   * and no user is stored. Login never stores anything, whatever its body.
   */
  lemma RefusedBodyStoresNothing(users: seq<User>, req: Request, key: string, now: int, newId: Id, rounds: int)
    ensures var s := AuthPipeline(users, req, key, now, newId, rounds);
      AuthRouteOf(req.verb, req.path) == Some(SignupRoute) && SignupSchema(req.body).Err? ==>
        s == AuthServed(Forwarded(ValidationError(SignupSchema(req.body).error)), users)
    ensures var s := AuthPipeline(users, req, key, now, newId, rounds);
      AuthRouteOf(req.verb, req.path) == Some(LoginRoute) && LoginSchema(req.body).Err? ==>
        s == AuthServed(Forwarded(ValidationError(LoginSchema(req.body).error)), users)
    ensures var s := AuthPipeline(users, req, key, now, newId, rounds);
      AuthRouteOf(req.verb, req.path) != Some(SignupRoute) ==> s.users == users
    ensures var s := AuthPipeline(users, req, key, now, newId, rounds);
      |s.users| <= |users| + 1 && s.users[..|users|] == users
  {
    var s := AuthPipeline(users, req, key, now, newId, rounds);
    if AuthRouteOf(req.verb, req.path) == Some(SignupRoute) && SignupSchema(req.body).Ok? {
      var d := SignupSchema(req.body).value;
      SignupOutcomes(users, d, newId, rounds);
      assert s.users == SignupStep(users, d, newId, rounds).users;
    } else {
      assert s.users == users;
    }
  }

  /** A signup without lastName is refused with a message naming the missing field, and stores nothing. */
  lemma SignupWithoutLastName(users: seq<User>, req: Request, key: string, now: int, newId: Id, rounds: int)
    requires req.verb == Post && req.path == ["signup"]
    requires Joi.Within(Lookup(req.body, "firstName"), 1, 50) && Lookup(req.body, "lastName").None?
    ensures AuthPipeline(users, req, key, now, newId, rounds)
            == AuthServed(Forwarded(ValidationError("\"lastName\" is required")), users)
  {
    SignupMissingLastName(req.body);
  }

  /**
   * One session: after a successful signup, logging in with the same email and password at
   * `iat` yields a token that the todo routes' guard, reading it after any scheme word,
   * accepts for the new user at every clock before `iat + 86400` and reports as expired
   * from then on.
   */
  lemma SessionLifetime(users: seq<User>, d: UserDraft, newId: Id, rounds: int, key: string, iat: int,
                        scheme: string, raw: string, decode: string -> Option<Token>, now: int)
    requires SignupStep(users, d, newId, rounds).reply.Sent? && SignupStep(users, d, newId, rounds).reply.code == 201
    requires ' ' !in scheme && ' ' !in raw && raw != ""
    ensures var after := SignupStep(users, d, newId, rounds).users;
      var r := LoginStep(after, d.email, d.password, key, iat);
      && r.Sent? && r.code == 200 && r.body.Data().Some?
      && (decode(raw) == Some(r.body.Data().value.token) ==>
            var u := User(newId, d.firstName, d.lastName, d.email, Hash(Plain(d.password), rounds));
            var decision := Decide(Some(scheme + [' '] + raw), key, now, decode, after, false);
            && (now < iat + OneDay ==> decision == Attach(u))
            && (now >= iat + OneDay ==> decision == Reject(ExpiredMessage)))
  {
    var after := SignupStep(users, d, newId, rounds).users;
    var u := User(newId, d.firstName, d.lastName, d.email, Hash(Plain(d.password), rounds));
    SignupThenLogin(users, d, newId, rounds, key, iat);
    SignupOutcomes(users, d, newId, rounds);
    FindAppended(users, u);
    AnySchemeWord(scheme, raw);
    IssuedTokenLifetime(ClaimsOf(u), key, iat, now);
  }

  /** One auth request against the store. */
  method ServeAuth(store: UserStore, req: Request, key: string, now: int, newId: Id, rounds: int)
    returns (reply: Reply<AuthData>)
    requires store.Valid()
    modifies store
    ensures store.Valid()
    ensures reply == AuthPipeline(old(store.users), req, key, now, newId, rounds).reply
    ensures store.users == AuthPipeline(old(store.users), req, key, now, newId, rounds).users
  {
    var endpoint := AuthRouteOf(req.verb, req.path);
    if endpoint.None? {
      return Forwarded(NoRoute);
    }
    if endpoint.value == SignupRoute {
      var draft := SignupSchema(req.body);
      if draft.Err? {
        return Forwarded(ValidationError(draft.error));
      }
      reply := store.Signup(draft.value, newId, rounds);
    } else {
      var credentials := LoginSchema(req.body);
      if credentials.Err? {
        return Forwarded(ValidationError(credentials.error));
      }
      reply := store.Login(credentials.value.email, credentials.value.password, key, now);
    }
  }
}
