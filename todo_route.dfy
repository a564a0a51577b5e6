/**
 * src/routes/todo.route.js: five routes under the todos mount point, each running the
 * guard, then the route's schema, then its handler. A stage that refuses ends the request,
 * so a handler runs only for a request both earlier stages accepted. `Pipeline` is the
 * composition on values; `Serve` runs the same stages against a `TodoStore`.
 */
module TodoRoute {
  import opened Wrappers
  import opened Response
  import opened Http
  import opened Jwt
  import opened ObjectId
  import opened TodoModel
  import opened UserModel
  import opened TodoValidation
  import opened TodoController
  import opened AuthMiddleware

  /** A matched route, with its `:id` parameter where it has one. */
  datatype Endpoint =
    | GetTodos
    | GetTodoById(id: string)
    | CreateTodo
    | UpdateTodo(id: string)
    | DeleteTodo(id: string)

  /** GET /, GET /:id, POST /, PUT /:id and DELETE /:id; any other request falls through. */
  function Route(verb: Verb, path: seq<string>): (r: Option<Endpoint>)
    ensures r.Some? <==> (path == [] && verb in {Get, Post}) || (|path| == 1 && verb != Post)
    ensures verb == Get && path == [] ==> r == Some(GetTodos)
    ensures verb == Post && path == [] ==> r == Some(CreateTodo)
    ensures verb == Get && |path| == 1 ==> r == Some(GetTodoById(path[0]))
    ensures verb == Put && |path| == 1 ==> r == Some(UpdateTodo(path[0]))
    ensures verb == Delete && |path| == 1 ==> r == Some(DeleteTodo(path[0]))
  {
    match verb
    case Get => if path == [] then Some(GetTodos) else if |path| == 1 then Some(GetTodoById(path[0])) else None
    case Post => if path == [] then Some(CreateTodo) else None
    case Put => if |path| == 1 then Some(UpdateTodo(path[0])) else None
    case Delete => if |path| == 1 then Some(DeleteTodo(path[0])) else None
  }

  /** What the schema of each route hands to its handler. */
  datatype Input =
    | ListInput(page: Page)
    | GetInput(id: string)
    | CreateInput(draft: Draft)
    | UpdateInput(id: string, patch: Patch)
    | DeleteInput(id: string)

  /** `validate(schema)`: the schema the route declares, over the request parts it names. */
  function Validate(e: Endpoint, req: Request): (r: Result<Input, string>)
    ensures r.Ok? && e.GetTodos? ==> r.value.ListInput?
    ensures r.Ok? && e.CreateTodo? ==> r.value.CreateInput? && r.value.draft.user.None?
    ensures r.Ok? && e.GetTodoById? ==> r.value == GetInput(e.id) && Cast(e.id).Some?
    ensures r.Ok? && e.UpdateTodo? ==> r.value.UpdateInput? && r.value.id == e.id && r.value.patch.user.None? && Cast(e.id).Some?
    ensures r.Ok? && e.DeleteTodo? ==> r.value == DeleteInput(e.id) && Cast(e.id).Some?
    ensures e.GetTodos? ==> (r.Err? <==> GetTodosSchema(req.query).Err?)
                            && (r.Err? ==> r.error == GetTodosSchema(req.query).error)
    ensures e.GetTodoById? ==> (r.Err? <==> GetTodoByIdSchema(e.id).Err?)
                               && (r.Err? ==> r.error == GetTodoByIdSchema(e.id).error)
    ensures e.CreateTodo? ==> (r.Err? <==> CreateTodoSchema(req.body).Err?)
                              && (r.Err? ==> r.error == CreateTodoSchema(req.body).error)
    ensures e.UpdateTodo? ==> (r.Err? <==> UpdateTodoSchema(e.id, req.body).Err?)
                              && (r.Err? ==> r.error == UpdateTodoSchema(e.id, req.body).error)
    ensures e.DeleteTodo? ==> (r.Err? <==> DeleteTodoSchema(e.id).Err?)
                              && (r.Err? ==> r.error == DeleteTodoSchema(e.id).error)
  {
    match e
    case GetTodos =>
      var page :- GetTodosSchema(req.query);
      Ok(ListInput(page))
    case GetTodoById(id) =>
      var checked :- GetTodoByIdSchema(id);
      Ok(GetInput(checked))
    case CreateTodo =>
      var draft :- CreateTodoSchema(req.body);
      Ok(CreateInput(draft))
    case UpdateTodo(id) =>
      var update :- UpdateTodoSchema(id, req.body);
      Ok(UpdateInput(update.0, update.1))
    case DeleteTodo(id) =>
      var checked :- DeleteTodoSchema(id);
      Ok(DeleteInput(checked))
  }

  /** The `data` of a todo reply: one todo, or a page of them. */
  datatype Data = Item(todo: Todo) | Items(todos: seq<Todo>)

  function AsItem(r: Reply<Todo>): Reply<Data>
  {
    MapReply(r, (t: Todo) => Item(t))
  }

  function AsItems(r: Reply<seq<Todo>>): Reply<Data>
  {
    MapReply(r, (ts: seq<Todo>) => Items(ts))
  }

  /** What a request is answered with, and the collection after it. */
  datatype Served = Served(reply: Reply<Data>, after: Collection)

  /** The handler of the route, for the session's user `owner`. */
  function Handle(c: Collection, owner: Id, input: Input, newId: Id): (s: Served)
    ensures input.ListInput? || input.GetInput? ==> s.after == c
    ensures WellFormed(c) ==> WellFormed(s.after)
    ensures s.reply.Sent? ==> s.reply.code in {200, 201, 404}
  {
    match input
    case ListInput(page) => Served(AsItems(ListStep(c, owner, page.skip, page.limit)), c)
    case GetInput(id) => Served(AsItem(GetStep(c, owner, id)), c)
    case CreateInput(draft) =>
      var o := CreateStep(c, owner, newId, draft);
      Served(AsItem(o.reply), o.after)
    case UpdateInput(id, patch) =>
      var o := UpdateStep(c, owner, id, patch);
      Served(AsItem(o.reply), o.after)
    case DeleteInput(id) =>
      var o := DeleteStep(c, owner, id);
      Served(AsItem(o.reply), o.after)
  }

  /** The signing key, the clock, the token reader and whether the guard's user lookup throws. */
  datatype Env = Env(key: string, now: int, decode: string -> Option<Token>, lookupFails: bool)

  function Guard(users: seq<User>, req: Request, env: Env): Decision
  {
    Decide(req.authorization, env.key, env.now, env.decode, users, env.lookupFails)
  }

  /** verifyToken, then `validate(schema)`, then the handler; `newId` is the id a create would use. */
  function Pipeline(c: Collection, users: seq<User>, req: Request, env: Env, newId: Id): (s: Served)
    ensures WellFormed(c) ==> WellFormed(s.after)
    ensures s.after != c ==> Guard(users, req, env).Attach? && Route(req.verb, req.path).Some?
  {
    match Route(req.verb, req.path)
    case None => Served(Forwarded(NoRoute), c)
    case Some(e) =>
      match Guard(users, req, env)
      case Reject(message) => Served(Sent(401, FailureResponse(Some(message))), c)
      case Attach(user) =>
        match Validate(e, req)
        case Err(message) => Served(Forwarded(ValidationError(message)), c)
        case Ok(input) => Handle(c, user.id, input, newId)
  }

  /**
   * Each route reaches its own handler: once the guard has attached a user and the route's
   * schema has accepted the request, GET / lists, GET /:id reads, POST / creates,
   * PUT /:id updates and DELETE /:id deletes, for that user and that id.
   */
  lemma RoutesReachTheirHandlers(c: Collection, users: seq<User>, req: Request, env: Env, newId: Id)
    requires Guard(users, req, env).Attach?
    ensures var owner := Guard(users, req, env).user.id; var s := Pipeline(c, users, req, env, newId);
      req.verb == Get && req.path == [] && GetTodosSchema(req.query).Ok? ==>
        var page := GetTodosSchema(req.query).value;
        s == Served(AsItems(ListStep(c, owner, page.skip, page.limit)), c)
    ensures var owner := Guard(users, req, env).user.id; var s := Pipeline(c, users, req, env, newId);
      req.verb == Get && |req.path| == 1 && GetTodoByIdSchema(req.path[0]).Ok? ==>
        s == Served(AsItem(GetStep(c, owner, req.path[0])), c)
    ensures var owner := Guard(users, req, env).user.id; var s := Pipeline(c, users, req, env, newId);
      req.verb == Post && req.path == [] && CreateTodoSchema(req.body).Ok? ==>
        var o := CreateStep(c, owner, newId, CreateTodoSchema(req.body).value);
        s == Served(AsItem(o.reply), o.after)
    ensures var owner := Guard(users, req, env).user.id; var s := Pipeline(c, users, req, env, newId);
      req.verb == Put && |req.path| == 1 && UpdateTodoSchema(req.path[0], req.body).Ok? ==>
        var o := UpdateStep(c, owner, req.path[0], UpdateTodoSchema(req.path[0], req.body).value.1);
        s == Served(AsItem(o.reply), o.after)
    ensures var owner := Guard(users, req, env).user.id; var s := Pipeline(c, users, req, env, newId);
      req.verb == Delete && |req.path| == 1 && DeleteTodoSchema(req.path[0]).Ok? ==>
        var o := DeleteStep(c, owner, req.path[0]);
        s == Served(AsItem(o.reply), o.after)
  {
  }

  /**
   * A request its route's schema refuses never reaches the handler: once the guard has
   * attached a user, the schema's own message is passed on and the collection is unchanged.
   */
  lemma RoutesForwardSchemaRefusals(c: Collection, users: seq<User>, req: Request, env: Env, newId: Id)
    requires Guard(users, req, env).Attach?
    ensures var s := Pipeline(c, users, req, env, newId);
      req.verb == Get && req.path == [] && GetTodosSchema(req.query).Err? ==>
        s == Served(Forwarded(ValidationError(GetTodosSchema(req.query).error)), c)
    ensures var s := Pipeline(c, users, req, env, newId);
      req.verb == Get && |req.path| == 1 && GetTodoByIdSchema(req.path[0]).Err? ==>
        s == Served(Forwarded(ValidationError(GetTodoByIdSchema(req.path[0]).error)), c)
    ensures var s := Pipeline(c, users, req, env, newId);
      req.verb == Post && req.path == [] && CreateTodoSchema(req.body).Err? ==>
        s == Served(Forwarded(ValidationError(CreateTodoSchema(req.body).error)), c)
    ensures var s := Pipeline(c, users, req, env, newId);
      req.verb == Put && |req.path| == 1 && UpdateTodoSchema(req.path[0], req.body).Err? ==>
        s == Served(Forwarded(ValidationError(UpdateTodoSchema(req.path[0], req.body).error)), c)
    ensures var s := Pipeline(c, users, req, env, newId);
      req.verb == Delete && |req.path| == 1 && DeleteTodoSchema(req.path[0]).Err? ==>
        s == Served(Forwarded(ValidationError(DeleteTodoSchema(req.path[0]).error)), c)
  {
  }

  /**
   * The guard runs first: a request it refuses is answered 401 with the guard's message,
   * whatever its id or body, and the collection is left as it was.
   */
  lemma GuardFirst(c: Collection, users: seq<User>, req: Request, env: Env, newId: Id)
    requires Route(req.verb, req.path).Some? && Guard(users, req, env).Reject?
    ensures Pipeline(c, users, req, env, newId)
            == Served(Sent(401, FailureResponse(Some(Guard(users, req, env).message))), c)
  {
  }

  /** A request whose token has expired gets the expiry message even with a malformed id. */
  lemma ExpiredBeatsBadId(c: Collection, users: seq<User>, req: Request, env: Env, newId: Id)
    requires req.verb == Get && |req.path| == 1 && !IsHex(req.path[0])
    requires Guard(users, req, env) == Reject(ExpiredMessage)
    ensures Pipeline(c, users, req, env, newId).reply == Sent(401, FailureResponse(Some(ExpiredMessage)))
  {
  }

  /**
   * A handler runs only when the guard attached a user and the schema accepted the request:
   * otherwise the collection is unchanged and the reply is the guard's 401, the schema's
   * error, or a fall-through.
   */
  lemma HandlerNeedsGuardAndSchema(c: Collection, users: seq<User>, req: Request, env: Env, newId: Id)
    ensures var s := Pipeline(c, users, req, env, newId);
      !(Route(req.verb, req.path).Some? && Guard(users, req, env).Attach?
        && Validate(Route(req.verb, req.path).value, req).Ok?) ==>
        && s.after == c
        && ((s.reply.Forwarded? && (s.reply.fault.ValidationError? || s.reply.fault == NoRoute))
            || (s.reply.Sent? && s.reply.code == 401))
    ensures var s := Pipeline(c, users, req, env, newId);
      Route(req.verb, req.path).Some? && Guard(users, req, env).Attach?
      && Validate(Route(req.verb, req.path).value, req).Ok? ==>
        s == Handle(c, Guard(users, req, env).user.id, Validate(Route(req.verb, req.path).value, req).value, newId)
  {
  }

  /**
   * Through the routes, no todo ever changes hands: a todo that stays keeps its owner, and
   * a new todo belongs to the user the guard attached, whatever the body says.
   */
  lemma OwnersNeverChange(c: Collection, users: seq<User>, req: Request, env: Env, newId: Id)
    requires WellFormed(c)
    ensures var s := Pipeline(c, users, req, env, newId);
      forall id :: id in c.docs && id in s.after.docs ==> s.after.docs[id].user == c.docs[id].user
    ensures var s := Pipeline(c, users, req, env, newId);
      forall id :: id in s.after.docs && id !in c.docs ==>
        Guard(users, req, env).Attach? && s.after.docs[id].user == Guard(users, req, env).user.id
  {
    var s := Pipeline(c, users, req, env, newId);
    if s.after != c {
      var e := Route(req.verb, req.path).value;
      var owner := Guard(users, req, env).user.id;
      var input := Validate(e, req).value;
      match input
      case CreateInput(draft) =>
        CreateAddsOne(c, owner, newId, draft);
      case UpdateInput(id, patch) =>
        UpdateTouchesOnlyMatch(c, owner, id, patch);
      case DeleteInput(id) =>
        DeleteRemovesOnlyMatch(c, owner, id);
      case _ =>
    }
  }

  /**
   * A signed-in user asking for, updating or deleting another user's todo by a valid id gets
   * the same 404 as for a missing one, and the collection is unchanged.
   */
  lemma ForeignTodoThroughRoute(c: Collection, users: seq<User>, req: Request, env: Env, newId: Id)
    requires req.verb in {Get, Put, Delete} && |req.path| == 1 && Cast(req.path[0]).Some?
    requires Guard(users, req, env).Attach? && Validate(Route(req.verb, req.path).value, req).Ok?
    requires var id := Cast(req.path[0]).value; id !in c.docs || c.docs[id].user != Guard(users, req, env).user.id
    ensures Pipeline(c, users, req, env, newId) == Served(NotFound(), c)
  {
    var owner := Guard(users, req, env).user.id;
    CheckMatchesCast(req.path[0]);
    match Validate(Route(req.verb, req.path).value, req).value
    case UpdateInput(id, patch) =>
      ForeignTodoLikeMissing(c, owner, id, patch);
    case GetInput(id) =>
      ForeignTodoLikeMissing(c, owner, id, NoChange);
    case DeleteInput(id) =>
      ForeignTodoLikeMissing(c, owner, id, NoChange);
  }

  /** One request against the store: the guard on a fresh request object, the schema, the handler. */
  method Serve(store: TodoStore, users: seq<User>, req: Request, env: Env, newId: Id) returns (reply: Reply<Data>)
    requires store.Valid()
    modifies store
    ensures store.Valid()
    ensures reply == Pipeline(old(store.Snapshot()), users, req, env, newId).reply
    ensures store.Snapshot() == Pipeline(old(store.Snapshot()), users, req, env, newId).after
  {
    var endpoint := Route(req.verb, req.path);
    if endpoint.None? {
      return Forwarded(NoRoute);
    }
    var context := new RequestContext();
    var rejection := VerifyToken(context, req.authorization, env.key, env.now, env.decode, users, env.lookupFails);
    if rejection.Some? {
      return Sent(401, FailureResponse(rejection));
    }
    var owner := context.user.value.id;
    var input := Validate(endpoint.value, req);
    if input.Err? {
      return Forwarded(ValidationError(input.error));
    }
    match input.value
    case ListInput(page) =>
      var r := store.List(owner, page.skip, page.limit);
      reply := AsItems(r);
    case GetInput(id) =>
      var r := store.GetById(owner, id);
      reply := AsItem(r);
    case CreateInput(draft) =>
      var r := store.Create(owner, newId, draft);
      reply := AsItem(r);
    case UpdateInput(id, patch) =>
      var r := store.Update(owner, id, patch);
      reply := AsItem(r);
    case DeleteInput(id) =>
      var r := store.Delete(owner, id);
      reply := AsItem(r);
  }
}
