/**
 * src/validations/todo.validation.js: the five request schemas of the todo routes.
 * Each returns the checked request part, or the message of the first rule that fails.
 */
module TodoValidation {
  import opened Wrappers
  import opened Http
  import opened Joi
  import opened ObjectId
  import opened TodoModel

  const CreateKeys: seq<string> := ["title", "description", "state"]
  const QueryKeys: seq<string> := ["skip", "limit"]

  /** Absent, or within bounds. */
  predicate AbsentOrWithin(v: Option<Value>, min: nat, max: nat)
  {
    v.None? || Within(v, min, max)
  }

  /** Absent, or one of the enum's names. */
  predicate AbsentOrState(v: Option<Value>)
  {
    v.None? || (v.value.Str? && v.value.text in StateNames)
  }

  function TextOf(v: Option<Value>): Option<string>
  {
    if v.Some? && v.value.Str? then Some(v.value.text) else None
  }

  /**
   * createTodoSchema. The accepted body becomes the draft handed to the controller:
   * it carries no `user`, because an undeclared key is refused.
   */
  function CreateTodoSchema(body: seq<Field<Value>>): (r: Result<Draft, string>)
    ensures r.Ok? <==>
      && Within(Lookup(body, "title"), 3, 100)
      && Within(Lookup(body, "description"), 3, 500)
      && AbsentOrState(Lookup(body, "state"))
      && forall i :: 0 <= i < |body| ==> body[i].key in CreateKeys
    ensures r.Ok? ==> r.value == Draft(TextOf(Lookup(body, "title")), TextOf(Lookup(body, "description")),
                                       TextOf(Lookup(body, "state")), None)
  {
    var title :- CheckString("title", Lookup(body, "title"), 3, Some(100), true);
    var description :- CheckString("description", Lookup(body, "description"), 3, Some(500), true);
    var state :- CheckOneOf("state", Lookup(body, "state"), StateNames);
    var _ :- CheckNoUnknown(body, CreateKeys);
    Ok(Draft(title, description, state, None))
  }

  /** updateTodoSchema: the `id` param first, then a body of optional members under the same rules. */
  function UpdateTodoSchema(id: string, body: seq<Field<Value>>): (r: Result<(string, Patch), string>)
    ensures r.Ok? <==>
      && Check(Some(id)).Ok?
      && AbsentOrWithin(Lookup(body, "title"), 3, 100)
      && AbsentOrWithin(Lookup(body, "description"), 3, 500)
      && AbsentOrState(Lookup(body, "state"))
      && forall i :: 0 <= i < |body| ==> body[i].key in CreateKeys
    ensures Check(Some(id)).Err? ==> r == Err(Check(Some(id)).error)
    ensures r.Ok? ==> && r.value.0 == id && r.value.1.user.None?
                      && r.value.1.title == TextOf(Lookup(body, "title"))
                      && r.value.1.description == TextOf(Lookup(body, "description"))
                      && r.value.1.state == (if Lookup(body, "state").Some?
                                             then ParseState(Lookup(body, "state").value.text) else None)
  {
    var checked :- Check(Some(id));
    var title :- CheckString("title", Lookup(body, "title"), 3, Some(100), false);
    var description :- CheckString("description", Lookup(body, "description"), 3, Some(500), false);
    var state :- CheckOneOf("state", Lookup(body, "state"), StateNames);
    var _ :- CheckNoUnknown(body, CreateKeys);
    var parsed := if state.Some? then ParseState(state.value) else None;
    Ok((checked, Patch(title, description, parsed, None)))
  }

  /** The pagination values as the controller reads them from `req.query`. */
  datatype Page = Page(skip: Option<QueryValue>, limit: Option<QueryValue>)

  /** getTodosSchema: `skip` and `limit` optional numbers, nothing else. */
  function GetTodosSchema(query: seq<Field<QueryValue>>): (r: Result<Page, string>)
    ensures r.Ok? <==>
      && (Lookup(query, "skip").Some? ==> Lookup(query, "skip").value.Numeric?)
      && (Lookup(query, "limit").Some? ==> Lookup(query, "limit").value.Numeric?)
      && forall i :: 0 <= i < |query| ==> query[i].key in QueryKeys
    ensures r.Ok? ==> r.value == Page(Lookup(query, "skip"), Lookup(query, "limit"))
  {
    var _ :- CheckNumber("skip", Lookup(query, "skip"));
    var _ :- CheckNumber("limit", Lookup(query, "limit"));
    var _ :- CheckNoUnknown(query, QueryKeys);
    Ok(Page(Lookup(query, "skip"), Lookup(query, "limit")))
  }

  /** getTodoByIdSchema: the `id` param alone. */
  function GetTodoByIdSchema(id: string): (r: Result<string, string>)
    ensures r.Ok? <==> |id| == IdLength && IsHex(id)
    ensures r.Ok? ==> r.value == id
  {
    Check(Some(id))
  }

  /** deleteTodoSchema: the same `id` rule as getTodoByIdSchema (see `IdRoutesAgree`). */
  function DeleteTodoSchema(id: string): (r: Result<string, string>)
    ensures r.Ok? <==> |id| == IdLength && IsHex(id)
    ensures r.Ok? ==> r.value == id
  {
    Check(Some(id))
  }

  /**
   * The three routes with an `:id` judge it alike: read and delete accept the same ids with
   * the same messages, and an id they refuse fails an update with that message, whatever
   * the body.
   */
  lemma IdRoutesAgree(id: string, body: seq<Field<Value>>)
    ensures GetTodoByIdSchema(id) == DeleteTodoSchema(id)
    ensures GetTodoByIdSchema(id).Err? ==> UpdateTodoSchema(id, body) == Err(GetTodoByIdSchema(id).error)
    ensures UpdateTodoSchema(id, body).Ok? ==> GetTodoByIdSchema(id) == Ok(id)
  {
  }

  /** A create body without `title` fails on it first. */
  lemma CreateMissingTitle(body: seq<Field<Value>>)
    requires Lookup(body, "title").None?
    ensures CreateTodoSchema(body) == Err("\"title\" is required")
  {
    assert Label("title") == "\"title\"";
    assert "\"title\"" + " is required" == "\"title\" is required";
  }

  /** A create body with a good title but no `description` names the description. */
  lemma CreateMissingDescription(body: seq<Field<Value>>)
    requires Within(Lookup(body, "title"), 3, 100) && Lookup(body, "description").None?
    ensures CreateTodoSchema(body) == Err("\"description\" is required")
  {
    assert Label("description") == "\"description\"";
    assert "\"description\"" + " is required" == "\"description\" is required";
  }

  /** An empty title is refused as empty, not as too short. */
  lemma CreateEmptyTitle(body: seq<Field<Value>>)
    requires Lookup(body, "title") == Some(Str(""))
    ensures CreateTodoSchema(body) == Err("\"title\" is not allowed to be empty")
  {
    assert Label("title") == "\"title\"";
    assert "\"title\"" + " is not allowed to be empty" == "\"title\" is not allowed to be empty";
  }

  /** A client cannot smuggle an owner in: a body naming `user` is refused. */
  lemma CreateRefusesUser(body: seq<Field<Value>>, owner: Value)
    requires Field("user", owner) in body
    ensures CreateTodoSchema(body).Err?
  {
  }

  /** Nor can an update move a todo to another owner. */
  lemma UpdateRefusesUser(id: string, body: seq<Field<Value>>, owner: Value)
    requires Field("user", owner) in body
    ensures UpdateTodoSchema(id, body).Err?
  {
  }

  /** A bad id is reported even when the body is bad too: params are checked first. */
  lemma UpdateIdFirst(id: string, body: seq<Field<Value>>)
    requires id != "" && !IsHex(id)
    ensures UpdateTodoSchema(id, body) == Err(HexMessage)
  {
  }
}
