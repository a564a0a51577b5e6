/**
 * src/models/todo.model.js: the Todo record, its state enum with its default, and the
 * two ways Mongoose writes one: `Todo.create` (defaults and validators) and the `$set`
 * of a `findOneAndUpdate` (present fields only). `createdAt`/`updatedAt` are not modelled.
 */
module TodoModel {
  import opened Wrappers
  import opened ObjectId

  datatype State = Completed | Incomplete

  const StateNames: seq<string> := ["completed", "incomplete"]

  const DefaultState: State := Incomplete

  function StateName(s: State): (name: string)
    ensures name in StateNames
  {
    match s
    case Completed => "completed"
    case Incomplete => "incomplete"
  }

  function ParseState(name: string): (r: Option<State>)
    ensures r.Some? <==> name in StateNames
    ensures r.Some? ==> StateName(r.value) == name
  {
    if name == "completed" then Some(Completed)
    else if name == "incomplete" then Some(Incomplete)
    else None
  }

  /** The enum's names and its values are in one-to-one correspondence. */
  lemma ParseStateName(s: State)
    ensures ParseState(StateName(s)) == Some(s)
  {
  }

  /** A stored todo: `title` required, `description` optional, `user` the owner's id. */
  datatype Todo = Todo(id: Id, title: string, description: Option<string>, state: State, user: Id)

  /** The object handed to `Todo.create`: every member may be missing. */
  datatype Draft = Draft(title: Option<string>, description: Option<string>, state: Option<string>, user: Option<Id>)

  /**
   * `Todo.create(draft)` with a fresh `_id`: the `state` default is applied, then the
   * validators run in path order. A required string must be present and non-empty;
   * an error names the first failing path.
   */
  function Create(id: Id, d: Draft): (r: Result<Todo, string>)
    ensures r.Ok? <==> d.title.Some? && d.title.value != "" && d.user.Some?
                       && (d.state.Some? ==> d.state.value in StateNames)
    ensures r.Ok? ==> && r.value.id == id && r.value.user == d.user.value
                      && r.value.title == d.title.value && r.value.description == d.description
                      && StateName(r.value.state) == d.state.GetOr(StateName(DefaultState))
  {
    if d.title.None? || d.title.value == "" then Err("title")
    else if d.state.Some? && ParseState(d.state.value).None? then Err("state")
    else if d.user.None? then Err("user")
    else
      var state := if d.state.Some? then ParseState(d.state.value).value else DefaultState;
      Ok(Todo(id, d.title.value, d.description, state, d.user.value))
  }

  /** A draft without `state` is stored as "incomplete". */
  lemma CreateDefaultsState(id: Id, d: Draft)
    requires d.state.None? && Create(id, d).Ok?
    ensures Create(id, d).value.state == Incomplete
  {
  }

  /** The update document of a `findOneAndUpdate`: the members present in the request body. */
  datatype Patch = Patch(title: Option<string>, description: Option<string>, state: Option<State>, user: Option<Id>)

  const NoChange: Patch := Patch(None, None, None, None)

  /** `$set` of the present members; `_id` is never among them. */
  function Apply(t: Todo, p: Patch): (r: Todo)
    ensures r.id == t.id
    ensures p.user.None? ==> r.user == t.user
  {
    Todo(t.id,
         p.title.GetOr(t.title),
         if p.description.Some? then p.description else t.description,
         p.state.GetOr(t.state),
         p.user.GetOr(t.user))
  }

  /** Both patches' members, the second's winning where both are present. */
  function Then(p: Patch, q: Patch): Patch
  {
    Patch(if q.title.Some? then q.title else p.title,
          if q.description.Some? then q.description else p.description,
          if q.state.Some? then q.state else p.state,
          if q.user.Some? then q.user else p.user)
  }

  /** An empty body changes nothing. */
  lemma ApplyNoChange(t: Todo)
    ensures Apply(t, NoChange) == t
  {
  }

  /** Sending the same update twice is the same as sending it once. */
  lemma ApplyIdempotent(t: Todo, p: Patch)
    ensures Apply(Apply(t, p), p) == Apply(t, p)
  {
  }

  /** Two updates in a row act as one update with the later values winning. */
  lemma ApplyThen(t: Todo, p: Patch, q: Patch)
    ensures Apply(Apply(t, p), q) == Apply(t, Then(p, q))
  {
  }

  /** A member absent from the patch keeps its stored value; a present one takes the patch's. */
  lemma ApplyPartial(t: Todo, p: Patch)
    ensures p.title.None? ==> Apply(t, p).title == t.title
    ensures p.title.Some? ==> Apply(t, p).title == p.title.value
    ensures p.description.None? ==> Apply(t, p).description == t.description
    ensures p.description.Some? ==> Apply(t, p).description == p.description
    ensures p.state.None? ==> Apply(t, p).state == t.state
    ensures p.state.Some? ==> Apply(t, p).state == p.state.value
  {
  }
}
