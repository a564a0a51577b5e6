/**
 * What a handler or middleware does with one Express request: send a reply
 * (`res.status(code).json(body)`) or pass an error on (`next(error)`), and the
 * request parts the validators and handlers read.
 */
module Http {
  import opened Wrappers
  import opened Response

  datatype Verb = Get | Post | Put | Delete

  /** A JSON value in a request body: a string, or any other JSON value. */
  datatype Value = Str(text: string) | NonString

  /**
   * A query-string value: one that both JavaScript's `Number()` and Joi's `number()`
   * read as the integer `n`, or one they do not read as a number.
   */
  datatype QueryValue = Numeric(n: int) | NonNumeric

  /** One member of a parsed JSON object or query string, in the order the client sent them. */
  datatype Field<+V> = Field(key: string, value: V)

  /** The first value stored under `key`, if any. */
  function Lookup<V>(fields: seq<Field<V>>, key: string): (r: Option<V>)
    ensures r.Some? <==> exists i :: 0 <= i < |fields| && fields[i].key == key
    ensures r.Some? ==> Field(key, r.value) in fields
  {
    if fields == [] then None
    else if fields[0].key == key then Some(fields[0].value)
    else
      var r := Lookup(fields[1..], key);
      assert forall i :: 1 <= i < |fields| ==> fields[i] == fields[1..][i - 1];
      r
  }

  /**
   * A request below a router's mount point: `path` holds the segments after it
   * (`/todos/abc` under `/todos` is ["abc"]).
   */
  datatype Request = Request(
    verb: Verb,
    path: seq<string>,
    authorization: Option<string>,
    query: seq<Field<QueryValue>>,
    body: seq<Field<Value>>)

  /** Errors handed to `next(error)`; the application's error middleware is not part of this model. */
  datatype Fault =
    | ValidationError(message: string)   // express-validation rejected a request part
    | CastError                          // Mongoose could not cast the id to an ObjectId
    | SchemaViolation(path: string)      // Mongoose document validation failed on `path`
    | QueryError                         // MongoDB refused the query (a negative skip)
    | DuplicateKey                       // the insert's `_id` is already taken
    | NoRoute                            // no route matched; the request falls through the router

  datatype Reply<+D> = Sent(code: int, body: Body<D>) | Forwarded(fault: Fault)

  /** The same reply with its `data` member re-wrapped by `f`. */
  function MapReply<A, B>(r: Reply<A>, f: A -> B): (q: Reply<B>)
    ensures q.Sent? <==> r.Sent?
    ensures r.Sent? ==> q.code == r.code && q.body.Status() == r.body.Status() && q.body.message == r.body.message
    ensures r.Forwarded? ==> q == Forwarded(r.fault)
  {
    match r
    case Forwarded(fault) => Forwarded(fault)
    case Sent(code, body) =>
      Sent(code, match body
                 case Bare(m) => Bare(m)
                 case Envelope(s, m, d) => Envelope(s, m, if d.Some? then Some(f(d.value)) else None))
  }
}
