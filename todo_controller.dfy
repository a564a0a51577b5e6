/**
 * The handlers of src/controllers/todo.controller.js over the Todo collection.
 * Every query they send is filtered by the owner taken from the session, so a user
 * sees, changes and deletes only their own todos. `Collection` and the `...Step`
 * functions state what each handler replies and what the collection holds afterwards;
 * `TodoStore` carries out the same operations in place and is proved against them.
 */
module TodoController {
  import opened Wrappers
  import opened Response
  import opened Http
  import opened ObjectId
  import opened TodoModel

  const ListedMessage: string := "User's todos fetched successfully."
  const FetchedMessage: string := "Todo details fetched successfully."
  const CreatedMessage: string := "Todo created successfully."
  const UpdatedMessage: string := "Todo updated successfully."
  const DeletedMessage: string := "Todo deleted successfully."
  const NotFoundMessage: string := "Todo not found"

  /** The page size when the query gives none. */
  const DefaultLimit: nat := 20

  /** The Todo collection: documents by `_id`, and the order a collection scan visits them in. */
  datatype Collection = Collection(docs: map<Id, Todo>, order: seq<Id>)

  ghost predicate Distinct(order: seq<Id>) {
    forall i, j :: 0 <= i < j < |order| ==> order[i] != order[j]
  }

  /** Every document is stored under its own `_id`, and the scan order lists each stored id once. */
  ghost predicate WellFormed(c: Collection) {
    && (forall id :: id in c.docs ==> c.docs[id].id == id)
    && (forall id :: id in c.order <==> id in c.docs)
    && Distinct(c.order)
  }

  /** The part of the collection one owner can reach: the documents whose `user` is theirs. */
  function OwnedBy(docs: map<Id, Todo>, owner: Id): (v: map<Id, Todo>)
    ensures forall id :: id in v <==> id in docs && docs[id].user == owner
    ensures forall id :: id in v ==> v[id] == docs[id]
  {
    map id | id in docs && docs[id].user == owner :: docs[id]
  }

  /** `findOne({_id: id, user: owner})`: a lookup in the owner's part of the collection. */
  function FindOwned(docs: map<Id, Todo>, owner: Id, id: Id): (r: Option<Todo>)
    ensures r == if id in OwnedBy(docs, owner) then Some(OwnedBy(docs, owner)[id]) else None
  {
    if id in docs && docs[id].user == owner then Some(docs[id]) else None
  }

  /** `find({user: owner})`: the owner's documents, in scan order. */
  function Scan(docs: map<Id, Todo>, order: seq<Id>, owner: Id): (r: seq<Todo>)
    ensures |r| <= |order|
    ensures forall t :: t in r ==> t.user == owner && t in docs.Values
  {
    if order == [] then []
    else
      var rest := Scan(docs, order[1..], owner);
      if order[0] in docs && docs[order[0]].user == owner then [docs[order[0]]] + rest else rest
  }

  /** The scan order without `id`. */
  function Remove(order: seq<Id>, id: Id): (r: seq<Id>)
    ensures forall x :: x in r <==> x in order && x != id
    ensures Distinct(order) ==> Distinct(r)
  {
    if order == [] then []
    else
      var rest := Remove(order[1..], id);
      assert Distinct(order) ==> Distinct(order[1..]) by {
        if Distinct(order) {
          forall i, j | 0 <= i < j < |order[1..]| ensures order[1..][i] != order[1..][j] {
            assert order[1..][i] == order[i + 1] && order[1..][j] == order[j + 1];
          }
        }
      }
      if order[0] == id then rest
      else
        assert Distinct(order) ==> order[0] !in order[1..];
        [order[0]] + rest
  }

  /** `.skip(skip)` then `.limit(limit)` on a cursor. */
  function Window<T>(s: seq<T>, skip: nat, limit: nat): (r: seq<T>)
    ensures |r| == if skip >= |s| then 0 else if |s| - skip < limit then |s| - skip else limit
    ensures forall i :: 0 <= i < |r| ==> r[i] == s[skip + i]
  {
    if skip >= |s| then [] else if |s| - skip < limit then s[skip..] else s[skip..skip + limit]
  }

  /**
   * `Number(skip) || 0`: a value that is not a number, or zero, means no skip.
   * MongoDB refuses a negative skip, and the handler passes that error on.
   */
  function SkipOf(q: Option<QueryValue>): (r: Result<nat, Fault>)
    ensures r.Err? <==> q.Some? && q.value.Numeric? && q.value.n < 0
    ensures r.Err? ==> r.error == QueryError
    ensures r.Ok? && q.Some? && q.value.Numeric? ==> r.value == q.value.n
    ensures q.None? || q.value.NonNumeric? ==> r == Ok(0)
  {
    match q
    case Some(Numeric(n)) => if n < 0 then Err(QueryError) else Ok(n)
    case _ => Ok(0)
  }

  /**
   * `Number(limit) || 20`: a value that is not a number, or zero, means 20.
   * MongoDB reads a negative limit `-n` as a page of `n`.
   */
  function LimitOf(q: Option<QueryValue>): (n: nat)
    ensures n >= 1
    ensures q.None? || q.value.NonNumeric? || q.value.n == 0 ==> n == DefaultLimit
    ensures q.Some? && q.value.Numeric? && q.value.n > 0 ==> n == q.value.n
    ensures q.Some? && q.value.Numeric? && q.value.n < 0 ==> n == -q.value.n
  {
    match q
    case Some(Numeric(n)) => if n > 0 then n else if n < 0 then -n else DefaultLimit
    case _ => DefaultLimit
  }

  /** The reply when no document matches both the id and the owner: a bare `{message}`, no `status`. */
  function NotFound<D>(): (r: Reply<D>)
    ensures r.Sent? && r.code == 404 && r.body.Status().None? && r.body.Data().None?
    ensures r.body.message == NotFoundMessage
  {
    Sent(404, Bare(NotFoundMessage))
  }

  /** getTodos: a page of the owner's todos. */
  function ListStep(c: Collection, owner: Id, skip: Option<QueryValue>, limit: Option<QueryValue>): (r: Reply<seq<Todo>>)
    ensures r.Forwarded? ==> r.fault == QueryError
    ensures r.Sent? ==> r.code == 200 && r.body.Data().Some? && |r.body.Data().value| <= LimitOf(limit)
    ensures r.Sent? ==> forall t :: t in r.body.Data().value ==> t.user == owner && t in c.docs.Values
  {
    match SkipOf(skip)
    case Err(fault) => Forwarded(fault)
    case Ok(k) => Sent(200, SuccessResponse(ListedMessage, Some(Window(Scan(c.docs, c.order, owner), k, LimitOf(limit)))))
  }

  /** getTodoById: an id Mongoose cannot cast is passed on as a CastError. */
  function GetStep(c: Collection, owner: Id, raw: string): (r: Reply<Todo>)
    ensures r.Forwarded? <==> Cast(raw).None?
    ensures r.Forwarded? ==> r.fault == CastError
    ensures r.Sent? ==> r.code in {200, 404}
    ensures r.Sent? && r.code == 200 ==>
      && r.body.Data().Some? && r.body.Data().value.user == owner
      && Cast(raw).value in c.docs && c.docs[Cast(raw).value] == r.body.Data().value
  {
    match Cast(raw)
    case None => Forwarded(CastError)
    case Some(id) =>
      match FindOwned(c.docs, owner, id)
      case None => NotFound()
      case Some(t) => Sent(200, SuccessResponse(FetchedMessage, Some(t)))
  }

  /** What a writing handler replies, and the collection after it. */
  datatype Outcome = Outcome(reply: Reply<Todo>, after: Collection)

  /**
   * createTodo: `Todo.create({...body, user: owner})` under the new id. The owner is
   * spread last, so it replaces any `user` in the body. Document validation runs
   * before the insert; an id already taken fails the insert.
   */
  function CreateStep(c: Collection, owner: Id, newId: Id, body: Draft): (o: Outcome)
    ensures WellFormed(c) ==> WellFormed(o.after)
  {
    match TodoModel.Create(newId, body.(user := Some(owner)))
    case Err(path) => Outcome(Forwarded(SchemaViolation(path)), c)
    case Ok(t) =>
      if newId in c.docs then Outcome(Forwarded(DuplicateKey), c)
      else Outcome(Sent(201, SuccessResponse(CreatedMessage, Some(t))),
                   Collection(c.docs[newId := t], c.order + [newId]))
  }

  /** updateTodo: `findOneAndUpdate({_id, user: owner}, body, {new: true})`. */
  function UpdateStep(c: Collection, owner: Id, raw: string, p: Patch): (o: Outcome)
    ensures WellFormed(c) ==> WellFormed(o.after)
  {
    match Cast(raw)
    case None => Outcome(Forwarded(CastError), c)
    case Some(id) =>
      match FindOwned(c.docs, owner, id)
      case None => Outcome(NotFound(), c)
      case Some(t) =>
        var u := Apply(t, p);
        Outcome(Sent(200, SuccessResponse(UpdatedMessage, Some(u))), Collection(c.docs[id := u], c.order))
  }

  /** deleteTodo: `findOneAndDelete({_id, user: owner})`, replying with the removed document. */
  function DeleteStep(c: Collection, owner: Id, raw: string): (o: Outcome)
    ensures WellFormed(c) ==> WellFormed(o.after)
  {
    match Cast(raw)
    case None => Outcome(Forwarded(CastError), c)
    case Some(id) =>
      match FindOwned(c.docs, owner, id)
      case None => Outcome(NotFound(), c)
      case Some(t) =>
        Outcome(Sent(200, SuccessResponse(DeletedMessage, Some(t))), Collection(c.docs - {id}, Remove(c.order, id)))
  }

  // ---------------------------------------------------------------- the scan

  lemma {:induction false} ScanFinds(docs: map<Id, Todo>, order: seq<Id>, owner: Id, id: Id)
    requires id in order && id in docs && docs[id].user == owner
    ensures docs[id] in Scan(docs, order, owner)
  {
    if order[0] != id {
      ScanFinds(docs, order[1..], owner, id);
    }
  }

  lemma {:induction false} ScanAppend(docs: map<Id, Todo>, order: seq<Id>, id: Id, owner: Id)
    ensures Scan(docs, order + [id], owner) == Scan(docs, order, owner) + Scan(docs, [id], owner)
  {
    if order != [] {
      assert (order + [id])[1..] == order[1..] + [id];
      ScanAppend(docs, order[1..], id, owner);
    }
  }

  /** The scan depends only on the owner's part of the collection. */
  lemma {:induction false} ScanSeesOwnedOnly(d1: map<Id, Todo>, d2: map<Id, Todo>, order: seq<Id>, owner: Id)
    requires OwnedBy(d1, owner) == OwnedBy(d2, owner)
    ensures Scan(d1, order, owner) == Scan(d2, order, owner)
  {
    if order != [] {
      ScanSeesOwnedOnly(d1, d2, order[1..], owner);
      var id := order[0];
      assert (id in d1 && d1[id].user == owner) <==> id in OwnedBy(d1, owner);
      assert (id in d2 && d2[id].user == owner) <==> id in OwnedBy(d2, owner);
    }
  }

  /** Taking an id the owner does not hold out of the scan order leaves their scan as it was. */
  lemma {:induction false} ScanRemoveForeign(docs: map<Id, Todo>, order: seq<Id>, id: Id, owner: Id)
    requires id !in docs || docs[id].user != owner
    ensures Scan(docs, Remove(order, id), owner) == Scan(docs, order, owner)
  {
    if order != [] {
      ScanRemoveForeign(docs, order[1..], id, owner);
    }
  }

  // ---------------------------------------------------------------- getTodos

  /** The defaults: no skip and a page of 20 when the query has neither, or zeros, or non-numbers. */
  lemma PageDefaults()
    ensures SkipOf(None) == Ok(0) && SkipOf(Some(Numeric(0))) == Ok(0) && SkipOf(Some(NonNumeric)) == Ok(0)
    ensures LimitOf(None) == 20 && LimitOf(Some(Numeric(0))) == 20 && LimitOf(Some(NonNumeric)) == 20
  {
  }

  /**
   * getTodos lists only todos the owner holds, each as stored, at most a page of them,
   * and the page starts `skip` places into the owner's scan.
   */
  lemma ListOnlyOwned(c: Collection, owner: Id, skip: Option<QueryValue>, limit: Option<QueryValue>)
    requires WellFormed(c)
    ensures ListStep(c, owner, skip, limit).Sent? <==> SkipOf(skip).Ok?
    ensures ListStep(c, owner, skip, limit).Forwarded? ==> ListStep(c, owner, skip, limit).fault == QueryError
    ensures ListStep(c, owner, skip, limit).Sent? ==>
      var body := ListStep(c, owner, skip, limit).body;
      && ListStep(c, owner, skip, limit).code == 200
      && body.Status() == Some(SuccessStatus) && body.message == ListedMessage && body.Data().Some?
      && |body.Data().value| <= LimitOf(limit)
      && (var n := |Scan(c.docs, c.order, owner)|; var k := SkipOf(skip).value;
          |body.Data().value| == if k >= n then 0 else if n - k < LimitOf(limit) then n - k else LimitOf(limit))
      && (forall t :: t in body.Data().value ==> t.user == owner && t.id in c.docs && c.docs[t.id] == t)
      && (forall i :: 0 <= i < |body.Data().value| ==>
            body.Data().value[i] == Scan(c.docs, c.order, owner)[SkipOf(skip).value + i])
  {
    var s := Scan(c.docs, c.order, owner);
    if SkipOf(skip).Ok? {
      var page := Window(s, SkipOf(skip).value, LimitOf(limit));
      forall t | t in page ensures t.user == owner && t.id in c.docs && c.docs[t.id] == t {
        var i :| 0 <= i < |page| && page[i] == t;
        assert t in s;
        var id :| id in c.docs && c.docs[id] == t;
      }
    }
  }

  /** An owner with at most 20 todos gets all of them from a query without skip and limit. */
  lemma FirstPageComplete(c: Collection, owner: Id)
    requires WellFormed(c)
    requires |OwnedBy(c.docs, owner)| <= DefaultLimit
    ensures ListStep(c, owner, None, None).Sent?
    ensures forall id :: id in c.docs && c.docs[id].user == owner ==>
              c.docs[id] in ListStep(c, owner, None, None).body.Data().value
  {
    var s := Scan(c.docs, c.order, owner);
    ScanDistinctIds(c, owner);
    ScanWithinOwned(c, owner, s);
    assert Window(s, 0, DefaultLimit) == s;
    forall id | id in c.docs && c.docs[id].user == owner ensures c.docs[id] in s {
      ScanFinds(c.docs, c.order, owner, id);
    }
  }

  /** Under a well-formed collection the scan visits each document once. */
  lemma {:induction false} ScanDistinctIds(c: Collection, owner: Id)
    requires WellFormed(c)
    ensures forall i, j :: 0 <= i < j < |Scan(c.docs, c.order, owner)| ==>
              Scan(c.docs, c.order, owner)[i].id != Scan(c.docs, c.order, owner)[j].id
  {
    ScanOrderDistinct(c.docs, c.order, owner);
  }

  lemma {:induction false} ScanOrderDistinct(docs: map<Id, Todo>, order: seq<Id>, owner: Id)
    requires Distinct(order)
    requires forall id :: id in docs ==> docs[id].id == id
    ensures forall t :: t in Scan(docs, order, owner) ==> t.id in order
    ensures forall i, j :: 0 <= i < j < |Scan(docs, order, owner)| ==>
              Scan(docs, order, owner)[i].id != Scan(docs, order, owner)[j].id
  {
    if order != [] {
      assert Distinct(order[1..]) by {
        forall i, j | 0 <= i < j < |order[1..]| ensures order[1..][i] != order[1..][j] {
          assert order[1..][i] == order[i + 1] && order[1..][j] == order[j + 1];
        }
      }
      ScanOrderDistinct(docs, order[1..], owner);
      var rest := Scan(docs, order[1..], owner);
      forall t | t in Scan(docs, order, owner) ensures t.id in order {
        if t in rest {
          assert t.id in order[1..];
        }
      }
      if order[0] in docs && docs[order[0]].user == owner {
        assert order[0] !in order[1..];
        forall j | 0 <= j < |rest| ensures rest[j].id != order[0] {
          assert rest[j] in rest;
        }
      }
    }
  }

  /** A scan with no repeated document is no longer than the owner's part of the collection. */
  lemma ScanWithinOwned(c: Collection, owner: Id, s: seq<Todo>)
    requires WellFormed(c) && s == Scan(c.docs, c.order, owner)
    requires forall i, j :: 0 <= i < j < |s| ==> s[i].id != s[j].id
    ensures |s| <= |OwnedBy(c.docs, owner)|
  {
    var ids := set i | 0 <= i < |s| :: s[i].id;
    forall id | id in ids ensures id in OwnedBy(c.docs, owner) {
      var i :| 0 <= i < |s| && s[i].id == id;
      assert s[i] in s;
      var k :| k in c.docs && c.docs[k] == s[i];
    }
    assert ids <= OwnedBy(c.docs, owner).Keys;
    assert |ids| <= |OwnedBy(c.docs, owner).Keys| by {
      SubsetCard(ids, OwnedBy(c.docs, owner).Keys);
    }
    IdsCount(s);
  }

  lemma SubsetCard(a: set<Id>, b: set<Id>)
    requires a <= b
    ensures |a| <= |b|
  {
    assert b == a + (b - a);
  }

  lemma {:induction false} IdsCount(s: seq<Todo>)
    requires forall i, j :: 0 <= i < j < |s| ==> s[i].id != s[j].id
    ensures |set i | 0 <= i < |s| :: s[i].id| == |s|
  {
    if s != [] {
      var n := |s| - 1;
      IdsCount(s[..n]);
      var front := set i | 0 <= i < n :: s[..n][i].id;
      assert (set i | 0 <= i < |s| :: s[i].id) == front + {s[n].id} by {
        forall i | 0 <= i < n ensures s[..n][i].id == s[i].id { }
      }
      assert s[n].id !in front;
    }
  }

  // ---------------------------------------------------------------- getTodoById

  /** getTodoById returns a todo exactly when it is stored under that id and held by the owner. */
  lemma GetFindsOwned(c: Collection, owner: Id, raw: string, t: Todo)
    requires WellFormed(c)
    ensures GetStep(c, owner, raw) == Sent(200, SuccessResponse(FetchedMessage, Some(t)))
            <==> Cast(raw) == Some(t.id) && t.id in c.docs && c.docs[t.id] == t && t.user == owner
  {
  }

  /**
   * A todo held by another user answers exactly as a missing one: getTodoById,
   * updateTodo and deleteTodo all reply 404 and leave the collection unchanged.
   */
  lemma ForeignTodoLikeMissing(c: Collection, owner: Id, raw: string, p: Patch)
    requires Cast(raw).Some?
    requires var id := Cast(raw).value; id !in c.docs || c.docs[id].user != owner
    ensures GetStep(c, owner, raw) == NotFound()
    ensures UpdateStep(c, owner, raw, p) == Outcome(NotFound(), c)
    ensures DeleteStep(c, owner, raw) == Outcome(NotFound(), c)
  {
  }

  /** Two collections that agree on the owner's part answer the owner's reads alike. */
  ghost predicate SameView(c1: Collection, c2: Collection, owner: Id) {
    OwnedBy(c1.docs, owner) == OwnedBy(c2.docs, owner)
    && Scan(c1.docs, c1.order, owner) == Scan(c2.docs, c2.order, owner)
  }

  lemma SameViewSameReads(c1: Collection, c2: Collection, owner: Id, raw: string,
                          skip: Option<QueryValue>, limit: Option<QueryValue>)
    requires SameView(c1, c2, owner)
    ensures GetStep(c1, owner, raw) == GetStep(c2, owner, raw)
    ensures ListStep(c1, owner, skip, limit) == ListStep(c2, owner, skip, limit)
  {
  }

  /** Another user's create leaves the owner's part of the collection and scan as they were. */
  lemma OthersCreateInvisible(c: Collection, owner: Id, other: Id, newId: Id, d: Draft)
    requires WellFormed(c) && other != owner
    ensures SameView(c, CreateStep(c, other, newId, d).after, owner)
  {
    var a := CreateStep(c, other, newId, d).after;
    if a != c {
      assert OwnedBy(a.docs, owner) == OwnedBy(c.docs, owner);
      ScanAppend(a.docs, c.order, newId, owner);
      ScanSeesOwnedOnly(a.docs, c.docs, c.order, owner);
    }
  }

  /** Another user's update, whose body cannot carry `user`, leaves the owner's view as it was. */
  lemma OthersUpdateInvisible(c: Collection, owner: Id, other: Id, raw: string, p: Patch)
    requires WellFormed(c) && other != owner && p.user.None?
    ensures SameView(c, UpdateStep(c, other, raw, p).after, owner)
  {
    var u := UpdateStep(c, other, raw, p).after;
    if u != c {
      assert OwnedBy(u.docs, owner) == OwnedBy(c.docs, owner);
      ScanSeesOwnedOnly(u.docs, c.docs, c.order, owner);
    }
  }

  /** Another user's delete leaves the owner's view as it was. */
  lemma OthersDeleteInvisible(c: Collection, owner: Id, other: Id, raw: string)
    requires WellFormed(c) && other != owner
    ensures SameView(c, DeleteStep(c, other, raw).after, owner)
  {
    var e := DeleteStep(c, other, raw).after;
    if e != c {
      var id := Cast(raw).value;
      assert OwnedBy(e.docs, owner) == OwnedBy(c.docs, owner);
      ScanSeesOwnedOnly(e.docs, c.docs, e.order, owner);
      ScanRemoveForeign(c.docs, c.order, id, owner);
    }
  }

  // ---------------------------------------------------------------- createTodo

  /** A `user` member in the body makes no difference: the owner comes from the session. */
  lemma CreateIgnoresBodyOwner(c: Collection, owner: Id, newId: Id, d: Draft, claimed: Option<Id>)
    ensures CreateStep(c, owner, newId, d.(user := claimed)) == CreateStep(c, owner, newId, d)
  {
  }

  /**
   * A successful create adds exactly one todo, under the new id, held by the session's
   * user, carrying the body's title and description and its state or the default.
   */
  lemma CreateAddsOne(c: Collection, owner: Id, newId: Id, d: Draft)
    ensures var o := CreateStep(c, owner, newId, d);
      o.reply.Sent? <==> newId !in c.docs && d.title.Some? && d.title.value != ""
                         && (d.state.Some? ==> d.state.value in StateNames)
    ensures var o := CreateStep(c, owner, newId, d);
      o.reply.Sent? ==>
        && o.reply.code == 201 && o.reply.body.Data().Some?
        && var t := o.reply.body.Data().value;
        && t.id == newId && t.user == owner && t.title == d.title.value && t.description == d.description
        && StateName(t.state) == d.state.GetOr(StateName(DefaultState))
        && o.after == Collection(c.docs[newId := t], c.order + [newId])
    ensures var o := CreateStep(c, owner, newId, d); o.reply.Forwarded? ==> o.after == c
  {
  }

  /** A todo just created is what getTodoById then returns to its creator. */
  lemma CreateThenGet(c: Collection, owner: Id, newId: Id, d: Draft)
    requires IsCanonical(newId)
    requires CreateStep(c, owner, newId, d).reply.Sent?
    ensures GetStep(CreateStep(c, owner, newId, d).after, owner, newId)
            == Sent(200, SuccessResponse(FetchedMessage, CreateStep(c, owner, newId, d).reply.body.Data()))
  {
    CastCanonical(newId);
  }

  // ---------------------------------------------------------------- updateTodo

  /**
   * updateTodo changes only the document matching both the id and the owner, applies only
   * the members present in the body, and replies with the document as it is afterwards.
   * Without a match it replies 404 and changes nothing.
   */
  lemma UpdateTouchesOnlyMatch(c: Collection, owner: Id, raw: string, p: Patch)
    requires Cast(raw).Some?
    ensures var o := UpdateStep(c, owner, raw, p); var id := Cast(raw).value;
      && o.after.order == c.order && o.after.docs.Keys == c.docs.Keys
      && (forall k :: k in c.docs && k != id ==> o.after.docs[k] == c.docs[k])
    ensures var o := UpdateStep(c, owner, raw, p); var id := Cast(raw).value;
      if id in c.docs && c.docs[id].user == owner then
        && o.after.docs[id] == Apply(c.docs[id], p)
        && o.reply == Sent(200, SuccessResponse(UpdatedMessage, Some(o.after.docs[id])))
      else o == Outcome(NotFound(), c)
  {
  }

  // ---------------------------------------------------------------- deleteTodo

  /**
   * deleteTodo removes exactly the document matching both the id and the owner and replies
   * with its last state; every other document stays. Without a match it replies 404.
   */
  lemma DeleteRemovesOnlyMatch(c: Collection, owner: Id, raw: string)
    requires WellFormed(c) && Cast(raw).Some?
    ensures var o := DeleteStep(c, owner, raw); var id := Cast(raw).value;
      && (forall k :: k != id ==> (k in o.after.docs <==> k in c.docs))
      && (forall k :: k in c.docs && k != id ==> o.after.docs[k] == c.docs[k])
    ensures var o := DeleteStep(c, owner, raw); var id := Cast(raw).value;
      if id in c.docs && c.docs[id].user == owner then
        && id !in o.after.docs && o.after.order == Remove(c.order, id)
        && o.reply == Sent(200, SuccessResponse(DeletedMessage, Some(c.docs[id])))
      else o == Outcome(NotFound(), c)
  {
  }

  /** A deleted todo is gone: getTodoById on its id then answers 404. */
  lemma DeleteThenGet(c: Collection, owner: Id, raw: string)
    requires WellFormed(c) && Cast(raw).Some?
    ensures GetStep(DeleteStep(c, owner, raw).after, owner, raw) == NotFound()
  {
  }

  /**
   * The Todo collection held in place. `List` and `GetById` only read it; `Create`,
   * `Update` and `Delete` insert, modify and remove one document.
   */
  class TodoStore {
    var docs: map<Id, Todo>
    var order: seq<Id>

    function Snapshot(): Collection
      reads this
    {
      Collection(docs, order)
    }

    ghost predicate Valid()
      reads this
    {
      WellFormed(Snapshot())
    }

    constructor ()
      ensures Valid() && Snapshot() == Collection(map[], [])
    {
      docs := map[];
      order := [];
    }

    method List(owner: Id, skip: Option<QueryValue>, limit: Option<QueryValue>) returns (reply: Reply<seq<Todo>>)
      ensures reply == ListStep(Snapshot(), owner, skip, limit)
    {
      var start := SkipOf(skip);
      if start.Err? {
        return Forwarded(start.error);
      }
      var todos := Window(Scan(docs, order, owner), start.value, LimitOf(limit));
      reply := Sent(200, SuccessResponse(ListedMessage, Some(todos)));
    }

    method GetById(owner: Id, raw: string) returns (reply: Reply<Todo>)
      ensures reply == GetStep(Snapshot(), owner, raw)
    {
      var id := Cast(raw);
      if id.None? {
        return Forwarded(CastError);
      }
      if id.value in docs && docs[id.value].user == owner {
        reply := Sent(200, SuccessResponse(FetchedMessage, Some(docs[id.value])));
      } else {
        reply := NotFound();
      }
    }

    method Create(owner: Id, newId: Id, body: Draft) returns (reply: Reply<Todo>)
      requires Valid()
      modifies this
      ensures Valid()
      ensures reply == CreateStep(old(Snapshot()), owner, newId, body).reply
      ensures Snapshot() == CreateStep(old(Snapshot()), owner, newId, body).after
    {
      var created := TodoModel.Create(newId, body.(user := Some(owner)));
      if created.Err? {
        return Forwarded(SchemaViolation(created.error));
      }
      if newId in docs {
        return Forwarded(DuplicateKey);
      }
      docs := docs[newId := created.value];
      order := order + [newId];
      reply := Sent(201, SuccessResponse(CreatedMessage, Some(created.value)));
    }

    method Update(owner: Id, raw: string, p: Patch) returns (reply: Reply<Todo>)
      requires Valid()
      modifies this
      ensures Valid()
      ensures reply == UpdateStep(old(Snapshot()), owner, raw, p).reply
      ensures Snapshot() == UpdateStep(old(Snapshot()), owner, raw, p).after
    {
      var id := Cast(raw);
      if id.None? {
        return Forwarded(CastError);
      }
      if id.value !in docs || docs[id.value].user != owner {
        return NotFound();
      }
      var updated := Apply(docs[id.value], p);
      docs := docs[id.value := updated];
      reply := Sent(200, SuccessResponse(UpdatedMessage, Some(updated)));
    }

    method Delete(owner: Id, raw: string) returns (reply: Reply<Todo>)
      requires Valid()
      modifies this
      ensures Valid()
      ensures reply == DeleteStep(old(Snapshot()), owner, raw).reply
      ensures Snapshot() == DeleteStep(old(Snapshot()), owner, raw).after
    {
      var id := Cast(raw);
      if id.None? {
        return Forwarded(CastError);
      }
      if id.value !in docs || docs[id.value].user != owner {
        return NotFound();
      }
      var removed := docs[id.value];
      docs := docs - {id.value};
      order := Remove(order, id.value);
      reply := Sent(200, SuccessResponse(DeletedMessage, Some(removed)));
    }
  }
}
