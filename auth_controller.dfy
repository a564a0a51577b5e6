/**
 * signup and login of src/controllers/auth.controller.js. Signup looks the email up and
 * creates the user only when it is new; login looks the email up, compares the password
 * with the stored digest and issues a one-day token. `SignupStep` and `LoginStep` state
 * the replies and the users stored afterwards; `UserStore` performs them in place.
 * `rounds` is the configured bcrypt salt rounds, `key` the configured JWT secret and
 * `now` the clock in seconds.
 */
module AuthController {
  import opened Wrappers
  import opened Response
  import opened Http
  import opened ObjectId
  import opened Bcrypt
  import opened Jwt
  import opened UserModel

  const DuplicateMessage: string := "Email already exists."
  const RegisteredMessage: string := "User registered successfully."
  const UnknownUserMessage: string := "User not found."
  const BadPasswordMessage: string := "Invalid Credentials."
  const LoggedInMessage: string := "User logged in successfully."

  /** The `data` of a successful login: `{token}`. */
  datatype AuthData = TokenData(token: Token)

  /** The claims login signs: the stored user's email and names, nothing else. */
  function ClaimsOf(u: User): (claims: Claims)
    ensures claims.Keys == {"email", "firstName", "lastName"}
    ensures claims["email"] == u.email && claims["firstName"] == u.firstName && claims["lastName"] == u.lastName
  {
    map["email" := u.email, "firstName" := u.firstName, "lastName" := u.lastName]
  }

  ghost predicate DistinctIds(users: seq<User>) {
    forall i, j :: 0 <= i < j < |users| ==> users[i].id != users[j].id
  }

  ghost predicate UniqueEmails(users: seq<User>) {
    forall i, j :: 0 <= i < j < |users| ==> users[i].email != users[j].email
  }

  /** Whether a stored user already has `_id` `id`; inserting another fails on the `_id` index. */
  predicate IdTaken(users: seq<User>, id: Id)
  {
    exists i :: 0 <= i < |users| && users[i].id == id
  }

  /** What signup replies, and the users stored afterwards. */
  datatype SignupOutcome = SignupOutcome(reply: Reply<AuthData>, users: seq<User>)

  /** signup: check the email, then `User.create(payload)`; the reply carries no data. */
  function SignupStep(users: seq<User>, d: UserDraft, newId: Id, rounds: int): (o: SignupOutcome)
    ensures o.users == users || (|o.users| == |users| + 1 && o.users[..|users|] == users)
    ensures o.reply.Sent? ==> o.reply.code in {201, 409} && o.reply.body.Data().None?
  {
    if FindByEmail(users, d.email).Some? then
      SignupOutcome(Sent(409, FailureResponse(Some(DuplicateMessage))), users)
    else
      match Created(newId, d, rounds)
      case Err(path) => SignupOutcome(Forwarded(SchemaViolation(path)), users)
      case Ok(u) =>
        if IdTaken(users, newId) then SignupOutcome(Forwarded(DuplicateKey), users)
        else SignupOutcome(Sent(201, SuccessResponse(RegisteredMessage, None)), users + [u])
  }

  /** login: find the user by exact email, compare the password, sign the claims for one day. */
  function LoginStep(users: seq<User>, email: string, password: string, key: string, now: int): (r: Reply<AuthData>)
    ensures r.Sent? && r.code in {200, 401, 404}
    ensures r.body.Data().Some? <==> r.code == 200
  {
    match FindByEmail(users, email)
    case None => Sent(404, FailureResponse(Some(UnknownUserMessage)))
    case Some(u) =>
      if !Compare(password, u.password) then Sent(401, FailureResponse(Some(BadPasswordMessage)))
      else Sent(200, SuccessResponse(LoggedInMessage, Some(TokenData(Sign(ClaimsOf(u), key, now)))))
  }

  /**
   * Signup has three ends. An email already stored gives 409 and stores nothing. A new email
   * with a valid record and a free id adds exactly one user, holding the bcrypt digest of the
   * password, and replies 201 without a token. Anything else is passed on and stores nothing.
   */
  lemma SignupOutcomes(users: seq<User>, d: UserDraft, newId: Id, rounds: int)
    ensures var o := SignupStep(users, d, newId, rounds);
      o.reply == Sent(409, FailureResponse(Some(DuplicateMessage))) <==> exists i :: 0 <= i < |users| && users[i].email == d.email
    ensures var o := SignupStep(users, d, newId, rounds);
      o.reply.Sent? && o.reply.code == 201 <==>
        && (forall i :: 0 <= i < |users| ==> users[i].email != d.email)
        && d.firstName != "" && d.lastName != "" && d.email != "" && d.password != ""
        && !IdTaken(users, newId)
    ensures var o := SignupStep(users, d, newId, rounds);
      if o.reply.Sent? && o.reply.code == 201 then
        && o.reply.body == SuccessResponse(RegisteredMessage, None) && o.reply.body.Data().None?
        && o.users == users + [User(newId, d.firstName, d.lastName, d.email, Hash(Plain(d.password), rounds))]
      else o.users == users
  {
  }

  /** Signup keeps emails unique, and ids distinct, among the stored users. */
  lemma SignupKeepsInvariants(users: seq<User>, d: UserDraft, newId: Id, rounds: int)
    requires UniqueEmails(users) && DistinctIds(users)
    ensures UniqueEmails(SignupStep(users, d, newId, rounds).users)
    ensures DistinctIds(SignupStep(users, d, newId, rounds).users)
  {
  }

  /** In a collection where an email is new, appending a user with that email makes it the one found. */
  lemma FindAppended(users: seq<User>, u: User)
    requires forall i :: 0 <= i < |users| ==> users[i].email != u.email
    ensures FindByEmail(users + [u], u.email) == Some(u)
  {
    var all := users + [u];
    assert all[|users|] == u;
    assert forall i :: 0 <= i < |users| ==> all[i] == users[i];
  }

  /** Signing up twice with one email: the second attempt is 409 and stores nothing. */
  lemma SecondSignupConflicts(users: seq<User>, d: UserDraft, e: UserDraft, id1: Id, id2: Id, rounds: int)
    requires SignupStep(users, d, id1, rounds).reply.Sent? && SignupStep(users, d, id1, rounds).reply.code == 201
    requires e.email == d.email
    ensures var after := SignupStep(users, d, id1, rounds).users;
      SignupStep(after, e, id2, rounds) == SignupOutcome(Sent(409, FailureResponse(Some(DuplicateMessage))), after)
  {
    SignupOutcomes(users, d, id1, rounds);
    var after := SignupStep(users, d, id1, rounds).users;
    assert after[|users|].email == d.email;
  }

  /**
   * Login has three ends, decided by the first stored user with exactly that email. No such
   * user gives 404. A user whose digest rejects the password gives 401. A user whose digest
   * accepts it gives 200 with `data = {token}`, where the token carries exactly that user's
   * email and names, is signed with the key, is issued now and expires one day later.
   * Nothing is ever passed on.
   */
  lemma LoginOutcomes(users: seq<User>, email: string, password: string, key: string, now: int)
    ensures var r := LoginStep(users, email, password, key, now);
      && r.Sent? && r.code in {200, 401, 404}
      && (r.code == 404 <==> forall i :: 0 <= i < |users| ==> users[i].email != email)
      && (r.code == 404 ==> r.body == FailureResponse(Some(UnknownUserMessage)))
      && (r.code == 401 ==> r.body == FailureResponse(Some(BadPasswordMessage)))
    ensures var r := LoginStep(users, email, password, key, now); var found := FindByEmail(users, email);
      && (r.code == 200 <==> found.Some? && Compare(password, found.value.password))
      && (r.code == 401 <==> found.Some? && !Compare(password, found.value.password))
    ensures var r := LoginStep(users, email, password, key, now); var found := FindByEmail(users, email);
      r.code == 200 ==>
        && r.body.Status() == Some(SuccessStatus) && r.body.message == LoggedInMessage && r.body.Data().Some?
        && var t := r.body.Data().value.token;
        && t.payload.claims == ClaimsOf(found.value) && SignedWith(t, key)
        && t.payload.iat == now && t.payload.exp == Some(now + OneDay)
  {
  }

  /** Signing up and then logging in with the same email and password succeeds, for any password. */
  lemma SignupThenLogin(users: seq<User>, d: UserDraft, newId: Id, rounds: int, key: string, now: int)
    requires SignupStep(users, d, newId, rounds).reply.Sent? && SignupStep(users, d, newId, rounds).reply.code == 201
    ensures var u := User(newId, d.firstName, d.lastName, d.email, Hash(Plain(d.password), rounds));
      LoginStep(SignupStep(users, d, newId, rounds).users, d.email, d.password, key, now)
        == Sent(200, SuccessResponse(LoggedInMessage, Some(TokenData(Sign(ClaimsOf(u), key, now)))))
  {
    SignupOutcomes(users, d, newId, rounds);
    var u := User(newId, d.firstName, d.lastName, d.email, Hash(Plain(d.password), rounds));
    FindAppended(users, u);
    CompareOwnHash(d.password, rounds);
  }

  /**
   * After signing up with password p, login with another password q of at most 72 characters
   * is refused with 401 (bcrypt keys on the first 72).
   */
  lemma WrongPasswordRefused(users: seq<User>, d: UserDraft, newId: Id, rounds: int, q: string, key: string, now: int)
    requires SignupStep(users, d, newId, rounds).reply.Sent? && SignupStep(users, d, newId, rounds).reply.code == 201
    requires |q| <= KeyLimit && |d.password| <= KeyLimit && q != d.password
    ensures LoginStep(SignupStep(users, d, newId, rounds).users, d.email, q, key, now)
            == Sent(401, FailureResponse(Some(BadPasswordMessage)))
  {
    SignupOutcomes(users, d, newId, rounds);
    var u := User(newId, d.firstName, d.lastName, d.email, Hash(Plain(d.password), rounds));
    FindAppended(users, u);
    CompareHash(q, d.password, rounds);
  }

  /**
   * bcrypt's 72-character key: after signing up with a password longer than 72 characters,
   * any password with the same first 72 characters logs in too.
   */
  lemma LongPasswordPrefixLogsIn(users: seq<User>, d: UserDraft, newId: Id, rounds: int, q: string, key: string, now: int)
    requires SignupStep(users, d, newId, rounds).reply.Sent? && SignupStep(users, d, newId, rounds).reply.code == 201
    requires |q| > KeyLimit && |d.password| > KeyLimit && q[..KeyLimit] == d.password[..KeyLimit]
    ensures LoginStep(SignupStep(users, d, newId, rounds).users, d.email, q, key, now).code == 200
  {
    SignupOutcomes(users, d, newId, rounds);
    var u := User(newId, d.firstName, d.lastName, d.email, Hash(Plain(d.password), rounds));
    FindAppended(users, u);
    LongPasswordsCollide(d.password, q, rounds);
  }

  /** The Users collection held in place. */
  class UserStore {
    var users: seq<User>

    ghost predicate Valid()
      reads this
    {
      DistinctIds(users)
    }

    constructor ()
      ensures Valid() && users == []
    {
      users := [];
    }

    /** signup, creating the user through a document whose save hook hashes the password. */
    method Signup(d: UserDraft, newId: Id, rounds: int) returns (reply: Reply<AuthData>)
      requires Valid()
      modifies this
      ensures Valid()
      ensures reply == SignupStep(old(users), d, newId, rounds).reply
      ensures users == SignupStep(old(users), d, newId, rounds).users
    {
      var existing := FindByEmail(users, d.email);
      if existing.Some? {
        return Sent(409, FailureResponse(Some(DuplicateMessage)));
      }
      var doc := new UserDocument(newId, d);
      var saved := doc.Save(rounds);
      if saved.Err? {
        return Forwarded(SchemaViolation(saved.error));
      }
      if IdTaken(users, newId) {
        return Forwarded(DuplicateKey);
      }
      users := users + [saved.value];
      reply := Sent(201, SuccessResponse(RegisteredMessage, None));
    }

    /** login; it only reads the store. */
    method Login(email: string, password: string, key: string, now: int) returns (reply: Reply<AuthData>)
      ensures reply == LoginStep(users, email, password, key, now)
    {
      var user := FindByEmail(users, email);
      if user.None? {
        return Sent(404, FailureResponse(Some(UnknownUserMessage)));
      }
      var isPasswordMatched := Compare(password, user.value.password);
      if !isPasswordMatched {
        return Sent(401, FailureResponse(Some(BadPasswordMessage)));
      }
      var token := Sign(ClaimsOf(user.value), key, now);
      reply := Sent(200, SuccessResponse(LoggedInMessage, Some(TokenData(token))));
    }
  }
}
