/**
 * src/models/users.model.js: the User record, its required paths, the pre-save hook that
 * replaces `password` by its bcrypt digest on every save, and `comparePassword`.
 * The schema declares no unique index: nothing here stops two users sharing an email.
 */
module UserModel {
  import opened Wrappers
  import opened ObjectId
  import opened Bcrypt

  datatype User = User(id: Id, firstName: string, lastName: string, email: string, password: Secret)

  /** The object handed to `User.create`, the password still as typed. */
  datatype UserDraft = UserDraft(firstName: string, lastName: string, email: string, password: string)

  /** Mongoose's `required` on a string path fails for the empty string; the first failing path, in schema order. */
  function MissingRequired(u: User): (r: Option<string>)
    ensures r.None? <==> u.firstName != "" && u.lastName != "" && u.email != "" && u.password != Plain("")
  {
    if u.firstName == "" then Some("firstName")
    else if u.lastName == "" then Some("lastName")
    else if u.email == "" then Some("email")
    else if u.password == Plain("") then Some("password")
    else None
  }

  /**
   * `doc.save()`: Mongoose validates before any user hook runs, then the pre-save hook
   * re-hashes whatever `password` holds; no "only if modified" test guards it.
   */
  function Saved(u: User, rounds: int): (r: Result<User, string>)
    ensures r.Ok? <==> MissingRequired(u).None?
    ensures r.Ok? ==> r.value.password == Hash(u.password, rounds) && r.value.(password := u.password) == u
  {
    match MissingRequired(u)
    case Some(path) => Err(path)
    case None => Ok(u.(password := Hash(u.password, rounds)))
  }

  /** `User.create(draft)`: a new document with a fresh id, saved once. */
  function Created(id: Id, d: UserDraft, rounds: int): (r: Result<User, string>)
    ensures r.Ok? <==> d.firstName != "" && d.lastName != "" && d.email != "" && d.password != ""
    ensures r.Ok? ==> r.value == User(id, d.firstName, d.lastName, d.email, Hash(Plain(d.password), rounds))
  {
    Saved(User(id, d.firstName, d.lastName, d.email, Plain(d.password)), rounds)
  }

  /** A created user stores a digest, never the raw password, and that digest accepts the raw password. */
  lemma CreatedStoresDigest(id: Id, d: UserDraft, rounds: int)
    requires Created(id, d, rounds).Ok?
    ensures Created(id, d, rounds).value.password == Hash(Plain(d.password), rounds)
    ensures Created(id, d, rounds).value.password != Plain(d.password)
    ensures Compare(d.password, Created(id, d, rounds).value.password)
  {
  }

  /** Saving an already saved user again hashes the digest, after which the password no longer matches. */
  lemma SecondSaveLocksOut(u: User, password: string, rounds: int)
    requires u.firstName != "" && u.lastName != "" && u.email != ""
    requires u.password == Hash(Plain(password), rounds)
    ensures Saved(u, rounds).Ok?
    ensures !Compare(password, Saved(u, rounds).value.password)
  {
    RehashLocksOut(password, rounds, rounds);
  }

  /** `User.findOne({email})`: the first user in collection order whose email is exactly `email`. */
  function FindByEmail(users: seq<User>, email: string): (r: Option<User>)
    ensures r.None? <==> forall i :: 0 <= i < |users| ==> users[i].email != email
    ensures r.Some? ==> exists i :: 0 <= i < |users| && users[i] == r.value && r.value.email == email
                                    && forall j :: 0 <= j < i ==> users[j].email != email
  {
    if users == [] then None
    else if users[0].email == email then Some(users[0])
    else
      var r := FindByEmail(users[1..], email);
      assert forall i :: 1 <= i < |users| ==> users[i] == users[1..][i - 1];
      r
  }

  /** A mongoose document of the Users model, whose hooks change its fields in place. */
  class UserDocument {
    const id: Id
    var firstName: string
    var lastName: string
    var email: string
    var password: Secret

    /** `new User(draft)`: the password is still plain text until the document is saved. */
    constructor (id: Id, d: UserDraft)
      ensures Record() == User(id, d.firstName, d.lastName, d.email, Plain(d.password))
    {
      this.id := id;
      firstName := d.firstName;
      lastName := d.lastName;
      email := d.email;
      password := Plain(d.password);
    }

    function Record(): User
      reads this
    {
      User(id, firstName, lastName, email, password)
    }

    /** `save()`: validation, then the pre-save hook overwriting `this.password` with its digest. */
    method Save(rounds: int) returns (saved: Result<User, string>)
      modifies this
      ensures saved == Saved(old(Record()), rounds)
      ensures Record() == if saved.Ok? then saved.value else old(Record())
    {
      var missing := MissingRequired(Record());
      if missing.Some? {
        return Err(missing.value);
      }
      var newPassword := password;
      var hashedPassword := Hash(newPassword, rounds);
      password := hashedPassword;
      saved := Ok(Record());
    }

    /** `comparePassword(entered)`: bcrypt.compare against the stored field. */
    predicate ComparePassword(entered: string)
      reads this
    {
      Compare(entered, password)
    }
  }

  /** A document saved once from raw password p accepts p, and (within bcrypt's 72 characters) nothing else. */
  method CreateThenCompare(id: Id, d: UserDraft, rounds: int, entered: string) returns (matched: bool)
    requires d.firstName != "" && d.lastName != "" && d.email != "" && d.password != ""
    requires |d.password| <= KeyLimit && |entered| <= KeyLimit
    ensures matched <==> entered == d.password
  {
    var doc := new UserDocument(id, d);
    var saved := doc.Save(rounds);
    matched := doc.ComparePassword(entered);
    CompareHash(entered, d.password, rounds);
  }
}
