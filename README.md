# Todo service core in Dafny

A model of the request-handling core of an Express/Mongoose to-do service. Users sign up and log
in (`POST /auth/signup`, `POST /auth/login`). Login issues a JWT that lives for one day. Each todo
route (`GET/POST /todos`, `GET/PUT/DELETE /todos/:id`) runs three stages in order:

1. the `verifyToken` guard;
2. a Joi schema, through `validate(...)`;
3. a controller that reads or writes only the signed-in user's todos.

Modules follow the source files:

| module | source file |
|---|---|
| `Response` | `response.util.js` |
| `ObjectId` | `objectId.validation.js` |
| `TodoValidation` | `todo.validation.js` |
| `AuthValidation` | `auth.validation.js` |
| `TodoModel` | `todo.model.js` |
| `UserModel` | `users.model.js` |
| `TodoController` | `todo.controller.js` |
| `AuthController` | `auth.controller.js` |
| `AuthMiddleware` | `auth.middleware.js` |
| `TodoRoute` | `todo.route.js` |
| `AuthRoute` | `auth.route.js` |

Support modules:

- `Joi`: the default Joi rules and messages the schemas rely on.
- `Bcrypt` and `Jwt`: the behaviour the code relies on from bcryptjs and jsonwebtoken.
- `Http`: request and reply shapes.
- `Strings`: JavaScript's `split` on one character.
- `Wrappers`: `Option` and `Result`.

Each controller operation is specified twice:

- As a step function on values. Examples are `TodoController.UpdateStep` on a `Collection` (documents by id, plus their insertion order) and `AuthController.SignupStep` on the sequence of stored users.
- As a method of a class that holds the collection in place: `TodoStore`, `UserStore`, `UserDocument` and `RequestContext`. Each method is proved to match its step function.

The route pipelines (`TodoRoute.Pipeline`, `AuthRoute.AuthPipeline`) compose the stages on values. The methods `Serve` and `ServeAuth` drive the classes and are proved equal to those pipelines.

The environment is passed in as parameters:

- `now`: the clock, in seconds;
- `key`: the JWT secret;
- `rounds`: the bcrypt salt rounds;
- `newId`: the ObjectId a create would assign;
- `decode`: parsing of the compact token string;
- `lookupFails`: whether the guard's user lookup throws.

A reply is one of:

- `Sent(code, body)`, for `res.status(code).json(body)`;
- `Forwarded(fault)`, for `next(error)`.

Wherever the code calls `next(error)`, the fault is named: a validation message, a cast failure, a schema violation, a query error, a duplicate key, or no route. How the application's error middleware turns a fault into a status is not part of this model.

Some details of the code that the model keeps:

- A todo title has 3 to 100 characters, and a description 3 to 500.
- A 23-digit hex id fails the ObjectId check with the length message. A non-hex id of any length fails with the format message, because Joi applies `hex` before `length`.
- The login password must not be empty: Joi's `string().required()` refuses `""`.
- The guard takes the second space-separated piece of the Authorization header and never checks the `Bearer` word.

## Model

| member | source | states |
|---|---|---|
| Response.SuccessResponse | src/utils/response.util.js:1-7 | the envelope has status "success" and carries the message and the data unchanged |
| Response.FailureResponse | src/utils/response.util.js:9-14 | the envelope has status "error", no data, and the message, which defaults to "" |
| Response.EnvelopesDistinct | src/utils/response.util.js:1-14 | a success envelope, a failure envelope and a bare `{message}` body are never equal |
| ObjectId.Check | src/validations/objectId.validation.js:3-7 | an id is accepted iff it is 24 hex digits in either case; an accepted id is passed on unchanged; a missing id fails with "ObjectId is required." and an empty one with Joi's empty-string message |
| ObjectId.NonHexReportsFormat | src/validations/objectId.validation.js:3-4 | a non-empty id with a non-hex character fails with the format message, whatever its length |
| ObjectId.WrongLengthReportsLength | src/validations/objectId.validation.js:3-5 | a hex id of the wrong length, such as 23 digits, fails with the length message |
| ObjectId.SampleInvalidId | src/test/todo.test.js:103-112 | the id "invalid-id" fails with the format message |
| ObjectId.Cast | src/controllers/todo.controller.js:38 | Mongoose's cast of an `_id` filter value succeeds iff the value is 24 hex digits, and yields a canonical id |
| ObjectId.CastCanonical | src/controllers/todo.controller.js:38 | casting the canonical spelling of an id gives that id back |
| ObjectId.CheckMatchesCast | src/validations/todo.validation.js:36 | an id the route schema accepts always casts, so no validated request reaches a cast error |
| Joi.CheckString | src/validations/todo.validation.js:7-8 | a string rule accepts iff the value is absent and optional, or is a string within the length bounds and non-empty |
| Joi.CheckOneOf | src/validations/todo.validation.js:9 | `valid(...)` accepts iff the value is absent or is one of the listed strings |
| Joi.CheckNumber | src/validations/todo.validation.js:28-29 | `number()` accepts iff the value is absent or numeric, and passes the number on |
| Joi.CheckEmail | src/validations/auth.validation.js:7 | `email().required()` accepts iff a non-empty string of address shape is present, and passes it on |
| Joi.FirstUnknown | src/validations/todo.validation.js:6-10 | none is reported iff every key is declared; a reported key is present and undeclared |
| Joi.CheckNoUnknown | src/validations/todo.validation.js:6-10 | an object schema accepts iff every key in the body is declared |
| Joi.PlainAddressAccepted | src/validations/auth.validation.js:7 | an address of the form local@name.tld is accepted |
| TodoValidation.CreateTodoSchema | src/validations/todo.validation.js:5-11 | accepts iff the title has 3-100 characters, the description has 3-500, the state is absent or allowed, and there are no other keys; the draft holds those values and no owner |
| TodoValidation.UpdateTodoSchema | src/validations/todo.validation.js:14-23 | accepts iff the id passes the ObjectId check and each present member obeys the create bounds with no other keys; a bad id is reported first; the patch holds exactly the present members, with the state parsed from its name |
| TodoValidation.GetTodosSchema | src/validations/todo.validation.js:26-31 | accepts iff `skip` and `limit` are absent or numeric and there are no other query keys; the page holds them as given |
| TodoValidation.GetTodoByIdSchema | src/validations/todo.validation.js:34-38 | accepts iff the id is 24 hex digits, and passes it on |
| TodoValidation.DeleteTodoSchema | src/validations/todo.validation.js:41-45 | accepts iff the id is 24 hex digits, and passes it on |
| TodoValidation.IdRoutesAgree | src/validations/todo.validation.js:14-45 | deleteTodoSchema is the same check as getTodoByIdSchema, and update judges the `:id` alike: an id the read refuses fails the update with the same message, whatever the body |
| TodoValidation.CreateMissingTitle | src/test/todo.test.js:62-73 | a create body without a title fails with "\"title\" is required" |
| TodoValidation.CreateMissingDescription | src/test/todo.test.js:75-86 | a create body with a good title and no description fails with "\"description\" is required" |
| TodoValidation.CreateEmptyTitle | src/validations/todo.validation.js:7 | an empty title fails as empty, not as too short |
| TodoValidation.CreateRefusesUser | src/validations/todo.validation.js:6-10 | a create body that names `user` is refused |
| TodoValidation.UpdateRefusesUser | src/validations/todo.validation.js:18-22 | an update body that names `user` is refused |
| TodoValidation.UpdateIdFirst | src/validations/todo.validation.js:14-17 | a non-hex id fails an update with the format message, even when the body is also bad |
| AuthValidation.SignupSchema | src/validations/auth.validation.js:3-10 | accepts iff the names have 1-50 characters, the email has address shape, the password has 6-128 characters, and there are no other keys; the draft holds the values found under those keys |
| AuthValidation.LoginSchema | src/validations/auth.validation.js:12-17 | accepts iff the email has address shape, the password is a non-empty string, and there are no other keys; the credentials hold the values found under those keys |
| AuthValidation.SignupMissingLastName | src/test/auth.test.js:75-85 | a signup body without lastName fails with "\"lastName\" is required" |
| AuthValidation.SignupBounds | src/validations/auth.validation.js:5-8 | an accepted signup has a password of 6 to 128 characters and non-empty names |
| TodoModel.StateName | src/models/todo.model.js:7-9 | every state is spelled as one of the two enum names |
| TodoModel.ParseState | src/models/todo.model.js:7-9 | a name parses iff it is one of the enum names, and parsing inverts spelling |
| TodoModel.ParseStateName | src/models/todo.model.js:7-9 | spelling a state and parsing it back gives the same state |
| TodoModel.Create | src/models/todo.model.js:3-18 | a document is created iff it has a non-empty title, an owner and a state that is absent or one of the enum names; it keeps the given id, owner, title and description, and the given state or "incomplete" |
| TodoModel.CreateDefaultsState | src/models/todo.model.js:10 | a todo created without a state is "incomplete" |
| TodoModel.Apply | src/controllers/todo.controller.js:79 | applying an update never changes the id, nor the owner unless the update names one |
| TodoModel.ApplyNoChange | src/controllers/todo.controller.js:79 | an empty update leaves the todo as it was |
| TodoModel.ApplyIdempotent | src/controllers/todo.controller.js:79 | applying the same update twice equals applying it once |
| TodoModel.ApplyThen | src/controllers/todo.controller.js:79 | two updates in a row equal their combination applied once |
| TodoModel.ApplyPartial | src/controllers/todo.controller.js:79 | each member present in the update replaces the stored one, and each absent member is kept |
| UserModel.MissingRequired | src/models/users.model.js:7-10 | a user passes schema validation iff all four required fields are non-empty |
| UserModel.Saved | src/models/users.model.js:18-23 | saving succeeds iff the required fields are present; the stored password is the bcrypt digest of the value held, and every other field is unchanged |
| UserModel.Created | src/controllers/auth.controller.js:29 | `User.create` succeeds iff all four fields are non-empty, and stores the given id, names and email with the digest of the password |
| UserModel.CreatedStoresDigest | src/models/users.model.js:18-23 | a created user stores a digest, never the password, and the digest matches the password |
| UserModel.SecondSaveLocksOut | src/models/users.model.js:18-23 | saving an already hashed user hashes the digest again, and the original password no longer matches |
| UserModel.FindByEmail | src/controllers/auth.controller.js:53 | `findOne({email})` finds nothing iff no stored user has exactly that email; otherwise it finds a stored user with that email |
| UserModel.UserDocument.Save | src/models/users.model.js:18-23 | the document's save hook replaces the password by its digest and leaves the document unchanged on a validation failure |
| UserModel.CreateThenCompare | src/models/users.model.js:25-27 | for passwords of at most 72 characters, a created user's `comparePassword` accepts exactly the password it was created with |
| Bcrypt.Significant | src/models/users.model.js:26 | bcrypt keys on a prefix of at most 72 characters, which is the whole of a shorter password |
| Bcrypt.Hash | src/models/users.model.js:20 | a hash is a digest and never equals its input |
| Bcrypt.CompareHash | src/models/users.model.js:25-27 | for passwords of at most 72 characters, a candidate matches a digest iff it equals the hashed password |
| Bcrypt.CompareOwnHash | src/models/users.model.js:25-27 | every password matches its own digest |
| Bcrypt.LongPasswordsCollide | src/models/users.model.js:25-27 | two passwords longer than 72 characters that share their first 72 match each other's digest |
| Bcrypt.PlainNeverMatches | src/models/users.model.js:25-27 | a stored value that is not a digest matches no candidate |
| Bcrypt.RehashLocksOut | src/models/users.model.js:18-23 | a password never matches a digest of its own digest |
| Jwt.Sign | src/controllers/auth.controller.js:66-68 | a signed token carries the claims given, is signed with the key, is issued now, and expires one day later |
| Jwt.Verify | src/middlewares/auth.middleware.js:28 | verification yields the payload only for a token signed with the key; "expired" is reported only for a genuinely signed token |
| Jwt.IssuedTokenLifetime | src/controllers/auth.controller.js:66-68 | an issued token verifies before iat + 86400 seconds and is expired from that second on |
| Jwt.ExpiryBoundary | src/controllers/auth.controller.js:67 | a minute before the day ends the token verifies; at the end and a minute after, it is expired |
| Jwt.ForeignKeyInvalid | src/test/todo.test.js:38-47 | a token signed with another secret is invalid at any time |
| Jwt.TamperedInvalid | src/middlewares/auth.middleware.js:28 | a token whose payload was changed after signing is invalid |
| Strings.Split | src/middlewares/auth.middleware.js:21 | `split` gives one more piece than there are separators in the string |
| Strings.JoinSplit | src/middlewares/auth.middleware.js:21 | splitting on a character and joining with it gives back the header |
| Strings.SplitPiecesFree | src/middlewares/auth.middleware.js:21 | no split piece contains the separator |
| Strings.SplitWhole | src/middlewares/auth.middleware.js:21 | a string without the separator splits into itself alone |
| Strings.SplitAfter | src/middlewares/auth.middleware.js:21 | a separator-free word then the separator splits off as the first piece |
| Http.Lookup | src/controllers/auth.controller.js:51 | a key is found iff some field has it, and the value found belongs to such a field |
| Http.MapReply | src/controllers/todo.controller.js:19 | wrapping the data keeps the code, the status and the message, and passes faults through |
| AuthMiddleware.BearerToken | src/middlewares/auth.middleware.js:21-23 | without a header there is no token, and a token read is never empty and has no space |
| AuthMiddleware.TokenAfterFirstSpace | src/middlewares/auth.middleware.js:21 | the token read is the text between the first space and the next space or the end |
| AuthMiddleware.TokenShape | src/middlewares/auth.middleware.js:21-23 | any token read is non-empty, space-free, and sits right after the first space |
| AuthMiddleware.BearerTokenShape | src/middlewares/auth.middleware.js:21-23 | the guard reads token t iff the header is a space-free word, a space, t, and then nothing or a space and anything |
| AuthMiddleware.AnySchemeWord | src/middlewares/auth.middleware.js:21 | any scheme word in front of the token is accepted, not just "Bearer" |
| AuthMiddleware.NoSpaceNoToken | src/middlewares/auth.middleware.js:21-26 | a header without a space carries no token |
| AuthMiddleware.MessagesDistinct | src/middlewares/auth.middleware.js:19-47 | the four rejection messages are pairwise distinct |
| AuthMiddleware.Decide | src/middlewares/auth.middleware.js:19-47 | every rejection carries one of the four messages; an attached user is a stored user, found by a lookup that did not throw, for a header that carried a token |
| AuthMiddleware.AttachExactly | src/middlewares/auth.middleware.js:28-38 | the guard attaches user u iff the token is signed with the key and unexpired, the lookup does not throw, and u is the first stored user with the token's email |
| AuthMiddleware.CheckOrder | src/middlewares/auth.middleware.js:21-46 | the checks run in order: no token, then an unreadable token or a bad signature ("Invalid token."), then expiry, then the lookup; a lookup that throws gives "Invalid token." and a genuine unexpired token whose email names no stored user gives "Invalid token. User no longer exists."; "expired" implies a genuine signature |
| AuthMiddleware.ForeignSecretRefused | src/test/todo.test.js:38-47 | a request whose token was signed with another secret is refused with "Invalid token." |
| AuthMiddleware.VerifyToken | src/middlewares/auth.middleware.js:19-48 | a rejection returns the guard's message and leaves the request untouched; acceptance sets `req.user` to the decided user and calls `next()` once |
| AuthController.ClaimsOf | src/controllers/auth.controller.js:61-65 | the signed claims are exactly the user's email, firstName and lastName |
| AuthController.SignupStep | src/controllers/auth.controller.js:19-37 | signup either stores nothing or appends exactly one user after the existing ones; a sent reply is 201 or 409 and carries no data |
| AuthController.LoginStep | src/controllers/auth.controller.js:49-78 | login always answers, with 200, 401 or 404, and only a 200 carries data |
| AuthController.SignupOutcomes | src/controllers/auth.controller.js:19-37 | 409 iff the email is already stored; 201 iff the email is new, the record is complete and the id is free; a 201 appends exactly the new user with the password digest and carries no data; otherwise nothing is stored |
| AuthController.SignupKeepsInvariants | src/controllers/auth.controller.js:23-29 | signup keeps stored emails unique and ids distinct |
| AuthController.FindAppended | src/controllers/auth.controller.js:23-29 | a user appended with a new email is the one later found by that email |
| AuthController.SecondSignupConflicts | src/test/auth.test.js:54-73 | a second signup with a registered email gets 409 "Email already exists." and stores nothing |
| AuthController.LoginOutcomes | src/controllers/auth.controller.js:49-78 | 404 iff no user has that email; for the first user with that email, 200 iff its digest accepts the password and 401 with "Invalid Credentials." iff it rejects it; a 200 carries a token with exactly that user's claims, signed with the key, issued now and expiring one day later |
| AuthController.SignupThenLogin | src/test/auth.test.js:33-50 | after a successful signup, login with the same email and password returns 200 and the token for the new user |
| AuthController.WrongPasswordRefused | src/test/auth.test.js:87-102 | after signup, any other password of at most 72 characters gets 401 "Invalid Credentials." |
| AuthController.LongPasswordPrefixLogsIn | src/controllers/auth.controller.js:57 | after signup with a password over 72 characters, any password with the same first 72 characters logs in |
| AuthController.UserStore.Signup | src/controllers/auth.controller.js:19-37 | signup on the stored users, through a document whose save hook hashes the password, gives the reply and the new users of the signup step |
| AuthController.UserStore.Login | src/controllers/auth.controller.js:49-78 | login only reads the store and gives the reply of the login step |
| TodoController.OwnedBy | src/controllers/todo.controller.js:18 | the owner's view holds exactly the stored todos whose `user` is the owner |
| TodoController.FindOwned | src/controllers/todo.controller.js:38 | `findOne({_id, user})` finds the todo iff it is in the owner's view |
| TodoController.Scan | src/controllers/todo.controller.js:18 | `find({user})` returns only stored todos of the owner, no more than are stored |
| TodoController.Remove | src/controllers/todo.controller.js:100 | removing an id from the order keeps every other id and keeps ids distinct |
| TodoController.Window | src/controllers/todo.controller.js:18 | `skip(s).limit(l)` returns the l items after the first s, or fewer at the end |
| TodoController.SkipOf | src/controllers/todo.controller.js:18 | `Number(skip) \|\| 0` gives 0 when the value is absent or not a number, the number otherwise; a negative skip is a query error |
| TodoController.LimitOf | src/controllers/todo.controller.js:18 | `Number(limit) \|\| 20` gives 20 when the value is absent, zero or not a number; a negative limit counts by its magnitude |
| TodoController.NotFound | src/controllers/todo.controller.js:39 | a miss is 404 with the bare body `{message: "Todo not found"}`, with no status and no data |
| TodoController.CreateStep | src/controllers/todo.controller.js:56-64 | a create keeps the collection well formed: each key names its own document and the order lists each id once |
| TodoController.UpdateStep | src/controllers/todo.controller.js:76-85 | an update keeps the collection well formed |
| TodoController.DeleteStep | src/controllers/todo.controller.js:97-106 | a delete keeps the collection well formed |
| TodoController.ListStep | src/controllers/todo.controller.js:14-23 | the list is a query error or a 200 holding at most `limit` todos, each a stored todo of the owner |
| TodoController.GetStep | src/controllers/todo.controller.js:35-44 | an id that does not cast is a cast error; otherwise 200 or 404, and a 200 carries the owner's todo stored under that id |
| TodoController.ScanFinds | src/controllers/todo.controller.js:18 | every stored todo of the owner appears in the owner's scan |
| TodoController.ScanAppend | src/controllers/todo.controller.js:18 | a scan reads the order front to back: appending an id appends its scan |
| TodoController.ScanSeesOwnedOnly | src/controllers/todo.controller.js:18 | a scan depends only on the owner's view |
| TodoController.ScanRemoveForeign | src/controllers/todo.controller.js:18 | removing an id that is not the owner's does not change the owner's scan |
| TodoController.PageDefaults | src/controllers/todo.controller.js:18 | with no paging values, or zero or non-numeric ones, the page is the first 20 |
| TodoController.ListOnlyOwned | src/controllers/todo.controller.js:14-23 | the list is 200 iff skip is not negative, and then holds at most `limit` todos, each the owner's and as stored, read from the owner's scan starting `skip` places in: `limit` of them, or all that remain after `skip`, or none when `skip` passes the end; otherwise it is a query error |
| TodoController.FirstPageComplete | src/controllers/todo.controller.js:18 | an owner with at most 20 todos sees all of them on the default page |
| TodoController.ScanDistinctIds | src/controllers/todo.controller.js:18 | a listing never shows one todo twice |
| TodoController.ScanOrderDistinct | src/controllers/todo.controller.js:18 | scanning a duplicate-free order yields todos with distinct ids, all taken from the order |
| TodoController.ScanWithinOwned | src/controllers/todo.controller.js:18 | a scan is no longer than the owner's view |
| TodoController.IdsCount | src/controllers/todo.controller.js:18 | a sequence of todos with distinct ids has as many ids as todos |
| TodoController.GetFindsOwned | src/controllers/todo.controller.js:35-44 | a read answers 200 with todo t iff t is the owner's stored todo under the cast id |
| TodoController.ForeignTodoLikeMissing | src/controllers/todo.controller.js:38-39 | reading, updating or deleting another user's todo gets the same 404 as a missing one, and changes nothing |
| TodoController.SameViewSameReads | src/controllers/todo.controller.js:14-44 | two collections that agree on the owner's view answer the owner's reads and lists alike |
| TodoController.OthersCreateInvisible | src/controllers/todo.controller.js:59 | another user's create leaves the owner's view unchanged |
| TodoController.OthersUpdateInvisible | src/controllers/todo.controller.js:79 | another user's update leaves the owner's view unchanged |
| TodoController.OthersDeleteInvisible | src/controllers/todo.controller.js:100 | another user's delete leaves the owner's view unchanged |
| TodoController.CreateIgnoresBodyOwner | src/controllers/todo.controller.js:59 | the owner a create body names is overwritten by the signed-in user |
| TodoController.CreateAddsOne | src/controllers/todo.controller.js:56-64 | a 201 adds exactly one todo, owned by the caller, after all others; a fault stores nothing |
| TodoController.CreateThenGet | src/controllers/todo.controller.js:56-64 | a created todo is then read back by its id |
| TodoController.UpdateTouchesOnlyMatch | src/controllers/todo.controller.js:76-85 | an update changes only the caller's todo with that id, by applying the patch to it, and answers with the updated todo |
| TodoController.DeleteRemovesOnlyMatch | src/controllers/todo.controller.js:97-106 | a delete removes only the caller's todo with that id and answers with it; everything else stays |
| TodoController.DeleteThenGet | src/controllers/todo.controller.js:100-101 | after a delete, reading the same id gets 404 |
| TodoController.TodoStore.List | src/controllers/todo.controller.js:14-23 | listing the store answers exactly as the list step on its contents |
| TodoController.TodoStore.GetById | src/controllers/todo.controller.js:35-44 | reading the store answers exactly as the read step on its contents |
| TodoController.TodoStore.Create | src/controllers/todo.controller.js:56-64 | a create in place gives the create step's reply and collection, and keeps the store well formed |
| TodoController.TodoStore.Update | src/controllers/todo.controller.js:76-85 | an update in place gives the update step's reply and collection, and keeps the store well formed |
| TodoController.TodoStore.Delete | src/controllers/todo.controller.js:97-106 | a delete in place gives the delete step's reply and collection, and keeps the store well formed |
| TodoRoute.Route | src/routes/todo.route.js:20-28 | a request is routed iff it is GET or POST on the root, or GET, PUT or DELETE on one id segment; GET / lists, POST / creates, and GET, PUT and DELETE on `/:id` read, update and delete that id |
| TodoRoute.Validate | src/routes/todo.route.js:20-28 | a request is refused iff its route's schema refuses it, with that schema's message; an accepted request hands its handler the input of that route: an id route passes the id it accepted, which always casts, and no create or update input names an owner |
| TodoRoute.Handle | src/controllers/todo.controller.js:14-106 | lists and reads change nothing, every handler keeps the collection well formed, and a sent reply is 200, 201 or 404 |
| TodoRoute.Pipeline | src/routes/todo.route.js:20-28 | a request keeps the collection well formed, and changes it only when routed and the guard attached a user |
| TodoRoute.RoutesReachTheirHandlers | src/routes/todo.route.js:20-28 | with a user attached and the schema accepting, each route answers as its own handler (list, read, create, update, delete) for that user and that id |
| TodoRoute.RoutesForwardSchemaRefusals | src/routes/todo.route.js:20-28 | with a user attached and the route's schema refusing, each of the five routes passes on that schema's message and leaves the collection unchanged |
| TodoRoute.GuardFirst | src/routes/todo.route.js:20-28 | a request the guard refuses is answered 401 with the guard's message, and the collection is unchanged |
| TodoRoute.ExpiredBeatsBadId | src/routes/todo.route.js:22 | an expired token gets the expiry message even when the id is malformed |
| TodoRoute.HandlerNeedsGuardAndSchema | src/routes/todo.route.js:20-28 | the handler runs iff the guard attached a user and the schema accepted; otherwise nothing changes and the reply is a 401, a validation fault or a fall-through |
| TodoRoute.OwnersNeverChange | src/routes/todo.route.js:20-28 | through the routes, no stored todo changes owner, and a new todo belongs to the user the guard attached |
| TodoRoute.ForeignTodoThroughRoute | src/routes/todo.route.js:22-28 | a signed-in user reaching another user's todo by a valid id gets 404, and nothing changes |
| TodoRoute.Serve | src/routes/todo.route.js:20-28 | one request against the store gives the pipeline's reply and collection, and keeps the store well formed |
| AuthRoute.AuthRouteOf | src/routes/auth.route.js:6-7 | a request is routed iff it is a POST to /signup or /login |
| AuthRoute.AuthPipeline | src/routes/auth.route.js:6-7 | auth requests keep emails unique and ids distinct, and change the users only through a signup whose body the schema accepted |
| AuthRoute.AuthRoutesReachTheirHandlers | src/routes/auth.route.js:6-7 | an accepted signup body gets signup's reply and users, an accepted login body gets login's reply with the users unchanged, and a refused body on either route gets its schema's message with nothing stored |
| AuthRoute.NoGuardOnAuth | src/routes/auth.route.js:6-7 | the Authorization header makes no difference to the auth routes |
| AuthRoute.RefusedBodyStoresNothing | src/routes/auth.route.js:6-7 | a refused signup or login body is passed on with its schema's message and stores nothing; login never stores; signup adds at most one user at the end |
| AuthRoute.SignupWithoutLastName | src/test/auth.test.js:75-85 | a signup without lastName fails with "\"lastName\" is required" and stores nothing |
| AuthRoute.SessionLifetime | src/controllers/auth.controller.js:66-68 | after signup and login, the token admits the new user under any scheme word until iat + 86400, and is reported as expired from then on |
| AuthRoute.ServeAuth | src/routes/auth.route.js:6-7 | one auth request against the user store gives the pipeline's reply and users, and keeps ids distinct |

## Left out

- Server start-up, the database connection, configuration loading, logging and the mounting of the routers (`app.js`, `index.js`, `index.route.js`, `db.config.js`, `app.config.js`) are not part of this model. Their values come in as the parameters listed above.
- The application's error middleware is not part of this model. A fault stops at `Forwarded(fault)`, so the 400 for validation errors and the 500 for other faults are not stated.
- JWT compact serialisation, base64url and HMAC are not modelled. The guard takes `decode` as a parameter, and a string it cannot read fails like a bad signature.
- bcrypt's cipher and its random salt are not modelled. A digest records its rounds and the 72-character key it was made from, and one character stands for one byte, so a multi-byte UTF-8 password reaches the 72-byte limit sooner than the model says.
- Joi.IsEmail: a shape check (local@domain with a dot-separated domain and no spaces), not Joi's full address grammar and top-level-domain list.
- Joi.CheckNumber: a query value is either an integer (`Numeric`) or not a number (`NonNumeric`). Fractional and exponent spellings, which Joi and `Number()` both accept, are not modelled.
- ObjectId.Cast: 12-byte string ids and ObjectId instances as cast inputs are not modelled; only the 24-hex-digit spelling is.
- Creation and update timestamps, and the generation of ObjectIds, are not modelled. A new id is the parameter `newId`.
- TodoController.UpdateStep: Mongoose runs no validators on `findOneAndUpdate`, so the model takes the patch as the update schema produced it, with `state` already one of the two enum names.
- AuthMiddleware.Decide: a valid token without an email claim is treated as naming no user. How Mongoose casts `{email: undefined}` is not modelled.
- Http.Lookup: a repeated key in a body or query is read from its first occurrence. `JSON.parse` keeps the last occurrence of a repeated body key, and Express's query parser turns a repeated query key into an array, so a request with a repeated key may be judged differently from the service.
- Joi.CheckString: lengths are counted in Unicode scalar values, while Joi's `min`, `max` and `length` count JavaScript `.length` in UTF-16 code units. A title of two characters outside the Basic Multilingual Plane, such as two emoji, has length 4 in the service and passes `min(3)`, but fails in the model.
- ObjectId.Check: its required and empty-string messages are stated, but no request through Express reaches them, because a matched `/:id` route always has a non-empty `id` parameter.
- TodoController.ListStep: the natural order of `find` is modelled as insertion order.
- Database failures inside the controllers (other than the guard's user lookup, `lookupFails`) are not modelled. They would be `next(error)` like the faults that are.
- Requests are handled one at a time. The race between signup's email check and its insert, which could store two users with one email, is not modelled.
- The routing details of Express, such as trailing slashes, case-insensitive paths and URL decoding of `:id`, are not modelled. A path is a sequence of decoded segments.
