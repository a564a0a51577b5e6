/**
 * verifyToken of src/middlewares/auth.middleware.js: the guard in front of every todo
 * route. Its decision is a pure function of the Authorization header, the signing key,
 * the clock and the stored users (`Decide`); on acceptance it sets `req.user` and calls
 * `next()` once (`VerifyToken`). Every rejection is a 401 with one of four messages.
 */
module AuthMiddleware {
  import opened Wrappers
  import opened Strings
  import opened Jwt
  import opened UserModel

  const NoTokenMessage: string := "Access denied. No token provided."
  const ExpiredMessage: string := "Session expired. Please log in again."
  const InvalidMessage: string := "Invalid token."
  const GoneMessage: string := "Invalid token. User no longer exists."

  /**
   * `authorization?.split(" ")[1]`, where an empty piece counts as no token. The scheme
   * word before the first space is never looked at.
   */
  function BearerToken(header: Option<string>): (r: Option<string>)
    ensures header.None? ==> r.None?
    ensures r.Some? ==> r.value != "" && ' ' !in r.value
  {
    match header
    case None => None
    case Some(h) =>
      SplitPiecesFree(h, ' ');
      var pieces := Split(h, ' ');
      if |pieces| >= 2 && pieces[1] != "" then Some(pieces[1]) else None
  }

  /** Whatever word stands before the first space, the text up to the next space is the token. */
  lemma TokenAfterFirstSpace(w: string, t: string, rest: string)
    requires ' ' !in w && ' ' !in t && t != ""
    requires rest == [] || rest[0] == ' '
    ensures BearerToken(Some(w + [' '] + t + rest)) == Some(t)
  {
    var h := w + [' '] + t + rest;
    assert h == w + [' '] + (t + rest);
    SplitAfter(w, ' ', t + rest);
    var tail := Split(t + rest, ' ');
    if rest == [] {
      assert t + rest == t;
      SplitWhole(t, ' ');
    } else {
      assert t + rest == t + [' '] + rest[1..];
      SplitAfter(t, ' ', rest[1..]);
    }
    assert tail[0] == t;
    assert Split(h, ' ') == [w] + tail;
  }

  /** A token the guard reads always stands between the first space and the next space or the end. */
  lemma TokenShape(h: string, t: string) returns (w: string, rest: string)
    requires BearerToken(Some(h)) == Some(t)
    ensures ' ' !in w && ' ' !in t && t != ""
    ensures rest == [] || rest[0] == ' '
    ensures h == w + [' '] + t + rest
  {
    var pieces := Split(h, ' ');
    SplitPiecesFree(h, ' ');
    JoinSplit(h, ' ');
    w := pieces[0];
    rest := if |pieces| > 2 then [' '] + Join(pieces[2..], ' ') else [];
    assert pieces[1..][1..] == pieces[2..];
    assert Join(pieces[1..], ' ') == t + rest;
    assert ' ' !in pieces[0] && ' ' !in pieces[1];
  }

  /** `h` is a word, a space, the token `t`, and then nothing or a space and anything. */
  predicate TokenAt(h: string, t: string, w: string, rest: string)
  {
    && ' ' !in w && ' ' !in t && t != ""
    && (rest == [] || rest[0] == ' ')
    && h == w + [' '] + t + rest
  }

  /**
   * The token the guard reads is exactly the text between the first space and the next
   * space (or the end), whatever word stands before it, provided that text is not empty.
   */
  lemma BearerTokenShape(h: string, t: string)
    ensures BearerToken(Some(h)) == Some(t) <==> exists w, rest :: TokenAt(h, t, w, rest)
  {
    if BearerToken(Some(h)) == Some(t) {
      var w, rest := TokenShape(h, t);
      assert TokenAt(h, t, w, rest);
    }
    if exists w, rest :: TokenAt(h, t, w, rest) {
      var w, rest :| TokenAt(h, t, w, rest);
      TokenAfterFirstSpace(w, t, rest);
    }
  }

  /** Any scheme word is taken: "Bearer t", "Basic t" and "x t" all give the token t. */
  lemma AnySchemeWord(w: string, t: string)
    requires ' ' !in w && ' ' !in t && t != ""
    ensures BearerToken(Some(w + [' '] + t)) == Some(t)
  {
    assert w + [' '] + t == w + [' '] + t + [];
    TokenAfterFirstSpace(w, t, []);
  }

  /** A header with no space in it, such as a bare token, carries no token. */
  lemma NoSpaceNoToken(h: string)
    requires ' ' !in h
    ensures BearerToken(Some(h)) == None
  {
    SplitWhole(h, ' ');
  }

  datatype Decision = Reject(message: string) | Attach(user: User)

  /** `const { email } = decoded`: the email claim, if the token has one. */
  function EmailClaim(p: Payload): Option<string>
  {
    if "email" in p.claims then Some(p.claims["email"]) else None
  }

  /**
   * The guard's decision. `decode` reads a compact token string; a string it cannot read
   * fails `jwt.verify` like a bad signature. `lookupFails` stands for a `findOne` that throws,
   * which the catch block turns into "Invalid token.".
   */
  function Decide(header: Option<string>, key: string, now: int, decode: string -> Option<Token>,
                  users: seq<User>, lookupFails: bool): (d: Decision)
    ensures d.Reject? ==> d.message in {NoTokenMessage, ExpiredMessage, InvalidMessage, GoneMessage}
    ensures d.Attach? ==> d.user in users && !lookupFails && BearerToken(header).Some?
  {
    match BearerToken(header)
    case None => Reject(NoTokenMessage)
    case Some(raw) =>
      match decode(raw)
      case None => Reject(InvalidMessage)
      case Some(t) =>
        match Verify(t, key, now)
        case Err(Expired) => Reject(ExpiredMessage)
        case Err(Invalid) => Reject(InvalidMessage)
        case Ok(payload) =>
          if lookupFails then Reject(InvalidMessage)
          else
            var found := match EmailClaim(payload) case None => None case Some(e) => FindByEmail(users, e);
            match found
            case None => Reject(GoneMessage)
            case Some(u) => Attach(u)
  }

  /** The four messages are distinct, so each rejection names its cause. */
  lemma MessagesDistinct()
    ensures NoTokenMessage != ExpiredMessage && NoTokenMessage != InvalidMessage && NoTokenMessage != GoneMessage
    ensures ExpiredMessage != InvalidMessage && ExpiredMessage != GoneMessage && InvalidMessage != GoneMessage
  {
    assert NoTokenMessage[0] == 'A' && ExpiredMessage[0] == 'S' && InvalidMessage[0] == 'I';
    assert |InvalidMessage| != |GoneMessage|;
  }

  /**
   * The guard attaches a user exactly when the header carries a token that is signed with
   * the key and not expired, the lookup does not throw, and a stored user has the token's
   * email claim; the user attached is the first such one.
   */
  lemma AttachExactly(header: Option<string>, key: string, now: int, decode: string -> Option<Token>,
                      users: seq<User>, lookupFails: bool, u: User)
    ensures Decide(header, key, now, decode, users, lookupFails) == Attach(u) <==>
      && BearerToken(header).Some?
      && decode(BearerToken(header).value).Some?
      && var t := decode(BearerToken(header).value).value;
      && SignedWith(t, key) && (t.payload.exp.Some? ==> now < t.payload.exp.value)
      && !lookupFails
      && EmailClaim(t.payload) == Some(u.email)
      && FindByEmail(users, u.email) == Some(u)
  {
  }

  /**
   * The order of the checks: no token, then the signature, then expiry, then the lookup.
   * A token signed with another key is "Invalid token." even when it has also expired,
   * and an expired genuine token is "Session expired." even when its user is gone. A
   * genuine, unexpired token whose lookup throws is "Invalid token."; one whose email
   * names no stored user is "Invalid token. User no longer exists.".
   */
  lemma CheckOrder(header: Option<string>, key: string, now: int, decode: string -> Option<Token>,
                   users: seq<User>, lookupFails: bool)
    ensures BearerToken(header).None? ==> Decide(header, key, now, decode, users, lookupFails) == Reject(NoTokenMessage)
    ensures BearerToken(header).Some? && decode(BearerToken(header).value).None? ==>
      Decide(header, key, now, decode, users, lookupFails) == Reject(InvalidMessage)
    ensures BearerToken(header).Some? && decode(BearerToken(header).value).Some? ==>
      var t := decode(BearerToken(header).value).value;
      SignedWith(t, key) && (t.payload.exp.Some? ==> now < t.payload.exp.value) ==>
        && (lookupFails ==> Decide(header, key, now, decode, users, lookupFails) == Reject(InvalidMessage))
        && (!lookupFails && (EmailClaim(t.payload).None? || FindByEmail(users, EmailClaim(t.payload).value).None?) ==>
              Decide(header, key, now, decode, users, lookupFails) == Reject(GoneMessage))
    ensures BearerToken(header).Some? && decode(BearerToken(header).value).Some? ==>
      var t := decode(BearerToken(header).value).value;
      && (!SignedWith(t, key) ==> Decide(header, key, now, decode, users, lookupFails) == Reject(InvalidMessage))
      && (SignedWith(t, key) && t.payload.exp.Some? && now >= t.payload.exp.value ==>
            Decide(header, key, now, decode, users, lookupFails) == Reject(ExpiredMessage))
    ensures Decide(header, key, now, decode, users, lookupFails) == Reject(ExpiredMessage) ==>
      && BearerToken(header).Some? && decode(BearerToken(header).value).Some?
      && SignedWith(decode(BearerToken(header).value).value, key)
  {
  }

  /** A token signed with another secret is refused as "Invalid token.". */
  lemma ForeignSecretRefused(w: string, raw: string, signer: string, key: string, claims: Claims, iat: int,
                             now: int, decode: string -> Option<Token>, users: seq<User>, lookupFails: bool)
    requires ' ' !in w && ' ' !in raw && raw != "" && signer != key
    requires decode(raw) == Some(Sign(claims, signer, iat))
    ensures Decide(Some(w + [' '] + raw), key, now, decode, users, lookupFails) == Reject(InvalidMessage)
  {
    AnySchemeWord(w, raw);
    ForeignKeyInvalid(claims, signer, key, iat, now);
  }

  /** The parts of the request the guard writes: `req.user`, and how often `next()` was called. */
  class RequestContext {
    var user: Option<User>
    var nextCalls: nat

    constructor ()
      ensures user == None && nextCalls == 0
    {
      user := None;
      nextCalls := 0;
    }
  }

  /**
   * verifyToken on one request. A rejection is returned as its message (sent as 401) and
   * leaves the request untouched; acceptance sets `req.user` and calls `next()` once.
   */
  method VerifyToken(req: RequestContext, header: Option<string>, key: string, now: int,
                     decode: string -> Option<Token>, users: seq<User>, lookupFails: bool)
    returns (rejection: Option<string>)
    modifies req
    ensures var d := Decide(header, key, now, decode, users, lookupFails);
      if d.Reject? then
        rejection == Some(d.message) && req.user == old(req.user) && req.nextCalls == old(req.nextCalls)
      else
        rejection == None && req.user == Some(d.user) && req.nextCalls == old(req.nextCalls) + 1
  {
    var token := BearerToken(header);
    if token.None? {
      return Some(NoTokenMessage);
    }
    var decoded := decode(token.value);
    if decoded.None? {
      return Some(InvalidMessage);
    }
    var verified := Verify(decoded.value, key, now);
    if verified.Err? {
      return Some(if verified.error == Expired then ExpiredMessage else InvalidMessage);
    }
    if lookupFails {
      return Some(InvalidMessage);
    }
    var email := EmailClaim(verified.value);
    var found := if email.Some? then FindByEmail(users, email.value) else None;
    if found.None? {
      return Some(GoneMessage);
    }
    req.user := found;
    req.nextCalls := req.nextCalls + 1;
    rejection := None;
  }
}
