/**
 * The two authentication gates placed in front of protected routes. Both read
 * the Authorization header and expect the form `Bearer <token>`, more strictly
 * than section 2.1 of RFC 6750: the header is split on single spaces, must give
 * exactly two pieces, and the first must be exactly "Bearer".
 */
module AuthMiddleware {
  import opened Wrappers
  import opened Strings
  import opened TokenService

  /** The reference form of an acceptable header: "Bearer ", then a token without spaces. */
  predicate IsBearerHeader(header: string) {
    |header| >= 7 && header[..7] == "Bearer " && ' ' !in header[7..]
  }

  /** The token of a header that splits on ' ' into exactly "Bearer" and one more piece. */
  function ParseBearer(header: string): Option<string> {
    var parts := Split(header, ' ');
    if |parts| == 2 && parts[0] == "Bearer" then Some(parts[1]) else None
  }

  /** The split-based check accepts exactly the reference form, and yields what follows "Bearer ". */
  lemma ParseBearerMeaning(header: string)
    ensures ParseBearer(header).Some? <==> IsBearerHeader(header)
    ensures ParseBearer(header).Some? ==> ParseBearer(header).value == header[7..]
  {
    if ParseBearer(header).Some? {
      ParseBearerSound(header);
    } else if IsBearerHeader(header) {
      ParseBearerComplete(header);
    }
  }

  lemma ParseBearerSound(header: string)
    requires ParseBearer(header).Some?
    ensures IsBearerHeader(header) && ParseBearer(header).value == header[7..]
  {
    var parts := Split(header, ' ');
    SplitInTwo(header, ' ');
    BearerPrefix(parts[1]);
  }

  lemma BearerPrefix(token: string)
    ensures var header := "Bearer" + [' '] + token;
            |header| >= 7 && header[..7] == "Bearer " && header[7..] == token
  {
    var header := "Bearer" + [' '] + token;
    assert "Bearer" + [' '] == "Bearer ";
    assert header == "Bearer " + token;
  }

  lemma ParseBearerComplete(header: string)
    requires IsBearerHeader(header)
    ensures ParseBearer(header) == Some(header[7..])
  {
    var parts := ["Bearer", header[7..]];
    assert parts[1..] == [header[7..]];
    assert header == Join(parts, ' ');
    SplitJoin(parts, ' ');
  }

  /** A lower-case scheme is refused, whatever follows it. */
  lemma LowerCaseSchemeRefused(rest: string)
    ensures ParseBearer("bearer " + rest).None?
  {
    ParseBearerMeaning("bearer " + rest);
    assert ("bearer " + rest)[0] == 'b';
  }

  /** A second space after the scheme leaves an empty piece, and the header is refused. */
  lemma DoubleSpaceRefused(rest: string)
    ensures ParseBearer("Bearer  " + rest).None?
  {
    var header := "Bearer  " + rest;
    ParseBearerMeaning(header);
    assert header[7] == ' ';
    assert header[7..][0] == ' ';
  }

  /** A third piece is refused, even when the first two are right. */
  lemma ThirdPieceRefused(token: string, extra: string)
    ensures ParseBearer("Bearer " + token + " " + extra).None?
  {
    var header := "Bearer " + token + " " + extra;
    ParseBearerMeaning(header);
    assert header[7..][|token|] == ' ';
  }

  /** What the gates make of the Authorization header. */
  datatype Decision =
    | NoToken
    | BadFormat
    | BadToken(error: string)
    | Authenticated(user: Identity, token: string)

  /**
   * The common reading of the header: absent or empty, not of the Bearer form,
   * a token the authority refuses, or a token it accepts.
   */
  function Decide(header: Option<string>, master: string, active: set<string>, verify: string -> JwtOutcome): (d: Decision)
    ensures d == NoToken <==> !Truthy(header)
    ensures d == BadFormat <==> Truthy(header) && !IsBearerHeader(header.value)
    ensures d.BadToken? ==> IsBearerHeader(header.value)
                            && CheckToken(master, active, verify, header.value[7..]) == Invalid(d.error)
    ensures d.Authenticated? <==> Truthy(header) && IsBearerHeader(header.value)
                                  && CheckToken(master, active, verify, header.value[7..]).Valid?
    ensures d.Authenticated? ==> d.token == header.value[7..]
                                 && CheckToken(master, active, verify, d.token) == Valid(d.user)
  {
    if !Truthy(header) then NoToken
    else
      ParseBearerMeaning(header.value);
      match ParseBearer(header.value)
      case None => BadFormat
      case Some(token) =>
        match CheckToken(master, active, verify, token)
        case Valid(user) => Authenticated(user, token)
        case Invalid(error) => BadToken(error)
  }

  /** What `req.user` holds: never assigned, assigned null, or assigned a user. */
  datatype UserSlot = Unassigned | NullUser | SignedIn(user: Identity)

  /** The parts of an Express request the gates read and write. */
  class Request {
    const authorization: Option<string>
    var user: UserSlot
    var token: Option<string>

    constructor (authorization: Option<string>)
      ensures this.authorization == authorization && user == Unassigned && token == None
    {
      this.authorization := authorization;
      user := Unassigned;
      token := None;
    }
  }

  /** How a gate ends: by calling `next()` once, or by answering with a status, an error code and a message. */
  datatype GateResult = Next | Respond(status: int, code: string, message: string)

  /**
   * authenticate: refuses with 401 unless the header carries an accepted token;
   * on success records the user and the raw token on the request and passes on.
   */
  method Authenticate(req: Request, authority: TokenAuthority, verify: string -> JwtOutcome) returns (result: GateResult)
    modifies req
    ensures var d := Decide(req.authorization, authority.master, authority.active, verify);
            && (d == NoToken ==> result == Respond(401, "NO_TOKEN", "No authorization token provided"))
            && (d == BadFormat ==> result == Respond(401, "INVALID_AUTH_FORMAT", "Invalid authorization format. Use: Bearer <token>"))
            && (d.BadToken? ==> result == Respond(401, "INVALID_TOKEN", d.error))
            && (d.Authenticated? <==> result == Next)
            && (d.Authenticated? ==> req.user == SignedIn(d.user) && req.token == Some(d.token))
            && (!d.Authenticated? ==> req.user == old(req.user) && req.token == old(req.token))
  {
    var header := req.authorization;
    if !Truthy(header) {
      return Respond(401, "NO_TOKEN", "No authorization token provided");
    }
    var bearer := ParseBearer(header.value);
    if bearer.None? {
      return Respond(401, "INVALID_AUTH_FORMAT", "Invalid authorization format. Use: Bearer <token>");
    }
    var token := bearer.value;
    var check := CheckToken(authority.master, authority.active, verify, token);
    if check.Invalid? {
      return Respond(401, "INVALID_TOKEN", check.error);
    }
    req.user := SignedIn(check.user);
    req.token := Some(token);
    result := Next;
  }

  /**
   * optionalAuth: always passes on. A missing header or a refused token leaves
   * the request with a null user; a header not of the Bearer form leaves it as it was.
   */
  method OptionalAuth(req: Request, authority: TokenAuthority, verify: string -> JwtOutcome) returns (result: GateResult)
    modifies req
    ensures result == Next
    ensures var d := Decide(req.authorization, authority.master, authority.active, verify);
            && (d == NoToken || d.BadToken? ==> req.user == NullUser && req.token == old(req.token))
            && (d == BadFormat ==> req.user == old(req.user) && req.token == old(req.token))
            && (d.Authenticated? ==> req.user == SignedIn(d.user) && req.token == Some(d.token))
  {
    var header := req.authorization;
    if !Truthy(header) {
      req.user := NullUser;
      return Next;
    }
    var bearer := ParseBearer(header.value);
    if bearer.Some? {
      var token := bearer.value;
      var check := CheckToken(authority.master, authority.active, verify, token);
      if check.Valid? {
        req.user := SignedIn(check.user);
        req.token := Some(token);
      } else {
        req.user := NullUser;
      }
    }
    result := Next;
  }
}
