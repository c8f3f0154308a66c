/**
 * The token authority of the backend: JWT bearer tokens signed with a server
 * secret, an in-memory set of active tokens, a master token that is always
 * accepted, revocation for logout and a sweep that forgets expired tokens.
 *
 * Signing and verifying (RFC 7519) are not modelled: `sign` stands for
 * `jwt.sign` with the server secret and a 24-hour lifetime, and `verify` for
 * `jwt.verify` at the instant of the call, which either decodes the claims or
 * fails with the library's error name.
 */
module TokenService {
  import opened Wrappers
  import opened Strings
  import opened JsNumbers

  const DefaultMasterToken: string := "master_quash_sampler_token_2024"

  /** MASTER_TOKEN: the environment's value when it is set and non-empty, the built-in one otherwise. */
  function MasterToken(env: Option<string>): (master: string)
    ensures Truthy(env) ==> master == env.value
    ensures !Truthy(env) ==> master == DefaultMasterToken
    ensures master != ""
  {
    if Truthy(env) then env.value else DefaultMasterToken
  }

  /** The fields of a user record that `generateToken` reads. */
  datatype TokenUser = TokenUser(id: string, email: Option<string>, phone: Option<string>, name: string)

  /** The claims a token carries; `iat` is in seconds. */
  datatype Payload = Payload(userId: string, identifier: Option<string>, name: string, iat: int)

  /** The user a successful verification reports. */
  datatype Identity = Identity(userId: string, identifier: Option<string>, name: string)

  const MasterIdentity: Identity := Identity("master_user", Some("master@quash.io"), "Master User")

  /** What `jwt.verify` does with a token: decodes it, or throws an error of one of these names. */
  datatype JwtOutcome =
    | Decoded(payload: Payload)
    | TokenExpiredError
    | JsonWebTokenError
    | OtherJwtError

  /** The result object of verifyToken. */
  datatype TokenCheck = Valid(user: Identity) | Invalid(error: string)

  /**
   * The claims of a fresh token for `user` at `now` (milliseconds): the email
   * when it is present and non-empty, the phone otherwise, and the issue time
   * rounded down to whole seconds.
   */
  function PayloadFor(user: TokenUser, now: int): (p: Payload)
    ensures p.userId == user.id && p.name == user.name
    ensures Truthy(user.email) ==> p.identifier == user.email
    ensures !Truthy(user.email) ==> p.identifier == user.phone
    ensures p.iat * 1000 <= now < p.iat * 1000 + 1000
  {
    Payload(user.id, if Truthy(user.email) then user.email else user.phone, user.name, FloorDiv(now, 1000))
  }

  function IdentityOf(p: Payload): Identity {
    Identity(p.userId, p.identifier, p.name)
  }

  /**
   * verifyToken against the master token `master` and the active set `active`.
   * The master token wins outright; any other token is first verified as a JWT,
   * and only a token that decodes is then looked up among the active ones.
   */
  function CheckToken(master: string, active: set<string>, verify: string -> JwtOutcome, token: string): (r: TokenCheck)
    ensures token == master ==> r == Valid(MasterIdentity)
    ensures token != master ==> (r.Valid? <==> verify(token).Decoded? && token in active)
    ensures token != master && r.Valid? ==> r.user == IdentityOf(verify(token).payload)
    ensures token != master && verify(token).Decoded? && token !in active ==> r == Invalid("Token has been revoked")
    ensures token != master && verify(token).TokenExpiredError? ==> r == Invalid("Token has expired")
    ensures token != master && verify(token).JsonWebTokenError? ==> r == Invalid("Invalid token")
    ensures token != master && verify(token).OtherJwtError? ==> r == Invalid("Token verification failed")
  {
    if token == master then Valid(MasterIdentity)
    else
      match verify(token)
      case Decoded(payload) =>
        if token !in active then Invalid("Token has been revoked") else Valid(IdentityOf(payload))
      case TokenExpiredError => Invalid("Token has expired")
      case JsonWebTokenError => Invalid("Invalid token")
      case OtherJwtError => Invalid("Token verification failed")
  }

  /** The active tokens the sweep drops: those whose verification fails because they expired. */
  function ExpiredAmong(active: set<string>, verify: string -> JwtOutcome): set<string> {
    set t | t in active && verify(t).TokenExpiredError?
  }

  /**
   * A freshly generated token, as long as the library still decodes it to the
   * claims it was signed with, verifies to the user it was made for.
   */
  lemma GeneratedTokenVerifies(master: string, active: set<string>, verify: string -> JwtOutcome,
                               sign: Payload -> string, user: TokenUser, now: int)
    requires verify(sign(PayloadFor(user, now))) == Decoded(PayloadFor(user, now))
    requires sign(PayloadFor(user, now)) != master
    ensures CheckToken(master, active + {sign(PayloadFor(user, now))}, verify, sign(PayloadFor(user, now)))
         == Valid(Identity(user.id, if Truthy(user.email) then user.email else user.phone, user.name))
  {
  }

  /** A token that is no longer active is refused as revoked as long as it still decodes, and as expired after that. */
  lemma RevokedTokenRefused(master: string, active: set<string>, verify: string -> JwtOutcome, token: string)
    requires token != master
    ensures verify(token).Decoded? ==> CheckToken(master, active - {token}, verify, token) == Invalid("Token has been revoked")
    ensures !verify(token).Decoded? ==> CheckToken(master, active - {token}, verify, token) == CheckToken(master, active, verify, token)
  {
  }

  /** The sweep changes no verdict: every token it drops was already refused as expired. */
  lemma SweepKeepsVerdicts(master: string, active: set<string>, verify: string -> JwtOutcome, token: string)
    ensures CheckToken(master, active - ExpiredAmong(active, verify), verify, token) == CheckToken(master, active, verify, token)
  {
    if token != master && token in active && verify(token).Decoded? {
      assert token !in ExpiredAmong(active, verify);
    }
  }

  class TokenAuthority {
    const master: string
    var active: set<string>

    constructor (env: Option<string>)
      ensures master == MasterToken(env) && active == {}
    {
      master := MasterToken(env);
      active := {};
    }

    /** generateToken: signs the claims for `user` at `now` and records the token as active. */
    method GenerateToken(user: TokenUser, now: int, sign: Payload -> string) returns (token: string)
      modifies this
      ensures token == sign(PayloadFor(user, now))
      ensures active == old(active) + {token}
    {
      var payload := PayloadFor(user, now);
      token := sign(payload);
      active := active + {token};
    }

    /** revokeToken: forgets the token, answering whether it was active. */
    method RevokeToken(token: string) returns (removed: bool)
      modifies this
      ensures removed <==> token in old(active)
      ensures active == old(active) - {token}
    {
      removed := token in active;
      active := active - {token};
    }

    /**
     * The hourly cleanup: collects every active token whose verification fails
     * with an expiry error, then removes them all.
     */
    method SweepExpired(verify: string -> JwtOutcome) returns (removed: set<string>)
      modifies this
      ensures removed == ExpiredAmong(old(active), verify)
      ensures active == old(active) - removed
    {
      var pending := active;
      removed := {};
      while pending != {}
        invariant pending <= active
        invariant forall t :: t in removed <==> t in active && t !in pending && verify(t).TokenExpiredError?
        decreases |pending|
      {
        var t :| t in pending;
        if verify(t).TokenExpiredError? {
          removed := removed + {t};
        }
        pending := pending - {t};
      }
      active := active - removed;
    }
  }

  /** Logging out twice: the second revocation finds nothing, and the token is refused from then on. */
  method LogoutTwice(verify: string -> JwtOutcome, sign: Payload -> string, user: TokenUser, now: int)
    returns (before: TokenCheck, first: bool, second: bool, after: TokenCheck)
    requires verify(sign(PayloadFor(user, now))) == Decoded(PayloadFor(user, now))
    requires sign(PayloadFor(user, now)) != DefaultMasterToken
    ensures before.Valid? && first && !second && after == Invalid("Token has been revoked")
  {
    var authority := new TokenAuthority(None);
    var token := authority.GenerateToken(user, now, sign);
    before := CheckToken(authority.master, authority.active, verify, token);
    first := authority.RevokeToken(token);
    second := authority.RevokeToken(token);
    after := CheckToken(authority.master, authority.active, verify, token);
  }
}
