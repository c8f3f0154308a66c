/**
 * The one-time-code store of the backend: sessions keyed by session id, each
 * holding the code, the identifier it was issued for, an absolute expiry time
 * (milliseconds) and an attempt counter. The clock and the random draw are
 * parameters; the timer that deletes a session after five minutes is replaced
 * by the expiry check that `VerifyOtp` makes anyway.
 */
module OtpService {
  import opened Wrappers
  import opened JsNumbers

  /** The backend ships with demo mode switched on. */
  const DemoMode: bool := true
  const DemoOtp: string := "232423"
  /** Five minutes, in milliseconds. */
  const OtpLifetimeMs: int := 5 * 60 * 1000
  const MaxAttempts: nat := 3

  /**
   * generateOTP. `draw` is `Math.floor(Math.random() * 900000)`, so it lies in
   * [0, 900000). In demo mode the code is the fixed demo code; otherwise it is
   * the six-digit decimal number 100000 + draw.
   */
  function GenerateOtp(demoMode: bool, draw: nat): (otp: string)
    requires draw < 900000
    ensures |otp| == 6 && AllDigits(otp)
    ensures demoMode ==> otp == DemoOtp
    ensures !demoMode ==> 100000 <= DigitsValue(otp) <= 999999 && DigitsValue(otp) == 100000 + draw
  {
    if demoMode then DemoOtp
    else
      var n := 100000 + draw;
      assert Pow10(5) == 100000 && Pow10(6) == 1000000 by {
        assert Pow10(1) == 10 && Pow10(2) == 100 && Pow10(3) == 1000 && Pow10(4) == 10000;
      }
      NatToStringLength(n, 6);
      NatToStringValue(n);
      NatToString(n)
  }

  datatype Session = Session(otp: string, identifier: string, expiryTime: int, attempts: nat)

  /** A session can still be used to check a code: not past its expiry and attempts left. */
  predicate Live(s: Session, now: int) {
    now <= s.expiryTime && s.attempts < MaxAttempts
  }

  /** The user object that a successful verification returns; it is made up on the spot. */
  datatype OtpUser = OtpUser(id: string, name: string, email: Option<string>, phone: Option<string>)

  /**
   * `verifyOTP` builds its user from the identifier alone: an id from the clock,
   * the name "Test User", and the identifier as email when it contains '@',
   * otherwise as phone.
   */
  function FabricatedUser(identifier: string, now: int): (u: OtpUser)
    ensures u.name == "Test User" && u.id == "user_" + IntToString(now)
    ensures u.email.Some? <==> '@' in identifier
    ensures u.phone.Some? <==> '@' !in identifier
    ensures u.email.Some? ==> u.email.value == identifier
    ensures u.phone.Some? ==> u.phone.value == identifier
  {
    var isEmail := '@' in identifier;
    OtpUser("user_" + IntToString(now), "Test User",
            if isEmail then Some(identifier) else None,
            if isEmail then None else Some(identifier))
  }

  datatype VerifyOutcome =
    | Verified(user: OtpUser)
    | SessionInvalid
    | OtpExpired
    | TooManyAttempts
    | WrongCode
  {
    /** The `message` field of the result object. */
    function Message(): string {
      match this
      case Verified(_) => "OTP verified successfully"
      case SessionInvalid => "Invalid or expired session"
      case OtpExpired => "OTP expired"
      case TooManyAttempts => "Too many attempts. Please try again."
      case WrongCode => "Invalid OTP"
    }

    /** Whether the submitted code was compared against the stored one. */
    predicate Compared() {
      Verified? || WrongCode?
    }
  }

  /** Every failure kind has its own message, distinct from the success message. */
  lemma MessagesDistinct(a: VerifyOutcome, b: VerifyOutcome)
    requires a.Message() == b.Message()
    ensures a.Verified? <==> b.Verified?
    ensures !a.Verified? ==> a == b
  {
  }

  datatype Step = Step(outcome: VerifyOutcome, sessions: map<string, Session>)

  /**
   * One call of verifyOTP on a store, as a function of the store before the call.
   * The checks run in the order: unknown id, expiry, exhausted attempts; then an
   * attempt is consumed and the code compared.
   */
  function VerifyStep(sessions: map<string, Session>, sessionId: string, otp: string, now: int): (s: Step)
    // only the entry of `sessionId` is read or changed
    ensures forall k :: k != sessionId ==> (k in s.sessions <==> k in sessions)
    ensures forall k :: k != sessionId && k in sessions ==> s.sessions[k] == sessions[k]
    // an unknown session leaves the store as it was
    ensures sessionId !in sessions ==> s.outcome == SessionInvalid && s.sessions == sessions
    // expiry is checked first, then the attempt budget; either one removes the session whatever the code
    ensures s.outcome == OtpExpired <==> sessionId in sessions && now > sessions[sessionId].expiryTime
    ensures s.outcome == TooManyAttempts <==>
              sessionId in sessions && now <= sessions[sessionId].expiryTime && sessions[sessionId].attempts >= MaxAttempts
    ensures s.outcome == OtpExpired || s.outcome == TooManyAttempts ==> s.sessions == sessions - {sessionId}
    // success exactly when a live session's code matches; the session is consumed
    ensures s.outcome.Verified? <==> sessionId in sessions && Live(sessions[sessionId], now) && otp == sessions[sessionId].otp
    ensures s.outcome.Verified? ==>
              s.sessions == sessions - {sessionId} && s.outcome.user == FabricatedUser(sessions[sessionId].identifier, now)
    // a wrong code on a live session uses up one attempt and keeps the session
    ensures s.outcome == WrongCode <==> sessionId in sessions && Live(sessions[sessionId], now) && otp != sessions[sessionId].otp
    ensures s.outcome == WrongCode ==>
              s.sessions == sessions[sessionId := sessions[sessionId].(attempts := sessions[sessionId].attempts + 1)]
  {
    if sessionId !in sessions then Step(SessionInvalid, sessions)
    else
      var data := sessions[sessionId];
      if now > data.expiryTime then Step(OtpExpired, sessions - {sessionId})
      else if data.attempts >= MaxAttempts then Step(TooManyAttempts, sessions - {sessionId})
      else
        var counted := data.(attempts := data.attempts + 1);
        if counted.otp == otp then Step(Verified(FabricatedUser(data.identifier, now)), sessions - {sessionId})
        else Step(WrongCode, sessions[sessionId := counted])
  }

  /** No stored session ever has more than `MaxAttempts` attempts recorded. */
  ghost predicate AttemptsBounded(sessions: map<string, Session>) {
    forall k :: k in sessions ==> sessions[k].attempts <= MaxAttempts
  }

  lemma VerifyKeepsAttemptsBounded(sessions: map<string, Session>, sessionId: string, otp: string, now: int)
    requires AttemptsBounded(sessions)
    ensures AttemptsBounded(VerifyStep(sessions, sessionId, otp, now).sessions)
  {
  }

  /** One verification request: the code submitted and the time it arrives. */
  datatype Attempt = Attempt(otp: string, now: int)

  /** The outcomes of a series of verifyOTP calls on one session id. */
  function Replay(sessions: map<string, Session>, sessionId: string, attempts: seq<Attempt>): (outcomes: seq<VerifyOutcome>)
    ensures |outcomes| == |attempts|
    decreases |attempts|
  {
    if attempts == [] then []
    else
      var s := VerifyStep(sessions, sessionId, attempts[0].otp, attempts[0].now);
      [s.outcome] + Replay(s.sessions, sessionId, attempts[1..])
  }

  function CountVerified(outcomes: seq<VerifyOutcome>): nat {
    if outcomes == [] then 0 else (if outcomes[0].Verified? then 1 else 0) + CountVerified(outcomes[1..])
  }

  function CountCompared(outcomes: seq<VerifyOutcome>): nat {
    if outcomes == [] then 0 else (if outcomes[0].Compared() then 1 else 0) + CountCompared(outcomes[1..])
  }

  /** How many more codes a session id can have compared. */
  function Budget(sessions: map<string, Session>, sessionId: string): nat {
    if sessionId in sessions && sessions[sessionId].attempts < MaxAttempts
    then MaxAttempts - sessions[sessionId].attempts
    else 0
  }

  /** Once a session id is gone, every later verification of it fails as an unknown session. */
  lemma {:induction false} ReplayWithoutSession(sessions: map<string, Session>, sessionId: string, attempts: seq<Attempt>)
    requires sessionId !in sessions
    ensures forall i :: 0 <= i < |attempts| ==> Replay(sessions, sessionId, attempts)[i] == SessionInvalid
    ensures CountVerified(Replay(sessions, sessionId, attempts)) == 0
    ensures CountCompared(Replay(sessions, sessionId, attempts)) == 0
    decreases |attempts|
  {
    if attempts != [] {
      ReplayWithoutSession(sessions, sessionId, attempts[1..]);
    }
  }

  /** Whatever codes are submitted and whenever, a session succeeds at most once. */
  lemma {:induction false} SucceedsAtMostOnce(sessions: map<string, Session>, sessionId: string, attempts: seq<Attempt>)
    ensures CountVerified(Replay(sessions, sessionId, attempts)) <= 1
    decreases |attempts|
  {
    if attempts != [] {
      var s := VerifyStep(sessions, sessionId, attempts[0].otp, attempts[0].now);
      if s.outcome.Verified? {
        ReplayWithoutSession(s.sessions, sessionId, attempts[1..]);
      } else {
        SucceedsAtMostOnce(s.sessions, sessionId, attempts[1..]);
      }
    }
  }

  /** After a success, every later call on the same id fails with "Invalid or expired session". */
  lemma {:induction false} NothingAfterSuccess(sessions: map<string, Session>, sessionId: string, attempts: seq<Attempt>, i: nat, j: nat)
    requires i < j < |attempts|
    requires Replay(sessions, sessionId, attempts)[i].Verified?
    ensures Replay(sessions, sessionId, attempts)[j] == SessionInvalid
    decreases |attempts|
  {
    var s := VerifyStep(sessions, sessionId, attempts[0].otp, attempts[0].now);
    if i == 0 {
      ReplayWithoutSession(s.sessions, sessionId, attempts[1..]);
    } else {
      NothingAfterSuccess(s.sessions, sessionId, attempts[1..], i - 1, j - 1);
    }
  }

  /** A session has at most its remaining budget of codes compared, so at most three in all. */
  lemma {:induction false} ComparesWithinBudget(sessions: map<string, Session>, sessionId: string, attempts: seq<Attempt>)
    ensures CountCompared(Replay(sessions, sessionId, attempts)) <= Budget(sessions, sessionId) <= MaxAttempts
    decreases |attempts|
  {
    if attempts != [] {
      var s := VerifyStep(sessions, sessionId, attempts[0].otp, attempts[0].now);
      if sessionId in s.sessions {
        ComparesWithinBudget(s.sessions, sessionId, attempts[1..]);
      } else {
        ReplayWithoutSession(s.sessions, sessionId, attempts[1..]);
      }
    }
  }

  /**
   * Three wrong codes on a fresh session lock it: a fourth call fails whatever
   * code it carries.
   */
  lemma ThreeWrongCodesLock(sessions: map<string, Session>, sessionId: string, attempts: seq<Attempt>)
    requires sessionId in sessions && sessions[sessionId].attempts == 0
    requires |attempts| == 4
    requires forall i :: 0 <= i < 3 ==> Replay(sessions, sessionId, attempts)[i] == WrongCode
    ensures !Replay(sessions, sessionId, attempts)[3].Verified?
  {
    var outs := Replay(sessions, sessionId, attempts);
    ComparesWithinBudget(sessions, sessionId, attempts);
    assert outs == outs[..3] + [outs[3]];
    CountComparedSplit(outs[..3], [outs[3]]);
    var p := outs[..3];
    assert p[0] == WrongCode && p[1..][0] == WrongCode && p[1..][1..][0] == WrongCode;
    assert p[1..][1..][1..] == [];
    assert CountCompared(p[1..][1..]) == 1;
    assert CountCompared(p[1..]) == 2;
    assert CountCompared(p) == 3;
  }

  lemma {:induction false} CountComparedSplit(a: seq<VerifyOutcome>, b: seq<VerifyOutcome>)
    ensures CountCompared(a + b) == CountCompared(a) + CountCompared(b)
  {
    if a != [] {
      assert (a + b)[1..] == a[1..] + b;
      CountComparedSplit(a[1..], b);
    } else {
      assert a + b == b;
    }
  }

  /** The process-wide session map, `otpStore`. */
  class OtpStore {
    var sessions: map<string, Session>

    constructor ()
      ensures sessions == map[]
    {
      sessions := map[];
    }

    /** storeOTP: a new session with no attempts, expiring five minutes from `now`. */
    method StoreOtp(sessionId: string, otp: string, identifier: string, now: int) returns (storedId: string)
      modifies this
      ensures storedId == sessionId
      ensures sessions == old(sessions)[sessionId := Session(otp, identifier, now + OtpLifetimeMs, 0)]
    {
      sessions := sessions[sessionId := Session(otp, identifier, now + OtpLifetimeMs, 0)];
      storedId := sessionId;
    }

    /** verifyOTP at time `now`. */
    method VerifyOtp(sessionId: string, otp: string, now: int) returns (outcome: VerifyOutcome)
      modifies this
      ensures Step(outcome, sessions) == VerifyStep(old(sessions), sessionId, otp, now)
    {
      if sessionId !in sessions {
        return SessionInvalid;
      }
      var data := sessions[sessionId];
      if now > data.expiryTime {
        sessions := sessions - {sessionId};
        return OtpExpired;
      }
      if data.attempts >= MaxAttempts {
        sessions := sessions - {sessionId};
        return TooManyAttempts;
      }
      data := data.(attempts := data.attempts + 1);
      sessions := sessions[sessionId := data];
      if data.otp == otp {
        sessions := sessions - {sessionId};
        return Verified(FabricatedUser(data.identifier, now));
      }
      return WrongCode;
    }
  }

  /** The scenario of a wrong code, the right code, then the right code again. */
  method WrongThenRightThenReplay() returns (first: VerifyOutcome, second: VerifyOutcome, third: VerifyOutcome)
    ensures first == WrongCode
    ensures second.Verified? && second.user.phone == Some("+12025550123")
    ensures third == SessionInvalid
  {
    var store := new OtpStore();
    var id := store.StoreOtp("session_abc", "482913", "+12025550123", 0);
    first := store.VerifyOtp(id, "000000", 1000);
    assert store.sessions[id].attempts == 1;
    second := store.VerifyOtp(id, "482913", 2000);
    third := store.VerifyOtp(id, "482913", 3000);
  }
}
