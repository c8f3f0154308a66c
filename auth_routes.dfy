/**
 * The two login routes of the backend: `/auth/login` checks the identifier and
 * opens an OTP session, `/auth/verify-otp` checks the submitted code. The phone
 * and email patterns are written out as parsers over the characters rather than
 * as regular expressions.
 */
module AuthRoutes {
  import opened Wrappers
  import opened Strings
  import opened JsNumbers
  import opened OtpService

  /** `s.replace(/\s/g, '')`: every white-space character removed, the rest kept in order. */
  function StripSpaces(s: string): (r: string)
    ensures |r| <= |s|
    ensures forall i :: 0 <= i < |r| ==> !IsSpace(Js, r[i])
    ensures !HasSpace(Js, s) ==> r == s
  {
    if s == [] then []
    else if IsSpace(Js, s[0]) then StripSpaces(s[1..])
    else [s[0]] + StripSpaces(s[1..])
  }

  /**
   * The pieces of a phone number the pattern
   * `^[+]?[(]?[0-9]{3}[)]?[-\s.]?[0-9]{3}[-\s.]?[0-9]{4,6}$` accepts once white
   * space is gone: optional '+', optional '(', three digits, optional ')',
   * optional '-' or '.', three digits, optional '-' or '.', four to six digits.
   */
  datatype PhoneParts = PhoneParts(
    plus: bool, open: bool, area: string, close: bool,
    sep1: Option<char>, exchange: string, sep2: Option<char>, line: string)

  predicate IsSeparator(c: char) { c == '-' || c == '.' }

  predicate WellFormedPhone(p: PhoneParts) {
    && |p.area| == 3 && AllDigits(p.area)
    && (p.sep1.Some? ==> IsSeparator(p.sep1.value))
    && |p.exchange| == 3 && AllDigits(p.exchange)
    && (p.sep2.Some? ==> IsSeparator(p.sep2.value))
    && 4 <= |p.line| <= 6 && AllDigits(p.line)
  }

  function Flag(present: bool, c: char): string { if present then [c] else [] }

  function OptChar(c: Option<char>): string { if c.Some? then [c.value] else [] }

  /** The phone number the pieces spell. */
  function RenderPhone(p: PhoneParts): string {
    Flag(p.plus, '+') + (Flag(p.open, '(') + RenderFromArea(p))
  }

  function RenderFromArea(p: PhoneParts): string {
    p.area + (Flag(p.close, ')') + (OptChar(p.sep1) + RenderFromExchange(p)))
  }

  function RenderFromExchange(p: PhoneParts): string {
    p.exchange + (OptChar(p.sep2) + p.line)
  }

  function SkipChar(s: string, c: char): (r: (bool, string))
    ensures Flag(r.0, c) + r.1 == s
  {
    if s != [] && s[0] == c then (true, s[1..]) else (false, s)
  }

  function SkipSeparator(s: string): (r: (Option<char>, string))
    ensures OptChar(r.0) + r.1 == s
    ensures r.0.Some? ==> IsSeparator(r.0.value)
  {
    if s != [] && IsSeparator(s[0]) then (Some(s[0]), s[1..]) else (None, s)
  }

  /** Reads a white-space-free string as a phone number, left to right. */
  function ParsePhone(s: string): Option<PhoneParts> {
    var a := SkipChar(s, '+');
    var b := SkipChar(a.1, '(');
    ParseFromArea(a.0, b.0, b.1)
  }

  /** The phone number from the area code on, after the optional '+' and '('. */
  function ParseFromArea(plus: bool, open: bool, s: string): Option<PhoneParts> {
    if |s| < 3 || !AllDigits(s[..3]) then None
    else
      var c := SkipChar(s[3..], ')');
      var d := SkipSeparator(c.1);
      ParseFromExchange(plus, open, s[..3], c.0, d.0, d.1)
  }

  /** The phone number from the exchange on, the earlier pieces already read. */
  function ParseFromExchange(plus: bool, open: bool, area: string, close: bool, sep1: Option<char>, s: string): Option<PhoneParts> {
    if |s| < 3 || !AllDigits(s[..3]) then None
    else
      var e := SkipSeparator(s[3..]);
      if 4 <= |e.1| <= 6 && AllDigits(e.1) then Some(PhoneParts(plus, open, area, close, sep1, s[..3], e.0, e.1))
      else None
  }

  /** isValidPhone. */
  predicate IsValidPhone(phone: string) {
    ParsePhone(StripSpaces(phone)).Some?
  }

  /** Everything the parser accepts is a well-formed phone number spelled exactly as in the input. */
  lemma ParsePhoneSound(s: string)
    requires ParsePhone(s).Some?
    ensures WellFormedPhone(ParsePhone(s).value) && RenderPhone(ParsePhone(s).value) == s
  {
    var a := SkipChar(s, '+');
    var b := SkipChar(a.1, '(');
    FromAreaSound(a.0, b.0, b.1);
  }

  lemma FromAreaSound(plus: bool, open: bool, s: string)
    requires ParseFromArea(plus, open, s).Some?
    ensures var p := ParseFromArea(plus, open, s).value;
            WellFormedPhone(p) && p.plus == plus && p.open == open && RenderFromArea(p) == s
  {
    var p := ParseFromArea(plus, open, s).value;
    var c := SkipChar(s[3..], ')');
    var d := SkipSeparator(c.1);
    FromExchangeSound(plus, open, s[..3], c.0, d.0, d.1);
    SplitAfterThree(s, Flag(p.close, ')') + (OptChar(p.sep1) + d.1));
  }

  lemma FromExchangeSound(plus: bool, open: bool, area: string, close: bool, sep1: Option<char>, s: string)
    requires ParseFromExchange(plus, open, area, close, sep1, s).Some?
    ensures var p := ParseFromExchange(plus, open, area, close, sep1, s).value;
            && p == PhoneParts(plus, open, area, close, sep1, s[..3], p.sep2, p.line)
            && |p.exchange| == 3 && AllDigits(p.exchange)
            && (p.sep2.Some? ==> IsSeparator(p.sep2.value))
            && 4 <= |p.line| <= 6 && AllDigits(p.line)
            && RenderFromExchange(p) == s
  {
    var p := ParseFromExchange(plus, open, area, close, sep1, s).value;
    SplitAfterThree(s, OptChar(p.sep2) + p.line);
  }

  lemma SplitAfterThree(s: string, rest: string)
    requires |s| >= 3 && s[3..] == rest
    ensures s == s[..3] + rest
  {
  }

  lemma SkipAbsent(present: bool, c: char, rest: string)
    requires rest != [] && rest[0] != c
    ensures SkipChar(Flag(present, c) + rest, c) == (present, rest)
  {
    if present {
      assert (Flag(present, c) + rest)[1..] == rest;
    } else {
      assert Flag(present, c) + rest == rest;
    }
  }

  lemma SkipSeparatorBeforeDigit(sep: Option<char>, rest: string)
    requires sep.Some? ==> IsSeparator(sep.value)
    requires rest != [] && IsDigit(rest[0])
    ensures SkipSeparator(OptChar(sep) + rest) == (sep, rest)
  {
    if sep.Some? {
      assert (OptChar(sep) + rest)[1..] == rest;
    } else {
      assert OptChar(sep) + rest == rest;
    }
  }

  /** Every well-formed phone number is accepted, and read back into the same pieces. */
  lemma ParsePhoneComplete(p: PhoneParts)
    requires WellFormedPhone(p)
    ensures ParsePhone(RenderPhone(p)) == Some(p)
  {
    var b := RenderFromArea(p);
    var a := Flag(p.open, '(') + b;
    assert IsDigit(b[0]);
    assert a[0] == '(' || IsDigit(a[0]);
    SkipAbsent(p.plus, '+', a);
    SkipAbsent(p.open, '(', b);
    FromAreaComplete(p);
  }

  lemma FromAreaComplete(p: PhoneParts)
    requires WellFormedPhone(p)
    ensures ParseFromArea(p.plus, p.open, RenderFromArea(p)) == Some(p)
  {
    var d := RenderFromExchange(p);
    var tail := OptChar(p.sep1) + d;
    var b := RenderFromArea(p);
    assert IsDigit(d[0]);
    assert b[..3] == p.area && b[3..] == Flag(p.close, ')') + tail;
    assert tail[0] != ')' by {
      assert tail[0] == '-' || tail[0] == '.' || IsDigit(tail[0]);
    }
    SkipAbsent(p.close, ')', tail);
    SkipSeparatorBeforeDigit(p.sep1, d);
    FromExchangeComplete(p);
  }

  lemma FromExchangeComplete(p: PhoneParts)
    requires WellFormedPhone(p)
    ensures ParseFromExchange(p.plus, p.open, p.area, p.close, p.sep1, RenderFromExchange(p)) == Some(p)
  {
    var d := RenderFromExchange(p);
    assert IsDigit(p.line[0]);
    assert d[..3] == p.exchange && d[3..] == OptChar(p.sep2) + p.line;
    SkipSeparatorBeforeDigit(p.sep2, p.line);
  }

  /** A character the email pattern's `[^\s@]` accepts. */
  predicate Plain(c: char) { !IsSpace(Js, c) && c != '@' }

  predicate AllPlain(s: string) { forall i :: 0 <= i < |s| ==> Plain(s[i]) }

  /**
   * isValidEmail, the pattern `^[^\s@]+@[^\s@]+\.[^\s@]+$`: a non-empty local part
   * and a domain, both free of white space and '@', around a single '@', with a
   * '.' in the domain that is neither its first nor its last character.
   */
  predicate IsValidEmail(email: string) {
    && '@' in email
    && var at := IndexOf(email, '@');
    && var local, domain := email[..at], email[at + 1..];
    && local != [] && AllPlain(local) && AllPlain(domain)
    && exists j :: 0 < j < |domain| - 1 && domain[j] == '.'
  }

  /** Any non-empty local part, domain label and suffix of plain characters make a valid address. */
  lemma EmailFromParts(local: string, host: string, suffix: string)
    requires local != [] && host != [] && suffix != []
    requires AllPlain(local) && AllPlain(host) && AllPlain(suffix)
    ensures IsValidEmail(local + "@" + host + "." + suffix)
  {
    var s := local + "@" + host + "." + suffix;
    assert s[|local|] == '@';
    assert s[..|local|] == local;
    assert '@' !in local;
    assert IndexOf(s, '@') == |local|;
    var domain := s[|local| + 1..];
    assert domain == host + "." + suffix;
    assert domain[|host|] == '.';
  }

  /** `email` is `local@host.suffix` with each part non-empty and plain. */
  predicate SplitsAs(email: string, local: string, host: string, suffix: string) {
    && local != [] && host != [] && suffix != []
    && AllPlain(local) && AllPlain(host) && AllPlain(suffix)
    && email == local + "@" + host + "." + suffix
  }

  /** Conversely, every valid address splits into such a local part, domain label and suffix. */
  lemma EmailIntoParts(email: string)
    requires IsValidEmail(email)
    ensures exists local, host, suffix :: SplitsAs(email, local, host, suffix)
  {
    var local, domain, j := ValidEmailShape(email);
    var host, suffix := DomainAtDot(domain, j);
    assert local + "@" + (host + "." + suffix) == local + "@" + host + "." + suffix;
    assert SplitsAs(email, local, host, suffix);
  }

  /** A valid address is a plain local part, '@' and a plain domain with an inner dot. */
  lemma ValidEmailShape(email: string) returns (local: string, domain: string, j: int)
    requires IsValidEmail(email)
    ensures email == local + "@" + domain
    ensures local != [] && AllPlain(local) && AllPlain(domain)
    ensures 0 < j < |domain| - 1 && domain[j] == '.'
  {
    var at := IndexOf(email, '@');
    local, domain := email[..at], email[at + 1..];
    assert email == local + "@" + domain;
    j :| 0 < j < |domain| - 1 && domain[j] == '.';
  }

  /** A plain domain split at an inner dot gives a plain, non-empty label and suffix. */
  lemma DomainAtDot(domain: string, j: int) returns (host: string, suffix: string)
    requires AllPlain(domain) && 0 < j < |domain| - 1 && domain[j] == '.'
    ensures host == domain[..j] && suffix == domain[j + 1..]
    ensures host != [] && suffix != [] && AllPlain(host) && AllPlain(suffix)
    ensures domain == host + "." + suffix
  {
    host, suffix := domain[..j], domain[j + 1..];
    assert domain == host + [domain[j]] + suffix;
  }

  /** A valid address has exactly one '@'. */
  lemma EmailHasOneAt(email: string)
    requires IsValidEmail(email)
    ensures multiset(email)['@'] == 1
  {
    var at := IndexOf(email, '@');
    assert email == email[..at] + [email[at]] + email[at + 1..];
    assert '@' !in email[at + 1..];
  }

  /** The identifier as the login route keeps it: trimmed, and whether it passed as a phone. */
  datatype Contact = Contact(identifier: string, isPhone: bool)

  /**
   * The checks of `/auth/login` before any session exists: a missing or blank
   * identifier, then one that is neither a phone number nor an email once trimmed.
   */
  function CheckIdentifier(identifier: Option<string>): (r: Result<Contact, string>)
    ensures (identifier.None? || IsBlank(Js, identifier.value)) <==> r == Err("Phone number or email is required")
    ensures r.Ok? ==> identifier.Some? && r.value.identifier == Trim(Js, identifier.value)
    ensures r.Ok? <==> identifier.Some? && !IsBlank(Js, identifier.value)
                       && (IsValidPhone(Trim(Js, identifier.value)) || IsValidEmail(Trim(Js, identifier.value)))
    ensures r.Ok? ==> r.value.isPhone == IsValidPhone(r.value.identifier)
    ensures r.Err? ==> r.error in {"Phone number or email is required", "Please enter a valid phone number or email"}
  {
    if identifier.None? || identifier.value == [] || |Trim(Js, identifier.value)| == 0 then
      Err("Phone number or email is required")
    else
      var trimmed := Trim(Js, identifier.value);
      var isPhone := IsValidPhone(trimmed);
      var isEmail := IsValidEmail(trimmed);
      if !isPhone && !isEmail then Err("Please enter a valid phone number or email")
      else Ok(Contact(trimmed, isPhone))
  }

  datatype LoginResponse =
    | LoginRejected(message: string)
    | LoginAccepted(message: string, sessionId: string, debugOtp: string)
  {
    function Status(): int { if LoginRejected? then 400 else 200 }
  }

  /** The message of an accepted login names the channel and, in this demo, the code. */
  function SentMessage(isPhone: bool, otp: string): string {
    (if isPhone then "OTP sent to your phone. Use: " else "OTP sent to your email. Use: ") + otp
  }

  /** generateSessionId, with the clock and the random suffix as parameters. */
  function SessionIdFor(now: int, suffix: string): string {
    "session_" + IntToString(now) + "_" + suffix
  }

  /**
   * POST /auth/login. `draw` is the random draw of generateOTP, `suffix` the random
   * part of the session id, `now` the clock.
   */
  method Login(store: OtpStore, identifier: Option<string>, draw: nat, suffix: string, now: int)
    returns (response: LoginResponse)
    requires draw < 900000
    modifies store
    ensures CheckIdentifier(identifier).Err? ==>
              response == LoginRejected(CheckIdentifier(identifier).error) && store.sessions == old(store.sessions)
    ensures CheckIdentifier(identifier).Ok? ==>
              var contact := CheckIdentifier(identifier).value;
              var otp := GenerateOtp(DemoMode, draw);
              var sessionId := SessionIdFor(now, suffix);
              && response == LoginAccepted(SentMessage(contact.isPhone, otp), sessionId, otp)
              && store.sessions == old(store.sessions)[sessionId := Session(otp, contact.identifier, now + OtpLifetimeMs, 0)]
  {
    var checked := CheckIdentifier(identifier);
    if checked.Err? {
      return LoginRejected(checked.error);
    }
    var otp := GenerateOtp(DemoMode, draw);
    var sessionId := SessionIdFor(now, suffix);
    var stored := store.StoreOtp(sessionId, otp, checked.value.identifier, now);
    response := LoginAccepted(SentMessage(checked.value.isPhone, otp), stored, otp);
  }

  datatype VerifyResponse =
    | VerifyBadRequest(message: string)
    | VerifyUnauthorized(message: string)
    | VerifySucceeded(message: string, token: string, user: OtpUser)
  {
    function Status(): int {
      match this
      case VerifyBadRequest(_) => 400
      case VerifyUnauthorized(_) => 401
      case VerifySucceeded(_, _, _) => 200
    }
  }

  /**
   * The token `/auth/verify-otp` hands out: "token_", the clock, '_', a random
   * suffix. It is made here, not by the token service, so it is never in the
   * token service's active set.
   */
  function RouteToken(now: int, suffix: string): (token: string)
    ensures |token| > 6 && token[..6] == "token_"
  {
    "token_" + IntToString(now) + "_" + suffix
  }

  /** POST /auth/verify-otp. */
  method VerifyOtpRoute(store: OtpStore, sessionId: Option<string>, otp: Option<string>, now: int, suffix: string)
    returns (response: VerifyResponse)
    modifies store
    ensures !Truthy(sessionId) || !Truthy(otp) ==>
              response == VerifyBadRequest("Session ID and OTP are required") && store.sessions == old(store.sessions)
    ensures Truthy(sessionId) && Truthy(otp) ==>
              var step := VerifyStep(old(store.sessions), sessionId.value, otp.value, now);
              && store.sessions == step.sessions
              && (step.outcome.Verified? ==>
                    response == VerifySucceeded(step.outcome.Message(), RouteToken(now, suffix), step.outcome.user))
              && (!step.outcome.Verified? ==> response == VerifyUnauthorized(step.outcome.Message()))
  {
    if !Truthy(sessionId) || !Truthy(otp) {
      return VerifyBadRequest("Session ID and OTP are required");
    }
    var outcome := store.VerifyOtp(sessionId.value, otp.value, now);
    if outcome.Verified? {
      response := VerifySucceeded(outcome.Message(), RouteToken(now, suffix), outcome.user);
    } else {
      response := VerifyUnauthorized(outcome.Message());
    }
  }
}
