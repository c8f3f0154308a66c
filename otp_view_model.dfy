/**
 * The OTP screen's state: the code being typed, the session it belongs to, a
 * loading flag, an error and the user once signed in. `verifyOtp` is split at
 * its suspension point like login.
 */
module OtpViewModel {
  import opened Wrappers
  import opened Strings
  import opened ClientModels

  const SessionExpired: string := "Session expired. Please login again."
  const EnterCode: string := "Enter the 6-digit code"
  const VerificationFailed: string := "OTP verification failed. Try again."

  datatype VerifyResponse = VerifyResponse(success: bool, token: Option<string>, user: Option<AppUser>, message: string)

  /**
   * The guard of verifyOtp: the session is checked before the code, and only a
   * code of exactly six characters is sent.
   */
  function VerifyGuard(sessionId: string, otp: string): (error: Option<string>)
    ensures error == Some(SessionExpired) <==> IsBlank(Kotlin, sessionId)
    ensures error == Some(EnterCode) <==> !IsBlank(Kotlin, sessionId) && |otp| != 6
    ensures error.None? <==> !IsBlank(Kotlin, sessionId) && |otp| == 6
  {
    if IsBlank(Kotlin, sessionId) then Some(SessionExpired)
    else if |otp| != 6 then Some(EnterCode)
    else None
  }

  /** The error shown after a verification call; None when it signed the user in. */
  function VerifyError(outcome: CallOutcome<VerifyResponse>): (error: Option<string>)
    ensures error.None? <==> outcome.Returned? && outcome.response.success && outcome.response.token.Some?
    ensures outcome.Threw? ==> error == Some(outcome.message.GetOr(VerificationFailed))
    ensures outcome.Returned? && error.Some? ==>
              error == Some(if IsBlank(Kotlin, outcome.response.message) then VerificationFailed else outcome.response.message)
  {
    match outcome
    case Returned(response) =>
      if response.success && response.token.Some? then None else Some(IfBlank(response.message, VerificationFailed))
    case Threw(message) => Some(message.GetOr(VerificationFailed))
  }

  class OtpModel {
    var otp: string
    var sessionId: string
    var isLoading: bool
    var error: Option<string>
    var user: Option<AppUser>

    constructor ()
      ensures otp == "" && sessionId == "" && !isLoading && error.None? && user.None?
    {
      otp, sessionId, isLoading, error, user := "", "", false, None, None;
    }

    /** setSessionId: the same session changes nothing; a new one starts over with an empty code and no error. */
    method SetSessionId(id: string)
      modifies this
      ensures id == old(sessionId) ==> otp == old(otp) && error == old(error)
      ensures id != old(sessionId) ==> otp == "" && error.None?
      ensures sessionId == id && isLoading == old(isLoading) && user == old(user)
    {
      if sessionId != id {
        sessionId, otp, error := id, "", None;
      }
    }

    /** onOtpChanged: takes the new code and clears any error. */
    method OnOtpChanged(value: string)
      modifies this
      ensures otp == value && error.None?
      ensures sessionId == old(sessionId) && isLoading == old(isLoading) && user == old(user)
    {
      otp, error := value, None;
    }

    /** The part of verifyOtp before the call: the guard, then loading; the request carries the session and code. */
    method VerifyOtp() returns (request: Option<(string, string)>)
      modifies this
      ensures otp == old(otp) && sessionId == old(sessionId) && user == old(user)
      ensures request.None? <==> VerifyGuard(sessionId, otp).Some?
      ensures request.None? ==> error == VerifyGuard(sessionId, otp) && isLoading == old(isLoading)
      ensures request.Some? ==> request.value == (sessionId, otp) && isLoading && error.None?
    {
      if IsBlank(Kotlin, sessionId) {
        error := Some(SessionExpired);
        return None;
      }
      if |otp| != 6 {
        error := Some(EnterCode);
        return None;
      }
      isLoading, error := true, None;
      request := Some((sessionId, otp));
    }

    /**
     * The call's outcome: loading stops; a successful response with a token
     * clears the code, keeps the user and signs in with it; anything else shows
     * an error and leaves code and user alone.
     */
    method CompleteVerify(outcome: CallOutcome<VerifyResponse>) returns (signedIn: Option<Option<AppUser>>)
      modifies this
      ensures sessionId == old(sessionId) && !isLoading
      ensures error == VerifyError(outcome)
      ensures signedIn.Some? <==> error.None?
      ensures signedIn.Some? ==> signedIn == Some(outcome.response.user) && user == outcome.response.user && otp == ""
      ensures signedIn.None? ==> user == old(user) && otp == old(otp)
    {
      match outcome
      case Returned(response) =>
        if response.success && response.token.Some? {
          isLoading, error, otp, user := false, None, "", response.user;
          signedIn := Some(response.user);
        } else {
          error, isLoading := Some(IfBlank(response.message, VerificationFailed)), false;
          signedIn := None;
        }
      case Threw(message) =>
        error, isLoading := Some(message.GetOr(VerificationFailed)), false;
        signedIn := None;
    }
  }

  /** A new session throws away a half-typed code, so the next verification is refused before any request. */
  method NewSessionNeedsNewCode(model: OtpModel, id: string)
    requires id != model.sessionId && !IsBlank(Kotlin, id)
    modifies model
    ensures model.error == Some(EnterCode)
  {
    model.SetSessionId(id);
    var request := model.VerifyOtp();
  }
}
