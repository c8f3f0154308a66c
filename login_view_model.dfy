/**
 * The login screen's state: the identifier being typed, a loading flag and an
 * error. `login` is split at its suspension point: the guard and the loading
 * flag happen at once, the call's outcome arrives later.
 */
module LoginViewModel {
  import opened Wrappers
  import opened Strings
  import opened ClientModels

  const InvalidIdentifier: string := "Please enter a valid phone or email"
  const LoginFailed: string := "Login failed. Please try again."

  datatype LoginResponse = LoginResponse(success: bool, sessionId: Option<string>, message: string)

  /** The error shown after a login call; None when the call opened a session. */
  function LoginError(outcome: CallOutcome<LoginResponse>): (error: Option<string>)
    ensures error.None? <==> outcome.Returned? && outcome.response.success && outcome.response.sessionId.Some?
    ensures outcome.Threw? ==> error == Some(outcome.message.GetOr(LoginFailed))
    ensures outcome.Returned? && error.Some? ==>
              error == Some(if IsBlank(Kotlin, outcome.response.message) then LoginFailed else outcome.response.message)
  {
    match outcome
    case Returned(response) =>
      if response.success && response.sessionId.Some? then None else Some(IfBlank(response.message, LoginFailed))
    case Threw(message) => Some(message.GetOr(LoginFailed))
  }

  class LoginModel {
    var identifier: string
    var isLoading: bool
    var error: Option<string>

    constructor ()
      ensures identifier == "" && !isLoading && error.None?
    {
      identifier := "";
      isLoading := false;
      error := None;
    }

    /** onIdentifierChanged: takes the new text and clears any error. */
    method OnIdentifierChanged(value: string)
      modifies this
      ensures identifier == value && error.None? && isLoading == old(isLoading)
    {
      identifier := value;
      error := None;
    }

    /**
     * The part of login before the call: a blank identifier is refused with no
     * request; otherwise loading starts and the trimmed identifier is sent.
     */
    method Login() returns (request: Option<string>)
      modifies this
      ensures identifier == old(identifier)
      ensures request.None? <==> IsBlank(Kotlin, identifier)
      ensures request.None? ==> error == Some(InvalidIdentifier) && isLoading == old(isLoading)
      ensures request.Some? ==> request.value == Trim(Kotlin, identifier) && isLoading && error.None?
    {
      var trimmed := Trim(Kotlin, identifier);
      TrimmedBlank(Kotlin, identifier);
      if IsBlank(Kotlin, trimmed) {
        error := Some(InvalidIdentifier);
        return None;
      }
      isLoading := true;
      error := None;
      request := Some(trimmed);
    }

    /**
     * The call's outcome: loading stops; a successful response with a session
     * id navigates with that id, anything else shows an error.
     */
    method CompleteLogin(outcome: CallOutcome<LoginResponse>) returns (navigateWith: Option<string>)
      modifies this
      ensures identifier == old(identifier) && !isLoading
      ensures error == LoginError(outcome)
      ensures navigateWith.Some? <==> error.None?
      ensures navigateWith.Some? ==> navigateWith == outcome.response.sessionId
    {
      match outcome
      case Returned(response) =>
        if response.success && response.sessionId.Some? {
          isLoading, error := false, None;
          navigateWith := response.sessionId;
        } else {
          error, isLoading := Some(IfBlank(response.message, LoginFailed)), false;
          navigateWith := None;
        }
      case Threw(message) =>
        error, isLoading := Some(message.GetOr(LoginFailed)), false;
        navigateWith := None;
    }
  }

  /** Typing after a refused login clears the refusal. */
  method RetypeAfterRefusal(model: LoginModel, value: string)
    requires IsBlank(Kotlin, model.identifier)
    modifies model
    ensures model.error.None? && model.identifier == value
  {
    var request := model.Login();
    assert model.error == Some(InvalidIdentifier);
    model.OnIdentifierChanged(value);
  }
}
