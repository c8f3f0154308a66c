/**
 * The onboarding wizard: a step counter kept within [1, totalSteps], the
 * profile form with its two field errors, and the completion request whose
 * progress arrives as a stream of Loading, Success and Error results.
 */
module OnboardingViewModel {
  import opened Wrappers
  import opened Strings
  import opened JsNumbers

  const NameRequired: string := "Name is required"
  const DateFormatError: string := "Please use format YYYY-MM-DD"
  const DefaultRole: string := "Reporter"

  /** The user the onboarding flow reads its defaults from and rewrites on success. */
  datatype ProfileUser = ProfileUser(id: string, name: string, address: Option<string>, dateOfBirth: Option<string>, role: string)

  datatype OnboardingStep = OnboardingStep(stepNumber: int, title: string, description: string)

  const Steps: seq<OnboardingStep> := [
    OnboardingStep(1, "Welcome!", "Let's get you started with your profile"),
    OnboardingStep(2, "Personal Info", "Tell us about yourself"),
    OnboardingStep(3, "Contact Details", "How can we reach you?"),
    OnboardingStep(4, "Your Role", "What best describes you?")
  ]

  /** `^\d{4}-\d{2}-\d{2}$`, matched against the whole text: ten characters, dashes at positions 4 and 7, ASCII digits elsewhere. */
  predicate DateShaped(s: string) {
    && |s| == 10 && s[4] == '-' && s[7] == '-'
    && forall i :: 0 <= i < 10 && i != 4 && i != 7 ==> IsDigit(s[i])
  }

  /** validateDateOfBirth: nothing to say about a blank value; otherwise only the shape is checked, not the calendar. */
  function ValidateDateOfBirth(date: string): (error: Option<string>)
    ensures error.None? <==> IsBlank(Kotlin, date) || DateShaped(date)
    ensures error.Some? ==> error.value == DateFormatError
  {
    if IsBlank(Kotlin, date) then None
    else if !DateShaped(date) then Some(DateFormatError)
    else None
  }

  /** Any four digits, two digits and two digits joined by dashes pass, whether or not they name a day. */
  lemma DigitsWithDashesPass(year: string, month: string, day: string)
    requires |year| == 4 && |month| == 2 && |day| == 2
    requires AllDigits(year) && AllDigits(month) && AllDigits(day)
    ensures ValidateDateOfBirth(year + "-" + month + "-" + day).None?
  {
    var s := year + "-" + month + "-" + day;
    assert s[4] == '-' && s[7] == '-';
    forall i | 0 <= i < 10 && i != 4 && i != 7
      ensures IsDigit(s[i])
    {
      if i < 4 {
        assert s[i] == year[i];
      } else if i < 7 {
        assert s[i] == month[i - 5];
      } else {
        assert s[i] == day[i - 8];
      }
    }
  }

  /** A date with anything but ASCII digits and two dashes in those places is refused. */
  lemma MisshapenDateRefused(date: string)
    requires !IsBlank(Kotlin, date) && (|date| != 10 || date[4] != '-')
    ensures ValidateDateOfBirth(date) == Some(DateFormatError)
  {
  }

  /** `takeIf { it.isNotBlank() }`. */
  function NonBlank(s: string): (r: Option<string>)
    ensures r.None? <==> IsBlank(Kotlin, s)
    ensures r.Some? ==> r.value == s
  {
    if IsBlank(Kotlin, s) then None else Some(s)
  }

  /** The profile update sent when onboarding completes: blank optional fields are sent as null. */
  datatype ProfileUpdateRequest = ProfileUpdateRequest(name: string, address: Option<string>, dateOfBirth: Option<string>, role: string)

  /** What the update stream emits. */
  datatype ProfileResult = Loading | Success(data: ProfileUser) | Error(message: string)

  /** Every field of the screen's state but the fixed step count. */
  datatype OnboardingState = OnboardingState(
    currentStep: int,
    user: Option<ProfileUser>,
    error: Option<string>,
    isCompleting: bool,
    isCompleted: bool,
    showCompletionScreen: bool,
    name: string,
    address: string,
    dateOfBirth: string,
    selectedRole: string,
    nameError: Option<string>,
    dateOfBirthError: Option<string>)

  class OnboardingModel {
    var currentStep: int
    const totalSteps: int
    var user: Option<ProfileUser>
    var error: Option<string>
    var isCompleting: bool
    var isCompleted: bool
    var showCompletionScreen: bool
    var name: string
    var address: string
    var dateOfBirth: string
    var selectedRole: string
    var nameError: Option<string>
    var dateOfBirthError: Option<string>

    /** The step counter never leaves [1, totalSteps], and there are as many steps as descriptions. */
    ghost predicate Valid()
      reads this
    {
      totalSteps == |Steps| && 1 <= currentStep <= totalSteps
    }

    /** The state as a value, so that a method can say which fields it changes and that the rest stay. */
    ghost function State(): OnboardingState
      reads this
    {
      OnboardingState(currentStep, user, error, isCompleting, isCompleted, showCompletionScreen,
                      name, address, dateOfBirth, selectedRole, nameError, dateOfBirthError)
    }

    constructor ()
      ensures Valid() && currentStep == 1 && totalSteps == 4
      ensures user.None? && error.None? && !isCompleting && !isCompleted && !showCompletionScreen
      ensures name == "" && address == "" && dateOfBirth == "" && selectedRole == DefaultRole
      ensures nameError.None? && dateOfBirthError.None?
    {
      currentStep, totalSteps := 1, 4;
      user, error := None, None;
      isCompleting, isCompleted, showCompletionScreen := false, false, false;
      name, address, dateOfBirth, selectedRole := "", "", "", DefaultRole;
      nameError, dateOfBirthError := None, None;
    }

    /** initializeOnboarding: the form starts from the user's stored values; missing ones become empty. */
    method InitializeOnboarding(u: ProfileUser)
      requires Valid()
      modifies this
      ensures Valid()
      ensures State() == old(State()).(user := Some(u), name := u.name, address := u.address.GetOr(""),
                                       dateOfBirth := u.dateOfBirth.GetOr(""), selectedRole := u.role)
    {
      user, name, selectedRole := Some(u), u.name, u.role;
      address, dateOfBirth := u.address.GetOr(""), u.dateOfBirth.GetOr("");
    }

    /** getCurrentStep: the description of the step the wizard is on. */
    function CurrentStep(): (step: OnboardingStep)
      requires Valid()
      reads this
      ensures step.stepNumber == currentStep
    {
      Steps[currentStep - 1]
    }

    /** nextStep: one step on, unless on the last; the error is cleared only when the step changes. */
    method NextStep()
      requires Valid()
      modifies this
      ensures Valid()
      ensures old(currentStep) < totalSteps ==> State() == old(State()).(currentStep := old(currentStep) + 1, error := None)
      ensures old(currentStep) == totalSteps ==> State() == old(State())
    {
      if currentStep < totalSteps {
        currentStep, error := currentStep + 1, None;
      }
    }

    /** previousStep: one step back, unless on the first. */
    method PreviousStep()
      requires Valid()
      modifies this
      ensures Valid()
      ensures old(currentStep) > 1 ==> State() == old(State()).(currentStep := old(currentStep) - 1, error := None)
      ensures old(currentStep) == 1 ==> State() == old(State())
    {
      if currentStep > 1 {
        currentStep, error := currentStep - 1, None;
      }
    }

    /** skipCurrentStep is nextStep. */
    method SkipCurrentStep()
      requires Valid()
      modifies this
      ensures Valid()
      ensures old(currentStep) < totalSteps ==> State() == old(State()).(currentStep := old(currentStep) + 1, error := None)
      ensures old(currentStep) == totalSteps ==> State() == old(State())
    {
      NextStep();
    }

    /** updateName: the name, and an error exactly when it is blank. */
    method UpdateName(value: string)
      requires Valid()
      modifies this
      ensures Valid()
      ensures State() == old(State()).(name := value, nameError := nameError)
      ensures nameError == Some(NameRequired) <==> IsBlank(Kotlin, value)
      ensures nameError.None? <==> !IsBlank(Kotlin, value)
    {
      name := value;
      nameError := if IsBlank(Kotlin, value) then Some(NameRequired) else None;
    }

    method UpdateAddress(value: string)
      requires Valid()
      modifies this
      ensures Valid()
      ensures State() == old(State()).(address := value)
    {
      address := value;
    }

    /** updateDateOfBirth: the date, with its format error recomputed. */
    method UpdateDateOfBirth(value: string)
      requires Valid()
      modifies this
      ensures Valid()
      ensures State() == old(State()).(dateOfBirth := value, dateOfBirthError := ValidateDateOfBirth(value))
    {
      dateOfBirth := value;
      dateOfBirthError := ValidateDateOfBirth(value);
    }

    method UpdateRole(role: string)
      requires Valid()
      modifies this
      ensures Valid()
      ensures State() == old(State()).(selectedRole := role)
    {
      selectedRole := role;
    }

    /**
     * canProceedToNextStep: always from the welcome and role steps; from the
     * personal step with a non-blank name and no name error; from the contact
     * step when the date has no error.
     */
    function CanProceedToNextStep(): (ok: bool)
      reads this
      ensures currentStep == 1 || currentStep == 4 ==> ok
      ensures currentStep == 2 ==> (ok <==> !IsBlank(Kotlin, name) && nameError.None?)
      ensures currentStep == 3 ==> (ok <==> dateOfBirthError.None?)
      ensures !(1 <= currentStep <= 4) ==> !ok
    {
      if currentStep == 1 then true
      else if currentStep == 2 then !IsBlank(Kotlin, name) && nameError.None?
      else if currentStep == 3 then dateOfBirthError.None?
      else currentStep == 4
    }

    /** The request completeOnboarding would send for the current form. */
    function UpdateRequest(): (request: ProfileUpdateRequest)
      reads this
      ensures request.name == name && request.role == selectedRole
      ensures request.address == NonBlank(address) && request.dateOfBirth == NonBlank(dateOfBirth)
    {
      ProfileUpdateRequest(name, NonBlank(address), NonBlank(dateOfBirth), selectedRole)
    }

    /** completeOnboarding: nothing while a completion is running; otherwise the update is sent for `userId`. */
    method CompleteOnboarding(userId: string) returns (request: Option<(string, ProfileUpdateRequest)>)
      ensures isCompleting ==> request.None?
      ensures !isCompleting ==> request == Some((userId, UpdateRequest()))
    {
      if isCompleting {
        return None;
      }
      request := Some((userId, UpdateRequest()));
    }

    /**
     * One result of the update stream: Loading marks the completion as running;
     * Success ends it, shows the completion screen and keeps the returned user
     * with the form's name and role; Error ends it and shows the message.
     */
    method OnProfileResult(result: ProfileResult)
      requires Valid()
      modifies this
      ensures Valid()
      ensures result.Loading? ==> State() == old(State()).(isCompleting := true)
      ensures result.Success? ==>
                State() == old(State()).(isCompleting := false, showCompletionScreen := true,
                                         user := Some(result.data.(name := old(name), role := old(selectedRole))))
      ensures result.Error? ==> State() == old(State()).(isCompleting := false, error := Some(result.message))
    {
      match result
      case Loading =>
        isCompleting := true;
      case Success(data) =>
        isCompleting, showCompletionScreen := false, true;
        user := Some(data.(name := name, role := selectedRole));
      case Error(message) =>
        isCompleting, error := false, Some(message);
    }

    /** finishOnboarding and skipOnboarding both only mark the flow completed. */
    method FinishOnboarding()
      requires Valid()
      modifies this
      ensures Valid()
      ensures State() == old(State()).(isCompleted := true)
    {
      isCompleted := true;
    }

    method SkipOnboarding()
      requires Valid()
      modifies this
      ensures Valid()
      ensures State() == old(State()).(isCompleted := true)
    {
      FinishOnboarding();
    }

    method ClearError()
      requires Valid()
      modifies this
      ensures Valid()
      ensures State() == old(State()).(error := None)
    {
      error := None;
    }
  }

  /** Stepping forward and then back returns to the starting step, except from the last one. */
  method ForwardAndBack(model: OnboardingModel)
    requires model.Valid() && model.currentStep < model.totalSteps
    modifies model
    ensures model.Valid() && model.currentStep == old(model.currentStep)
  {
    model.NextStep();
    model.PreviousStep();
  }

  /** The personal step lets the user on once a non-blank name has been typed. */
  method NameUnblocksPersonalStep(model: OnboardingModel, value: string)
    requires model.Valid() && model.currentStep == 2 && !IsBlank(Kotlin, value)
    modifies model
    ensures model.CanProceedToNextStep()
  {
    model.UpdateName(value);
  }
}
