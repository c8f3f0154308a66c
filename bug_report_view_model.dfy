/**
 * The bug-report form: its fields, the validation result that the five
 * required fields' setters recompute, the attachment list, and the submission
 * whose progress arrives as a stream of Loading, Success and Error results.
 */
module BugReportViewModel {
  import opened Wrappers
  import opened Strings
  import opened Sequences

  /** An attached file, known by its path. */
  type File = string

  datatype BugFormData = BugFormData(
    title: string,
    description: string,
    priority: string,
    category: string,
    stepsToReproduce: string,
    expectedBehavior: string,
    actualBehavior: string,
    environment: string,
    reproducibility: string,
    severity: string,
    attachments: seq<File>)

  const DefaultForm: BugFormData :=
    BugFormData("", "", "Medium", "Other", "", "", "", "", "Always", "Medium", [])

  datatype BugFormValidation = BugFormValidation(
    isValid: bool,
    titleError: Option<string>,
    descriptionError: Option<string>,
    categoryError: Option<string>,
    priorityError: Option<string>,
    environmentError: Option<string>)

  /** The validation a fresh state holds before anything is validated: invalid, with no field errors. */
  const UnvalidatedForm: BugFormValidation := BugFormValidation(false, None, None, None, None, None)

  const FixErrors: string := "Please fix all validation errors before submitting"

  function RequiredError(value: string, message: string): (error: Option<string>)
    ensures error.None? <==> !IsBlank(Kotlin, value)
    ensures error.Some? ==> error.value == message
  {
    if IsBlank(Kotlin, value) then Some(message) else None
  }

  /**
   * validateForm: valid exactly when title, description, category, priority and
   * environment are all non-blank; each of them has an error exactly when blank.
   */
  function Validate(form: BugFormData): (v: BugFormValidation)
    ensures v.isValid <==> !IsBlank(Kotlin, form.title) && !IsBlank(Kotlin, form.description)
                           && !IsBlank(Kotlin, form.category) && !IsBlank(Kotlin, form.priority)
                           && !IsBlank(Kotlin, form.environment)
    ensures v.isValid <==> v.titleError.None? && v.descriptionError.None? && v.categoryError.None?
                           && v.priorityError.None? && v.environmentError.None?
    ensures v.titleError == RequiredError(form.title, "Title is required")
    ensures v.descriptionError == RequiredError(form.description, "Description is required")
    ensures v.categoryError == RequiredError(form.category, "Category is required")
    ensures v.priorityError == RequiredError(form.priority, "Priority is required")
    ensures v.environmentError == RequiredError(form.environment, "Environment is required")
  {
    BugFormValidation(
      !IsBlank(Kotlin, form.title) && !IsBlank(Kotlin, form.description) && !IsBlank(Kotlin, form.category)
        && !IsBlank(Kotlin, form.priority) && !IsBlank(Kotlin, form.environment),
      RequiredError(form.title, "Title is required"),
      RequiredError(form.description, "Description is required"),
      RequiredError(form.category, "Category is required"),
      RequiredError(form.priority, "Priority is required"),
      RequiredError(form.environment, "Environment is required"))
  }

  /** The default form is invalid: its title is blank. */
  lemma DefaultFormInvalid()
    ensures !Validate(DefaultForm).isValid
    ensures Validate(DefaultForm).titleError == Some("Title is required")
  {
    assert IsBlank(Kotlin, DefaultForm.title);
  }

  /** The text fields of the form, one setter each. */
  datatype FormField =
    | Title | Description | Priority | Category | StepsToReproduce
    | ExpectedBehavior | ActualBehavior | Environment | Reproducibility | Severity

  /** The setters of the five required fields re-validate; the others do not. */
  predicate Revalidates(f: FormField) {
    f == Title || f == Description || f == Priority || f == Category || f == Environment
  }

  /** `formData.copy(<field> = value)`. */
  function WithField(form: BugFormData, f: FormField, value: string): (r: BugFormData)
    ensures r.attachments == form.attachments
  {
    match f
    case Title => form.(title := value)
    case Description => form.(description := value)
    case Priority => form.(priority := value)
    case Category => form.(category := value)
    case StepsToReproduce => form.(stepsToReproduce := value)
    case ExpectedBehavior => form.(expectedBehavior := value)
    case ActualBehavior => form.(actualBehavior := value)
    case Environment => form.(environment := value)
    case Reproducibility => form.(reproducibility := value)
    case Severity => form.(severity := value)
  }

  /** A field that does not re-validate cannot change the verdict, so skipping validation loses nothing. */
  lemma OptionalFieldsKeepValidation(form: BugFormData, f: FormField, value: string)
    requires !Revalidates(f)
    ensures Validate(WithField(form, f, value)) == Validate(form)
  {
  }

  /** What the submission stream emits. */
  datatype BugResult = Loading | Success(message: string) | Error(message: string)

  class BugReportModel {
    var formData: BugFormData
    var validation: BugFormValidation
    var isLoading: bool
    var isSubmitted: bool
    var error: Option<string>
    var successMessage: Option<string>

    /** The stored verdict is the verdict of the current form, whatever the field errors say. */
    ghost predicate VerdictCurrent()
      reads this
    {
      validation.isValid == Validate(formData).isValid
    }

    /** The view-model's `init`: the default state, then validated. */
    constructor ()
      ensures formData == DefaultForm && validation == Validate(DefaultForm) && !validation.isValid
      ensures !isLoading && !isSubmitted && error.None? && successMessage.None?
      ensures VerdictCurrent()
    {
      formData, validation := DefaultForm, UnvalidatedForm;
      isLoading, isSubmitted, error, successMessage := false, false, None, None;
      new;
      DefaultFormInvalid();
      validation := Validate(formData);
    }

    /** updateTitle, updateDescription, …: sets one field; the five required ones re-validate. */
    method UpdateField(f: FormField, value: string)
      requires VerdictCurrent()
      modifies this
      ensures VerdictCurrent()
      ensures formData == WithField(old(formData), f, value)
      ensures Revalidates(f) ==> validation == Validate(formData)
      ensures !Revalidates(f) ==> validation == old(validation)
      ensures isLoading == old(isLoading) && isSubmitted == old(isSubmitted)
      ensures error == old(error) && successMessage == old(successMessage)
    {
      formData := WithField(formData, f, value);
      if Revalidates(f) {
        validation := Validate(formData);
      } else {
        OptionalFieldsKeepValidation(old(formData), f, value);
      }
    }

    /** addAttachment: the file goes at the end; nothing else changes. */
    method AddAttachment(file: File)
      requires VerdictCurrent()
      modifies this
      ensures VerdictCurrent()
      ensures formData == old(formData).(attachments := old(formData).attachments + [file])
      ensures validation == old(validation) && error == old(error) && isLoading == old(isLoading)
      ensures isSubmitted == old(isSubmitted) && successMessage == old(successMessage)
    {
      formData := formData.(attachments := formData.attachments + [file]);
    }

    /** removeAttachment: Kotlin's `list - file` drops only the first equal file. */
    method RemoveAttachment(file: File)
      requires VerdictCurrent()
      modifies this
      ensures VerdictCurrent()
      ensures formData == old(formData).(attachments := RemoveFirst(old(formData).attachments, file))
      ensures validation == old(validation) && error == old(error) && isLoading == old(isLoading)
      ensures isSubmitted == old(isSubmitted) && successMessage == old(successMessage)
    {
      formData := formData.(attachments := RemoveFirst(formData.attachments, file));
    }

    method ClearAttachments()
      requires VerdictCurrent()
      modifies this
      ensures VerdictCurrent()
      ensures formData == old(formData).(attachments := [])
      ensures validation == old(validation) && error == old(error) && isLoading == old(isLoading)
      ensures isSubmitted == old(isSubmitted) && successMessage == old(successMessage)
    {
      formData := formData.(attachments := []);
    }

    /**
     * The part of submitBugReport before the call: an invalid form is refused
     * with an error; otherwise the current form is sent with the reporter's id.
     */
    method SubmitBugReport(reporterId: string) returns (request: Option<(BugFormData, string)>)
      requires VerdictCurrent()
      modifies this
      ensures VerdictCurrent() && formData == old(formData) && validation == old(validation)
      ensures request.None? <==> !Validate(formData).isValid
      ensures request.None? ==> error == Some(FixErrors)
      ensures request.Some? ==> request.value == (formData, reporterId) && error == old(error)
      ensures isLoading == old(isLoading) && isSubmitted == old(isSubmitted) && successMessage == old(successMessage)
    {
      if !validation.isValid {
        error := Some(FixErrors);
        return None;
      }
      request := Some((formData, reporterId));
    }

    /**
     * One result of the submission stream: Loading starts loading and clears
     * the error; Success ends it, marks the report submitted and keeps the
     * server's message; Error ends it and shows the message.
     */
    method OnBugResult(result: BugResult)
      requires VerdictCurrent()
      modifies this
      ensures VerdictCurrent() && formData == old(formData) && validation == old(validation)
      ensures result.Loading? ==> isLoading && error.None? && isSubmitted == old(isSubmitted)
                                  && successMessage == old(successMessage)
      ensures result.Success? ==> !isLoading && isSubmitted && error.None? && successMessage == Some(result.message)
      ensures result.Error? ==> !isLoading && error == Some(result.message) && isSubmitted == old(isSubmitted)
                                && successMessage == old(successMessage)
    {
      match result
      case Loading =>
        isLoading, error := true, None;
      case Success(message) =>
        isLoading, isSubmitted, successMessage, error := false, true, Some(message), None;
      case Error(message) =>
        isLoading, error := false, Some(message);
    }

    method ClearError()
      requires VerdictCurrent()
      modifies this
      ensures VerdictCurrent() && error.None? && formData == old(formData) && validation == old(validation)
      ensures successMessage == old(successMessage) && isLoading == old(isLoading) && isSubmitted == old(isSubmitted)
    {
      error := None;
    }

    method ClearSuccessMessage()
      requires VerdictCurrent()
      modifies this
      ensures VerdictCurrent() && successMessage.None? && formData == old(formData) && validation == old(validation)
      ensures error == old(error) && isLoading == old(isLoading) && isSubmitted == old(isSubmitted)
    {
      successMessage := None;
    }

    /**
     * resetForm: back to the default state, but without validating it, so the
     * verdict is right (invalid) while the field errors are all absent.
     */
    method ResetForm()
      modifies this
      ensures VerdictCurrent()
      ensures formData == DefaultForm && validation == UnvalidatedForm
      ensures validation != Validate(formData)
      ensures !isLoading && !isSubmitted && error.None? && successMessage.None?
    {
      formData, validation := DefaultForm, UnvalidatedForm;
      isLoading, isSubmitted, error, successMessage := false, false, None, None;
      DefaultFormInvalid();
    }
  }

  /** A form with every required field filled in is sent, whatever order the fields were typed in. */
  method FillAndSubmit(model: BugReportModel, title: string, description: string, environment: string, reporterId: string)
      returns (request: Option<(BugFormData, string)>)
    requires model.VerdictCurrent()
    requires !IsBlank(Kotlin, title) && !IsBlank(Kotlin, description) && !IsBlank(Kotlin, environment)
    requires !IsBlank(Kotlin, model.formData.priority) && !IsBlank(Kotlin, model.formData.category)
    modifies model
    ensures request.Some? && request.value.0.title == title && request.value.1 == reporterId
  {
    model.UpdateField(Environment, environment);
    model.UpdateField(Title, title);
    model.UpdateField(Description, description);
    request := model.SubmitBugReport(reporterId);
  }
}
