/**
 * The request-body validators placed in front of the bug-report and comment
 * routes. Each field contributes at most one message, in a fixed field order;
 * the request goes on only when no field complained, and otherwise is answered
 * with 400 and every message.
 */
module Validation {
  import opened Wrappers
  import opened Strings
  import opened BugReportModel

  /** The body fields of a bug-report request; absent fields are `None`. */
  datatype BugReportBody = BugReportBody(
    title: Option<string>,
    description: Option<string>,
    priority: Option<string>,
    category: Option<string>,
    environment: Option<string>,
    stepsToReproduce: Option<string>,
    expectedBehavior: Option<string>,
    actualBehavior: Option<string>)

  /** The answer of a validator: pass the request on, or 400 with a message and the list of complaints. */
  datatype Response = Next | BadRequest(message: string, errors: seq<string>)

  /** The complaints `validateBugReport` can make, one constructor per message. */
  datatype BugError =
    | TitleRequired | TitleTooLong
    | DescriptionRequired | DescriptionTooLong
    | EnvironmentRequired | EnvironmentTooLong
    | PriorityInvalid | CategoryInvalid
    | StepsTooLong | ExpectedTooLong | ActualTooLong
  {
    function Message(): string {
      match this
      case TitleRequired => "Title is required"
      case TitleTooLong => "Title must be less than 200 characters"
      case DescriptionRequired => "Description is required"
      case DescriptionTooLong => "Description must be less than 2000 characters"
      case EnvironmentRequired => "Environment is required"
      case EnvironmentTooLong => "Environment must be less than 500 characters"
      case PriorityInvalid => "Priority must be one of: Low, Medium, High, Critical"
      case CategoryInvalid => "Category must be one of: UI/UX, Functionality, Performance, Security, Compatibility, Data, Other"
      case StepsTooLong => "Steps to reproduce must be less than 1000 characters"
      case ExpectedTooLong => "Expected behavior must be less than 500 characters"
      case ActualTooLong => "Actual behavior must be less than 500 characters"
    }

    /** The position of the field the complaint is about, in the order the fields are checked. */
    function Field(): nat {
      match this
      case TitleRequired | TitleTooLong => 0
      case DescriptionRequired | DescriptionTooLong => 1
      case EnvironmentRequired | EnvironmentTooLong => 2
      case PriorityInvalid => 3
      case CategoryInvalid => 4
      case StepsTooLong => 5
      case ExpectedTooLong => 6
      case ActualTooLong => 7
    }
  }

  function Messages(errors: seq<BugError>): (r: seq<string>)
    ensures |r| == |errors| && forall i :: 0 <= i < |errors| ==> r[i] == errors[i].Message()
  {
    seq(|errors|, i requires 0 <= i < |errors| => errors[i].Message())
  }

  /** A required text field is missing when absent, empty or only white space. */
  predicate Missing(v: Option<string>) {
    !Truthy(v) || IsBlank(Js, v.value)
  }

  /** A required text field passes when present, not blank, and at most `limit` characters long. */
  predicate RequiredTextOk(v: Option<string>, limit: nat) {
    v.Some? && !IsBlank(Js, v.value) && |v.value| <= limit
  }

  /** An optional text field passes when absent or empty, or at most `limit` characters long. */
  predicate OptionalTextOk(v: Option<string>, limit: nat) {
    !Truthy(v) || |v.value| <= limit
  }

  /** An optional choice passes when absent or empty, or one of `names`. */
  predicate OptionalChoiceOk(v: Option<string>, names: seq<string>) {
    !Truthy(v) || v.value in names
  }

  /** The body a bug report must have to be let through. */
  predicate AcceptableBugReport(b: BugReportBody) {
    && RequiredTextOk(b.title, 200)
    && RequiredTextOk(b.description, 2000)
    && RequiredTextOk(b.environment, 500)
    && OptionalChoiceOk(b.priority, LevelNames)
    && OptionalChoiceOk(b.category, CategoryNames)
    && OptionalTextOk(b.stepsToReproduce, 1000)
    && OptionalTextOk(b.expectedBehavior, 500)
    && OptionalTextOk(b.actualBehavior, 500)
  }

  /** The complaint about a required text field: missing, too long, or none. */
  function RequiredComplaint(v: Option<string>, limit: nat, required: BugError, tooLong: BugError): (r: Option<BugError>)
    requires required != tooLong
    ensures r == None <==> RequiredTextOk(v, limit)
    ensures r == Some(required) <==> Missing(v)
    ensures r == Some(tooLong) <==> !Missing(v) && |v.value| > limit
  {
    if Missing(v) then Some(required)
    else if |v.value| > limit then Some(tooLong)
    else None
  }

  /** The complaint about an optional field, given whether it passes. */
  function OptionalComplaint(ok: bool, complaint: BugError): (r: Option<BugError>)
    ensures r == None <==> ok
    ensures r.Some? ==> r.value == complaint
  {
    if ok then None else Some(complaint)
  }

  /** The complaint about field `k` (title, description, environment, priority, category, steps, expected, actual). */
  function Complaint(b: BugReportBody, k: nat): (r: Option<BugError>)
    requires k < 8
    ensures r.Some? ==> r.value.Field() == k
  {
    match k
    case 0 => RequiredComplaint(b.title, 200, TitleRequired, TitleTooLong)
    case 1 => RequiredComplaint(b.description, 2000, DescriptionRequired, DescriptionTooLong)
    case 2 => RequiredComplaint(b.environment, 500, EnvironmentRequired, EnvironmentTooLong)
    case 3 => OptionalComplaint(OptionalChoiceOk(b.priority, LevelNames), PriorityInvalid)
    case 4 => OptionalComplaint(OptionalChoiceOk(b.category, CategoryNames), CategoryInvalid)
    case 5 => OptionalComplaint(OptionalTextOk(b.stepsToReproduce, 1000), StepsTooLong)
    case 6 => OptionalComplaint(OptionalTextOk(b.expectedBehavior, 500), ExpectedTooLong)
    case 7 => OptionalComplaint(OptionalTextOk(b.actualBehavior, 500), ActualTooLong)
  }

  function AsSeq(o: Option<BugError>): seq<BugError> {
    if o.Some? then [o.value] else []
  }

  /** The complaints about the first `k` fields, in field order. */
  function ComplaintsBefore(b: BugReportBody, k: nat): seq<BugError>
    requires k <= 8
  {
    if k == 0 then [] else ComplaintsBefore(b, k - 1) + AsSeq(Complaint(b, k - 1))
  }

  /** Messages about strictly later fields come later: so at most one message per field. */
  predicate InFieldOrder(errors: seq<BugError>) {
    forall i, j :: 0 <= i < j < |errors| ==> errors[i].Field() < errors[j].Field()
  }

  /** The complaints come in field order, at most one per field. */
  lemma {:induction false} ComplaintsInOrder(b: BugReportBody, k: nat)
    requires k <= 8
    ensures InFieldOrder(ComplaintsBefore(b, k))
    ensures forall i :: 0 <= i < |ComplaintsBefore(b, k)| ==> ComplaintsBefore(b, k)[i].Field() < k
  {
    if k > 0 {
      ComplaintsInOrder(b, k - 1);
    }
  }

  /** A complaint is made exactly when its own field calls for it. */
  lemma {:induction false} ComplaintMembership(b: BugReportBody, k: nat, e: BugError)
    requires k <= 8
    ensures e in ComplaintsBefore(b, k) <==> e.Field() < k && Complaint(b, e.Field()) == Some(e)
  {
    if k > 0 {
      ComplaintMembership(b, k - 1, e);
    }
  }

  /** No complaint at all exactly when the body is acceptable. */
  lemma {:induction false} NoComplaintsIffAcceptable(b: BugReportBody)
    ensures ComplaintsBefore(b, 8) == [] <==> AcceptableBugReport(b)
  {
    var all := ComplaintsBefore(b, 8);
    if all == [] {
      forall k | 0 <= k < 8
        ensures Complaint(b, k) == None
      {
        if Complaint(b, k).Some? {
          ComplaintMembership(b, 8, Complaint(b, k).value);
        }
      }
      assert Complaint(b, 0) == None && Complaint(b, 1) == None && Complaint(b, 2) == None && Complaint(b, 3) == None;
      assert Complaint(b, 4) == None && Complaint(b, 5) == None && Complaint(b, 6) == None && Complaint(b, 7) == None;
    } else {
      ComplaintMembership(b, 8, all[0]);
    }
  }

  /**
   * validateBugReport: for each field in turn, the required check and then the
   * length check, or the membership check of an optional choice, or the length
   * check of an optional text. The request goes on exactly when nothing was found.
   */
  method ValidateBugReport(b: BugReportBody) returns (errors: seq<BugError>, response: Response)
    ensures errors == ComplaintsBefore(b, 8)
    ensures errors == [] <==> AcceptableBugReport(b)
    ensures response == if errors == [] then Next else BadRequest("Validation failed", Messages(errors))
  {
    errors := [];
    assert ComplaintsBefore(b, 0) == [];
    errors := CheckRequired(errors, b.title, 200, TitleRequired, TitleTooLong);
    ComplaintsStep(b, 0);
    errors := CheckRequired(errors, b.description, 2000, DescriptionRequired, DescriptionTooLong);
    ComplaintsStep(b, 1);
    errors := CheckRequired(errors, b.environment, 500, EnvironmentRequired, EnvironmentTooLong);
    ComplaintsStep(b, 2);
    errors := CheckOptional(errors, OptionalChoiceOk(b.priority, LevelNames), PriorityInvalid);
    ComplaintsStep(b, 3);
    errors := CheckOptional(errors, OptionalChoiceOk(b.category, CategoryNames), CategoryInvalid);
    ComplaintsStep(b, 4);
    errors := CheckOptional(errors, OptionalTextOk(b.stepsToReproduce, 1000), StepsTooLong);
    ComplaintsStep(b, 5);
    errors := CheckOptional(errors, OptionalTextOk(b.expectedBehavior, 500), ExpectedTooLong);
    ComplaintsStep(b, 6);
    errors := CheckOptional(errors, OptionalTextOk(b.actualBehavior, 500), ActualTooLong);
    ComplaintsStep(b, 7);
    NoComplaintsIffAcceptable(b);
    response := if errors == [] then Next else BadRequest("Validation failed", Messages(errors));
  }

  /** One more field checked: its complaint, if any, goes after the earlier ones. */
  lemma ComplaintsStep(b: BugReportBody, k: nat)
    requires k < 8
    ensures ComplaintsBefore(b, k + 1) == ComplaintsBefore(b, k) + AsSeq(Complaint(b, k))
  {
  }

  /** The checks of one required text field: the required message, else the length message. */
  method CheckRequired(errors: seq<BugError>, v: Option<string>, limit: nat, required: BugError, tooLong: BugError)
    returns (errors': seq<BugError>)
    requires required != tooLong
    ensures errors' == errors + AsSeq(RequiredComplaint(v, limit, required, tooLong))
  {
    errors' := errors;
    if Missing(v) {
      errors' := errors' + [required];
    } else if |v.value| > limit {
      errors' := errors' + [tooLong];
    }
  }

  /** The one check of an optional field: its message when the check fails. */
  method CheckOptional(errors: seq<BugError>, ok: bool, complaint: BugError) returns (errors': seq<BugError>)
    ensures errors' == errors + AsSeq(OptionalComplaint(ok, complaint))
  {
    errors' := errors;
    if !ok {
      errors' := errors' + [complaint];
    }
  }

  /** The body fields of a comment request. */
  datatype CommentBody = CommentBody(content: Option<string>, kind: Option<string>)

  const ContentRequired := "Comment content is required"
  const ContentTooLong := "Comment must be less than 1000 characters"
  const KindInvalid := "Comment type must be one of: comment, status_update, solution"
  const CommentKinds: seq<string> := ["comment", "status_update", "solution"]

  predicate AcceptableComment(c: CommentBody) {
    RequiredTextOk(c.content, 1000) && OptionalChoiceOk(c.kind, CommentKinds)
  }

  /** validateComment: the content is required and limited, the type is an optional choice. */
  method ValidateComment(c: CommentBody) returns (errors: seq<string>, response: Response)
    ensures errors == [] <==> AcceptableComment(c)
    ensures |errors| <= 2
    ensures ContentRequired in errors <==> Missing(c.content)
    ensures ContentTooLong in errors <==> !Missing(c.content) && |c.content.value| > 1000
    ensures KindInvalid in errors <==> !OptionalChoiceOk(c.kind, CommentKinds)
    ensures KindInvalid in errors ==> errors[|errors| - 1] == KindInvalid
    ensures response == if errors == [] then Next else BadRequest("Validation failed", errors)
  {
    errors := [];
    if Missing(c.content) {
      errors := errors + [ContentRequired];
    } else if |c.content.value| > 1000 {
      errors := errors + [ContentTooLong];
    }
    if Truthy(c.kind) && c.kind.value !in CommentKinds {
      errors := errors + [KindInvalid];
    }
    response := if errors == [] then Next else BadRequest("Validation failed", errors);
  }
}
