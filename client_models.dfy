/**
 * What the Android client's view-models receive from their repositories: the
 * signed-in user, and the outcome of a call, which is either the decoded
 * response or an exception with an optional message.
 */
module ClientModels {
  import opened Wrappers

  /** The user record the client keeps after sign-in. */
  datatype AppUser = AppUser(id: string, name: string, email: Option<string>, phone: Option<string>)

  /** `Result<R>` of a repository call: the response, or the exception's message (possibly null). */
  datatype CallOutcome<R> = Returned(response: R) | Threw(message: Option<string>)
}
