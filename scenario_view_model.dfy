/**
 * The scenario screen: which actions are in flight, the call log (newest
 * first, at most twenty entries) and the last error. Each trigger runs
 * executeAction with its own id and label; the call's result and the clock
 * reading taken for the log entry are parameters.
 */
module ScenarioViewModel {
  import opened Wrappers
  import opened JsNumbers
  import opened ClientModels

  const ActionStatusOk: string := "status_ok"
  const ActionStatusNotFound: string := "status_not_found"
  const ActionStatusServerError: string := "status_server_error"
  const ActionMetrics: string := "metrics_daily"
  const ActionDelayed: string := "delayed"
  const ActionOrderOk: string := "order_ok"
  const ActionOrderInvalid: string := "order_invalid"
  const ActionLatestOtp: string := "latest_otp"

  const MaxLogs: nat := 20
  const UnexpectedError: string := "Unexpected error"

  /** The buttons of the screen; each names the action id and the label its log entries carry. */
  datatype Trigger =
    | StatusOk | StatusNotFound | StatusServerError | DailyMetrics
    | Delayed(ms: int) | CreateOrder(quantity: int) | LatestOtp

  function ActionOf(t: Trigger): (action: (string, string))
    ensures t.CreateOrder? ==> (action.0 == ActionOrderOk <==> t.quantity > 0)
    ensures t.CreateOrder? && t.quantity > 0 ==> action.1 == "POST /api/orders (quantity=" + IntToString(t.quantity) + ")"
    ensures t.CreateOrder? && t.quantity <= 0 ==> action == (ActionOrderInvalid, "POST /api/orders (invalid quantity)")
  {
    match t
    case StatusOk => (ActionStatusOk, "GET /api/status/ok")
    case StatusNotFound => (ActionStatusNotFound, "GET /api/status/not-found")
    case StatusServerError => (ActionStatusServerError, "GET /api/status/server-error")
    case DailyMetrics => (ActionMetrics, "GET /api/metrics/daily")
    case Delayed(ms) => (ActionDelayed, "GET /api/delayed?ms=" + IntToString(ms))
    case CreateOrder(quantity) =>
      if quantity > 0 then (ActionOrderOk, "POST /api/orders (quantity=" + IntToString(quantity) + ")")
      else (ActionOrderInvalid, "POST /api/orders (invalid quantity)")
    case LatestOtp => (ActionLatestOtp, "GET /api/otp/latest")
  }

  datatype ScenarioCallResult = ScenarioCallResult(statusCode: int, isSuccessful: bool, bodyPreview: string)

  datatype ScenarioLog = ScenarioLog(labelText: string, statusCode: int, isSuccessful: bool, bodyPreview: string, timestamp: int)

  /** `(listOf(log) + logs).take(20)`: the new entry first, the older ones after it, cut to twenty. */
  function Prepended(logs: seq<ScenarioLog>, log: ScenarioLog): (r: seq<ScenarioLog>)
    ensures |r| == Min(|logs| + 1, MaxLogs)
    ensures r[0] == log
    ensures forall i :: 0 < i < |r| ==> r[i] == logs[i - 1]
  {
    var all := [log] + logs;
    all[..Min(|all|, MaxLogs)]
  }

  /** Entries are ordered newest first. */
  predicate NewestFirst(logs: seq<ScenarioLog>) {
    forall i, j :: 0 <= i < j < |logs| ==> logs[i].timestamp >= logs[j].timestamp
  }

  /** With a clock that does not run backwards, prepending keeps the log newest first. */
  lemma PrependKeepsNewestFirst(logs: seq<ScenarioLog>, log: ScenarioLog)
    requires NewestFirst(logs)
    requires logs == [] || log.timestamp >= logs[0].timestamp
    ensures NewestFirst(Prepended(logs, log))
  {
    var r := Prepended(logs, log);
    forall i, j | 0 <= i < j < |r|
      ensures r[i].timestamp >= r[j].timestamp
    {
      if i > 0 {
        assert r[i] == logs[i - 1] && r[j] == logs[j - 1];
      } else {
        assert r[j] == logs[j - 1];
        assert logs[0].timestamp >= logs[j - 1].timestamp;
      }
    }
  }

  class ScenarioModel {
    var inFlightActions: set<string>
    var logs: seq<ScenarioLog>
    var error: Option<string>

    /** The log never holds more than twenty entries. */
    ghost predicate Valid()
      reads this
    {
      |logs| <= MaxLogs
    }

    constructor ()
      ensures Valid() && inFlightActions == {} && logs == [] && error.None?
    {
      inFlightActions, logs, error := {}, [], None;
    }

    /** The start of executeAction: the id is in flight and the error is cleared. */
    method StartAction(id: string)
      requires Valid()
      modifies this
      ensures Valid() && inFlightActions == old(inFlightActions) + {id} && error.None? && logs == old(logs)
    {
      inFlightActions, error := inFlightActions + {id}, None;
    }

    /**
     * The end of executeAction: the id is no longer in flight; a result is
     * logged with the action's label and the clock reading `now`; an exception
     * sets the error and leaves the log alone.
     */
    method FinishAction(id: string, labelText: string, outcome: CallOutcome<ScenarioCallResult>, now: int)
      requires Valid()
      modifies this
      ensures Valid() && inFlightActions == old(inFlightActions) - {id}
      ensures outcome.Returned? ==>
                var p := outcome.response;
                logs == Prepended(old(logs), ScenarioLog(labelText, p.statusCode, p.isSuccessful, p.bodyPreview, now))
                && error == old(error)
      ensures outcome.Threw? ==> logs == old(logs) && error == Some(outcome.message.GetOr(UnexpectedError))
    {
      match outcome
      case Returned(payload) =>
        var log := ScenarioLog(labelText, payload.statusCode, payload.isSuccessful, payload.bodyPreview, now);
        inFlightActions, logs := inFlightActions - {id}, Prepended(logs, log);
      case Threw(message) =>
        inFlightActions, error := inFlightActions - {id}, Some(message.GetOr(UnexpectedError));
    }

    /** A trigger run to completion: its id is gone from the in-flight set, and its result, labelled with the action, is on top of the log. */
    method ExecuteAction(t: Trigger, outcome: CallOutcome<ScenarioCallResult>, now: int)
      requires Valid()
      modifies this
      ensures Valid() && inFlightActions == old(inFlightActions) - {ActionOf(t).0}
      ensures outcome.Returned? ==>
                var p := outcome.response;
                logs == Prepended(old(logs), ScenarioLog(ActionOf(t).1, p.statusCode, p.isSuccessful, p.bodyPreview, now))
                && error.None?
      ensures outcome.Returned? ==> |logs| == Min(|old(logs)| + 1, MaxLogs)
      ensures outcome.Threw? ==> logs == old(logs) && error == Some(outcome.message.GetOr(UnexpectedError))
    {
      var (id, labelText) := ActionOf(t);
      StartAction(id);
      FinishAction(id, labelText, outcome, now);
    }

    /** clearError: only the error changes. */
    method ClearError()
      requires Valid()
      modifies this
      ensures Valid() && error.None? && logs == old(logs) && inFlightActions == old(inFlightActions)
    {
      error := None;
    }
  }

  /** However many calls are logged, the log stays capped at twenty. */
  method LogMany(model: ScenarioModel, results: seq<ScenarioCallResult>, now: int)
    requires model.Valid()
    modifies model
    ensures model.Valid() && |model.logs| == Min(|old(model.logs)| + |results|, MaxLogs)
  {
    for k := 0 to |results|
      invariant model.Valid() && |model.logs| == Min(|old(model.logs)| + k, MaxLogs)
    {
      model.ExecuteAction(StatusOk, Returned(results[k]), now);
    }
  }
}
