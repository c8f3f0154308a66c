/**
 * The bug-report record: its enumerations and defaults, the `BUG-NNN` numbering,
 * the age of a report in days and the overdue flag, and the save hook that
 * assigns the id and keeps the resolution time in step with the status.
 * Times are milliseconds since the epoch; the clock is a parameter.
 */
module BugReportModel {
  import opened Wrappers
  import opened Strings
  import opened JsNumbers

  /** The scale shared by `severity` and `priority`. */
  datatype Level = Low | Medium | High | Critical

  const LevelNames: seq<string> := ["Low", "Medium", "High", "Critical"]
  const DefaultLevel: Level := Medium

  function LevelName(l: Level): (name: string)
    ensures name in LevelNames
  {
    match l
    case Low => "Low"
    case Medium => "Medium"
    case High => "High"
    case Critical => "Critical"
  }

  /** The enum check of the schema: the level a stored string names, if any. */
  function ParseLevel(s: string): (r: Option<Level>)
    ensures r.Some? <==> s in LevelNames
    ensures r.Some? ==> LevelName(r.value) == s
  {
    if s == "Low" then Some(Low)
    else if s == "Medium" then Some(Medium)
    else if s == "High" then Some(High)
    else if s == "Critical" then Some(Critical)
    else None
  }

  lemma LevelRoundTrip(l: Level)
    ensures ParseLevel(LevelName(l)) == Some(l)
  {
  }

  datatype Category = UiUx | Functionality | Performance | Security | Compatibility | Data | Other

  const CategoryNames: seq<string> := ["UI/UX", "Functionality", "Performance", "Security", "Compatibility", "Data", "Other"]
  const DefaultCategory: Category := Other

  function CategoryName(c: Category): (name: string)
    ensures name in CategoryNames
  {
    match c
    case UiUx => "UI/UX"
    case Functionality => "Functionality"
    case Performance => "Performance"
    case Security => "Security"
    case Compatibility => "Compatibility"
    case Data => "Data"
    case Other => "Other"
  }

  function ParseCategory(s: string): (r: Option<Category>)
    ensures r.Some? <==> s in CategoryNames
    ensures r.Some? ==> CategoryName(r.value) == s
  {
    if s == "UI/UX" then Some(UiUx)
    else if s == "Functionality" then Some(Functionality)
    else if s == "Performance" then Some(Performance)
    else if s == "Security" then Some(Security)
    else if s == "Compatibility" then Some(Compatibility)
    else if s == "Data" then Some(Data)
    else if s == "Other" then Some(Other)
    else None
  }

  lemma CategoryRoundTrip(c: Category)
    ensures ParseCategory(CategoryName(c)) == Some(c)
  {
  }

  datatype Status = Open | InProgress | Testing | Resolved | Closed | Reopened

  const StatusNames: seq<string> := ["Open", "In Progress", "Testing", "Resolved", "Closed", "Reopened"]
  const DefaultStatus: Status := Open

  function StatusName(s: Status): (name: string)
    ensures name in StatusNames
  {
    match s
    case Open => "Open"
    case InProgress => "In Progress"
    case Testing => "Testing"
    case Resolved => "Resolved"
    case Closed => "Closed"
    case Reopened => "Reopened"
  }

  function ParseStatus(s: string): (r: Option<Status>)
    ensures r.Some? <==> s in StatusNames
    ensures r.Some? ==> StatusName(r.value) == s
  {
    if s == "Open" then Some(Open)
    else if s == "In Progress" then Some(InProgress)
    else if s == "Testing" then Some(Testing)
    else if s == "Resolved" then Some(Resolved)
    else if s == "Closed" then Some(Closed)
    else if s == "Reopened" then Some(Reopened)
    else None
  }

  lemma StatusRoundTrip(s: Status)
    ensures ParseStatus(StatusName(s)) == Some(s)
  {
  }

  const IdPrefix: string := "BUG-"

  /** The id of the `n`-th report: "BUG-" and `n` in decimal, padded with zeros to three digits. */
  function BugIdFor(n: nat): string {
    IdPrefix + PadStart(NatToString(n), 3, '0')
  }

  /**
   * generateBugId, given what the query for the latest report found: no report,
   * a report without an id (reading its id throws), or a report with an id.
   * The number after the first '-' is parsed with `parseInt`; a number that does
   * not parse gives NaN, and NaN + 1 renders as "NaN".
   */
  function GenerateBugId(latest: Option<Option<string>>): (r: Result<string, string>)
    ensures latest == None ==> r == Ok(IdPrefix + "001")
    ensures r.Err? <==> latest == Some(None)
    ensures r.Ok? ==> |r.value| >= 7 && r.value[..4] == IdPrefix
  {
    match latest
    case None => Ok(IdPrefix + "001")
    case Some(None) => Err("TypeError: Cannot read properties of undefined (reading 'split')")
    case Some(Some(bugId)) => Ok(IdAfter(bugId))
  }

  /** The id that follows `bugId`: its number after the first '-', plus one, padded to three digits. */
  function IdAfter(bugId: string): (r: string)
    ensures |r| >= 7 && r[..4] == IdPrefix
  {
    match NumberPart(bugId)
    case None => IdPrefix + "NaN"
    case Some(n) =>
      var padded := PadStart(IntToString(n + 1), 3, '0');
      IdPrefix + padded
  }

  /** `parseInt(bugId.split('-')[1])`; None when there is no second piece or it does not parse. */
  function NumberPart(bugId: string): Option<int> {
    var parts := Split(bugId, '-');
    if |parts| >= 2 then ParseInt(parts[1]) else None
  }

  /** The number of an id made by `BugIdFor` reads back as the number it was made from. */
  lemma {:induction false} BugIdNumberRoundTrip(n: nat)
    ensures Split(BugIdFor(n), '-') == ["BUG", PadStart(NatToString(n), 3, '0')]
    ensures ParseInt(Split(BugIdFor(n), '-')[1]) == Some(n)
  {
    var padded := PadStart(NatToString(n), 3, '0');
    assert '-' !in padded by {
      forall i | 0 <= i < |padded|
        ensures padded[i] != '-'
      {
        if i >= |padded| - |NatToString(n)| {
          assert padded[i] == NatToString(n)[i - (|padded| - |NatToString(n)|)];
        }
      }
    }
    assert BugIdFor(n) == Join(["BUG", padded], '-') by {
      assert ["BUG", padded][1..] == [padded];
    }
    SplitJoin(["BUG", padded], '-');
    PaddedParses(n, 3);
  }

  /** Numbering starts at 1. */
  lemma FirstBugId()
    ensures GenerateBugId(None) == Ok(BugIdFor(1))
  {
    assert NatToString(1) == "1" by {
      assert NatToString(1) == [DigitChar(1)];
    }
    var padded := PadStart("1", 3, '0');
    assert |padded| == 3 && padded[0] == '0' && padded[1] == '0' && padded[2] == '1';
    assert padded == "001";
    assert BugIdFor(1) == IdPrefix + padded;
  }

  /** Each new id follows the latest one. */
  lemma NextBugId(n: nat)
    ensures GenerateBugId(Some(Some(BugIdFor(n)))) == Ok(BugIdFor(n + 1))
  {
    assert IdAfter(BugIdFor(n)) == BugIdFor(n + 1) by {
      BugIdNumberRoundTrip(n);
      assert NumberPart(BugIdFor(n)) == Some(n);
      assert IntToString(n + 1) == NatToString(n + 1);
    }
  }

  const DayMs: int := 1000 * 60 * 60 * 24

  function Abs(x: int): nat {
    if x < 0 then -x else x
  }

  /** The virtual daysSinceCreated: the distance to the creation time, in days, rounded up. */
  function DaysSinceCreated(now: int, createdAt: int): (days: nat)
    ensures days == 0 <==> now == createdAt
    ensures days > 0 ==> (days - 1) * DayMs < Abs(now - createdAt) <= days * DayMs
  {
    CeilDiv(Abs(now - createdAt), DayMs)
  }

  /** The virtual isOverdue: an open report more than seven days old. */
  predicate IsOverdue(status: Status, now: int, createdAt: int) {
    status == Open && DaysSinceCreated(now, createdAt) > 7
  }

  /** Overdue exactly when the report is open and more than seven whole days lie between the two times. */
  lemma OverdueMeaning(status: Status, now: int, createdAt: int)
    ensures IsOverdue(status, now, createdAt) <==> status == Open && Abs(now - createdAt) > 7 * DayMs
  {
    var days := DaysSinceCreated(now, createdAt);
    if days > 7 {
      assert (days - 1) * DayMs >= 7 * DayMs;
    } else if days > 0 {
      assert days * DayMs <= 7 * DayMs;
    }
  }

  /**
   * The resolution time a save leaves, when the status is the one given and
   * `statusModified` says whether the status changed since the last save.
   */
  function ResolvedAtAfterSave(statusModified: bool, status: Status, resolvedAt: Option<int>, now: int): (r: Option<int>)
    ensures !statusModified ==> r == resolvedAt
    ensures statusModified && status == Resolved && resolvedAt.None? ==> r == Some(now)
    ensures statusModified && status == Resolved && resolvedAt.Some? ==> r == resolvedAt
    ensures statusModified && status != Resolved ==> r == None
  {
    if !statusModified then resolvedAt
    else if status == Resolved && resolvedAt.None? then Some(now)
    else if status != Resolved then None
    else resolvedAt
  }

  /**
   * The id a report has after the id step of a save: a new report without an
   * id gets the generated one, any other report keeps its own; the step fails
   * only when generating fails.
   */
  function IdOnSave(isNew: bool, bugId: Option<string>, latest: Option<Option<string>>): (r: Result<Option<string>, string>)
    ensures !(isNew && !Truthy(bugId)) ==> r == Ok(bugId)
    ensures isNew && !Truthy(bugId) && GenerateBugId(latest).Ok? ==> r == Ok(Some(GenerateBugId(latest).value))
    ensures isNew && !Truthy(bugId) && GenerateBugId(latest).Err? ==> r == Err(GenerateBugId(latest).error)
    ensures r.Err? <==> isNew && !Truthy(bugId) && latest == Some(None)
  {
    if isNew && !Truthy(bugId) then
      match GenerateBugId(latest)
      case Ok(id) => Ok(Some(id))
      case Err(e) => Err(e)
    else Ok(bugId)
  }

  /** A resolution time is recorded exactly while the report is resolved. */
  predicate ResolutionConsistent(status: Status, resolvedAt: Option<int>) {
    resolvedAt.Some? <==> status == Resolved
  }

  /**
   * Saving keeps the resolution time consistent with the status, provided every
   * change of status is reported as a modification (which Mongoose guarantees).
   */
  lemma SaveKeepsResolutionConsistent(oldStatus: Status, newStatus: Status, statusModified: bool, resolvedAt: Option<int>, now: int)
    requires ResolutionConsistent(oldStatus, resolvedAt)
    requires newStatus != oldStatus ==> statusModified
    ensures ResolutionConsistent(newStatus, ResolvedAtAfterSave(statusModified, newStatus, resolvedAt, now))
  {
  }

  /** The fields of a stored report that the save hook reads or writes. */
  class BugReportDocument {
    const isNew: bool
    var bugId: Option<string>
    var status: Status
    var statusModified: bool
    var resolvedAt: Option<int>

    constructor (isNew: bool, bugId: Option<string>, status: Status, statusModified: bool, resolvedAt: Option<int>)
      ensures this.isNew == isNew && this.bugId == bugId && this.status == status
      ensures this.statusModified == statusModified && this.resolvedAt == resolvedAt
    {
      this.isNew := isNew;
      this.bugId := bugId;
      this.status := status;
      this.statusModified := statusModified;
      this.resolvedAt := resolvedAt;
    }

    /**
     * The pre-save hook. A new report without an id gets the next id (from
     * `latest`, what the query for the latest report found; if that throws the
     * save fails and nothing is changed); then the resolution time is updated.
     */
    method PreSave(latest: Option<Option<string>>, now: int) returns (outcome: Result<bool, string>)
      modifies this
      ensures status == old(status) && statusModified == old(statusModified)
      ensures var id := IdOnSave(isNew, old(bugId), latest);
              && (id.Err? ==> outcome == Err(id.error) && bugId == old(bugId) && resolvedAt == old(resolvedAt))
              && (id.Ok? ==> outcome == Ok(true) && bugId == id.value
                             && resolvedAt == ResolvedAtAfterSave(statusModified, status, old(resolvedAt), now))
    {
      var id := IdOnSave(isNew, bugId, latest);
      if id.Err? {
        return Err(id.error);
      }
      bugId := id.value;
      if statusModified {
        if status == Resolved && resolvedAt.None? {
          resolvedAt := Some(now);
        } else if status != Resolved {
          resolvedAt := None;
        }
      }
      outcome := Ok(true);
    }
  }
}
