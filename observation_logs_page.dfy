/** The observation-log list page: a search box, a seeing-condition selector,
    an optional date window, an expandable card per log and a delete button. */
module ObservationLogsPage {
  import opened Js
  import opened Text
  import opened Seqs
  import opened ApiRows

  /** The choices of the condition selector. */
  const SeeingConditions: seq<string> := ["All", "Excellent", "Good", "Moderate", "Poor"]

  /** The filter controls; an empty date means no bound on that side. */
  datatype LogFilter = LogFilter(searchTerm: string, selectedCondition: string, startDate: string, endDate: string)

  /** The search term occurs, ignoring case, in the object name or the notes. */
  predicate MatchesSearch(l: LogRow, term: string) {
    || Includes(ToLower(StrOr(l.objectName, "")), ToLower(term))
    || Includes(ToLower(StrOr(l.notes, "")), ToLower(term))
  }

  /** "All" admits every log; any other choice demands that exact condition. */
  predicate MatchesCondition(l: LogRow, selected: string) {
    selected == "All" || l.seeingCondition == Some(selected)
  }

  /** `(!startDate || date >= startDate) && (!endDate || date <= endDate)`, where
      the comparison is the string order and a missing date compares false. */
  predicate MatchesDate(l: LogRow, startDate: string, endDate: string) {
    && (startDate == "" || (l.observationDate.Some? && LexLe(startDate, l.observationDate.value)))
    && (endDate == "" || (l.observationDate.Some? && LexLe(l.observationDate.value, endDate)))
  }

  predicate Shown(l: LogRow, f: LogFilter) {
    MatchesSearch(l, f.searchTerm) && MatchesCondition(l, f.selectedCondition) && MatchesDate(l, f.startDate, f.endDate)
  }

  /** `filteredLogs`: exactly the shown logs, in their original order. */
  function FilteredLogs(logs: seq<LogRow>, f: LogFilter): (r: seq<LogRow>)
    ensures |r| <= |logs|
    ensures forall x :: x in r <==> x in logs && Shown(x, f)
    ensures forall x :: multiset(r)[x] == if Shown(x, f) then multiset(logs)[x] else 0
    ensures IsSubsequence(r, logs)
  {
    var p := (l: LogRow) => Shown(l, f);
    FilterSpec(logs, p);
    Filter(logs, p)
  }

  /** The eye button: clicking the expanded log collapses it, clicking any
      other log makes it the one expanded log. */
  function Toggle(expanded: Option<int>, clicked: int): (r: Option<int>)
    ensures r.None? <==> expanded == Some(clicked)
    ensures r.Some? ==> r.value == clicked
  {
    if expanded == Some(clicked) then None else Some(clicked)
  }

  /** Two clicks on the same log restore a collapsed view, and leave that log
      expanded if it already was. */
  lemma ToggleTwice(expanded: Option<int>, clicked: int)
    ensures Toggle(Toggle(expanded, clicked), clicked) == (if expanded == Some(clicked) then Some(clicked) else None)
  {
  }

  /** Two empty dates put no constraint on the date. */
  lemma NoDateBoundsKeepsEveryDate(logs: seq<LogRow>, f: LogFilter)
    requires f.startDate == "" && f.endDate == ""
    ensures FilteredLogs(logs, f)
         == Filter(logs, (l: LogRow) => MatchesSearch(l, f.searchTerm) && MatchesCondition(l, f.selectedCondition))
  {
    FilterCongruent(logs, (l: LogRow) => Shown(l, f),
                    (l: LogRow) => MatchesSearch(l, f.searchTerm) && MatchesCondition(l, f.selectedCondition));
  }

  /** The window is inclusive at both ends: a log dated exactly on a bound is
      inside it. */
  lemma BoundsAreInclusive(l: LogRow, d: string)
    requires l.observationDate == Some(d)
    ensures MatchesDate(l, d, d)
  {
    LexLeReflexive(d);
  }

  /** A window whose end lies before its start shows nothing. */
  lemma InvertedWindowIsEmpty(logs: seq<LogRow>, f: LogFilter)
    requires f.startDate != "" && f.endDate != ""
    requires LexLe(f.endDate, f.startDate) && f.endDate != f.startDate
    ensures FilteredLogs(logs, f) == []
  {
    forall i | 0 <= i < |logs|
      ensures !Shown(logs[i], f)
    {
      if MatchesDate(logs[i], f.startDate, f.endDate) {
        var d := logs[i].observationDate.value;
        LexLeTransitive(f.startDate, d, f.endDate);
        LexLeAntisymmetric(f.startDate, f.endDate);
      }
    }
    FilterNone(logs, (l: LogRow) => Shown(l, f));
  }

  /** The list carries full timestamps ("2024-01-15T21:30:00.000Z") while the
      date inputs give bare dates ("2024-01-15"). A timestamp extends its date,
      so a log from the end day falls outside the window, although a log from
      the start day is inside it. */
  lemma EndDayTimestampsExcluded(l: LogRow, f: LogFilter)
    requires f.endDate != "" && l.observationDate.Some?
    requires f.endDate < l.observationDate.value
    ensures !Shown(l, f)
  {
    LexLeProperExtension(f.endDate, l.observationDate.value);
  }

  lemma StartDayTimestampsIncluded(l: LogRow, startDate: string)
    requires l.observationDate.Some? && startDate <= l.observationDate.value
    ensures MatchesDate(l, startDate, "")
  {
    LexLePrefix(startDate, l.observationDate.value);
  }

  /** The page state. */
  class LogListPage {
    var logs: seq<LogRow>
    var error: string
    var loading: bool
    var searchTerm: string
    var selectedCondition: string
    var startDate: string
    var endDate: string
    var expandedLog: Option<int>

    constructor ()
      ensures logs == [] && error == "" && loading && searchTerm == "" && selectedCondition == "All"
      ensures startDate == "" && endDate == "" && expandedLog == None
    {
      logs := [];
      error := "";
      loading := true;
      searchTerm := "";
      selectedCondition := "All";
      startDate := "";
      endDate := "";
      expandedLog := None;
    }

    function Controls(): LogFilter
      reads this
    {
      LogFilter(searchTerm, selectedCondition, startDate, endDate)
    }

    /** The cards on screen. */
    function Visible(): (r: seq<LogRow>)
      reads this
      ensures r == FilteredLogs(logs, Controls())
      ensures |r| <= |logs| && IsSubsequence(r, logs)
      ensures forall x :: x in r <==> x in logs && Shown(x, Controls())
    {
      FilteredLogs(logs, Controls())
    }

    /** `loadLogs`, given the answer of the list fetch. */
    method LoadLogs(answer: Result<seq<LogRow>>)
      modifies this`logs, this`error, this`loading
      ensures !loading
      ensures answer.Ok? ==> logs == answer.value && error == ""
      ensures answer.Err? ==> logs == old(logs) && error == answer.message
    {
      loading := true;
      error := "";
      if answer.Err? {
        error := answer.message;
      } else {
        logs := answer.value;
      }
      loading := false;
    }

    /** `deleteLog`, given the confirmation answer and the DELETE outcome. */
    method DeleteLog(id: int, confirmed: bool, outcome: Outcome)
      modifies this`logs, this`error
      ensures !confirmed ==> logs == old(logs) && error == old(error)
      ensures confirmed && outcome.Pass? ==> logs == RemoveKey(old(logs), LogKey, id) && error == old(error)
      ensures confirmed && outcome.Fail? ==> logs == old(logs) && error == outcome.message
    {
      if !confirmed {
        return;
      }
      if outcome.Fail? {
        error := outcome.message;
      } else {
        logs := RemoveKey(logs, LogKey, id);
      }
    }

    /** The eye button of the log with id `clicked`. */
    method ToggleExpanded(clicked: int)
      modifies this`expandedLog
      ensures expandedLog == Toggle(old(expandedLog), clicked)
    {
      expandedLog := Toggle(expandedLog, clicked);
    }
  }
}
