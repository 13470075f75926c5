/**
 * The deployment-wide search screen: the match and pod counts, the
 * tab-separated export, search triggering, the result pane, row
 * selection and the resizable pod column.
 */
module LogSearch {
  import opened Wrappers
  import opened Text
  import opened LogModel
  import opened TauriApi
  import BackendLogs
  import LogHooks

  // ---------------------------------------------------------------------
  // Counts
  // ---------------------------------------------------------------------

  /** The sum of `total_matches` over the results. */
  function TotalMatches(results: seq<LogSearchResult>): int
    decreases |results|
  {
    if |results| == 0 then 0
    else TotalMatches(results[..|results| - 1]) + results[|results| - 1].totalMatches
  }

  /** The number of entries over the results. */
  function EntryCount(results: seq<LogSearchResult>): nat
    decreases |results|
  {
    if |results| == 0 then 0
    else EntryCount(results[..|results| - 1]) + |results[|results| - 1].entries|
  }

  function PodNames(results: seq<LogSearchResult>): set<string>
  {
    set r | r in results :: r.podName
  }

  /** The number of distinct pod names among the results. */
  function UniquePods(results: seq<LogSearchResult>): nat
  {
    |PodNames(results)|
  }

  lemma {:induction false} PodNamesBound(results: seq<LogSearchResult>)
    ensures |PodNames(results)| <= |results|
    decreases |results|
  {
    if |results| > 0 {
      var prefix := results[..|results| - 1];
      PodNamesBound(prefix);
      assert PodNames(results) == PodNames(prefix) + {results[|results| - 1].podName} by {
        assert results == prefix + [results[|results| - 1]];
      }
    }
  }

  /** There are never more distinct pods than results, and at least one when there is any result. */
  lemma UniquePodsBounds(results: seq<LogSearchResult>)
    ensures UniquePods(results) <= |results|
    ensures |results| > 0 ==> UniquePods(results) >= 1
  {
    PodNamesBound(results);
    if |results| > 0 {
      assert results[0].podName in PodNames(results);
    }
  }

  // ---------------------------------------------------------------------
  // Export
  // ---------------------------------------------------------------------

  /** A timestamp in a template literal: a missing one prints as `null`. */
  function TimestampText(ts: Option<string>): string
  {
    match ts
    case Some(t) => t
    case None => "null"
  }

  /** `level || '-'`. */
  function LevelText(level: Option<string>): string
  {
    match level
    case Some(l) => if l == "" then "-" else l
    case None => "-"
  }

  /** One export line: timestamp, pod, level and message, separated by tabs. */
  function ExportLine(r: LogSearchResult, e: LogEntry): string
  {
    TimestampText(e.timestamp) + "\t" + r.podName + "\t" + LevelText(e.level) + "\t" + e.message
  }

  /** The export lines of one result, one per entry in order. */
  function ResultLines(r: LogSearchResult): (lines: seq<string>)
    ensures |lines| == |r.entries| && forall i :: 0 <= i < |r.entries| ==> lines[i] == ExportLine(r, r.entries[i])
  {
    seq(|r.entries|, i requires 0 <= i < |r.entries| => ExportLine(r, r.entries[i]))
  }

  /** All export lines: results in order, entries in order. */
  function ExportLines(results: seq<LogSearchResult>): seq<string>
    decreases |results|
  {
    if |results| == 0 then []
    else ExportLines(results[..|results| - 1]) + ResultLines(results[|results| - 1])
  }

  /** The exported file. */
  function ExportContent(results: seq<LogSearchResult>): string
  {
    Join(ExportLines(results), "\n")
  }

  /** Export emits exactly one line per entry. */
  lemma {:induction false} ExportLineCount(results: seq<LogSearchResult>)
    ensures |ExportLines(results)| == EntryCount(results)
    decreases |results|
  {
    if |results| > 0 {
      ExportLineCount(results[..|results| - 1]);
    }
  }

  /** Exporting a concatenation exports each part in turn. */
  lemma {:induction false} ExportLinesAppend(a: seq<LogSearchResult>, b: seq<LogSearchResult>)
    ensures ExportLines(a + b) == ExportLines(a) + ExportLines(b)
    decreases |b|
  {
    if |b| == 0 {
      assert a + b == a;
    } else {
      ExportLinesAppend(a, b[..|b| - 1]);
      assert (a + b)[..|a + b| - 1] == a + b[..|b| - 1];
    }
  }

  /** An export line whose fields hold no tab splits back into its four fields. */
  lemma ExportLineFields(r: LogSearchResult, e: LogEntry)
    requires '\t' !in TimestampText(e.timestamp) && '\t' !in r.podName
    requires '\t' !in LevelText(e.level) && '\t' !in e.message
    ensures Split(ExportLine(r, e), '\t') == [TimestampText(e.timestamp), r.podName, LevelText(e.level), e.message]
  {
    var fields := [TimestampText(e.timestamp), r.podName, LevelText(e.level), e.message];
    assert Join(fields, "\t") == ExportLine(r, e) by {
      var ts, lv := TimestampText(e.timestamp), LevelText(e.level);
      assert fields[1..][1..][1..] == [e.message];
      assert Join(fields[1..][1..], "\t") == lv + "\t" + e.message;
      assert Join(fields[1..], "\t") == r.podName + "\t" + (lv + "\t" + e.message);
      assert Join(fields, "\t") == ts + "\t" + (r.podName + "\t" + (lv + "\t" + e.message));
    }
    SplitJoin(fields, '\t');
  }

  /** Results that count their own entries sum to the number of entries. */
  lemma {:induction false} TotalMatchesIsEntryCount(results: seq<LogSearchResult>)
    requires forall r :: r in results ==> r.totalMatches == |r.entries|
    ensures TotalMatches(results) == EntryCount(results)
    decreases |results|
  {
    if |results| > 0 {
      TotalMatchesIsEntryCount(results[..|results| - 1]);
    }
  }

  /** For a backend search, the "Found N matches" count equals the number of exported lines. */
  lemma BackendTotalIsExportLength(pods: seq<BackendLogs.PodListing>, keyword: Option<string>, level: Option<string>,
                                   since: Option<int>, fetch: BackendLogs.LogFetch, parse: BackendLogs.JsonParser)
    ensures var results := BackendLogs.SearchResults(pods, keyword, level, since, fetch, parse);
      TotalMatches(results) == |ExportLines(results)|
  {
    var results := BackendLogs.SearchResults(pods, keyword, level, since, fetch, parse);
    BackendLogs.SearchResultsWellFormed(pods, keyword, level, since, fetch, parse);
    TotalMatchesIsEntryCount(results);
    ExportLineCount(results);
  }

  // ---------------------------------------------------------------------
  // Result pane and rows
  // ---------------------------------------------------------------------

  datatype Pane = Prompt | Loading | NoResults | Table

  /** What the result area shows, in priority order. */
  function ResultPane(searchTriggered: bool, isLoading: bool, resultCount: nat): (p: Pane)
    ensures p == Table <==> searchTriggered && !isLoading && resultCount > 0
    ensures p == Prompt <==> !searchTriggered
    ensures p == Loading <==> searchTriggered && isLoading
  {
    if !searchTriggered then Prompt
    else if isLoading then Loading
    else if resultCount == 0 then NoResults
    else Table
  }

  /** The entry opened by a row click: the row's entry, labelled with its result's pod and container. */
  function SelectEntry(r: LogSearchResult, e: LogEntry): (s: LogEntry)
    ensures s.podName == r.podName && s.containerName == r.containerName
    ensures s.message == e.message && s.raw == e.raw && s.level == e.level && s.timestamp == e.timestamp && s.isJson == e.isJson
  {
    e.(podName := r.podName, containerName := r.containerName)
  }

  /** Entries of backend results already carry their result's pod and container, so selection keeps them as they are. */
  lemma SelectEntryKeepsBackendEntry(r: LogSearchResult, e: LogEntry, keyword: Option<string>, level: Option<string>)
    requires BackendLogs.WellFormedResult(r, keyword, level) && e in r.entries
    ensures SelectEntry(r, e) == e
  {
  }

  // ---------------------------------------------------------------------
  // Screen state
  // ---------------------------------------------------------------------

  const MinPodColumnWidth := 100
  const MaxPodColumnWidth := 500
  const InitialPodColumnWidth := 208

  function ClampWidth(w: int): (r: int)
    ensures MinPodColumnWidth <= r <= MaxPodColumnWidth
    ensures MinPodColumnWidth <= w <= MaxPodColumnWidth ==> r == w
  {
    if w < MinPodColumnWidth then MinPodColumnWidth else if w > MaxPodColumnWidth then MaxPodColumnWidth else w
  }

  predicate IsSelected(deployment: Option<string>)
  {
    deployment.Some? && deployment.value != ""
  }

  /** Everything the search page holds: its inputs, the selected entry and the resize drag. */
  datatype Panel = Panel(
    keyword: string,
    logLevel: string,
    timeRange: TimeRange,
    searchTriggered: bool,
    selectedLog: Option<LogEntry>,
    podColumnWidth: int,
    isResizing: bool,
    startX: int,
    startWidth: int)

  class SearchPanel {
    var keyword: string
    var logLevel: string
    var timeRange: TimeRange
    var searchTriggered: bool
    var selectedLog: Option<LogEntry>
    var podColumnWidth: int
    var isResizing: bool
    var startX: int
    var startWidth: int

    /** The pod column always lies within its clamp range. */
    ghost predicate Valid()
      reads this
    {
      MinPodColumnWidth <= podColumnWidth <= MaxPodColumnWidth
    }

    function Snapshot(): Panel
      reads this
    {
      Panel(keyword, logLevel, timeRange, searchTriggered, selectedLog, podColumnWidth, isResizing, startX, startWidth)
    }

    constructor()
      ensures Valid()
      ensures Snapshot() == Panel("", "", H1, false, None, InitialPodColumnWidth, false, 0, 0)
    {
      keyword := "";
      logLevel := "";
      timeRange := H1;
      searchTriggered := false;
      selectedLog := None;
      podColumnWidth := InitialPodColumnWidth;
      isResizing := false;
      startX := 0;
      startWidth := 0;
    }

    /** The search query runs only once Search was pressed and while a deployment is selected. */
    predicate QueryEnabled(selectedDeployment: Option<string>)
      reads this
    {
      searchTriggered && IsSelected(selectedDeployment)
    }

    /** Pressing Search: triggers the search when a deployment is selected, else nothing changes. */
    method HandleSearch(selectedDeployment: Option<string>)
      requires Valid()
      modifies this
      ensures Valid()
      ensures IsSelected(selectedDeployment) ==> Snapshot() == old(Snapshot()).(searchTriggered := true)
      ensures !IsSelected(selectedDeployment) ==> Snapshot() == old(Snapshot())
      ensures IsSelected(selectedDeployment) ==> QueryEnabled(selectedDeployment)
    {
      if IsSelected(selectedDeployment) {
        searchTriggered := true;
      }
    }

    /** Pressing on the column's resize handle starts a drag from the current width. */
    method MouseDown(clientX: int)
      requires Valid()
      modifies this
      ensures Valid()
      ensures Snapshot() == old(Snapshot()).(isResizing := true, startX := clientX, startWidth := old(podColumnWidth))
    {
      isResizing := true;
      startX := clientX;
      startWidth := podColumnWidth;
    }

    /** Moving the mouse while dragging sets the width to the dragged width, clamped to [100, 500]. */
    method MouseMove(clientX: int)
      requires Valid()
      modifies this
      ensures Valid()
      ensures old(isResizing) ==>
        Snapshot() == old(Snapshot()).(podColumnWidth := ClampWidth(old(startWidth) + clientX - old(startX)))
      ensures !old(isResizing) ==> Snapshot() == old(Snapshot())
    {
      if isResizing {
        podColumnWidth := ClampWidth(startWidth + clientX - startX);
      }
    }

    /** Releasing the mouse ends the drag and keeps the width reached. */
    method MouseUp()
      requires Valid()
      modifies this
      ensures Valid()
      ensures Snapshot() == old(Snapshot()).(isResizing := false)
    {
      isResizing := false;
    }

    /** Clicking a result row opens its entry, labelled with the row's pod and container. */
    method SelectRow(r: LogSearchResult, e: LogEntry)
      requires Valid()
      modifies this
      ensures Valid()
      ensures Snapshot() == old(Snapshot()).(selectedLog := Some(SelectEntry(r, e)))
    {
      selectedLog := Some(SelectEntry(r, e));
    }
  }

  /**
   * The panel passes `searchTriggered && !!selectedDeployment` to the search
   * hook, so results are fetched iff Search was pressed and a context, a
   * namespace and a deployment are selected.
   */
  lemma PanelSearchGating(p: SearchPanel, context: string, namespace: string, deployment: Option<string>)
    ensures LogHooks.SearchEnabled(p.QueryEnabled(deployment), context, namespace, deployment)
      <==> p.searchTriggered && context != "" && namespace != "" && IsSelected(deployment)
  {
  }
}
