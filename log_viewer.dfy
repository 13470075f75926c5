/**
 * The single-pod log viewer: the client-side text filter, export, row
 * size estimate, the initial container choice, and the auto-scroll flag
 * with the scroll-to-bottom rule.
 */
module LogViewer {
  import opened Wrappers
  import opened Text
  import opened LogModel
  import opened TauriApi
  import LogHooks

  // ---------------------------------------------------------------------
  // Filtering and export
  // ---------------------------------------------------------------------

  /** Entries whose message or raw line contains `needle`, ignoring case, in their original order. */
  function KeepMatching(logs: seq<LogEntry>, needle: string): (r: seq<LogEntry>)
    ensures |r| <= |logs|
    ensures forall e :: e in r ==> e in logs && TextMatches(e, needle)
    decreases |logs|
  {
    if |logs| == 0 then []
    else
      var prefix := KeepMatching(logs[..|logs| - 1], needle);
      var last := logs[|logs| - 1];
      if TextMatches(last, needle) then prefix + [last] else prefix
  }

  /** The list shown for a filter text: everything for an empty filter, else the matching entries. */
  function FilterLogs(logs: seq<LogEntry>, filter: string): seq<LogEntry>
  {
    if filter == "" then logs else KeepMatching(logs, filter)
  }

  /** Filtering distributes over concatenation, so the relative order of kept entries is the original one. */
  lemma {:induction false} KeepMatchingAppend(a: seq<LogEntry>, b: seq<LogEntry>, needle: string)
    ensures KeepMatching(a + b, needle) == KeepMatching(a, needle) + KeepMatching(b, needle)
    decreases |b|
  {
    if |b| > 0 {
      var b' := b[..|b| - 1];
      KeepMatchingAppend(a, b', needle);
      assert (a + b)[..|a + b| - 1] == a + b';
      assert (a + b)[|a + b| - 1] == b[|b| - 1];
    } else {
      assert a + b == a;
    }
  }

  /** Every matching entry of the input is kept. */
  lemma KeepMatchingComplete(logs: seq<LogEntry>, needle: string, i: int)
    requires 0 <= i < |logs| && TextMatches(logs[i], needle)
    ensures logs[i] in KeepMatching(logs, needle)
  {
    assert logs == logs[..i] + [logs[i]] + logs[i + 1..];
    KeepMatchingAppend(logs[..i] + [logs[i]], logs[i + 1..], needle);
    KeepMatchingAppend(logs[..i], [logs[i]], needle);
    assert KeepMatching([logs[i]], needle) == [logs[i]] by {
      assert [logs[i]][..0] == [];
    }
  }

  lemma {:induction false} KeepMatchingIdempotent(logs: seq<LogEntry>, needle: string)
    ensures KeepMatching(KeepMatching(logs, needle), needle) == KeepMatching(logs, needle)
    decreases |logs|
  {
    if |logs| > 0 {
      var prefix := logs[..|logs| - 1];
      var last := logs[|logs| - 1];
      KeepMatchingIdempotent(prefix, needle);
      if TextMatches(last, needle) {
        KeepMatchingAppend(KeepMatching(prefix, needle), [last], needle);
        assert KeepMatching([last], needle) == [last] by {
          assert [last][..0] == [];
        }
      }
    }
  }

  /** Filtering twice with the same text equals filtering once. */
  lemma FilterLogsIdempotent(logs: seq<LogEntry>, filter: string)
    ensures FilterLogs(FilterLogs(logs, filter), filter) == FilterLogs(logs, filter)
  {
    if filter != "" {
      KeepMatchingIdempotent(logs, filter);
    }
  }

  lemma {:induction false} KeepMatchingEverything(logs: seq<LogEntry>)
    ensures KeepMatching(logs, "") == logs
    decreases |logs|
  {
    if |logs| > 0 {
      KeepMatchingEverything(logs[..|logs| - 1]);
      EmptyNeedleMatches(logs[|logs| - 1]);
    }
  }

  /** The empty-filter shortcut agrees with the general filter: the empty text matches every entry. */
  lemma FilterLogsIsKeepMatching(logs: seq<LogEntry>, filter: string)
    ensures FilterLogs(logs, filter) == KeepMatching(logs, filter)
  {
    if filter == "" {
      KeepMatchingEverything(logs);
    }
  }

  function Raws(logs: seq<LogEntry>): (r: seq<string>)
    ensures |r| == |logs| && forall i :: 0 <= i < |logs| ==> r[i] == logs[i].raw
  {
    seq(|logs|, i requires 0 <= i < |logs| => logs[i].raw)
  }

  /** The exported file: every shown entry's raw line, in order, separated by newlines. */
  function ExportText(filtered: seq<LogEntry>): string
  {
    Join(Raws(filtered), "\n")
  }

  /** Splitting an export at newlines gives back each entry's raw line, in order. */
  lemma ExportTextRoundTrip(filtered: seq<LogEntry>)
    requires |filtered| >= 1
    requires forall e :: e in filtered ==> '\n' !in e.raw
    ensures Split(ExportText(filtered), '\n') == Raws(filtered)
  {
    SplitJoin(Raws(filtered), '\n');
  }

  // ---------------------------------------------------------------------
  // Rows and scrolling
  // ---------------------------------------------------------------------

  datatype ViewMode = Json | Raw

  /** The virtualiser's estimated row height, in pixels. */
  function RowHeight(mode: ViewMode): (h: nat)
    ensures h == (if mode == Json then 36 else 24)
  {
    match mode
    case Json => 36
    case Raw => 24
  }

  /** Rows rendered beyond the visible window on each side. */
  const Overscan := 20

  /** Distance from the bottom, in pixels, within which the viewer keeps following new lines. */
  const FollowThreshold := 100

  predicate IsNearBottom(scrollTop: int, scrollHeight: int, clientHeight: int)
  {
    scrollHeight - scrollTop - clientHeight < FollowThreshold
  }

  /** The largest scroll offset of a box. */
  function MaxScrollTop(scrollHeight: nat, clientHeight: nat): nat
  {
    if scrollHeight > clientHeight then scrollHeight - clientHeight else 0
  }

  /** The offset a box takes when `scrollTop` is assigned `v`: clamped to its scroll range. */
  function ClampScrollTop(v: int, scrollHeight: nat, clientHeight: nat): (r: nat)
    ensures r <= MaxScrollTop(scrollHeight, clientHeight)
    ensures 0 <= v <= MaxScrollTop(scrollHeight, clientHeight) ==> r == v
  {
    if v < 0 then 0 else if v > MaxScrollTop(scrollHeight, clientHeight) then MaxScrollTop(scrollHeight, clientHeight) else v
  }

  /** After a jump to the bottom, the next scroll event finds the box near the bottom, so following continues. */
  lemma BottomIsNearBottom(scrollHeight: nat, clientHeight: nat)
    ensures IsNearBottom(ClampScrollTop(scrollHeight, scrollHeight, clientHeight), scrollHeight, clientHeight)
  {
  }

  /** The scrollable log pane. */
  class ScrollBox {
    var scrollTop: nat
    var scrollHeight: nat
    var clientHeight: nat

    ghost predicate Valid()
      reads this
    {
      scrollTop <= MaxScrollTop(scrollHeight, clientHeight)
    }

    constructor(scrollHeight: nat, clientHeight: nat)
      ensures Valid()
      ensures this.scrollTop == 0 && this.scrollHeight == scrollHeight && this.clientHeight == clientHeight
    {
      this.scrollTop := 0;
      this.scrollHeight := scrollHeight;
      this.clientHeight := clientHeight;
    }

    /** Assigns `scrollTop`; the box clamps the value to its range. */
    method SetScrollTop(v: int)
      modifies this
      ensures Valid()
      ensures scrollTop == ClampScrollTop(v, scrollHeight, clientHeight)
      ensures scrollHeight == old(scrollHeight) && clientHeight == old(clientHeight)
    {
      scrollTop := ClampScrollTop(v, scrollHeight, clientHeight);
    }
  }

  /** The viewer's own state. */
  class Viewer {
    var container: string
    var timeRange: TimeRange
    var filter: string
    var viewMode: ViewMode
    var autoScroll: bool
    var selectedLog: Option<LogEntry>
    /** The filtered count the scroll effect last ran for; -1 before its first run. */
    var lastCount: int
    const box: ScrollBox

    constructor(box: ScrollBox)
      ensures this.box == box
      ensures container == "" && timeRange == M30 && filter == "" && viewMode == Json
      ensures autoScroll && selectedLog.None? && lastCount == -1
    {
      this.box := box;
      container := "";
      timeRange := M30;
      filter := "";
      viewMode := Json;
      autoScroll := true;
      selectedLog := None;
      lastCount := -1;
    }

    /** The pod's details arrived: default to its first container, only while none is chosen. */
    method OnPodDetailsLoaded(containerNames: seq<string>)
      modifies this
      ensures container == (if old(container) == "" && |containerNames| > 0 then containerNames[0] else old(container))
      ensures old(container) != "" ==> container == old(container)
      ensures |containerNames| > 0 && containerNames[0] != "" ==> container != ""
      ensures timeRange == old(timeRange) && filter == old(filter) && viewMode == old(viewMode)
      ensures autoScroll == old(autoScroll) && selectedLog == old(selectedLog) && lastCount == old(lastCount)
    {
      if |containerNames| > 0 && containerNames[0] != "" && container == "" {
        container := containerNames[0];
      }
    }

    /** The user picked a container in the selector. */
    method SelectContainer(name: string)
      modifies this
      ensures container == name
      ensures timeRange == old(timeRange) && filter == old(filter) && viewMode == old(viewMode)
      ensures autoScroll == old(autoScroll) && selectedLog == old(selectedLog) && lastCount == old(lastCount)
    {
      container := name;
    }

    /** Logs are requested only for a named pod with a chosen container. */
    predicate FetchEnabled(podName: Option<string>)
      reads this
    {
      podName.Some? && podName.value != "" && container != ""
    }

    /** A scroll event: follow new lines iff the pane is within the threshold of its bottom. */
    method OnScroll()
      modifies this
      ensures autoScroll == IsNearBottom(box.scrollTop, box.scrollHeight, box.clientHeight)
      ensures container == old(container) && filter == old(filter) && selectedLog == old(selectedLog)
      ensures lastCount == old(lastCount) && viewMode == old(viewMode) && timeRange == old(timeRange)
    {
      autoScroll := IsNearBottom(box.scrollTop, box.scrollHeight, box.clientHeight);
    }

    /**
     * A render with `count` filtered entries. When the count differs from
     * the last one and is non-zero, the pane jumps to its bottom if it is
     * following and mounted; otherwise the scroll position is left alone.
     */
    method OnRender(count: nat, mounted: bool)
      requires box.Valid()
      modifies this, box
      ensures box.Valid()
      ensures lastCount == count
      ensures old(lastCount) != count && count > 0 && old(autoScroll) && mounted ==>
        box.scrollTop == MaxScrollTop(box.scrollHeight, box.clientHeight)
      ensures !(old(lastCount) != count && count > 0 && old(autoScroll) && mounted) ==> box.scrollTop == old(box.scrollTop)
      ensures box.scrollHeight == old(box.scrollHeight) && box.clientHeight == old(box.clientHeight)
      ensures autoScroll == old(autoScroll) && container == old(container) && filter == old(filter)
      ensures selectedLog == old(selectedLog) && viewMode == old(viewMode) && timeRange == old(timeRange)
    {
      if count != lastCount {
        lastCount := count;
        if count > 0 && autoScroll && mounted {
          box.SetScrollTop(box.scrollHeight);
        }
      }
    }

    /** Clicking a row opens it in the detail modal; scrolling state is untouched. */
    method SelectRow(entry: LogEntry)
      modifies this
      ensures selectedLog == Some(entry)
      ensures autoScroll == old(autoScroll) && container == old(container) && filter == old(filter)
      ensures lastCount == old(lastCount) && viewMode == old(viewMode) && timeRange == old(timeRange)
    {
      selectedLog := Some(entry);
    }
  }

  /** Without a pod name the viewer shows only a placeholder. */
  predicate ShowsPlaceholder(podName: Option<string>)
  {
    podName.None? || podName.value == ""
  }

  /**
   * The viewer's logs query, with the viewer's own `enabled` flag passed to
   * the pod-logs hook, runs exactly when a context and a namespace are
   * selected, the placeholder is not shown and a container is chosen.
   */
  lemma FetchIffShown(v: Viewer, context: string, namespace: string, podName: Option<string>)
    ensures LogHooks.PodLogsOptions(context, namespace, podName, Some(v.container), v.timeRange,
                                    Some(v.FetchEnabled(podName))).enabled
      <==> context != "" && namespace != "" && !ShowsPlaceholder(podName) && v.container != ""
  {
  }
}
