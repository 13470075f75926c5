# podlogs, modelled in Dafny

podlogs is a desktop Kubernetes log viewer: a Rust (Tauri) backend reads pods, containers and log lines from the cluster, and a React front end lets the user pick a kubeconfig context, a namespace and a deployment, browse its pods, follow a pod's logs, and search the logs of every pod of a deployment.

This project models the logic of that program and proves what it promises:

- **Backend log pipeline.** It covers the loose RFC 3339 timestamp prefix test, level normalisation, and the first-match level detector. It also covers the JSON and plain line parsers, and the per-container search loop that decides which results exist and what each `total_matches` is.
- **Client log handling.** It covers:
  - the viewer's text filter, export and auto-scroll rule;
  - the search page's counts, TSV export, pane choice and column resize;
  - the detail modal's "JSON from the first `{`" rule and its copied flags;
  - `highlightMatch` and `truncate`.
- **Stores and effects.** The three zustand stores (cluster selection, errors, UI) are classes whose methods are proved against pure state transitions. The main layout's transition effect, the sidebar's effects, the status bar countdown and the dropdown are step methods on classes.
- **Queries.** It covers the keys, `enabled` predicates, timings and the report-only-without-cache error policy of the Kubernetes and log hooks, plus the time-range table.
- **Classifiers.** It covers:
  - pod status, readiness, restarts, age and container details;
  - badge colours;
  - the connection-error message chain;
  - deployment health;
  - disabled pod actions, secret masking and port/resource lines;
  - the cluster list projection.

The modules and the source they model:

| module | models |
|---|---|
| `Text`, `Wrappers`, `NameFilter`, `Constants`, `LogModel`, `Collapsible` | shared helpers: ASCII case mapping, substring search, split/join, number text; `Option`/`Result`; the case-insensitive name filter the lists share; polling constants; the log entry types; the collapsible section |
| `BackendLogs` | `src-tauri/src/k8s/logs.rs` |
| `Pods`, `Clusters` | `src-tauri/src/k8s/pods.rs`, `src-tauri/src/k8s/clusters.rs` |
| `Formatters`, `TauriApi` | `src/lib/formatters.ts`, `src/lib/tauri.ts` |
| `ErrorStore`, `ClusterStore`, `UiStore` | `src/stores/*.ts` |
| `QueryHooks`, `LogHooks` | `src/hooks/useK8s.ts`, `src/hooks/useLogs.ts` |
| `MainLayout`, `Sidebar`, `StatusBar` | `src/components/layout/*.tsx` |
| `LogViewer`, `LogSearch`, `LogDetailModal` | `src/components/logs/*.tsx` |
| `Badge`, `ErrorDialog`, `Dropdown` | `src/components/common/*.tsx` |
| `PodList`, `PodDetails`, `DeploymentList`, `DeploymentDetails` | `src/components/pods/*.tsx`, `src/components/deployments/*.tsx` |

**Modelling conventions**

- **Other code the model calls.**
  - JSON parsing and pretty-printing are function parameters returning `Option`.
  - The log endpoint is a function from a request to the lines of the log, or `None` when the request fails.
  - The current time is a parameter.
- **Effects, timers and DOM events.** Each is a step method on a class, for example `OnRender`, `OnTimerFired`, `OnTick`, `OnScroll` and `OnDocumentMouseDown`.
- **Calls into the query cache.** Cancels, resets and refetches are recorded in order as a trace of calls.
- **Case mapping.** `toLowerCase` and `to_uppercase` are ASCII case mapping.

Where the source and its descriptions disagree, the model follows the source:

- **Sidebar namespace fallback.** It also needs a non-empty current namespace (`src/components/layout/Sidebar.tsx:35`), so an empty namespace is never replaced.
- **Rust `Duration` accessors.** They truncate toward zero, so a creation time in the future yields a negative number of seconds (`Pods.FutureCreationShowsNegativeSeconds`).
- **Environment variable source.** `Pods.EnvEntryVar` produces the `ResourceRef` source, which the front end's `EnvVar.source` type does not list.

## Model

| member | source | states |
|---|---|---|
| BackendLogs.ExtractTimestamp | src-tauri/src/k8s/logs.rs:177-190 | With no timestamp the line comes back unchanged. A returned timestamp is the text before the first space; it contains `T` and either ends in `Z` or contains `+`; and timestamp, space and rest rebuild the line. |
| BackendLogs.ExtractTimestampFindsPrefix | src-tauri/src/k8s/logs.rs:180-186 | A line of date shape whose first word looks like a timestamp splits into exactly that word and the rest. |
| BackendLogs.ExtractTimestampRejects | src-tauri/src/k8s/logs.rs:184-189 | A first word that does not look like a timestamp leaves the whole line as content. |
| BackendLogs.NormalizeLogLevel | src-tauri/src/k8s/logs.rs:262-271 | The result is upper case, and is either a canonical level or the upper-cased input. |
| BackendLogs.NormalizeLogLevelIdempotent | src-tauri/src/k8s/logs.rs:262-271 | Normalising twice equals normalising once. |
| BackendLogs.NormalizeLogLevelIgnoresCase | src-tauri/src/k8s/logs.rs:263 | Inputs equal up to case normalise alike. |
| BackendLogs.NormalizeLogLevelByGroup | src-tauri/src/k8s/logs.rs:262-271 | For every input: an upper-cased alias of a group maps to that group's canonical level, and any word outside the alias table comes back upper-cased. |
| BackendLogs.NormalizeLogLevelAliases | src-tauri/src/k8s/logs.rs:264-269 | Worked instances on lower-case input: err/fatal/critical/crit give ERROR, warning WARN, information INFO, trace/verbose DEBUG, and "notice" gives "NOTICE". |
| BackendLogs.DetectLogLevel | src-tauri/src/k8s/logs.rs:274-306 | The loop over the pattern table returns exactly the specification `DetectedLevel`, the first pattern in table order found in the upper-cased content. |
| BackendLogs.DetectedLevelIsFirstMatch | src-tauri/src/k8s/logs.rs:278-304 | If pattern k is contained and no earlier one is, the level is pattern k's level. |
| BackendLogs.DetectedLevelNone | src-tauri/src/k8s/logs.rs:300-305 | The result is `None` iff no pattern of the table occurs. |
| BackendLogs.DetectedLevelCanonical | src-tauri/src/k8s/logs.rs:278-298 | A detected level is always one of ERROR, WARN, INFO and DEBUG. |
| BackendLogs.ErrorPatternWins | src-tauri/src/k8s/logs.rs:279-285 | Any ERROR pattern in the content yields ERROR, whatever WARN/INFO/DEBUG patterns also occur. |
| BackendLogs.FirstPresent | src-tauri/src/k8s/logs.rs:201-226 | Returns the value of the first listed key present in the object, and `None` iff none is present. |
| BackendLogs.ParseJsonLog | src-tauri/src/k8s/logs.rs:193-237 | The entry is JSON and keeps raw, pod and container. Without a message key the message is the raw line; without a timestamp key the prefix timestamp is used; without a level key there is no level. |
| BackendLogs.FirstPresentAt | src-tauri/src/k8s/logs.rs:201-226 | When key i is present and no earlier key is, the `or_else` chain yields key i's value. |
| BackendLogs.JsonMessageFromKey | src-tauri/src/k8s/logs.rs:210-216 | The message is the string under the first present key of message/msg/log, or the raw line when that value is not a string. |
| BackendLogs.JsonTimestampFromKey | src-tauri/src/k8s/logs.rs:219-226 | The timestamp is the string under the first present key of timestamp/time/ts/@timestamp, or the prefix timestamp when that value is not a string. |
| BackendLogs.JsonLevelFromKey | src-tauri/src/k8s/logs.rs:201-207 | The level is the normalised string under the first present key of level/severity/log_level/lvl, and there is none when that value is not a string. |
| BackendLogs.NonStringLevelHidesLaterKeys | src-tauri/src/k8s/logs.rs:201-207 | A non-string `level` stops the key search, so a later string `severity` is not used. |
| BackendLogs.ParsePlainLog | src-tauri/src/k8s/logs.rs:240-259 | A plain entry keeps raw, pod and container; message = content, timestamp = the prefix, and its level is the one detected in the content (canonical when present). |
| BackendLogs.ParseLogLine | src-tauri/src/k8s/logs.rs:164-174 | Every entry keeps the whole line as raw, and it is JSON iff the text after the timestamp parses. |
| BackendLogs.ParsePlainLineRoundTrip | src-tauri/src/k8s/logs.rs:164-174 | A plain line "ts text" parses back to timestamp ts and message text. |
| BackendLogs.ParseJsonLineFields | src-tauri/src/k8s/logs.rs:210-226 | A JSON line's `message` and `timestamp` strings become the entry's message and timestamp. |
| BackendLogs.MatchingEntries | src-tauri/src/k8s/logs.rs:119-145 | At most one entry per line; every kept entry passes the keyword and level tests and carries its pod and container. |
| BackendLogs.MatchingEntriesComplete | src-tauri/src/k8s/logs.rs:122-143 | Every line whose parsed entry passes the filter is kept. |
| BackendLogs.NoFilterKeepsAll | src-tauri/src/k8s/logs.rs:122-143 | With neither keyword nor level, every line becomes an entry. |
| BackendLogs.LevelFilterDropsUnlevelled | src-tauri/src/k8s/logs.rs:133-140 | When a level is given, entries without a level are dropped. |
| BackendLogs.SearchPod | src-tauri/src/k8s/logs.rs:104-156 | The container loop returns exactly the specification results and issues exactly one request per container. |
| BackendLogs.SearchDeploymentLogs | src-tauri/src/k8s/logs.rs:60-161 | The nested pod/container loops return the specification results, pods in order and containers in order. |
| BackendLogs.SearchResultsWellFormed | src-tauri/src/k8s/logs.rs:146-153 | Every result has at least one entry and `total_matches` equal to its entry count, and holds only matching entries of its own pod and container. |
| BackendLogs.SearchRequestsUseFixedTail | src-tauri/src/k8s/logs.rs:110-117 | Every log request asks for the last 1000 lines over the chosen time window. |
| BackendLogs.FailingPodIsSkipped | src-tauri/src/k8s/logs.rs:155 | A pod whose log fetches all fail adds no result and does not fail the search. |
| Formatters.FormatAge | src/lib/formatters.ts:33-35 | The backend's age text is shown as is. |
| Formatters.Truncate | src/lib/formatters.ts:50-53 | A short string is unchanged. A long one ends in "..." after a prefix of the input, and has length exactly maxLength when maxLength ≥ 3. |
| Formatters.TruncateFits | src/lib/formatters.ts:50-53 | For maxLength ≥ 3 the result fits and truncating again changes nothing. |
| Formatters.TruncateOverrunsSmallLimit | src/lib/formatters.ts:52 | For maxLength below 3 a long string comes back longer than maxLength. |
| Formatters.HighlightMatch | src/lib/formatters.ts:55-68 | The result is `None` iff the keyword is empty or does not occur ignoring case. Otherwise before + match + after is the text, the match equals the keyword ignoring case, and before ends at the first occurrence. |
| Formatters.HighlightFindsFirstOccurrence | src/lib/formatters.ts:59-67 | A text prefix + keyword + suffix with no earlier occurrence splits into exactly those three parts. |
| TauriApi.FromKey | src/lib/tauri.ts:131-140 | A recognised key names the range it came from. |
| TauriApi.KeyRoundTrip | src/lib/tauri.ts:131-140 | Every range's key reads back as that range. |
| TauriApi.SecondsStrictlyIncreasing | src/lib/tauri.ts:131-140 | The seconds of the time ranges grow strictly in declaration order. |
| TauriApi.LabelMatchesSeconds | src/lib/tauri.ts:144-156 | Each range's label, "Last N minutes/hour(s)", states the duration its seconds encode. |
| TauriApi.TimeoutMessageText | src/lib/tauri.ts:12-21 | The client timeout text is "Connection timed out after 30 seconds", with 30 = the timeout in milliseconds / 1000. |
| LogModel.EmptyNeedleMatches | src/components/logs/LogViewer.tsx:55-60 | The empty text matches every entry. |
| LogViewer.KeepMatching | src/components/logs/LogViewer.tsx:55-60 | Keeps only entries of the input whose message or raw line contains the filter, ignoring case. |
| LogViewer.KeepMatchingAppend | src/components/logs/LogViewer.tsx:56 | Filtering distributes over concatenation, so the kept entries keep their order. |
| LogViewer.KeepMatchingComplete | src/components/logs/LogViewer.tsx:56-60 | Every matching entry is kept. |
| LogViewer.KeepMatchingIdempotent | src/components/logs/LogViewer.tsx:55-60 | Filtering twice with one text equals filtering once. |
| LogViewer.FilterLogsIdempotent | src/components/logs/LogViewer.tsx:53-61 | The shown list filtered again with the same text does not change. |
| LogViewer.KeepMatchingEverything | src/components/logs/LogViewer.tsx:54 | The general filter with the empty text keeps everything. |
| LogViewer.FilterLogsIsKeepMatching | src/components/logs/LogViewer.tsx:53-61 | The empty-filter shortcut agrees with the general filter. |
| LogViewer.Raws | src/components/logs/LogViewer.tsx:101 | One raw line per shown entry, in order. |
| LogViewer.ExportTextRoundTrip | src/components/logs/LogViewer.tsx:101 | Splitting the export at newlines gives back each shown entry's raw line, in order. |
| LogViewer.RowHeight | src/components/logs/LogViewer.tsx:67 | The estimated row is 36 px in JSON mode and 24 px in raw mode. |
| LogViewer.ClampScrollTop | src/components/logs/LogViewer.tsx:75 | An assigned scroll offset lands within the box's range and is kept when already in range. |
| LogViewer.BottomIsNearBottom | src/components/logs/LogViewer.tsx:206-210 | After a jump to the bottom the next scroll event keeps following. |
| LogViewer.ScrollBox.constructor | src/components/logs/LogViewer.tsx:203-205 | A new box is at the top and valid. |
| LogViewer.ScrollBox.SetScrollTop | src/components/logs/LogViewer.tsx:75 | The offset becomes the clamped value; the box sizes are unchanged. |
| LogViewer.Viewer.constructor | src/components/logs/LogViewer.tsx:26-31 | No container, 30 minutes, empty filter, JSON mode, following, nothing selected. |
| LogViewer.Viewer.OnPodDetailsLoaded | src/components/logs/LogViewer.tsx:36-40 | Takes the first container only while none is chosen; a chosen one is never replaced; a named first container leaves one chosen. |
| LogViewer.FetchIffShown | src/components/logs/LogViewer.tsx:42-50 | With the viewer's `enabled` flag passed to the pod-logs hook, logs are fetched iff a context and a namespace are set, the placeholder is not shown (a pod is named) and a container is chosen. |
| LogViewer.Viewer.SelectContainer | src/components/logs/LogViewer.tsx:138-143 | Sets the container and nothing else. |
| LogViewer.Viewer.OnScroll | src/components/logs/LogViewer.tsx:206-210 | `autoScroll` becomes whether the pane is within 100 px of its bottom. |
| LogViewer.Viewer.OnRender | src/components/logs/LogViewer.tsx:73-84 | When the shown count changes to a non-zero value, the pane jumps to its bottom iff it is following. Otherwise its scroll position is untouched. |
| LogViewer.Viewer.SelectRow | src/components/logs/LogViewer.tsx:223 | Opens the entry in the modal and leaves scrolling alone. |
| LogSearch.PodNamesBound | src/components/logs/LogSearch.tsx:91 | There are no more distinct pods than results. |
| LogSearch.UniquePodsBounds | src/components/logs/LogSearch.tsx:91 | The distinct pod count is at most the result count, and at least 1 when there are results. |
| LogSearch.ResultLines | src/components/logs/LogSearch.tsx:94-98 | One export line per entry of a result, in entry order. |
| LogSearch.ExportLineCount | src/components/logs/LogSearch.tsx:94-98 | The export has one line per entry over all results. |
| LogSearch.ExportLinesAppend | src/components/logs/LogSearch.tsx:94 | Export lines follow the results in order. |
| LogSearch.ExportLineFields | src/components/logs/LogSearch.tsx:96 | Splitting a line at tabs gives timestamp (`null` when missing), pod, level (or `-`), message. |
| LogSearch.TotalMatchesIsEntryCount | src/components/logs/LogSearch.tsx:90 | When each result's count is its entry count, the total is the number of entries. |
| LogSearch.BackendTotalIsExportLength | src/components/logs/LogSearch.tsx:90-99 | For a backend search, "Found N matches" equals the number of exported lines. |
| LogSearch.ResultPane | src/components/logs/LogSearch.tsx:176-190 | Prompt iff not triggered, loading iff triggered and loading, and table iff triggered, loaded and non-empty. |
| LogSearch.SelectEntry | src/components/logs/LogSearch.tsx:232 | The selected entry takes its pod and container from the enclosing result and keeps every other field. |
| LogSearch.PanelSearchGating | src/components/logs/LogSearch.tsx:62-66 | The panel's search runs iff Search was pressed and a context, a namespace and a deployment are selected. |
| LogSearch.SelectEntryKeepsBackendEntry | src/components/logs/LogSearch.tsx:232 | For a backend result the overwrite changes nothing. |
| LogSearch.ClampWidth | src/components/logs/LogSearch.tsx:43 | The width is always within [100, 500] and kept when already inside. |
| LogSearch.SearchPanel.constructor | src/components/logs/LogSearch.tsx:21-31 | Empty keyword and level, one hour, not triggered, nothing selected, width 208, not resizing. |
| LogSearch.SearchPanel.HandleSearch | src/components/logs/LogSearch.tsx:66-88 | With a deployment selected, Search sets only the triggered flag and enables the query; with none the whole panel is unchanged. The width stays in [100, 500]. |
| LogSearch.SearchPanel.MouseDown | src/components/logs/LogSearch.tsx:33-36 | Starts a resize from the mouse position and the current width; every other field is unchanged and the width stays in [100, 500]. |
| LogSearch.SearchPanel.MouseMove | src/components/logs/LogSearch.tsx:40-45 | While resizing, only the width changes, to the clamped start width plus the drag; otherwise the panel is unchanged. The width stays in [100, 500]. |
| LogSearch.SearchPanel.MouseUp | src/components/logs/LogSearch.tsx:47-53 | Ends the resize; every other field, the width included, is unchanged. |
| LogSearch.SearchPanel.SelectRow | src/components/logs/LogSearch.tsx:232 | Selects the entry with the result's pod and container; every other field is unchanged. |
| LogDetailModal.JsonStart | src/components/logs/LogDetailModal.tsx:37 | -1 iff there is no `{`, else the index of the first `{`. |
| LogDetailModal.FormattedJson | src/components/logs/LogDetailModal.tsx:34-46 | The result is `''` without an entry and raw when there is no `{`. Any other result is the pretty-printed parse of the suffix from the first `{`. |
| LogDetailModal.FormattedJsonAfterPrefix | src/components/logs/LogDetailModal.tsx:37-40 | A raw line "prefix{…}" whose suffix parses shows that value pretty-printed. |
| LogDetailModal.DueForAppend | src/components/logs/LogDetailModal.tsx:24-52 | A newly scheduled reset is due exactly at its deadline. |
| LogDetailModal.HasTimerAppend | src/components/logs/LogDetailModal.tsx:24-52 | Scheduling a reset records a pending timer for that flag. |
| LogDetailModal.HasTimerNotDue | src/components/logs/LogDetailModal.tsx:24-52 | A flag's timer that is not due yet stays pending. |
| LogDetailModal.NotDue | src/components/logs/LogDetailModal.tsx:24-52 | The timers left are exactly those whose deadline is later. |
| LogDetailModal.CopyFlags.constructor | src/components/logs/LogDetailModal.tsx:16-18 | All three flags start false. |
| LogDetailModal.CopyFlags.SetFlag | src/components/logs/LogDetailModal.tsx:23-51 | Sets one flag; the others are unchanged. |
| LogDetailModal.CopyFlags.Copy | src/components/logs/LogDetailModal.tsx:20-53 | With an entry and a written clipboard, the flag turns on and a reset 2000 ms later is scheduled. Otherwise nothing changes. |
| LogDetailModal.CopyFlags.AdvanceClock | src/components/logs/LogDetailModal.tsx:24-52 | Each flag whose reset is due turns off. Pending timers are kept exactly when not due. |
| ErrorStore.InitialInv | src/stores/errorStore.ts:13-14 | The store starts with no error, not transitioning. |
| ErrorStore.ApplyPreservesInv | src/stores/errorStore.ts:15-23 | Every operation keeps "transitioning implies no error". |
| ErrorStore.RunPreservesInv | src/stores/errorStore.ts:15-23 | Any sequence of calls keeps "transitioning implies no error". |
| ErrorStore.ErrorsDiscardedDuringTransition | src/stores/errorStore.ts:15-20 | Until the transition ends, no error is ever shown. |
| ErrorStore.ErrorShownAfterTransition | src/stores/errorStore.ts:15-23 | After the transition ends, the next reported error is shown. |
| ErrorStore.Store.constructor | src/stores/errorStore.ts:13-14 | No error, not transitioning. |
| ErrorStore.Store.SetError | src/stores/errorStore.ts:15-20 | Stores the error unless transitioning, when it is a no-op. |
| ErrorStore.Store.ClearError | src/stores/errorStore.ts:21 | Clears the error and keeps the transition flag. |
| ErrorStore.Store.StartTransition | src/stores/errorStore.ts:22 | Starts a transition and clears the error. |
| ErrorStore.Store.EndTransition | src/stores/errorStore.ts:23 | Ends the transition and keeps the error. |
| ClusterStore.Remembered | src/stores/clusterStore.ts:26-27 | The remembered namespace for a context, or `default` when there is none or it is empty; never empty. |
| ClusterStore.MemorySurvives | src/stores/clusterStore.ts:23-45 | A context's remembered namespace survives every call that does not set a namespace inside that context. |
| ClusterStore.NamespaceRestoredOnReturn | src/stores/clusterStore.ts:26-41 | After setting namespace n in context c, returning to c restores n. |
| ClusterStore.SwitchAwayAndBack | src/stores/clusterStore.ts:26-41 | Switching to another context and back restores the namespace. |
| ClusterStore.UnvisitedContextIsDefault | src/stores/clusterStore.ts:26-27 | A context never visited opens in `default`. |
| ClusterStore.Store.constructor | src/stores/clusterStore.ts:18-21 | No context, namespace `default`, no deployment, empty memory. |
| ClusterStore.Store.SetContext | src/stores/clusterStore.ts:23-32 | Sets the context and the remembered namespace, clears the deployment, and keeps the memory. |
| ClusterStore.Store.SetNamespace | src/stores/clusterStore.ts:33-44 | Sets the namespace, remembers it for the current context only, and clears the deployment. |
| ClusterStore.Store.SetDeployment | src/stores/clusterStore.ts:45 | Changes only the deployment. |
| UiStore.NavigationNotPersisted | src/stores/uiStore.ts:50 | Only theme and sidebar state are persisted, so navigation never changes what is saved. |
| UiStore.RunPreservesInv | src/stores/uiStore.ts:35-46 | A log-viewer pod is only held while the logs view is shown. |
| UiStore.ToggleThemeLaws | src/stores/uiStore.ts:36-40 | Toggling never gives `system`, toggling twice is the identity on dark/light, and `system` toggles twice to light. |
| UiStore.ToggleSidebarInvolution | src/stores/uiStore.ts:41 | Toggling the sidebar twice changes nothing. |
| UiStore.Store.constructor | src/stores/uiStore.ts:28-33 | Dark theme, deployments view, nothing selected, drawer closed. |
| UiStore.Store.SetTheme | src/stores/uiStore.ts:35 | Sets only the theme. |
| UiStore.Store.ToggleTheme | src/stores/uiStore.ts:36-40 | Dark becomes light, light and system become dark. |
| UiStore.Store.ToggleSidebar | src/stores/uiStore.ts:41 | Negates the sidebar flag only. |
| UiStore.Store.SetView | src/stores/uiStore.ts:42 | Sets the view and always clears the log-viewer pod. |
| UiStore.Store.SelectPod | src/stores/uiStore.ts:43 | Selects the pod; the drawer is open iff the pod is non-empty. |
| UiStore.Store.SetDrawerOpen | src/stores/uiStore.ts:44 | Sets only the drawer flag. |
| UiStore.Store.OpenLogViewer | src/stores/uiStore.ts:45 | Logs view with that pod. |
| UiStore.Store.CloseLogViewer | src/stores/uiStore.ts:46 | Pods view, no log-viewer pod. |
| QueryHooks.NoRetries | src/hooks/useK8s.ts:38-142 | Every Kubernetes hook uses retry 0 and reports failures. |
| QueryHooks.Gating | src/hooks/useK8s.ts:57-141 | Clusters always run; namespaces need a context; deployments and pods also need a namespace; details also need a name. |
| QueryHooks.KeysSeparate | src/hooks/useK8s.ts:25-129 | Equal keys mean the same hook family, the same context and, from deployments on, the same namespace. |
| QueryHooks.Timings | src/hooks/useK8s.ts:37-101 | Clusters never stale, namespaces 60 s, deployments 30 s; deployments and pods refetch every 5 s. |
| QueryHooks.ReportPolicy | src/hooks/useK8s.ts:11-21 | A failure is not reported iff the cache holds a non-empty array or any other value. |
| QueryHooks.ReportErrorIfNoCache | src/hooks/useK8s.ts:11-21 | Forwards the error to the store iff the policy says so; otherwise the store is unchanged. |
| QueryHooks.RunQuery | src/hooks/useK8s.ts:30-97 | The query still ends with the fetched outcome (the error is rethrown), and a failure is reported per the policy. |
| QueryHooks.ReportDuringTransitionDropped | src/hooks/useK8s.ts:11-21 | A failure reported during a transition is discarded. |
| LogHooks.PodLogsPolicy | src/hooks/useLogs.ts:7-27 | Logs are fetched iff not disabled and context, namespace and pod are set. The key holds context, namespace and time range. There are no forced retries and no error reports. |
| LogHooks.TimeRangeInKey | src/hooks/useLogs.ts:18 | Different time ranges address different cache entries. |
| LogHooks.NonEmpty | src/hooks/useLogs.ts:44-45 | An empty or absent filter is sent as absent, and any other value unchanged. |
| LogHooks.EmptyFiltersKeepEverything | src/hooks/useLogs.ts:44-45 | With an empty keyword and level the backend keeps every entry. |
| LogHooks.UnconvertedEmptyLevelDropsUnlevelled | src/hooks/useLogs.ts:45 | Sending "" as the level would drop every entry without a level. |
| LogHooks.SearchUsesTimeRange | src/hooks/useLogs.ts:44-46 | The search covers the selected range's seconds and sends a non-empty keyword as is. |
| LogHooks.SearchGating | src/hooks/useLogs.ts:48 | The search is off unless turned on, and once on it runs iff context, namespace and deployment are set. |
| LogHooks.SearchKeySeparates | src/hooks/useLogs.ts:41 | Two searches share a cache entry iff context, namespace, deployment, keyword, level and time range all agree. |
| LogHooks.PodLogsRequestMatchesKey | src/hooks/useLogs.ts:18-23 | The request asks for the pod and container the key names, over the seconds of the time range the key names. |
| MainLayout.RetryCallsShape | src/components/layout/MainLayout.tsx:63-75 | Retry clears the error first, then resets and refetches exactly the clusters, namespaces, deployments and pods families. |
| MainLayout.TransitionViewRule | src/components/layout/MainLayout.tsx:43-50 | A transition moves logs/pods views to deployments, keeps deployments/search, and leaves the drawer closed when it deselects. |
| MainLayout.RenderContent | src/components/layout/MainLayout.tsx:77-90 | Any unknown view renders the pod list. |
| MainLayout.RenderContentOfView | src/components/layout/MainLayout.tsx:77-90 | Each known view renders its own screen. |
| MainLayout.Layout.constructor | src/components/layout/MainLayout.tsx:33-61 | The previous-value refs start at the current namespace and context, and no timer is pending. |
| MainLayout.Layout.Cleanup | src/components/layout/MainLayout.tsx:57 | The clean-up clears a pending end timer. |
| MainLayout.Layout.RunEffect | src/components/layout/MainLayout.tsx:33-61 | A run is a transition iff namespace or context changed. A transition starts the error-store transition, cancels pod-logs and pod-details, leaves pod views, deselects the pod and schedules the end timer. Either way the refs become the current values. |
| MainLayout.Layout.OnRender | src/components/layout/MainLayout.tsx:33-61 | The effect as written re-runs on any dependency change, cleaning up first. |
| MainLayout.Layout.OnRenderSplitEffect | src/components/layout/MainLayout.tsx:33-61 | With namespace and context as the only dependencies, every transition keeps its end timer pending until it fires. |
| MainLayout.Layout.OnTimerFired | src/components/layout/MainLayout.tsx:56 | The timer ends the transition and keeps the error. |
| MainLayout.Layout.HandleRetry | src/components/layout/MainLayout.tsx:63-75 | Clears the error and issues the retry calls in order. |
| MainLayout.StuckTransitionWitness | src/components/layout/MainLayout.tsx:56-61 | Switching namespace in the pods view leaves the transition on with no timer pending, and a later error is never shown. |
| MainLayout.SplitEffectWitness | src/components/layout/MainLayout.tsx:56-61 | With the split effect the same steps end the transition and the error is shown. |
| Sidebar.FindCurrent | src/components/layout/Sidebar.tsx:28 | The first cluster flagged current, `None` iff there is none. |
| Sidebar.InitialContext | src/components/layout/Sidebar.tsx:26-31 | A context is chosen iff there is none yet and there are clusters. |
| Sidebar.InitialContextChoice | src/components/layout/Sidebar.tsx:28-29 | The chosen context is the current cluster's name, else the first cluster's; it is always a listed name. |
| Sidebar.InitialContextEffect | src/components/layout/Sidebar.tsx:26-31 | The effect sets the chosen context, or changes nothing. |
| Sidebar.NamespaceFallback | src/components/layout/Sidebar.tsx:34-43 | A replacement exists iff namespaces are loaded and the namespace is non-empty and not listed. It is listed, and it is `default` iff `default` is listed or the first namespace is `default`. |
| Sidebar.FallbackSettles | src/components/layout/Sidebar.tsx:34-43 | After one fallback the effect has nothing left to do. |
| Sidebar.NamespaceFallbackEffect | src/components/layout/Sidebar.tsx:34-43 | The effect applies the fallback, after which a non-empty namespace is listed. |
| Sidebar.SidebarFilterMatchesTable | src/components/layout/Sidebar.tsx:55-60 | The sidebar filter equals the deployment table's filter and is idempotent. |
| Sidebar.Toggled | src/components/layout/Sidebar.tsx:194-197 | Clicking the selected deployment deselects it, and clicking any other selects it. |
| Sidebar.ToggleTwice | src/components/layout/Sidebar.tsx:194-197 | Two clicks on one deployment leave it selected iff it was. |
| Sidebar.OnDeploymentClick | src/components/layout/Sidebar.tsx:194-197 | Toggles the deployment and switches to the pods view. |
| Sidebar.NamespaceSelectorFollowsQuery | src/components/layout/Sidebar.tsx:148 | The namespace selector is disabled iff the namespaces query is not enabled, i.e. no context is set. |
| Sidebar.DotIsHealth | src/components/layout/Sidebar.tsx:209-214 | Green, amber and red dots correspond exactly to healthy, degraded and unhealthy. |
| StatusBar.ObserveResetsOnlyOnCompletion | src/components/layout/StatusBar.tsx:15-20 | The countdown resets to 5 exactly when fetching goes from true to false. |
| StatusBar.ObserveIdempotent | src/components/layout/StatusBar.tsx:15-20 | Observing the same fetching state again changes nothing. |
| StatusBar.TicksSaturate | src/components/layout/StatusBar.tsx:23-29 | n ticks lower the countdown by n, never below 0. |
| StatusBar.ClockStaysBounded | src/components/layout/StatusBar.tsx:11-29 | The countdown stays within [0, 5]. |
| StatusBar.Countdown.constructor | src/components/layout/StatusBar.tsx:11-12 | Starts at 5 (the refetch interval in seconds), not fetching. |
| StatusBar.Countdown.OnTick | src/components/layout/StatusBar.tsx:23-29 | One tick: decrement, saturating at 0, staying in range. |
| StatusBar.Countdown.OnFetchingChanged | src/components/layout/StatusBar.tsx:15-20 | Resets on completion and records the fetching state. |
| StatusBar.RefreshLabel | src/components/layout/StatusBar.tsx:57-59 | "Refresh in Ns" is shown iff not fetching. |
| StatusBar.PodCountLabel | src/components/layout/StatusBar.tsx:52-55 | The pod count is shown iff the view is pods. |
| StatusBar.PodCountShown | src/components/layout/StatusBar.tsx:52-55 | Before pods arrive the bar reads "Showing 0 pods"; afterwards it counts the loaded pods. |
| StatusBar.PluralIffNotOne | src/components/layout/StatusBar.tsx:52-55 | The label ends in "pods" iff the count is not 1, and one pod reads "Showing 1 pod". |
| StatusBar.SyncLabel | src/components/layout/StatusBar.tsx:37-48 | The sync label is shown iff there is a context. |
| StatusBar.SyncAndRefreshAgree | src/components/layout/StatusBar.tsx:37-59 | The refresh text is shown iff the sync label reads "Live". |
| StatusBar.RefreshAfterCompletion | src/components/layout/StatusBar.tsx:15-59 | n ticks after a fetch completes, the bar reads "Refresh in (5-n)s". |
| Pods.GetPodStatus | src-tauri/src/k8s/pods.rs:162-208 | The loop with early returns computes exactly the specification status. |
| Pods.DeletionWins | src-tauri/src/k8s/pods.rs:164-166 | A pod being deleted is "Terminating", whatever else holds. |
| Pods.FirstBlockingContainerWins | src-tauri/src/k8s/pods.rs:171-195 | Otherwise the first container, in order, with a blocking reason supplies the status. |
| Pods.FirstReasonFromKind | src-tauri/src/k8s/pods.rs:176-193 | A container-supplied status is always one of the blocking reasons. |
| Pods.FallbackOrder | src-tauri/src/k8s/pods.rs:198-207 | With no blocking container: Evicted/UnexpectedAdmissionError reason, else the phase, else "Unknown". |
| Pods.PodStatusKinds | src-tauri/src/k8s/pods.rs:162-208 | The status is Terminating, a blocking reason, an eviction reason, a phase or "Unknown". |
| Pods.CountReady | src-tauri/src/k8s/pods.rs:210-225 | The ready count never exceeds the number of statuses. |
| Pods.CountReadyAppend | src-tauri/src/k8s/pods.rs:216-219 | The ready count adds up over concatenation. |
| Pods.SumRestartsAppend | src-tauri/src/k8s/pods.rs:227-233 | Restarts add up over concatenation. |
| Pods.CountsPerStatus | src-tauri/src/k8s/pods.rs:210-233 | Each status adds one ready container iff ready, and adds its restart count. |
| Pods.AllReadyIff | src-tauri/src/k8s/pods.rs:216-219 | All statuses are counted iff every one is ready. |
| Pods.RestartsNonNegative | src-tauri/src/k8s/pods.rs:227-233 | Non-negative restart counts sum to a non-negative total (0 with no statuses). |
| Pods.ReadyString | src-tauri/src/k8s/pods.rs:80 | The ready column splits at `/` into the ready count and the total. |
| Pods.TruncDiv | src-tauri/src/k8s/pods.rs:245-253 | Division truncating toward zero, as Rust's duration accessors compute. |
| Pods.AgeTextReadsBack | src-tauri/src/k8s/pods.rs:235-254 | The text is a count and the largest unit reached; count × unit brackets the age. |
| Pods.FutureCreationShowsNegativeSeconds | src-tauri/src/k8s/pods.rs:245-253 | A creation time in the future prints a negative number of seconds. |
| Pods.StatusByNameLast | src-tauri/src/k8s/pods.rs:262-272 | A name is in the status map iff some status has it, and it maps to the last such status. |
| Pods.EnvEntryVar | src-tauri/src/k8s/pods.rs:298-328 | The name is kept. Secret iff a secret reference, Direct iff no `valueFrom`, and always one of the six sources. |
| Pods.EnvEntryVars | src-tauri/src/k8s/pods.rs:298-328 | One variable per `env` entry, in order. |
| Pods.EnvFromVars | src-tauri/src/k8s/pods.rs:330-350 | One "<prefix>* (all keys)" entry per ConfigMap and per Secret reference. |
| Pods.CollectEnvVars | src-tauri/src/k8s/pods.rs:298-350 | The loop collects exactly the specification list. |
| Pods.EnvFromAllShape | src-tauri/src/k8s/pods.rs:330-350 | Every envFrom entry is a ConfigMap or Secret "… * (all keys)" entry. |
| Pods.EnvVarsLayout | src-tauri/src/k8s/pods.rs:298-350 | `env` entries come first, in order, followed by the envFrom entries. |
| Pods.PortOf | src-tauri/src/k8s/pods.rs:352-364 | A port keeps its number and name; its protocol defaults to "TCP". |
| Pods.ContainerDetailsOf | src-tauri/src/k8s/pods.rs:256-401 | One detail per spec container in order, none without a spec. |
| Pods.UnmatchedContainerDefaults | src-tauri/src/k8s/pods.rs:279-393 | A container without a matching status is not ready, has 0 restarts and state "Unknown". |
| Pods.MatchedContainerUsesLastStatus | src-tauri/src/k8s/pods.rs:262-393 | A matched container takes ready, restarts and state from the last status of that name. |
| Pods.PodInfoOf | src-tauri/src/k8s/pods.rs:49-88 | The listing row carries the computed status, "ready/total" and one container name per spec container. |
| Badge.StatusVariantOf | src/components/common/Badge.tsx:68-100 | Terminating iff "Terminating", and error iff one of the seven error statuses. |
| Badge.RunningPodReadiness | src/components/common/Badge.tsx:75-85 | A running pod with the backend's "r/t" is amber iff r < t, else green. |
| Badge.RunningWithoutUsableReady | src/components/common/Badge.tsx:75-85 | A missing or unparsable ready text leaves a running pod green. |
| Badge.PodStatusVariant | src/components/common/Badge.tsx:68-100 | The backend's statuses map to their colours: deletion terminating, ContainerCreating amber, failures red, Unknown default. |
| Badge.LevelBadge | src/components/common/Badge.tsx:107-115 | Nothing for a missing level, and a colour iff the level is one of the four canonical ones. |
| ErrorDialog.Classify | src/components/common/ErrorDialog.tsx:73-91 | A recognised kind's phrase occurs in the message. |
| ErrorDialog.UnrecognisedIff | src/components/common/ErrorDialog.tsx:70-91 | The generic message is used iff no phrase of the chain occurs. |
| ErrorDialog.ClassifyIsFirstMentioned | src/components/common/ErrorDialog.tsx:73-91 | The kind is the first kind of the chain whose phrase occurs. |
| ErrorDialog.ClassifyPriority | src/components/common/ErrorDialog.tsx:73-91 | A message mentioning the i-th kind is classified at rank i or earlier. |
| ErrorDialog.UnauthorizedBeatsCertificate | src/components/common/ErrorDialog.tsx:79-90 | "Unauthorized certificate" mentions a certificate, yet is classified as an authentication failure. |
| ErrorDialog.FixedHint | src/components/common/ErrorDialog.tsx:73-91 | Every fixed hint is non-empty. |
| ErrorDialog.ErrorText | src/components/common/ErrorDialog.tsx:67 | The message, or "Unknown error occurred" when it is empty. |
| ErrorDialog.ConnectionError | src/components/common/ErrorDialog.tsx:64-103 | There is no dialog iff there is no error. The title is "Connection Error", retry is offered as given, and the message is the classified kind's headline. |
| ErrorDialog.DetailsLaws | src/components/common/ErrorDialog.tsx:70-91 | Unrecognised messages show themselves as details. A certificate error shows the hint followed by the message, and every other kind shows its fixed hint. |
| ErrorDialog.FixedKindsForgetMessage | src/components/common/ErrorDialog.tsx:73-87 | Two errors of the same fixed kind give the same dialog. |
| ErrorDialog.EmptyMessageDialog | src/components/common/ErrorDialog.tsx:67-71 | An empty message gives the generic dialog with "Unknown error occurred" as details. |
| ErrorDialog.ClientTimeoutIsUnrecognised | src/components/common/ErrorDialog.tsx:85 | The client's own timeout text says "timed out", not "timeout", so it gets the generic message with itself as details. |
| Dropdown.FilteredOptions | src/components/common/Dropdown.tsx:56-60 | All options when not searchable or the query is empty, else the name filter over captions. |
| Dropdown.FilteredOptionsLaws | src/components/common/Dropdown.tsx:56-60 | Every matching option is kept, only matching options are kept, and filtering is idempotent. |
| Dropdown.FindByValue | src/components/common/Dropdown.tsx:54 | An option with that value, and `None` iff no option has it. |
| Dropdown.FindByValueFirst | src/components/common/Dropdown.tsx:54 | It is the first option with that value. |
| Dropdown.ButtonText | src/components/common/Dropdown.tsx:54-78 | Without a matching option the placeholder is shown. |
| Dropdown.ButtonTextOfSelection | src/components/common/Dropdown.tsx:54-78 | The selected option's caption is shown, or the placeholder when the caption is empty. |
| Dropdown.ToggleTwice | src/components/common/Dropdown.tsx:66 | Two clicks leave the menu as it was. |
| Dropdown.ReopenListsEverything | src/components/common/Dropdown.tsx:37-88 | Dismissing clears the query, so reopening lists every option. |
| Dropdown.NoResultsIff | src/components/common/Dropdown.tsx:146-148 | An open, non-searchable menu shows "No results" iff there are no options. |
| Dropdown.DropdownState.constructor | src/components/common/Dropdown.tsx:36-45 | Closed with an empty query. |
| Dropdown.DropdownState.OnButtonClick | src/components/common/Dropdown.tsx:66 | Toggles the menu unless disabled; while disabled nothing changes, otherwise only the open flag flips. |
| Dropdown.DropdownState.OnDocumentMouseDown | src/components/common/Dropdown.tsx:36-45 | A press outside closes the menu and clears the query; one inside changes nothing. |
| Dropdown.DropdownState.OnSearchInput | src/components/common/Dropdown.tsx:56-60 | Records the query. |
| Dropdown.DropdownState.OnOptionClick | src/components/common/Dropdown.tsx:127-131 | Returns the clicked listed option's value, which is one of the options, then closes and clears the query. |
| NameFilter.KeepNamed | src/components/pods/PodList.tsx:19-21 | Keeps only items of the input whose name contains the query, ignoring case. |
| NameFilter.KeepNamedAppend | src/components/pods/PodList.tsx:19-21 | The filter keeps order. |
| NameFilter.KeepNamedSingleton | src/components/pods/PodList.tsx:19-21 | One item is kept iff its name matches. |
| NameFilter.KeepNamedComplete | src/components/pods/PodList.tsx:19-21 | Every matching item is kept. |
| NameFilter.KeepNamedIdempotent | src/components/pods/PodList.tsx:19-21 | Filtering twice equals filtering once. |
| NameFilter.EmptyQueryMatches | src/components/pods/PodList.tsx:19-21 | The empty query matches every name. |
| NameFilter.KeepNamedEverything | src/components/pods/PodList.tsx:19-21 | The empty query keeps everything. |
| NameFilter.FilterByNameLaws | src/components/deployments/DeploymentList.tsx:18-20 | The list filter is identity for an empty query, keeps exactly the matching items in order, and is idempotent. |
| PodList.VisiblePodsLaws | src/components/pods/PodList.tsx:19-21 | An empty query keeps all pods, and a pod is shown iff its name matches; filtering is idempotent. |
| PodList.DisabledTooltip | src/components/pods/PodList.tsx:96-146 | A tooltip is shown iff the actions are disabled, reading "Pod is " and the lower-cased status. |
| PodList.DeletingPodDisabled | src/components/pods/PodList.tsx:96-99 | A pod being deleted has its actions disabled. |
| PodList.RestartsHighlightedIff | src/components/pods/PodList.tsx:116 | The restarts cell is red iff some container has restarted (restart counts being non-negative). |
| PodList.ShownIp | src/components/pods/PodList.tsx:127 | An empty IP is shown as `-`, any other as is. |
| PodList.NoStatusShowsDash | src/components/pods/PodList.tsx:127 | A pod without a status shows `-` as IP. |
| PodList.EmptyNoticeOf | src/components/pods/PodList.tsx:73-81 | "Try adjusting" appears iff loaded, empty and the query is non-empty, and there is no notice iff loading or pods are shown. |
| PodList.OnAction | src/components/pods/PodList.tsx:65-149 | Disabled actions change nothing. Logs opens the log viewer and Info selects the pod. |
| PodDetails.EnvValueShown | src/components/pods/PodDetails.tsx:214 | Secrets show `<secret>`, other values are shown as is. |
| PodDetails.SecretsMasked | src/components/pods/PodDetails.tsx:214 | Every secret-backed variable the backend lists is masked. |
| PodDetails.PortsLine | src/components/pods/PodDetails.tsx:176-185 | The ports line appears iff there is a port. |
| PodDetails.DefaultProtocolShown | src/components/pods/PodDetails.tsx:176-185 | A port without a protocol is shown as "n/TCP". |
| PodDetails.OrDash | src/components/pods/PodDetails.tsx:165-175 | A missing value is shown as `-`. |
| PodDetails.ResourcesLine | src/components/pods/PodDetails.tsx:165-175 | The resources line appears iff a CPU or memory request is set. |
| PodDetails.LimitsAloneHidden | src/components/pods/PodDetails.tsx:165-175 | Limits alone do not show the line. |
| PodDetails.NoResourcesNoLine | src/components/pods/PodDetails.tsx:165-175 | A container without resources shows no line. |
| PodDetails.PanelOf | src/components/pods/PodDetails.tsx:24-103 | An empty IP shows `-`. "No labels" appears iff there are none. Conditions appear iff there are any, starting collapsed. |
| DeploymentList.HealthOf | src/components/deployments/DeploymentList.tsx:93-94 | Healthy iff available = replicas, degraded iff available > 0 and unequal, unhealthy otherwise. |
| DeploymentList.HealthEdgeCases | src/components/deployments/DeploymentList.tsx:93-94 | 0/0 is healthy, 0 of n ≠ 0 unhealthy, 1 of n > 1 degraded. |
| DeploymentList.VisibleDeploymentsLaws | src/components/deployments/DeploymentList.tsx:18-20 | An empty query keeps all deployments, and a deployment is shown iff its name matches; filtering is idempotent. |
| DeploymentList.OnClick | src/components/deployments/DeploymentList.tsx:26-152 | A row click selects the deployment and shows pods; the Info button never selects. |
| DeploymentDetails.StatusLabel | src/components/deployments/DeploymentDetails.tsx:13-14 | Exactly one of Healthy, Degraded and Unhealthy, by the same rule as the list. |
| DeploymentDetails.AnnotationsSection | src/components/deployments/DeploymentDetails.tsx:104-181 | Present iff there are annotations, starting collapsed, titled with the count. |
| DeploymentDetails.ConditionsSection | src/components/deployments/DeploymentDetails.tsx:125-126 | Present iff there are conditions, starting open, titled with the count. |
| DeploymentDetails.ConditionLines | src/components/deployments/DeploymentDetails.tsx:148-157 | Type and status, then "Reason: …" and the message only when present. |
| DeploymentDetails.SectionsAfterClicks | src/components/deployments/DeploymentDetails.tsx:181-192 | After k clicks annotations are open iff k is odd, conditions iff k is even. |
| Collapsible.OpenAfterParity | src/components/deployments/DeploymentDetails.tsx:187-192 | After k clicks the section is open iff k is even and it started open, or k is odd and it started closed. |
| Collapsible.Section.constructor | src/components/deployments/DeploymentDetails.tsx:187 | A section starts at its default. |
| Collapsible.Section.Toggle | src/components/deployments/DeploymentDetails.tsx:192 | Each click flips the section and counts the click. |
| Clusters.FindCluster | src-tauri/src/k8s/clusters.rs:18-24 | A cluster of that name from the list, and `None` iff there is none. |
| Clusters.FindClusterFirst | src-tauri/src/k8s/clusters.rs:18-24 | It is the first cluster of that name. |
| Clusters.ServerIsFirstMatch | src-tauri/src/k8s/clusters.rs:18-24 | The server is the first matching cluster's server, or "" when it has none. |
| Clusters.InfosOf | src-tauri/src/k8s/clusters.rs:10-32 | At most one entry per context. |
| Clusters.InfosOfAppend | src-tauri/src/k8s/clusters.rs:10-32 | The projection keeps kubeconfig order. |
| Clusters.InfosOfSound | src-tauri/src/k8s/clusters.rs:10-32 | Every entry comes from a context with a body, with its name, server and current flag. |
| Clusters.ContextWithBodyListed | src-tauri/src/k8s/clusters.rs:10-32 | Every context with a body is listed. |
| Clusters.NoCurrentContext | src-tauri/src/k8s/clusters.rs:29 | Without a current context no entry is current. |

## Left out

- ErrorStore.AppError: the model assumes a failed query rejects with an object that carries a `message`; the backend's `K8sError` serializes as a bare string (src-tauri/src/error.rs:20-27), so behind the `as Error` cast in src/hooks/useK8s.ts the dialog would read "Unknown error occurred" and the classification would see only the client timeout text; how `invoke` turns a command error into a rejection is outside the model.
- Kubernetes and Tauri I/O are outside the model:
  - the `kube` API calls and `get_client_for_context`;
  - kubeconfig loading (src-tauri/src/k8s/client.rs is not part of this model);
  - the `get_pods`, `get_pod_details` and `get_pod_logs` command wrappers;
  - `invoke`, and the `Promise.race` timeout in src/lib/tauri.ts:15-29; only its message text is modelled.
- src-tauri/src/k8s/deployments.rs and namespaces.rs are list projections with `unwrap_or` defaults; the model takes their output as input.
- The log endpoint is a parameter that returns the log as a sequence of lines, so `lines()` splitting of the fetched text is not modelled.
- react-query internals are left out: caching, stale timers, polling and de-duplication. Cancel, reset and refetch appear only as recorded calls in `MainLayout.Layout`'s trace.
- JSON parsing and pretty-printing (`serde_json`, `JSON.parse`, `JSON.stringify`) are parameters; no JSON grammar is modelled.
- `formatBytes`, date formatting (`formatTimestamp`, `formatShortTimestamp`, `formatRelativeTime`) and the clock are left out; the current time is a parameter.
- The virtualised window of the log list is a library computation. Only the row estimate and the overscan constant are modelled.
- Clipboard writes, Blob/URL downloads and DOM listener registration are browser side effects, modelled only as the state they leave.
- Persistence to local storage is not modelled. `UiStore.Persist` records which fields are saved; the cluster store saves all of its fields.
- `selectDeploymentInfo`, `drawerType` and `selectedDeploymentInfo` are used by the deployment list and layout, but the UI store does not declare them. The model gives them no meaning.
- The Dropdown's focus-on-open effect (src/components/common/Dropdown.tsx:48-52) is a DOM focus call.
- Presentation-only files are not modelled: buttons, inputs, skeletons, modal, drawer, theme context, App and styles.
- Timers are explicit events (`OnTimerFired`, `OnTick`, `AdvanceClock`), not concurrent tasks.
- Text.Upper and Text.Lower map ASCII letters only; non-ASCII case mapping is not modelled.
- BackendLogs.ExtractTimestamp: the length guard counts characters where the source counts UTF-8 bytes, so the two can differ only for non-ASCII lines.
- BackendLogs.SearchDeploymentLogs: `total_matches` is an unbounded count; the source's cast to `i32` would wrap only beyond 2^31 entries, more than the 1000-line tails allow per container.
- Pods.RestartCount: restart counts are summed as unbounded integers; the `i32` sum's overflow is not modelled.
- Badge.StatusVariantOf: a ready part counts as a number only when it is a possibly empty string of digits; the empty string reads as 0, as with JavaScript's `Number("")`. The JavaScript `Number` conversion also accepts surrounding whitespace, signs and decimals, which the backend's "r/t" text never contains.

## Findings

| source | as written | input that shows it | evidently intended | confidence | as-written member | corrected member |
|---|---|---|---|---|---|---|
| src/components/layout/MainLayout.tsx:56-61 | The end-of-transition timer is cleared by the next run of the effect. That run also happens when the transition itself changed `currentView` or `selectedPod`, and it does not schedule a new timer because context and namespace are unchanged. | Switch namespace while the pods view is shown: the transition moves the view to deployments, the effect re-runs and clears the timer, so `isTransitioning` stays true and every later connection error is discarded. | The transition ends 1 s after a context or namespace switch, and later errors are shown again. | not executed | MainLayout.StuckTransitionWitness | MainLayout.Layout.OnRenderSplitEffect |
