/**
 * The log query hooks: the pod-log and log-search keys, when each runs,
 * and the conversion of an empty keyword or level to "no filter".
 */
module LogHooks {
  import opened Wrappers
  import QueryHooks
  import TauriApi
  import Constants
  import LogModel
  import BackendLogs

  predicate Truthy(s: Option<string>)
  {
    s.Some? && s.value != ""
  }

  /** The pod-log request and query options for the selected context and namespace. */
  datatype PodLogsRequest = PodLogsRequest(podName: string, container: Option<string>, sinceSeconds: nat)

  function PodLogsOptions(context: string, namespace: string, podName: Option<string>, container: Option<string>,
                          timeRange: TauriApi.TimeRange, enabled: Option<bool>): QueryHooks.QueryOptions
  {
    QueryHooks.QueryOptions(
      [QueryHooks.Str("pod-logs"), QueryHooks.Str(context), QueryHooks.Str(namespace),
       QueryHooks.NullablePart(podName), QueryHooks.OptionalPart(container), QueryHooks.Str(TauriApi.Key(timeRange))],
      enabled != Some(false) && context != "" && namespace != "" && Truthy(podName),
      QueryHooks.Fresh, Some(Constants.LogRefetchIntervalMs), None, false)
  }

  function PodLogsRequestOf(podName: string, container: Option<string>, timeRange: TauriApi.TimeRange): PodLogsRequest
  {
    PodLogsRequest(podName, container, TauriApi.Seconds(timeRange))
  }

  /**
   * The pod-log request asks for the pod and container the key names, over
   * the seconds of the time range the key names.
   */
  lemma PodLogsRequestMatchesKey(context: string, namespace: string, podName: string, container: Option<string>,
                                 timeRange: TauriApi.TimeRange, enabled: Option<bool>)
    ensures var q := PodLogsRequestOf(podName, container, timeRange);
      var o := PodLogsOptions(context, namespace, Some(podName), container, timeRange, enabled);
      q.podName == podName && q.container == container && q.sinceSeconds == TauriApi.Seconds(timeRange) &&
      o.key[3] == QueryHooks.Str(podName) && o.key[4] == QueryHooks.OptionalPart(container) &&
      TauriApi.FromKey(o.key[5].s) == Some(timeRange)
  {
    TauriApi.KeyRoundTrip(timeRange);
  }

  /**
   * Pod logs are fetched unless the caller disables them, and only with a
   * context, a namespace and a pod; the key names all of these plus the
   * container and the time range; the hook keeps the library's retry and
   * does not report failures.
   */
  lemma PodLogsPolicy(context: string, namespace: string, podName: Option<string>, container: Option<string>,
                      timeRange: TauriApi.TimeRange, enabled: Option<bool>)
    ensures var o := PodLogsOptions(context, namespace, podName, container, timeRange, enabled);
      (o.enabled <==> enabled != Some(false) && context != "" && namespace != "" && Truthy(podName)) &&
      (enabled.None? ==> (o.enabled <==> context != "" && namespace != "" && Truthy(podName))) &&
      o.retry.None? && !o.reportsErrors &&
      o.key[1] == QueryHooks.Str(context) && o.key[2] == QueryHooks.Str(namespace) &&
      o.key[5] == QueryHooks.Str(TauriApi.Key(timeRange))
  {
  }

  /** Changing the time range addresses a different cache entry. */
  lemma TimeRangeInKey(context: string, namespace: string, podName: Option<string>, container: Option<string>,
                       r1: TauriApi.TimeRange, r2: TauriApi.TimeRange, enabled: Option<bool>)
    requires r1 != r2
    ensures PodLogsOptions(context, namespace, podName, container, r1, enabled).key !=
            PodLogsOptions(context, namespace, podName, container, r2, enabled).key
  {
    TauriApi.KeyRoundTrip(r1);
    TauriApi.KeyRoundTrip(r2);
    assert PodLogsOptions(context, namespace, podName, container, r1, enabled).key[5] !=
           PodLogsOptions(context, namespace, podName, container, r2, enabled).key[5];
  }

  // ---------------------------------------------------------------------
  // Log search
  // ---------------------------------------------------------------------

  datatype SearchFilters = SearchFilters(keyword: Option<string>, logLevel: Option<string>, timeRange: TauriApi.TimeRange)

  /** The arguments sent to the backend: an empty keyword or level is sent as absent. */
  datatype SearchArgs = SearchArgs(deployment: string, keyword: Option<string>, logLevel: Option<string>, sinceSeconds: nat)

  function NonEmpty(s: Option<string>): (r: Option<string>)
    ensures r.Some? <==> Truthy(s)
    ensures r.Some? ==> r == s
  {
    if Truthy(s) then s else None
  }

  function SearchArgsOf(deployment: string, f: SearchFilters): SearchArgs
  {
    SearchArgs(deployment, NonEmpty(f.keyword), NonEmpty(f.logLevel), TauriApi.Seconds(f.timeRange))
  }

  /** The search runs only when the caller enables it and context, namespace and deployment are set. */
  predicate SearchEnabled(enabled: bool, context: string, namespace: string, deployment: Option<string>)
  {
    enabled && context != "" && namespace != "" && Truthy(deployment)
  }

  /** The search key: context, namespace, deployment and the whole filter object. */
  datatype SearchKey = SearchKey(context: string, namespace: string, deployment: Option<string>, filters: SearchFilters)

  /**
   * The search stays off unless its caller turns it on (the parameter
   * defaults to `false`), and once on it needs a context, a namespace and a
   * deployment.
   */
  lemma SearchGating(context: string, namespace: string, deployment: Option<string>)
    ensures !SearchEnabled(false, context, namespace, deployment)
    ensures SearchEnabled(true, context, namespace, deployment) <==> context != "" && namespace != "" && Truthy(deployment)
  {
  }

  /**
   * Two searches share a cache entry only when context, namespace,
   * deployment, keyword, level and time range all agree.
   */
  lemma SearchKeySeparates(k1: SearchKey, k2: SearchKey)
    ensures k1 == k2 <==>
      k1.context == k2.context && k1.namespace == k2.namespace && k1.deployment == k2.deployment &&
      k1.filters.keyword == k2.filters.keyword && k1.filters.logLevel == k2.filters.logLevel &&
      k1.filters.timeRange == k2.filters.timeRange
  {
  }

  /**
   * With an empty keyword the backend applies no keyword test, and with an
   * empty level it keeps entries of any level, including those without one.
   */
  lemma EmptyFiltersKeepEverything(deployment: string, timeRange: TauriApi.TimeRange, e: LogModel.LogEntry)
    ensures var args := SearchArgsOf(deployment, SearchFilters(Some(""), Some(""), timeRange));
      BackendLogs.EntryMatches(e, args.keyword, args.logLevel)
  {
  }

  /** Sending the empty level unconverted would drop every entry without a level. */
  lemma UnconvertedEmptyLevelDropsUnlevelled(e: LogModel.LogEntry)
    requires e.level.None?
    ensures !BackendLogs.EntryMatches(e, None, Some(""))
  {
  }

  /** The search is sent over the selected time range. */
  lemma SearchUsesTimeRange(deployment: string, f: SearchFilters)
    ensures SearchArgsOf(deployment, f).sinceSeconds == TauriApi.Seconds(f.timeRange)
    ensures Truthy(f.keyword) ==> SearchArgsOf(deployment, f).keyword == f.keyword
  {
  }
}
