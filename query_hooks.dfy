/**
 * The cluster-data query hooks: their cache keys, when they are enabled,
 * their cache timings and retry setting, and the rule that reports a
 * failure to the error dialog only when nothing usable is cached.
 */
module QueryHooks {
  import opened Wrappers
  import ErrorStore
  import Constants

  /** An element of a query key. */
  datatype KeyPart = Str(s: string) | Null | Undefined

  datatype Staleness = Fresh | StaleAfter(ms: nat) | NeverStale

  /** `retry` and `refetchInterval` are `None` where the hook leaves the library default. */
  datatype QueryOptions = QueryOptions(
    key: seq<KeyPart>,
    enabled: bool,
    staleTime: Staleness,
    refetchInterval: Option<nat>,
    retry: Option<nat>,
    reportsErrors: bool)

  datatype Hook =
    | ClustersQuery
    | NamespacesQuery
    | DeploymentsQuery
    | PodsQuery(deployment: Option<string>)
    | PodDetailsQuery(podName: Option<string>)
    | DeploymentDetailsQuery(deploymentName: Option<string>)

  predicate Truthy(s: Option<string>)
  {
    s.Some? && s.value != ""
  }

  /** A `string | null` argument in a key. */
  function NullablePart(s: Option<string>): KeyPart
  {
    if s.Some? then Str(s.value) else Null
  }

  /** An optional argument in a key. */
  function OptionalPart(s: Option<string>): KeyPart
  {
    if s.Some? then Str(s.value) else Undefined
  }

  /** The options each hook passes for the selected context and namespace. */
  function Options(h: Hook, context: string, namespace: string): QueryOptions
  {
    match h
    case ClustersQuery =>
      QueryOptions([Str("clusters")], true, NeverStale, None, Some(0), true)
    case NamespacesQuery =>
      QueryOptions([Str("namespaces"), Str(context)], context != "", StaleAfter(60000), None, Some(0), true)
    case DeploymentsQuery =>
      QueryOptions([Str("deployments"), Str(context), Str(namespace)], context != "" && namespace != "",
                   StaleAfter(30000), Some(Constants.RefetchIntervalMs), Some(0), true)
    case PodsQuery(d) =>
      QueryOptions([Str("pods"), Str(context), Str(namespace), OptionalPart(d)], context != "" && namespace != "",
                   Fresh, Some(Constants.RefetchIntervalMs), Some(0), true)
    case PodDetailsQuery(p) =>
      QueryOptions([Str("pod-details"), Str(context), Str(namespace), NullablePart(p)],
                   context != "" && namespace != "" && Truthy(p), Fresh, None, Some(0), true)
    case DeploymentDetailsQuery(d) =>
      QueryOptions([Str("deployment-details"), Str(context), Str(namespace), NullablePart(d)],
                   context != "" && namespace != "" && Truthy(d), Fresh, None, Some(0), true)
  }

  /** Every hook fails at once and reports its failures. */
  lemma NoRetries(h: Hook, context: string, namespace: string)
    ensures Options(h, context, namespace).retry == Some(0)
    ensures Options(h, context, namespace).reportsErrors
  {
  }

  /** Clusters always load; namespaces need a context; the rest need a namespace too; details also need a name. */
  lemma Gating(h: Hook, context: string, namespace: string)
    ensures h.ClustersQuery? ==> Options(h, context, namespace).enabled
    ensures h.NamespacesQuery? ==> (Options(h, context, namespace).enabled <==> context != "")
    ensures (h.DeploymentsQuery? || h.PodsQuery?) ==>
      (Options(h, context, namespace).enabled <==> context != "" && namespace != "")
    ensures h.PodDetailsQuery? ==>
      (Options(h, context, namespace).enabled <==> context != "" && namespace != "" && Truthy(h.podName))
    ensures h.DeploymentDetailsQuery? ==>
      (Options(h, context, namespace).enabled <==> context != "" && namespace != "" && Truthy(h.deploymentName))
    ensures Options(h, context, namespace).enabled ==> (h.ClustersQuery? || context != "")
  {
  }

  /**
   * Keys address distinct cache entries: different hooks never share a
   * key, every key but the cluster list's changes with the context, and
   * from the deployment list on it changes with the namespace.
   */
  lemma KeysSeparate(h1: Hook, h2: Hook, c1: string, n1: string, c2: string, n2: string)
    ensures Options(h1, c1, n1).key == Options(h2, c2, n2).key ==> h1.ClustersQuery? == h2.ClustersQuery?
    ensures Options(h1, c1, n1).key == Options(h2, c2, n2).key && h1 == h2 && !h1.ClustersQuery? ==> c1 == c2
    ensures Options(h1, c1, n1).key == Options(h2, c2, n2).key && h1 == h2 && !h1.ClustersQuery? && !h1.NamespacesQuery? ==>
      n1 == n2
    ensures Options(h1, c1, n1).key == Options(h2, c2, n2).key ==> Options(h1, c1, n1).key[0] == Options(h2, c2, n2).key[0]
  {
    if Options(h1, c1, n1).key == Options(h2, c2, n2).key {
      assert Options(h1, c1, n1).key[0] == Options(h2, c2, n2).key[0];
      if h1 == h2 && !h1.ClustersQuery? {
        assert Options(h1, c1, n1).key[1] == Options(h2, c2, n2).key[1];
        if !h1.NamespacesQuery? {
          assert Options(h1, c1, n1).key[2] == Options(h2, c2, n2).key[2];
        }
      }
    }
  }

  /** Cluster lists never go stale, namespaces after 60 s, deployments after 30 s; deployments and pods poll. */
  lemma Timings(context: string, namespace: string, d: Option<string>)
    ensures Options(ClustersQuery, context, namespace).staleTime == NeverStale
    ensures Options(NamespacesQuery, context, namespace).staleTime == StaleAfter(60000)
    ensures Options(DeploymentsQuery, context, namespace).staleTime == StaleAfter(30000)
    ensures Options(DeploymentsQuery, context, namespace).refetchInterval == Some(5000)
    ensures Options(PodsQuery(d), context, namespace).refetchInterval == Some(5000)
  {
  }

  // ---------------------------------------------------------------------
  // Error reporting
  // ---------------------------------------------------------------------

  /** What the cache holds for a key: nothing, a falsy value, an array of some length, or another truthy value. */
  datatype CachedData = Absent | Falsy | ArrayData(length: nat) | OtherData

  /** Report when the cache holds nothing usable: absent, falsy, or an empty array. */
  predicate ShouldReport(cached: CachedData)
  {
    cached.Absent? || cached.Falsy? || (cached.ArrayData? && cached.length == 0)
  }

  /** A non-empty cached list or any other truthy value suppresses the report. */
  lemma ReportPolicy(cached: CachedData)
    ensures !ShouldReport(cached) <==> (cached.ArrayData? && cached.length > 0) || cached.OtherData?
  {
  }

  method ReportErrorIfNoCache(cached: CachedData, error: ErrorStore.AppError, errors: ErrorStore.Store)
    modifies errors
    ensures ShouldReport(cached) ==> errors.Snapshot() == old(errors.Snapshot()).SetError(Some(error))
    ensures !ShouldReport(cached) ==> errors.Snapshot() == old(errors.Snapshot())
  {
    if cached.Absent? || cached.Falsy? || (cached.ArrayData? && cached.length == 0) {
      errors.SetError(Some(error));
    }
  }

  /** A query function: a failed fetch is reported by the policy and rethrown, so the query still fails. */
  method RunQuery<T>(fetched: Result<T, ErrorStore.AppError>, cached: CachedData, errors: ErrorStore.Store)
    returns (outcome: Result<T, ErrorStore.AppError>)
    modifies errors
    ensures outcome == fetched
    ensures fetched.Success? ==> errors.Snapshot() == old(errors.Snapshot())
    ensures fetched.Failure? && ShouldReport(cached) ==>
      errors.Snapshot() == old(errors.Snapshot()).SetError(Some(fetched.error))
    ensures fetched.Failure? && !ShouldReport(cached) ==> errors.Snapshot() == old(errors.Snapshot())
  {
    if fetched.Failure? {
      ReportErrorIfNoCache(cached, fetched.error, errors);
    }
    outcome := fetched;
  }

  /** A failure reported during a context or namespace transition is not shown. */
  lemma ReportDuringTransitionDropped(s: ErrorStore.State, e: ErrorStore.AppError)
    requires s.Inv() && s.isTransitioning
    ensures s.SetError(Some(e)).error.None?
  {
  }
}
