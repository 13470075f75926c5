/**
 * The main layout: the effect that runs a transition when the context or
 * namespace changes (suppressing errors, cancelling per-pod queries,
 * leaving pod-specific views), the retry handler, and the view dispatch.
 */
module MainLayout {
  import opened Wrappers
  import ErrorStore
  import UiStore
  import ClusterStore

  /** The calls the layout makes into the query cache, the error store and the timer queue, in order. */
  datatype Call =
    | StartTransitionCall
    | CancelQueries(family: string)
    | SetViewCall(view: UiStore.View)
    | DeselectPodCall
    | ScheduleEndTransition
    | ClearEndTimer
    | EndTransitionCall
    | ClearErrorCall
    | ResetQueries(family: string)
    | RefetchQueries(family: string)

  /** The values the transition effect depends on. */
  datatype Deps = Deps(namespace: string, context: string, view: UiStore.View, selectedPod: Option<string>)

  /** A run is a transition exactly when namespace or context differs from the recorded previous values. */
  predicate IsTransition(prevNamespace: string, prevContext: string, d: Deps)
  {
    prevNamespace != d.namespace || prevContext != d.context
  }

  predicate LeavesView(view: UiStore.View)
  {
    view == UiStore.Logs || view == UiStore.Pods
  }

  /** The UI store after a transition run: pod-specific views fall back to deployments, and the pod is deselected. */
  function UiAfterTransition(s: UiStore.State, d: Deps): UiStore.State
  {
    var s1 := if LeavesView(d.view) then s.SetView(UiStore.Deployments) else s;
    if UiStore.Truthy(d.selectedPod) then s1.SelectPod(None) else s1
  }

  /** The calls of one run of the effect. */
  function EffectCalls(d: Deps, transition: bool): seq<Call>
  {
    if !transition then []
    else
      [StartTransitionCall, CancelQueries("pod-logs"), CancelQueries("pod-details")] +
      (if LeavesView(d.view) then [SetViewCall(UiStore.Deployments)] else []) +
      (if UiStore.Truthy(d.selectedPod) then [DeselectPodCall] else []) +
      [ScheduleEndTransition]
  }

  /** The split effect re-runs only when namespace or context differ from its last run. */
  predicate SameKey(last: Option<Deps>, d: Deps)
  {
    last.Some? && last.value.namespace == d.namespace && last.value.context == d.context
  }

  /** The query families a retry resets and refetches. */
  const RetryFamilies := ["clusters", "namespaces", "deployments", "pods"]

  /** The calls of a retry: clear the error, reset each family, then refetch each family. */
  const RetryCalls: seq<Call> :=
    [ClearErrorCall] +
    [ResetQueries("clusters"), ResetQueries("namespaces"), ResetQueries("deployments"), ResetQueries("pods")] +
    [RefetchQueries("clusters"), RefetchQueries("namespaces"), RefetchQueries("deployments"), RefetchQueries("pods")]

  /** Retry clears the error first and touches only the four list families. */
  lemma RetryCallsShape()
    ensures RetryCalls[0] == ClearErrorCall
    ensures forall i :: 1 <= i < |RetryCalls| ==>
      (RetryCalls[i].ResetQueries? || RetryCalls[i].RefetchQueries?) && RetryCalls[i].family in RetryFamilies
    ensures forall i :: 1 <= i < 5 ==> RetryCalls[i].ResetQueries? && RetryCalls[i].family == RetryFamilies[i - 1]
    ensures forall i :: 5 <= i < 9 ==> RetryCalls[i].RefetchQueries? && RetryCalls[i].family == RetryFamilies[i - 5]
    ensures |RetryCalls| == 9
  {
  }

  /** A transition run keeps the deployments and search views, and leaves the logs and pods views for deployments. */
  lemma TransitionViewRule(s: UiStore.State, d: Deps)
    requires s.currentView == d.view
    ensures UiAfterTransition(s, d).currentView ==
      (if d.view == UiStore.Logs || d.view == UiStore.Pods then UiStore.Deployments else d.view)
    ensures !UiAfterTransition(s, d).drawerOpen || !UiStore.Truthy(d.selectedPod)
  {
  }

  /** The screen shown for a view name. */
  datatype Screen = PodListScreen | DeploymentListScreen | LogViewerScreen | LogSearchScreen

  function ViewName(v: UiStore.View): string
  {
    match v
    case Pods => "pods"
    case Deployments => "deployments"
    case Logs => "logs"
    case Search => "search"
  }

  /** The view dispatch: each named view has its screen, anything else shows the pod list. */
  function RenderContent(view: string): (s: Screen)
    ensures view !in {"pods", "deployments", "logs", "search"} ==> s == PodListScreen
  {
    if view == "pods" then PodListScreen
    else if view == "deployments" then DeploymentListScreen
    else if view == "logs" then LogViewerScreen
    else if view == "search" then LogSearchScreen
    else PodListScreen
  }

  lemma RenderContentOfView(v: UiStore.View)
    ensures RenderContent(ViewName(v)) ==
      match v
      case Pods => PodListScreen
      case Deployments => DeploymentListScreen
      case Logs => LogViewerScreen
      case Search => LogSearchScreen
  {
  }

  class Layout {
    const errors: ErrorStore.Store
    const ui: UiStore.Store
    const cluster: ClusterStore.Store
    var prevNamespace: string
    var prevContext: string
    /** The dependencies the effect last ran with; `None` before the first render. */
    var lastDeps: Option<Deps>
    /** The end-of-transition timer is scheduled and not yet fired or cleared. */
    var timerPending: bool
    var trace: seq<Call>

    /**
     * The invariant the split-effect layout keeps: a transition in
     * progress always has its end timer pending, and the previous-value
     * refs match the last run.
     */
    ghost predicate TransitionEnds()
      reads this, errors
    {
      (errors.isTransitioning ==> timerPending) &&
      (lastDeps.None? ==> !errors.isTransitioning && !timerPending) &&
      (lastDeps.Some? ==> prevNamespace == lastDeps.value.namespace && prevContext == lastDeps.value.context)
    }

    function CurrentDeps(): Deps
      reads this, cluster, ui
    {
      Deps(cluster.namespace, cluster.context, ui.currentView, ui.selectedPod)
    }

    constructor(errors: ErrorStore.Store, ui: UiStore.Store, cluster: ClusterStore.Store)
      requires !errors.isTransitioning
      ensures this.errors == errors && this.ui == ui && this.cluster == cluster
      ensures prevNamespace == cluster.namespace && prevContext == cluster.context
      ensures lastDeps.None? && !timerPending && trace == []
      ensures TransitionEnds()
    {
      this.errors := errors;
      this.ui := ui;
      this.cluster := cluster;
      prevNamespace := cluster.namespace;
      prevContext := cluster.context;
      lastDeps := None;
      timerPending := false;
      trace := [];
    }

    /** Clean-up of the previous run: clears its end timer if one is pending. */
    method Cleanup()
      modifies this
      ensures !timerPending
      ensures trace == old(trace) + (if old(timerPending) then [ClearEndTimer] else [])
      ensures prevNamespace == old(prevNamespace) && prevContext == old(prevContext) && lastDeps == old(lastDeps)
    {
      if timerPending {
        timerPending := false;
        trace := trace + [ClearEndTimer];
      }
    }

    /** One run of the effect body with the values of the render it follows. */
    method RunEffect(d: Deps)
      requires !timerPending
      requires ui.currentView == d.view && ui.selectedPod == d.selectedPod
      modifies this, errors, ui
      ensures prevNamespace == d.namespace && prevContext == d.context
      ensures timerPending == IsTransition(old(prevNamespace), old(prevContext), d)
      ensures errors.Snapshot() ==
        if IsTransition(old(prevNamespace), old(prevContext), d) then old(errors.Snapshot()).StartTransition() else old(errors.Snapshot())
      ensures ui.Snapshot() ==
        if IsTransition(old(prevNamespace), old(prevContext), d) then UiAfterTransition(old(ui.Snapshot()), d) else old(ui.Snapshot())
      ensures trace == old(trace) + EffectCalls(d, IsTransition(old(prevNamespace), old(prevContext), d))
      ensures lastDeps == old(lastDeps)
    {
      if IsTransition(prevNamespace, prevContext, d) {
        errors.StartTransition();
        trace := trace + [StartTransitionCall, CancelQueries("pod-logs"), CancelQueries("pod-details")];
        if LeavesView(d.view) {
          ui.SetView(UiStore.Deployments);
          trace := trace + [SetViewCall(UiStore.Deployments)];
        }
        if UiStore.Truthy(d.selectedPod) {
          ui.SelectPod(None);
          trace := trace + [DeselectPodCall];
        }
        prevNamespace := d.namespace;
        prevContext := d.context;
        timerPending := true;
        trace := trace + [ScheduleEndTransition];
      } else {
        prevNamespace := d.namespace;
        prevContext := d.context;
      }
    }

    /**
     * A render, with the effect as written: it re-runs whenever any of
     * namespace, context, current view or selected pod changed since its
     * last run, first cleaning up the previous run (which clears a pending
     * end timer).
     */
    method OnRender()
      modifies this, errors, ui
      ensures old(lastDeps) == Some(old(CurrentDeps())) ==>
        timerPending == old(timerPending) && trace == old(trace) && lastDeps == old(lastDeps) &&
        errors.Snapshot() == old(errors.Snapshot()) && ui.Snapshot() == old(ui.Snapshot())
      ensures old(lastDeps) != Some(old(CurrentDeps())) ==>
        lastDeps == Some(old(CurrentDeps())) &&
        prevNamespace == old(cluster.namespace) && prevContext == old(cluster.context) &&
        timerPending == IsTransition(old(prevNamespace), old(prevContext), old(CurrentDeps())) &&
        errors.Snapshot() == (if IsTransition(old(prevNamespace), old(prevContext), old(CurrentDeps()))
                              then old(errors.Snapshot()).StartTransition() else old(errors.Snapshot())) &&
        ui.Snapshot() == (if IsTransition(old(prevNamespace), old(prevContext), old(CurrentDeps()))
                          then UiAfterTransition(old(ui.Snapshot()), old(CurrentDeps())) else old(ui.Snapshot())) &&
        trace == old(trace) + (if old(timerPending) then [ClearEndTimer] else []) +
                 EffectCalls(old(CurrentDeps()), IsTransition(old(prevNamespace), old(prevContext), old(CurrentDeps())))
    {
      var d := CurrentDeps();
      if lastDeps == Some(d) {
        return;
      }
      Cleanup();
      lastDeps := Some(d);
      RunEffect(d);
    }

    /**
     * A render, with the transition effect depending on namespace and
     * context only: view and pod changes no longer re-run it, so they no
     * longer clear the end timer.
     */
    method OnRenderSplitEffect()
      requires TransitionEnds()
      modifies this, errors, ui
      ensures TransitionEnds()
      ensures lastDeps.Some? && prevNamespace == old(cluster.namespace) && prevContext == old(cluster.context)
      ensures SameKey(old(lastDeps), old(CurrentDeps())) ==>
        timerPending == old(timerPending) && trace == old(trace) &&
        errors.Snapshot() == old(errors.Snapshot()) && ui.Snapshot() == old(ui.Snapshot())
      ensures !SameKey(old(lastDeps), old(CurrentDeps())) ==>
        timerPending == IsTransition(old(prevNamespace), old(prevContext), old(CurrentDeps())) &&
        errors.Snapshot() == (if IsTransition(old(prevNamespace), old(prevContext), old(CurrentDeps()))
                              then old(errors.Snapshot()).StartTransition() else old(errors.Snapshot())) &&
        ui.Snapshot() == (if IsTransition(old(prevNamespace), old(prevContext), old(CurrentDeps()))
                          then UiAfterTransition(old(ui.Snapshot()), old(CurrentDeps())) else old(ui.Snapshot())) &&
        trace == old(trace) + (if old(timerPending) then [ClearEndTimer] else []) +
                 EffectCalls(old(CurrentDeps()), IsTransition(old(prevNamespace), old(prevContext), old(CurrentDeps())))
    {
      var d := CurrentDeps();
      if SameKey(lastDeps, d) {
        return;
      }
      Cleanup();
      lastDeps := Some(d);
      RunEffect(d);
    }

    /** The end timer fires: the transition ends. */
    method OnTimerFired()
      requires timerPending
      modifies this, errors
      ensures !timerPending && !errors.isTransitioning && errors.error == old(errors.error)
      ensures trace == old(trace) + [EndTransitionCall]
      ensures TransitionEnds() <== old(TransitionEnds())
    {
      errors.EndTransition();
      timerPending := false;
      trace := trace + [EndTransitionCall];
    }

    /** The Retry button: clear the error, then reset and refetch the four list families. */
    method HandleRetry()
      modifies this, errors
      ensures errors.error.None? && errors.isTransitioning == old(errors.isTransitioning)
      ensures trace == old(trace) + RetryCalls
      ensures timerPending == old(timerPending) && lastDeps == old(lastDeps)
    {
      errors.ClearError();
      trace := trace + [ClearErrorCall];
      trace := trace + [ResetQueries("clusters"), ResetQueries("namespaces"), ResetQueries("deployments"), ResetQueries("pods")];
      trace := trace + [RefetchQueries("clusters"), RefetchQueries("namespaces"), RefetchQueries("deployments"), RefetchQueries("pods")];
    }
  }

  /**
   * Switching namespace while the pods view is shown: the transition
   * moves the view to deployments, the next render re-runs the effect and
   * its clean-up clears the end timer, and no new timer is scheduled. The
   * transition never ends, and every later error report is discarded.
   */
  method StuckTransitionWitness() returns (isTransitioning: bool, timerPending: bool, shownError: Option<ErrorStore.AppError>)
    ensures isTransitioning && !timerPending && shownError.None?
  {
    var errors := new ErrorStore.Store();
    var ui := new UiStore.Store();
    var cluster := new ClusterStore.Store();
    var layout := new Layout(errors, ui, cluster);
    layout.OnRender();
    ui.SetView(UiStore.Pods);
    layout.OnRender();
    cluster.SetNamespace("kube-system");
    layout.OnRender();
    assert errors.isTransitioning && ui.currentView == UiStore.Deployments && layout.timerPending;
    layout.OnRender();
    errors.SetError(Some(ErrorStore.AppError("Unauthorized")));
    return errors.isTransitioning, layout.timerPending, errors.error;
  }

  /** The same steps with the split effect: the timer survives, fires, and the next error is shown. */
  method SplitEffectWitness() returns (isTransitioning: bool, shownError: Option<ErrorStore.AppError>)
    ensures !isTransitioning && shownError == Some(ErrorStore.AppError("Unauthorized"))
  {
    var errors := new ErrorStore.Store();
    var ui := new UiStore.Store();
    var cluster := new ClusterStore.Store();
    var layout := new Layout(errors, ui, cluster);
    layout.OnRenderSplitEffect();
    ui.SetView(UiStore.Pods);
    layout.OnRenderSplitEffect();
    cluster.SetNamespace("kube-system");
    layout.OnRenderSplitEffect();
    layout.OnRenderSplitEffect();
    assert layout.timerPending;
    layout.OnTimerFired();
    errors.SetError(Some(ErrorStore.AppError("Unauthorized")));
    return errors.isTransitioning, errors.error;
  }
}
