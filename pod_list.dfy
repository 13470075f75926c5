/**
 * The pod table: the name search, the rule that disables the row actions
 * for pods that are going away or not yet up, and the display fallbacks.
 */
module PodList {
  import opened Wrappers
  import opened Text
  import NameFilter
  import Pods
  import UiStore

  function PodName(p: Pods.PodInfo): string
  {
    p.name
  }

  /** The rows shown for a search query; the substring test is applied even to the empty query. */
  function VisiblePods(pods: seq<Pods.PodInfo>, query: string): seq<Pods.PodInfo>
  {
    NameFilter.KeepNamed(pods, PodName, query)
  }

  /** An empty query keeps every pod; otherwise exactly the pods whose name matches, in order. */
  lemma VisiblePodsLaws(pods: seq<Pods.PodInfo>, query: string)
    ensures query == "" ==> VisiblePods(pods, query) == pods
    ensures forall p :: p in VisiblePods(pods, query) <==> p in pods && ContainsIgnoringCase(p.name, query)
    ensures VisiblePods(VisiblePods(pods, query), query) == VisiblePods(pods, query)
  {
    NameFilter.FilterByNameLaws(pods, PodName, query);
    forall p | p in pods && ContainsIgnoringCase(p.name, query)
      ensures p in VisiblePods(pods, query)
    {
      var i :| 0 <= i < |pods| && pods[i] == p;
      NameFilter.KeepNamedComplete(pods, PodName, query, i);
    }
  }

  predicate IsDisabled(status: string)
  {
    status == "Terminating" || status == "ContainerCreating" || status == "Evicted"
  }

  /** The tooltip of a disabled action: "Pod is " and the lower-cased status. */
  function DisabledTooltip(status: string): (tip: Option<string>)
    ensures tip.Some? <==> IsDisabled(status)
    ensures tip.Some? ==> StartsWith(tip.value, "Pod is ") && tip.value[7..] == Lower(status)
  {
    if IsDisabled(status) then Some("Pod is " + Lower(status)) else None
  }

  /** A pod the backend reports as being deleted cannot be opened. */
  lemma DeletingPodDisabled(pod: Pods.Pod, now: int)
    requires pod.deleting
    ensures IsDisabled(Pods.PodInfoOf(pod, now).status)
  {
  }

  /** The restarts cell turns red for a positive count. */
  predicate RestartsHighlighted(restarts: int)
  {
    restarts > 0
  }

  /** A pod's restarts are highlighted exactly when some container has restarted. */
  lemma {:induction false} RestartsHighlightedIff(css: seq<Pods.ContainerStatus>)
    requires forall j :: 0 <= j < |css| ==> css[j].restartCount >= 0
    ensures RestartsHighlighted(Pods.SumRestarts(css)) <==> exists j :: 0 <= j < |css| && css[j].restartCount > 0
    decreases |css|
  {
    if |css| > 0 {
      var init := css[..|css| - 1];
      RestartsHighlightedIff(init);
      Pods.RestartsNonNegative(init);
      if exists j :: 0 <= j < |init| && init[j].restartCount > 0 {
        var j :| 0 <= j < |init| && init[j].restartCount > 0;
        assert css[j] == init[j];
      } else if css[|css| - 1].restartCount <= 0 {
        forall j | 0 <= j < |css|
          ensures css[j].restartCount <= 0
        {
          if j < |init| {
            assert css[j] == init[j];
          }
        }
      }
    }
  }

  /** The IP column: "-" for an empty address. */
  function ShownIp(ip: string): (shown: string)
    ensures shown != ""
    ensures ip != "" ==> shown == ip
  {
    if ip == "" then "-" else ip
  }

  /** A pod without a status shows "-" as its address. */
  lemma NoStatusShowsDash(pod: Pods.Pod, now: int)
    requires pod.status.None?
    ensures ShownIp(Pods.PodInfoOf(pod, now).ip) == "-"
  {
  }

  datatype EmptyNotice = NoNotice | NoPodsFound | NoPodsTryAdjusting

  /** The empty-list notice: only after loading with nothing shown, with the hint only for a non-empty query. */
  function EmptyNoticeOf(isLoading: bool, shown: nat, query: string): (n: EmptyNotice)
    ensures n == NoPodsTryAdjusting <==> !isLoading && shown == 0 && query != ""
    ensures n == NoNotice <==> isLoading || shown > 0
  {
    if isLoading || shown > 0 then NoNotice
    else if query != "" then NoPodsTryAdjusting
    else NoPodsFound
  }

  datatype Action = ViewLogs | ViewInfo

  /** A click on a row action: a disabled button does nothing; Logs opens the viewer and Info selects the pod. */
  method OnAction(action: Action, pod: Pods.PodInfo, ui: UiStore.Store)
    modifies ui
    ensures IsDisabled(pod.status) ==> ui.Snapshot() == old(ui.Snapshot())
    ensures !IsDisabled(pod.status) && action == ViewLogs ==> ui.Snapshot() == old(ui.Snapshot()).OpenLogViewer(pod.name)
    ensures !IsDisabled(pod.status) && action == ViewInfo ==> ui.Snapshot() == old(ui.Snapshot()).SelectPod(Some(pod.name))
  {
    if IsDisabled(pod.status) {
      return;
    }
    if action == ViewLogs {
      ui.OpenLogViewer(pod.name);
    } else {
      ui.SelectPod(Some(pod.name));
    }
  }
}
