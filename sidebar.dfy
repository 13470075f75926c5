/**
 * The sidebar: the effects that pick an initial context and repair a
 * namespace missing from the loaded list, the deployment filter and
 * toggle, the health dot, and the disabled namespace selector.
 */
module Sidebar {
  import opened Wrappers
  import opened Text
  import NameFilter
  import Clusters
  import ClusterStore
  import UiStore
  import DeploymentList
  import QueryHooks

  // ---------------------------------------------------------------------
  // Initial context
  // ---------------------------------------------------------------------

  /** The first cluster flagged as current. */
  function FindCurrent(clusters: seq<Clusters.ClusterInfo>): (r: Option<Clusters.ClusterInfo>)
    ensures r.Some? ==> r.value in clusters && r.value.isCurrent
    ensures r.None? <==> forall i :: 0 <= i < |clusters| ==> !clusters[i].isCurrent
  {
    if |clusters| == 0 then None
    else if clusters[0].isCurrent then Some(clusters[0])
    else FindCurrent(clusters[1..])
  }

  /**
   * The context chosen while none is set: the current cluster's name when
   * that is non-empty, else the first cluster's. Nothing is chosen once a
   * context is set or while the list is empty.
   */
  function InitialContext(context: string, clusters: seq<Clusters.ClusterInfo>): (r: Option<string>)
    ensures r.Some? <==> context == "" && |clusters| > 0
  {
    if context != "" || |clusters| == 0 then None
    else
      var current := FindCurrent(clusters);
      Some(if current.Some? && current.value.name != "" then current.value.name else clusters[0].name)
  }

  lemma InitialContextChoice(clusters: seq<Clusters.ClusterInfo>)
    requires |clusters| > 0
    ensures (forall i :: 0 <= i < |clusters| ==> !clusters[i].isCurrent) ==> InitialContext("", clusters) == Some(clusters[0].name)
    ensures FindCurrent(clusters).Some? && FindCurrent(clusters).value.name != "" ==>
      InitialContext("", clusters) == Some(FindCurrent(clusters).value.name) &&
      exists i :: 0 <= i < |clusters| && clusters[i].isCurrent && clusters[i].name == FindCurrent(clusters).value.name
    ensures InitialContext("", clusters).value in (set c | c in clusters :: c.name)
  {
  }

  /** The effect, run after a render: it sets the chosen context, if any. */
  method InitialContextEffect(clusters: seq<Clusters.ClusterInfo>, store: ClusterStore.Store)
    modifies store
    ensures InitialContext(old(store.context), clusters).Some? ==>
      store.Snapshot() == old(store.Snapshot()).SetContext(InitialContext(old(store.context), clusters).value)
    ensures InitialContext(old(store.context), clusters).None? ==> store.Snapshot() == old(store.Snapshot())
  {
    if store.context == "" && |clusters| > 0 {
      var current := FindCurrent(clusters);
      store.SetContext(if current.Some? && current.value.name != "" then current.value.name else clusters[0].name);
    }
  }

  // ---------------------------------------------------------------------
  // Namespace fallback
  // ---------------------------------------------------------------------

  datatype NamespaceInfo = NamespaceInfo(name: string, status: string)

  predicate Listed(namespaces: seq<NamespaceInfo>, name: string)
  {
    exists i :: 0 <= i < |namespaces| && namespaces[i].name == name
  }

  /**
   * The replacement for a namespace missing from a loaded, non-empty list:
   * "default" when listed, else the first namespace. An empty namespace or
   * an empty list leaves it alone.
   */
  function NamespaceFallback(namespaces: seq<NamespaceInfo>, namespace: string): (r: Option<string>)
    ensures r.Some? <==> |namespaces| > 0 && namespace != "" && !Listed(namespaces, namespace)
    ensures r.Some? ==> Listed(namespaces, r.value)
    ensures r.Some? ==> (r.value == "default" <==> Listed(namespaces, "default") || namespaces[0].name == "default")
  {
    if |namespaces| == 0 || namespace == "" || Listed(namespaces, namespace) then None
    else if Listed(namespaces, "default") then Some("default")
    else Some(namespaces[0].name)
  }

  /**
   * The repair settles at once: the replacement is listed, so running the
   * effect again with it changes nothing.
   */
  lemma FallbackSettles(namespaces: seq<NamespaceInfo>, namespace: string)
    requires NamespaceFallback(namespaces, namespace).Some?
    ensures NamespaceFallback(namespaces, NamespaceFallback(namespaces, namespace).value).None?
  {
  }

  method NamespaceFallbackEffect(namespaces: seq<NamespaceInfo>, store: ClusterStore.Store)
    modifies store
    ensures NamespaceFallback(namespaces, old(store.namespace)).Some? ==>
      store.Snapshot() == old(store.Snapshot()).SetNamespace(NamespaceFallback(namespaces, old(store.namespace)).value)
    ensures NamespaceFallback(namespaces, old(store.namespace)).None? ==> store.Snapshot() == old(store.Snapshot())
    ensures |namespaces| > 0 && old(store.namespace) != "" ==> Listed(namespaces, store.namespace)
  {
    if |namespaces| > 0 && store.namespace != "" {
      var exists_ := exists i :: 0 <= i < |namespaces| && namespaces[i].name == store.namespace;
      if !exists_ {
        var hasDefault := exists i :: 0 <= i < |namespaces| && namespaces[i].name == "default";
        store.SetNamespace(if hasDefault then "default" else namespaces[0].name);
      }
    }
  }

  // ---------------------------------------------------------------------
  // Deployments
  // ---------------------------------------------------------------------

  /** The sidebar list: everything for an empty filter, else the deployments whose name matches. */
  function FilteredDeployments(deployments: seq<DeploymentList.DeploymentInfo>, filter: string): seq<DeploymentList.DeploymentInfo>
  {
    NameFilter.FilterByName(deployments, DeploymentList.DeploymentName, filter)
  }

  /** The sidebar filter agrees with the deployment table's for every filter text. */
  lemma SidebarFilterMatchesTable(deployments: seq<DeploymentList.DeploymentInfo>, filter: string)
    ensures FilteredDeployments(deployments, filter) == DeploymentList.VisibleDeployments(deployments, filter)
    ensures FilteredDeployments(FilteredDeployments(deployments, filter), filter) == FilteredDeployments(deployments, filter)
  {
    NameFilter.FilterByNameLaws(deployments, DeploymentList.DeploymentName, filter);
  }

  /** The deployment after a click: deselected if it was the selected one, else selected. */
  function Toggled(current: Option<string>, name: string): (r: Option<string>)
    ensures r.Some? <==> current != Some(name)
    ensures r.Some? ==> r.value == name
  {
    if current == Some(name) then None else Some(name)
  }

  /** Two clicks on the same deployment restore the selection unless another was selected first. */
  lemma ToggleTwice(current: Option<string>, name: string)
    ensures Toggled(Toggled(current, name), name) == (if current == Some(name) then Some(name) else None)
  {
  }

  /** A click on a deployment toggles its selection and always shows the pods view. */
  method OnDeploymentClick(name: string, cluster: ClusterStore.Store, ui: UiStore.Store)
    modifies cluster, ui
    ensures cluster.Snapshot() == old(cluster.Snapshot()).SetDeployment(Toggled(old(cluster.deployment), name))
    ensures ui.Snapshot() == old(ui.Snapshot()).SetView(UiStore.Pods)
  {
    cluster.SetDeployment(if cluster.deployment == Some(name) then None else Some(name));
    ui.SetView(UiStore.Pods);
  }

  datatype Dot = Green | Amber | Red

  function HealthDot(d: DeploymentList.DeploymentInfo): Dot
  {
    if d.availableReplicas == d.replicas then Green
    else if d.availableReplicas > 0 then Amber
    else Red
  }

  /** The dot colour is the deployment table's health class. */
  lemma DotIsHealth(d: DeploymentList.DeploymentInfo)
    ensures HealthDot(d) == Green <==> DeploymentList.HealthOf(d.availableReplicas, d.replicas) == DeploymentList.Healthy
    ensures HealthDot(d) == Amber <==> DeploymentList.HealthOf(d.availableReplicas, d.replicas) == DeploymentList.Degraded
    ensures HealthDot(d) == Red <==> DeploymentList.HealthOf(d.availableReplicas, d.replicas) == DeploymentList.Unhealthy
  {
  }

  /** The namespace selector is disabled while no context is set. */
  predicate NamespaceSelectorDisabled(context: string)
  {
    context == ""
  }

  /** The namespace selector is usable exactly when the namespaces query may run. */
  lemma NamespaceSelectorFollowsQuery(context: string, namespace: string)
    ensures NamespaceSelectorDisabled(context) <==> !QueryHooks.Options(QueryHooks.NamespacesQuery, context, namespace).enabled
  {
  }
}
