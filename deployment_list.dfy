/**
 * The deployment table: the name filter, the three-way health rule shared
 * with the sidebar and the details panel, and the row versus Info click.
 */
module DeploymentList {
  import opened Wrappers
  import opened Text
  import NameFilter
  import ClusterStore
  import UiStore

  datatype DeploymentInfo = DeploymentInfo(name: string, namespace: string, replicas: int, availableReplicas: int, readyReplicas: int)

  datatype Health = Healthy | Degraded | Unhealthy

  /** Healthy when every replica is available (so 0/0 is healthy), degraded when some are, unhealthy otherwise. */
  function HealthOf(available: int, replicas: int): (h: Health)
    ensures h == Healthy <==> available == replicas
    ensures h == Degraded <==> available > 0 && available != replicas
    ensures h == Unhealthy <==> available <= 0 && available != replicas
  {
    if available == replicas then Healthy
    else if available > 0 then Degraded
    else Unhealthy
  }

  function HealthLabel(h: Health): string
  {
    match h
    case Healthy => "Healthy"
    case Degraded => "Degraded"
    case Unhealthy => "Unhealthy"
  }

  /** A deployment scaled to zero is healthy; one with none of its replicas available is unhealthy. */
  lemma HealthEdgeCases(replicas: int)
    ensures HealthOf(0, 0) == Healthy
    ensures replicas != 0 ==> HealthOf(0, replicas) == Unhealthy
    ensures replicas > 1 ==> HealthOf(1, replicas) == Degraded
  {
  }

  function DeploymentName(d: DeploymentInfo): string
  {
    d.name
  }

  /** The rows shown for a search query: the list applies the substring test even to the empty query. */
  function VisibleDeployments(deployments: seq<DeploymentInfo>, query: string): seq<DeploymentInfo>
  {
    NameFilter.KeepNamed(deployments, DeploymentName, query)
  }

  /** An empty query keeps every row; otherwise exactly the rows whose name matches, in order, and filtering is idempotent. */
  lemma VisibleDeploymentsLaws(deployments: seq<DeploymentInfo>, query: string)
    ensures query == "" ==> VisibleDeployments(deployments, query) == deployments
    ensures forall d :: d in VisibleDeployments(deployments, query) <==>
      d in deployments && ContainsIgnoringCase(d.name, query)
    ensures VisibleDeployments(VisibleDeployments(deployments, query), query) == VisibleDeployments(deployments, query)
  {
    NameFilter.FilterByNameLaws(deployments, DeploymentName, query);
    forall d | d in deployments && ContainsIgnoringCase(d.name, query)
      ensures d in VisibleDeployments(deployments, query)
    {
      var i :| 0 <= i < |deployments| && deployments[i] == d;
      NameFilter.KeepNamedComplete(deployments, DeploymentName, query, i);
    }
  }

  datatype ClickTarget = RowCell | InfoButton

  /**
   * A click inside a row. The Info button's handler stops propagation, so
   * it only requests the info panel; anywhere else the row handler selects
   * the deployment and shows the pods view.
   */
  method OnClick(target: ClickTarget, name: string, cluster: ClusterStore.Store, ui: UiStore.Store)
    returns (infoRequested: Option<string>)
    modifies cluster, ui
    ensures target == RowCell ==>
      infoRequested.None? &&
      cluster.Snapshot() == old(cluster.Snapshot()).SetDeployment(Some(name)) &&
      ui.Snapshot() == old(ui.Snapshot()).SetView(UiStore.Pods)
    ensures target == InfoButton ==>
      infoRequested == Some(name) &&
      cluster.Snapshot() == old(cluster.Snapshot()) && ui.Snapshot() == old(ui.Snapshot())
  {
    infoRequested := None;
    var propagates := true;
    if target == InfoButton {
      infoRequested := Some(name);
      propagates := false;
    }
    if propagates {
      cluster.SetDeployment(Some(name));
      ui.SetView(UiStore.Pods);
    }
  }
}
