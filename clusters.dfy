/**
 * The cluster list the backend builds from a loaded kubeconfig: one entry
 * per context that has a context body, with the server of its cluster and
 * whether it is the current context.
 */
module Clusters {
  import opened Wrappers

  datatype ContextBody = ContextBody(cluster: string)
  datatype NamedContext = NamedContext(name: string, context: Option<ContextBody>)
  datatype ClusterBody = ClusterBody(server: Option<string>)
  datatype NamedCluster = NamedCluster(name: string, cluster: Option<ClusterBody>)
  datatype Kubeconfig = Kubeconfig(currentContext: Option<string>, contexts: seq<NamedContext>, clusters: seq<NamedCluster>)

  datatype ClusterInfo = ClusterInfo(name: string, server: string, isCurrent: bool)

  /** The first cluster entry with the given name. */
  function FindCluster(clusters: seq<NamedCluster>, name: string): (r: Option<NamedCluster>)
    ensures r.Some? ==> r.value in clusters && r.value.name == name
    ensures r.None? <==> forall i :: 0 <= i < |clusters| ==> clusters[i].name != name
  {
    if |clusters| == 0 then None
    else if clusters[0].name == name then Some(clusters[0])
    else FindCluster(clusters[1..], name)
  }

  lemma {:induction false} FindClusterFirst(clusters: seq<NamedCluster>, name: string, k: nat)
    requires k < |clusters| && clusters[k].name == name
    requires forall i :: 0 <= i < k ==> clusters[i].name != name
    ensures FindCluster(clusters, name) == Some(clusters[k])
    decreases k
  {
    if k > 0 {
      FindClusterFirst(clusters[1..], name, k - 1);
    }
  }

  /** The server of the named cluster, or "" when there is no such cluster, no body, or no server. */
  function ServerOf(kc: Kubeconfig, clusterName: string): string
  {
    var found := FindCluster(kc.clusters, clusterName);
    if found.Some? && found.value.cluster.Some? then found.value.cluster.value.server.GetOr("") else ""
  }

  function InfoOf(kc: Kubeconfig, ctx: NamedContext): ClusterInfo
    requires ctx.context.Some?
  {
    ClusterInfo(ctx.name, ServerOf(kc, ctx.context.value.cluster), Some(ctx.name) == kc.currentContext)
  }

  /** The entries for a run of contexts, skipping those without a body, in order. */
  function InfosOf(kc: Kubeconfig, contexts: seq<NamedContext>): (r: seq<ClusterInfo>)
    ensures |r| <= |contexts|
  {
    if |contexts| == 0 then []
    else
      var init := InfosOf(kc, contexts[..|contexts| - 1]);
      var last := contexts[|contexts| - 1];
      if last.context.Some? then init + [InfoOf(kc, last)] else init
  }

  function ClusterList(kc: Kubeconfig): seq<ClusterInfo>
  {
    InfosOf(kc, kc.contexts)
  }

  lemma {:induction false} InfosOfAppend(kc: Kubeconfig, a: seq<NamedContext>, b: seq<NamedContext>)
    ensures InfosOf(kc, a + b) == InfosOf(kc, a) + InfosOf(kc, b)
    decreases |b|
  {
    if |b| > 0 {
      InfosOfAppend(kc, a, b[..|b| - 1]);
      assert (a + b)[..|a + b| - 1] == a + b[..|b| - 1];
    } else {
      assert a + b == a;
    }
  }

  /**
   * Every entry comes from a context with a body, keeps its name, and is
   * current exactly when its name is the current context.
   */
  lemma {:induction false} InfosOfSound(kc: Kubeconfig, contexts: seq<NamedContext>)
    ensures forall info :: info in InfosOf(kc, contexts) ==>
      (exists i :: 0 <= i < |contexts| && contexts[i].context.Some? && contexts[i].name == info.name &&
                   info.server == ServerOf(kc, contexts[i].context.value.cluster)) &&
      (info.isCurrent <==> Some(info.name) == kc.currentContext)
    decreases |contexts|
  {
    if |contexts| > 0 {
      var init := contexts[..|contexts| - 1];
      InfosOfSound(kc, init);
      forall info | info in InfosOf(kc, contexts)
        ensures exists i :: 0 <= i < |contexts| && contexts[i].context.Some? && contexts[i].name == info.name &&
                   info.server == ServerOf(kc, contexts[i].context.value.cluster)
      {
        if info in InfosOf(kc, init) {
          var i :| 0 <= i < |init| && init[i].context.Some? && init[i].name == info.name &&
                   info.server == ServerOf(kc, init[i].context.value.cluster);
          assert contexts[i] == init[i];
        } else {
          assert contexts[|contexts| - 1].name == info.name;
        }
      }
    }
  }

  /** Every context with a body yields its entry. */
  lemma ContextWithBodyListed(kc: Kubeconfig, i: nat)
    requires i < |kc.contexts| && kc.contexts[i].context.Some?
    ensures InfoOf(kc, kc.contexts[i]) in ClusterList(kc)
  {
    var cs := kc.contexts;
    assert cs == cs[..i] + [cs[i]] + cs[i + 1..];
    InfosOfAppend(kc, cs[..i] + [cs[i]], cs[i + 1..]);
    InfosOfAppend(kc, cs[..i], [cs[i]]);
    assert [cs[i]][..0] == [];
  }

  /** Without a current context no entry is current. */
  lemma NoCurrentContext(kc: Kubeconfig)
    requires kc.currentContext.None?
    ensures forall info :: info in ClusterList(kc) ==> !info.isCurrent
  {
    InfosOfSound(kc, kc.contexts);
  }

  /** The server is that of the first cluster of the context's cluster name, defaulting to "". */
  lemma ServerIsFirstMatch(kc: Kubeconfig, clusterName: string, k: nat)
    requires k < |kc.clusters| && kc.clusters[k].name == clusterName
    requires forall i :: 0 <= i < k ==> kc.clusters[i].name != clusterName
    ensures ServerOf(kc, clusterName) ==
      if kc.clusters[k].cluster.Some? && kc.clusters[k].cluster.value.server.Some?
      then kc.clusters[k].cluster.value.server.value else ""
  {
    FindClusterFirst(kc.clusters, clusterName, k);
  }
}
