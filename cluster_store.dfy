/**
 * The cluster selection store: the chosen kubeconfig context, namespace
 * and deployment, and the namespace last used in each context.
 */
module ClusterStore {
  import opened Wrappers

  /** The namespace remembered for `context`, or `default` when there is none or it is empty. */
  function Remembered(lastNamespace: map<string, string>, context: string): (r: string)
    ensures r != ""
    ensures context in lastNamespace && lastNamespace[context] != "" ==> r == lastNamespace[context]
  {
    if context in lastNamespace && lastNamespace[context] != "" then lastNamespace[context] else "default"
  }

  datatype State = State(context: string, namespace: string, deployment: Option<string>, lastNamespace: map<string, string>) {

    function SetContext(c: string): State
    {
      this.(context := c, namespace := Remembered(lastNamespace, c), deployment := None)
    }

    function SetNamespace(n: string): State
    {
      this.(namespace := n, deployment := None, lastNamespace := lastNamespace[context := n])
    }

    function SetDeployment(d: Option<string>): State
    {
      this.(deployment := d)
    }
  }

  const Initial := State("", "default", None, map[])

  datatype Op = SetContextOp(c: string) | SetNamespaceOp(n: string) | SetDeploymentOp(d: Option<string>)

  function Apply(s: State, op: Op): State
  {
    match op
    case SetContextOp(c) => s.SetContext(c)
    case SetNamespaceOp(n) => s.SetNamespace(n)
    case SetDeploymentOp(d) => s.SetDeployment(d)
  }

  function Run(s: State, ops: seq<Op>): State
    decreases |ops|
  {
    if |ops| == 0 then s else Run(Apply(s, ops[0]), ops[1..])
  }

  /** No namespace is set while `c` is the current context. */
  predicate LeavesMemoryOf(s: State, ops: seq<Op>, c: string)
    decreases |ops|
  {
    |ops| == 0 ||
    ((ops[0].SetNamespaceOp? ==> s.context != c) && LeavesMemoryOf(Apply(s, ops[0]), ops[1..], c))
  }

  /** The namespace remembered for `c` survives every call that does not set a namespace inside `c`. */
  lemma {:induction false} MemorySurvives(s: State, ops: seq<Op>, c: string)
    requires c in s.lastNamespace
    requires LeavesMemoryOf(s, ops, c)
    ensures c in Run(s, ops).lastNamespace && Run(s, ops).lastNamespace[c] == s.lastNamespace[c]
    decreases |ops|
  {
    if |ops| > 0 {
      MemorySurvives(Apply(s, ops[0]), ops[1..], c);
    }
  }

  /** A namespace set under `c` is restored when `c` is chosen again, whatever happened in other contexts meanwhile. */
  lemma NamespaceRestoredOnReturn(s: State, n: string, ops: seq<Op>)
    requires n != ""
    requires LeavesMemoryOf(s.SetNamespace(n), ops, s.context)
    ensures Run(s.SetNamespace(n), ops).SetContext(s.context).namespace == n
  {
    MemorySurvives(s.SetNamespace(n), ops, s.context);
  }

  /** Switching to another context and straight back restores the namespace. */
  lemma SwitchAwayAndBack(s: State, n: string, other: string)
    requires n != ""
    ensures s.SetNamespace(n).SetContext(other).SetContext(s.context).namespace == n
  {
  }

  /** A context never visited opens in `default`. */
  lemma UnvisitedContextIsDefault(s: State, c: string)
    requires c !in s.lastNamespace
    ensures s.SetContext(c).namespace == "default"
  {
  }

  class Store {
    var context: string
    var namespace: string
    var deployment: Option<string>
    var lastNamespace: map<string, string>

    function Snapshot(): State
      reads this
    {
      State(context, namespace, deployment, lastNamespace)
    }

    constructor()
      ensures Snapshot() == Initial
    {
      context := "";
      namespace := "default";
      deployment := None;
      lastNamespace := map[];
    }

    /** Switches context, reopening its remembered namespace and clearing the deployment. */
    method SetContext(c: string)
      modifies this
      ensures Snapshot() == old(Snapshot()).SetContext(c)
      ensures context == c && namespace == Remembered(old(lastNamespace), c)
      ensures deployment.None? && lastNamespace == old(lastNamespace)
    {
      namespace := Remembered(lastNamespace, c);
      context := c;
      deployment := None;
    }

    /** Switches namespace, remembering it for the current context and clearing the deployment. */
    method SetNamespace(n: string)
      modifies this
      ensures Snapshot() == old(Snapshot()).SetNamespace(n)
      ensures namespace == n && deployment.None? && context == old(context)
      ensures context in lastNamespace && lastNamespace[context] == n
      ensures forall c :: c != context ==> (c in lastNamespace <==> c in old(lastNamespace))
      ensures forall c :: c != context && c in lastNamespace ==> lastNamespace[c] == old(lastNamespace)[c]
    {
      lastNamespace := lastNamespace[context := n];
      namespace := n;
      deployment := None;
    }

    method SetDeployment(d: Option<string>)
      modifies this
      ensures Snapshot() == old(Snapshot()).SetDeployment(d)
      ensures deployment == d
      ensures context == old(context) && namespace == old(namespace) && lastNamespace == old(lastNamespace)
    {
      deployment := d;
    }
  }
}
