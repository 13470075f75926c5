/** The UI store: theme, sidebar, current view, selected pod, drawer and log-viewer pod. */
module UiStore {
  import opened Wrappers

  datatype Theme = Light | Dark | System
  datatype View = Pods | Deployments | Logs | Search

  /** `!!value` for an optional string. */
  predicate Truthy(value: Option<string>)
  {
    value.Some? && value.value != ""
  }

  datatype State = State(theme: Theme, sidebarCollapsed: bool, currentView: View,
                         selectedPod: Option<string>, drawerOpen: bool, logViewerPod: Option<string>) {

    /** A log-viewer pod is only held while the logs view is shown. */
    predicate Inv()
    {
      logViewerPod.Some? ==> currentView == Logs
    }

    function SetTheme(t: Theme): State { this.(theme := t) }

    function ToggleTheme(): State { this.(theme := if theme == Dark then Light else Dark) }

    function ToggleSidebar(): State { this.(sidebarCollapsed := !sidebarCollapsed) }

    function SetView(v: View): State { this.(currentView := v, logViewerPod := None) }

    function SelectPod(p: Option<string>): State { this.(selectedPod := p, drawerOpen := Truthy(p)) }

    function SetDrawerOpen(open: bool): State { this.(drawerOpen := open) }

    function OpenLogViewer(pod: string): State { this.(currentView := Logs, logViewerPod := Some(pod)) }

    function CloseLogViewer(): State { this.(currentView := Pods, logViewerPod := None) }
  }

  const Initial := State(Dark, false, Deployments, None, false, None)

  /** The part of the state written to local storage. */
  datatype Persisted = Persisted(theme: Theme, sidebarCollapsed: bool)

  function Persist(s: State): Persisted
  {
    Persisted(s.theme, s.sidebarCollapsed)
  }

  datatype Op =
    | SetThemeOp(t: Theme) | ToggleThemeOp | ToggleSidebarOp | SetViewOp(v: View)
    | SelectPodOp(p: Option<string>) | SetDrawerOpenOp(open: bool) | OpenLogViewerOp(pod: string) | CloseLogViewerOp

  function Apply(s: State, op: Op): State
  {
    match op
    case SetThemeOp(t) => s.SetTheme(t)
    case ToggleThemeOp => s.ToggleTheme()
    case ToggleSidebarOp => s.ToggleSidebar()
    case SetViewOp(v) => s.SetView(v)
    case SelectPodOp(p) => s.SelectPod(p)
    case SetDrawerOpenOp(open) => s.SetDrawerOpen(open)
    case OpenLogViewerOp(pod) => s.OpenLogViewer(pod)
    case CloseLogViewerOp => s.CloseLogViewer()
  }

  function Run(s: State, ops: seq<Op>): State
    decreases |ops|
  {
    if |ops| == 0 then s else Run(Apply(s, ops[0]), ops[1..])
  }

  /** Navigation: every operation except the theme and sidebar ones. */
  predicate IsNavigation(op: Op)
  {
    !(op.SetThemeOp? || op.ToggleThemeOp? || op.ToggleSidebarOp?)
  }

  /** Navigation never changes what is persisted. */
  lemma {:induction false} NavigationNotPersisted(s: State, ops: seq<Op>)
    requires forall i :: 0 <= i < |ops| ==> IsNavigation(ops[i])
    ensures Persist(Run(s, ops)) == Persist(s)
    decreases |ops|
  {
    if |ops| > 0 {
      NavigationNotPersisted(Apply(s, ops[0]), ops[1..]);
    }
  }

  /** Any sequence of operations keeps "a log-viewer pod implies the logs view". */
  lemma {:induction false} RunPreservesInv(s: State, ops: seq<Op>)
    requires s.Inv()
    ensures Run(s, ops).Inv()
    decreases |ops|
  {
    if |ops| > 0 {
      RunPreservesInv(Apply(s, ops[0]), ops[1..]);
    }
  }

  /** Toggling never yields `system`; from light or dark, toggling twice is the identity. */
  lemma ToggleThemeLaws(s: State)
    ensures s.ToggleTheme().theme != System
    ensures s.theme != System ==> s.ToggleTheme().ToggleTheme() == s
    ensures s.theme == System ==> s.ToggleTheme().ToggleTheme().theme == Light
  {
  }

  /** Toggling the sidebar twice is the identity. */
  lemma ToggleSidebarInvolution(s: State)
    ensures s.ToggleSidebar().ToggleSidebar() == s
  {
  }

  class Store {
    var theme: Theme
    var sidebarCollapsed: bool
    var currentView: View
    var selectedPod: Option<string>
    var drawerOpen: bool
    var logViewerPod: Option<string>

    function Snapshot(): State
      reads this
    {
      State(theme, sidebarCollapsed, currentView, selectedPod, drawerOpen, logViewerPod)
    }

    constructor()
      ensures Snapshot() == Initial
    {
      theme := Dark;
      sidebarCollapsed := false;
      currentView := Deployments;
      selectedPod := None;
      drawerOpen := false;
      logViewerPod := None;
    }

    method SetTheme(t: Theme)
      modifies this
      ensures Snapshot() == old(Snapshot()).SetTheme(t)
    {
      theme := t;
    }

    /** Dark becomes light; light and system become dark. */
    method ToggleTheme()
      modifies this
      ensures Snapshot() == old(Snapshot()).ToggleTheme()
      ensures theme == (if old(theme) == Dark then Light else Dark)
    {
      theme := if theme == Dark then Light else Dark;
    }

    method ToggleSidebar()
      modifies this
      ensures Snapshot() == old(Snapshot()).ToggleSidebar()
      ensures sidebarCollapsed == !old(sidebarCollapsed)
    {
      sidebarCollapsed := !sidebarCollapsed;
    }

    /** Shows a view and always drops the log-viewer pod. */
    method SetView(v: View)
      modifies this
      ensures Snapshot() == old(Snapshot()).SetView(v)
      ensures currentView == v && logViewerPod.None?
    {
      currentView := v;
      logViewerPod := None;
    }

    /** Selects a pod; the drawer is open exactly when a non-empty pod name is selected. */
    method SelectPod(p: Option<string>)
      modifies this
      ensures Snapshot() == old(Snapshot()).SelectPod(p)
      ensures selectedPod == p && drawerOpen == Truthy(p)
    {
      selectedPod := p;
      drawerOpen := Truthy(p);
    }

    method SetDrawerOpen(open: bool)
      modifies this
      ensures Snapshot() == old(Snapshot()).SetDrawerOpen(open)
    {
      drawerOpen := open;
    }

    method OpenLogViewer(pod: string)
      modifies this
      ensures Snapshot() == old(Snapshot()).OpenLogViewer(pod)
      ensures currentView == Logs && logViewerPod == Some(pod)
    {
      currentView := Logs;
      logViewerPod := Some(pod);
    }

    method CloseLogViewer()
      modifies this
      ensures Snapshot() == old(Snapshot()).CloseLogViewer()
      ensures currentView == Pods && logViewerPod.None?
    {
      currentView := Pods;
      logViewerPod := None;
    }
  }
}
