/**
 * The pod detail panel: secret masking in the environment list, the
 * ports and resources lines, and which sections appear.
 */
module PodDetails {
  import opened Wrappers
  import opened Text
  import Pods

  /** The value column of an environment variable: secrets are masked. */
  function EnvValueShown(v: Pods.EnvVar): (shown: string)
    ensures v.source == "Secret" ==> shown == "<secret>"
    ensures v.source != "Secret" ==> shown == v.value
  {
    if v.source == "Secret" then "<secret>" else v.value
  }

  /**
   * No secret reference reaches the screen: every environment entry the
   * backend builds from a secret key, and every secret summary, shows the
   * mask instead of its value.
   */
  lemma SecretsMasked(c: Pods.Container, i: nat)
    requires i < |Pods.EnvVars(c)|
    requires (i < |c.env.GetOr([])| && c.env.GetOr([])[i].valueFrom.Some? &&
              c.env.GetOr([])[i].valueFrom.value.secretKeyRef.Some?) ||
             Pods.EnvVars(c)[i].source == "Secret"
    ensures EnvValueShown(Pods.EnvVars(c)[i]) == "<secret>"
  {
    Pods.EnvVarsLayout(c);
  }

  function PortText(p: Pods.ContainerPort): string
  {
    IntToString(p.containerPort) + "/" + p.protocol
  }

  /** The ports line: each "port/protocol", joined by ", ", and no line without ports. */
  function PortsLine(ports: seq<Pods.ContainerPort>): (line: Option<string>)
    ensures line.Some? <==> |ports| > 0
  {
    if |ports| == 0 then None
    else Some(Join(seq(|ports|, i requires 0 <= i < |ports| => PortText(ports[i])), ", "))
  }

  /** A port declared without a protocol is shown as TCP. */
  lemma DefaultProtocolShown(p: Pods.PortEntry)
    requires p.protocol.None?
    ensures PortsLine([Pods.PortOf(p)]) == Some(IntToString(p.containerPort) + "/TCP")
  {
    var texts := seq(1, i requires 0 <= i < 1 => PortText([Pods.PortOf(p)][i]));
    assert |texts| == 1 && texts[0] == PortText(Pods.PortOf(p));
    assert Pods.PortOf(p).protocol == "TCP";
    assert PortsLine([Pods.PortOf(p)]) == Some(Join(texts, ", "));
    assert Join(texts, ", ") == texts[0];
    assert IntToString(p.containerPort) + "/" + "TCP" == IntToString(p.containerPort) + "/TCP";
  }

  predicate Present(s: Option<string>)
  {
    s.Some? && s.value != ""
  }

  function OrDash(s: Option<string>): (shown: string)
    ensures Present(s) ==> shown == s.value
    ensures !Present(s) ==> shown == "-"
  {
    if Present(s) then s.value else "-"
  }

  /** The resources line: shown iff a cpu or memory request is present, with "-" for each missing value. */
  function ResourcesLine(r: Pods.ResourceRequirements): (line: Option<string>)
    ensures line.Some? <==> Present(r.cpuRequest) || Present(r.memoryRequest)
  {
    if Present(r.cpuRequest) || Present(r.memoryRequest) then
      Some("CPU: " + OrDash(r.cpuRequest) + "/" + OrDash(r.cpuLimit) + " · Mem: " +
           OrDash(r.memoryRequest) + "/" + OrDash(r.memoryLimit))
    else None
  }

  /** Limits alone do not show the line. */
  lemma LimitsAloneHidden(cpuLimit: string, memoryLimit: string)
    ensures ResourcesLine(Pods.ResourceRequirements(None, Some(cpuLimit), None, Some(memoryLimit))).None?
  {
  }

  /** A container without resources declared shows no resources line. */
  lemma NoResourcesNoLine(c: Pods.Container)
    requires c.resources.None?
    ensures ResourcesLine(Pods.ResourcesOf(c.resources)).None?
  {
  }

  datatype Panel = Panel(
    ip: string,
    showsNoLabels: bool,
    containersTitle: string,
    conditionsSection: bool,
    conditionsStartOpen: bool)

  /** The panel's fixed parts: the address or "-", the no-labels note, the containers title, the conditions section. */
  function PanelOf(ip: string, labelCount: nat, containerCount: nat, conditionCount: nat): (p: Panel)
    ensures p.ip == (if ip == "" then "-" else ip)
    ensures p.showsNoLabels <==> labelCount == 0
    ensures p.conditionsSection <==> conditionCount > 0
    ensures !p.conditionsStartOpen
  {
    Panel(if ip == "" then "-" else ip, labelCount == 0,
          "Containers (" + NatToString(containerCount) + ")", conditionCount > 0, false)
  }

  /** A container's environment toggle is shown iff it has variables; the list starts hidden. */
  function EnvToggleShown(c: Pods.ContainerDetails): bool
  {
    |c.envVars| > 0
  }

  const EnvListStartsShown := false
}
