/**
 * The deployment detail panel: its health line, the placeholders for
 * empty maps, and which collapsible sections appear and how they start.
 */
module DeploymentDetails {
  import opened Wrappers
  import opened Text
  import DeploymentList
  import Collapsible

  datatype Condition = Condition(conditionType: string, status: string, reason: Option<string>, message: Option<string>)

  datatype Details = Details(
    name: string,
    replicas: int,
    availableReplicas: int,
    selector: map<string, string>,
    labels: map<string, string>,
    annotations: map<string, string>,
    conditions: seq<Condition>)

  /** The panel's status line uses the same rule as the deployment table. */
  function StatusLabel(d: Details): (shown: string)
    ensures shown == "Healthy" <==> d.availableReplicas == d.replicas
    ensures shown == "Degraded" <==> d.availableReplicas > 0 && d.availableReplicas != d.replicas
    ensures shown == "Unhealthy" <==> d.availableReplicas <= 0 && d.availableReplicas != d.replicas
  {
    DeploymentList.HealthLabel(DeploymentList.HealthOf(d.availableReplicas, d.replicas))
  }

  predicate ShowsNoSelectors(d: Details)
  {
    |d.selector| == 0
  }

  predicate ShowsNoLabels(d: Details)
  {
    |d.labels| == 0
  }

  /** How a collapsible section is first shown. */
  datatype SectionStart = SectionStart(title: string, defaultOpen: bool)

  /** The annotations section: present iff there is an annotation, titled with their count, starting collapsed. */
  function AnnotationsSection(d: Details): (s: Option<SectionStart>)
    ensures s.Some? <==> |d.annotations| > 0
    ensures s.Some? ==> !s.value.defaultOpen && s.value.title == "Annotations (" + NatToString(|d.annotations|) + ")"
  {
    if |d.annotations| > 0 then Some(SectionStart("Annotations (" + NatToString(|d.annotations|) + ")", false)) else None
  }

  /** The conditions section: present iff there is a condition, starting open. */
  function ConditionsSection(d: Details): (s: Option<SectionStart>)
    ensures s.Some? <==> |d.conditions| > 0
    ensures s.Some? ==> s.value.defaultOpen && s.value.title == "Conditions (" + NatToString(|d.conditions|) + ")"
  {
    if |d.conditions| > 0 then Some(SectionStart("Conditions (" + NatToString(|d.conditions|) + ")", true)) else None
  }

  predicate Present(s: Option<string>)
  {
    s.Some? && s.value != ""
  }

  /** The lines of one condition: type and status, then the reason and the message when present and non-empty. */
  function ConditionLines(c: Condition): (lines: seq<string>)
    ensures |lines| == 2 + (if Present(c.reason) then 1 else 0) + (if Present(c.message) then 1 else 0)
    ensures lines[0] == c.conditionType && lines[1] == c.status
    ensures Present(c.reason) ==> lines[2] == "Reason: " + c.reason.value
    ensures Present(c.message) ==> lines[|lines| - 1] == c.message.value
  {
    [c.conditionType, c.status] +
    (if Present(c.reason) then ["Reason: " + c.reason.value] else []) +
    (if Present(c.message) then [c.message.value] else [])
  }

  /**
   * The conditions section, once shown, is open after an even number of
   * header clicks; the annotations section after an odd number.
   */
  lemma SectionsAfterClicks(d: Details, clicks: nat)
    requires |d.annotations| > 0 && |d.conditions| > 0
    ensures Collapsible.OpenAfter(AnnotationsSection(d).value.defaultOpen, clicks) == (clicks % 2 == 1)
    ensures Collapsible.OpenAfter(ConditionsSection(d).value.defaultOpen, clicks) == (clicks % 2 == 0)
  {
    Collapsible.OpenAfterParity(false, clicks);
    Collapsible.OpenAfterParity(true, clicks);
  }
}
