/**
 * The pod projections of the backend: the status string, the ready and
 * restart counts, the age text, and the per-container details with their
 * environment variables, ports and resources.
 */
module Pods {
  import opened Wrappers
  import opened Text

  // ---------------------------------------------------------------------
  // The part of the Kubernetes pod object the projections read
  // ---------------------------------------------------------------------

  datatype ContainerState = ContainerState(
    running: bool,
    waitingReason: Option<Option<string>>,     // `Some(r)` when a waiting state is present, with its optional reason
    terminatedReason: Option<Option<string>>)  // `Some(r)` when a terminated state is present, with its optional reason

  datatype ContainerStatus = ContainerStatus(name: string, ready: bool, restartCount: int, state: Option<ContainerState>)

  datatype PodStatusObject = PodStatusObject(
    phase: Option<string>,
    reason: Option<string>,
    podIp: Option<string>,
    containerStatuses: Option<seq<ContainerStatus>>)

  datatype KeyRef = KeyRef(name: string, key: string)

  datatype EnvVarSource = EnvVarSource(
    secretKeyRef: Option<KeyRef>,
    configMapKeyRef: Option<KeyRef>,
    fieldPath: Option<string>,
    resource: Option<string>)

  datatype EnvEntry = EnvEntry(name: string, value: Option<string>, valueFrom: Option<EnvVarSource>)

  /** An `envFrom` entry: optional prefix, and the names of the referenced config map and secret. */
  datatype EnvFromEntry = EnvFromEntry(prefix: Option<string>, configMapRef: Option<string>, secretRef: Option<string>)

  datatype PortEntry = PortEntry(name: Option<string>, containerPort: int, protocol: Option<string>)

  datatype ResourceEntry = ResourceEntry(requests: Option<map<string, string>>, limits: Option<map<string, string>>)

  datatype Container = Container(
    name: string,
    image: Option<string>,
    env: Option<seq<EnvEntry>>,
    envFrom: Option<seq<EnvFromEntry>>,
    ports: Option<seq<PortEntry>>,
    resources: Option<ResourceEntry>)

  datatype PodSpec = PodSpec(containers: seq<Container>, nodeName: Option<string>)

  /** A pod; `creationTimestamp` is in seconds and `deleting` says whether a deletion timestamp is set. */
  datatype Pod = Pod(
    name: Option<string>,
    namespace: Option<string>,
    deleting: bool,
    creationTimestamp: Option<int>,
    spec: Option<PodSpec>,
    status: Option<PodStatusObject>)

  // ---------------------------------------------------------------------
  // The projected records
  // ---------------------------------------------------------------------

  datatype EnvVar = EnvVar(name: string, value: string, source: string)
  datatype ContainerPort = ContainerPort(name: Option<string>, containerPort: int, protocol: string)
  datatype ResourceRequirements = ResourceRequirements(
    cpuRequest: Option<string>, cpuLimit: Option<string>, memoryRequest: Option<string>, memoryLimit: Option<string>)
  datatype ContainerDetails = ContainerDetails(
    name: string, image: string, ready: bool, restartCount: int, state: string,
    envVars: seq<EnvVar>, ports: seq<ContainerPort>, resources: ResourceRequirements)
  datatype PodInfo = PodInfo(
    name: string, namespace: string, status: string, ready: string, restarts: int,
    age: string, ip: string, node: string, containers: seq<string>)

  // ---------------------------------------------------------------------
  // Pod status
  // ---------------------------------------------------------------------

  predicate IsBlockingWaitingReason(r: string)
  {
    r in ["CrashLoopBackOff", "ImagePullBackOff", "ErrImagePull", "ContainerCreating", "ContainerStatusUnknown"]
  }

  /** The reason one container status contributes to the pod status, if any: a blocking waiting reason first, then an unknown terminated state. */
  function StatusReason(cs: ContainerStatus): Option<string>
  {
    match cs.state
    case None => None
    case Some(st) =>
      if st.waitingReason.Some? && st.waitingReason.value.Some? && IsBlockingWaitingReason(st.waitingReason.value.value)
      then st.waitingReason.value
      else if st.terminatedReason.Some? && st.terminatedReason.value == Some("ContainerStatusUnknown")
      then Some("ContainerStatusUnknown")
      else None
  }

  function FirstReasonFrom(css: seq<ContainerStatus>, from: nat): Option<string>
    decreases |css| - from
  {
    if from >= |css| then None
    else if StatusReason(css[from]).Some? then StatusReason(css[from])
    else FirstReasonFrom(css, from + 1)
  }

  function ContainerStatuses(pod: Pod): seq<ContainerStatus>
  {
    if pod.status.Some? && pod.status.value.containerStatuses.Some? then pod.status.value.containerStatuses.value else []
  }

  /** The status shown for a pod. */
  function PodStatus(pod: Pod): string
  {
    if pod.deleting then "Terminating"
    else
      var first := FirstReasonFrom(ContainerStatuses(pod), 0);
      if first.Some? then first.value
      else if pod.status.Some? && pod.status.value.reason.Some? &&
              pod.status.value.reason.value in ["Evicted", "UnexpectedAdmissionError"]
      then pod.status.value.reason.value
      else if pod.status.Some? && pod.status.value.phase.Some? then pod.status.value.phase.value
      else "Unknown"
  }

  /** Deletion first, then the container statuses in order, then the pod reason, then the phase. */
  method GetPodStatus(pod: Pod) returns (status: string)
    ensures status == PodStatus(pod)
  {
    if pod.deleting {
      return "Terminating";
    }
    if pod.status.Some? && pod.status.value.containerStatuses.Some? {
      var css := pod.status.value.containerStatuses.value;
      for i := 0 to |css|
        invariant FirstReasonFrom(css, 0) == FirstReasonFrom(css, i)
      {
        var reason := StatusReason(css[i]);
        if reason.Some? {
          return reason.value;
        }
      }
    }
    if pod.status.Some? && pod.status.value.reason.Some? {
      var reason := pod.status.value.reason.value;
      if reason == "Evicted" || reason == "UnexpectedAdmissionError" {
        return reason;
      }
    }
    if pod.status.Some? && pod.status.value.phase.Some? {
      return pod.status.value.phase.value;
    }
    return "Unknown";
  }

  lemma {:induction false} FirstReasonFromSpec(css: seq<ContainerStatus>, from: nat, k: nat)
    requires from <= k < |css| && StatusReason(css[k]).Some?
    requires forall j :: from <= j < k ==> StatusReason(css[j]).None?
    ensures FirstReasonFrom(css, from) == StatusReason(css[k])
    decreases k - from
  {
    if from < k {
      FirstReasonFromSpec(css, from + 1, k);
    }
  }

  lemma {:induction false} FirstReasonFromNone(css: seq<ContainerStatus>, from: nat)
    ensures FirstReasonFrom(css, from).None? <==> forall j :: from <= j < |css| ==> StatusReason(css[j]).None?
    decreases |css| - from
  {
    if from < |css| {
      FirstReasonFromNone(css, from + 1);
    }
  }

  /** A pod being deleted is Terminating, whatever its containers report. */
  lemma DeletionWins(pod: Pod)
    requires pod.deleting
    ensures PodStatus(pod) == "Terminating"
  {
  }

  /** Otherwise the first container status, in order, with a blocking reason supplies the status. */
  lemma FirstBlockingContainerWins(pod: Pod, k: nat)
    requires !pod.deleting
    requires k < |ContainerStatuses(pod)| && StatusReason(ContainerStatuses(pod)[k]).Some?
    requires forall j :: 0 <= j < k ==> StatusReason(ContainerStatuses(pod)[j]).None?
    ensures PodStatus(pod) == StatusReason(ContainerStatuses(pod)[k]).value
  {
    FirstReasonFromSpec(ContainerStatuses(pod), 0, k);
  }

  /** With no blocking container, an eviction reason beats the phase, and a missing phase reads "Unknown". */
  lemma FallbackOrder(pod: Pod)
    requires !pod.deleting
    requires forall j :: 0 <= j < |ContainerStatuses(pod)| ==> StatusReason(ContainerStatuses(pod)[j]).None?
    ensures pod.status.Some? && pod.status.value.reason in {Some("Evicted"), Some("UnexpectedAdmissionError")} ==>
      PodStatus(pod) == pod.status.value.reason.value
    ensures pod.status.None? ==> PodStatus(pod) == "Unknown"
    ensures pod.status.Some? && pod.status.value.reason !in {Some("Evicted"), Some("UnexpectedAdmissionError")} ==>
      PodStatus(pod) == pod.status.value.phase.GetOr("Unknown")
  {
    FirstReasonFromNone(ContainerStatuses(pod), 0);
  }

  lemma {:induction false} FirstReasonFromKind(css: seq<ContainerStatus>, from: nat)
    ensures FirstReasonFrom(css, from).Some? ==> IsBlockingWaitingReason(FirstReasonFrom(css, from).value)
    decreases |css| - from
  {
    if from < |css| {
      FirstReasonFromKind(css, from + 1);
    }
  }

  /** The status is Terminating, a blocking container reason, an eviction reason, the phase, or "Unknown". */
  lemma PodStatusKinds(pod: Pod)
    ensures var s := PodStatus(pod);
      s == "Terminating" || IsBlockingWaitingReason(s) || s == "Evicted" || s == "UnexpectedAdmissionError" ||
      s == "Unknown" || (pod.status.Some? && pod.status.value.phase == Some(s))
  {
    FirstReasonFromKind(ContainerStatuses(pod), 0);
  }

  // ---------------------------------------------------------------------
  // Ready and restart counts
  // ---------------------------------------------------------------------

  function CountReady(css: seq<ContainerStatus>): (n: nat)
    ensures n <= |css|
  {
    if |css| == 0 then 0 else CountReady(css[..|css| - 1]) + (if css[|css| - 1].ready then 1 else 0)
  }

  /** `(ready, total)`: statuses reporting ready, and containers in the spec. */
  function ReadyCount(pod: Pod): (nat, nat)
  {
    (CountReady(ContainerStatuses(pod)), if pod.spec.Some? then |pod.spec.value.containers| else 0)
  }

  function SumRestarts(css: seq<ContainerStatus>): int
  {
    if |css| == 0 then 0 else SumRestarts(css[..|css| - 1]) + css[|css| - 1].restartCount
  }

  function RestartCount(pod: Pod): int
  {
    SumRestarts(ContainerStatuses(pod))
  }

  lemma {:induction false} CountReadyAppend(a: seq<ContainerStatus>, b: seq<ContainerStatus>)
    ensures CountReady(a + b) == CountReady(a) + CountReady(b)
    decreases |b|
  {
    if |b| > 0 {
      CountReadyAppend(a, b[..|b| - 1]);
      assert (a + b)[..|a + b| - 1] == a + b[..|b| - 1];
    } else {
      assert a + b == a;
    }
  }

  lemma {:induction false} SumRestartsAppend(a: seq<ContainerStatus>, b: seq<ContainerStatus>)
    ensures SumRestarts(a + b) == SumRestarts(a) + SumRestarts(b)
    decreases |b|
  {
    if |b| > 0 {
      SumRestartsAppend(a, b[..|b| - 1]);
      assert (a + b)[..|a + b| - 1] == a + b[..|b| - 1];
    } else {
      assert a + b == a;
    }
  }

  /** Every container status counts once: a ready container adds one, each restart count adds itself. */
  lemma CountsPerStatus(css: seq<ContainerStatus>, cs: ContainerStatus)
    ensures CountReady(css + [cs]) == CountReady(css) + (if cs.ready then 1 else 0)
    ensures SumRestarts(css + [cs]) == SumRestarts(css) + cs.restartCount
    ensures CountReady(css) == |css| <==> forall j :: 0 <= j < |css| ==> css[j].ready
  {
    assert (css + [cs])[..|css|] == css;
    AllReadyIff(css);
  }

  lemma {:induction false} AllReadyIff(css: seq<ContainerStatus>)
    ensures CountReady(css) == |css| <==> forall j :: 0 <= j < |css| ==> css[j].ready
    decreases |css|
  {
    if |css| > 0 {
      var init := css[..|css| - 1];
      AllReadyIff(init);
      assert forall j :: 0 <= j < |init| ==> init[j] == css[j];
    }
  }

  /** Restarts never go negative when the counts do not. */
  lemma {:induction false} RestartsNonNegative(css: seq<ContainerStatus>)
    requires forall j :: 0 <= j < |css| ==> css[j].restartCount >= 0
    ensures SumRestarts(css) >= 0
    decreases |css|
  {
    if |css| > 0 {
      RestartsNonNegative(css[..|css| - 1]);
    }
  }

  /** The ready column: "r/t". */
  function ReadyString(ready: nat, total: nat): (r: string)
    ensures Split(r, '/') == [NatToString(ready), NatToString(total)]
  {
    NatToStringHasNoChar(ready, '/');
    NatToStringHasNoChar(total, '/');
    SplitJoin([NatToString(ready), NatToString(total)], '/');
    NatToString(ready) + "/" + NatToString(total)
  }

  // ---------------------------------------------------------------------
  // Age
  // ---------------------------------------------------------------------

  /** Integer division truncating toward zero, as the duration accessors do. */
  function TruncDiv(a: int, b: int): (q: int)
    requires b > 0
    ensures a >= 0 ==> q == a / b
    ensures a < 0 ==> q == -((-a) / b)
  {
    if a >= 0 then a / b else -((-a) / b)
  }

  const SecondsPerMinute := 60
  const SecondsPerHour := 3600
  const SecondsPerDay := 86400

  /** The age text for a signed duration in seconds: the largest unit with a positive count, else seconds. */
  function AgeText(seconds: int): string
  {
    if TruncDiv(seconds, SecondsPerDay) > 0 then IntToString(TruncDiv(seconds, SecondsPerDay)) + "d"
    else if TruncDiv(seconds, SecondsPerHour) > 0 then IntToString(TruncDiv(seconds, SecondsPerHour)) + "h"
    else if TruncDiv(seconds, SecondsPerMinute) > 0 then IntToString(TruncDiv(seconds, SecondsPerMinute)) + "m"
    else IntToString(seconds) + "s"
  }

  /** The age of a pod at time `now`; a pod without a creation time is zero seconds old. */
  function Age(pod: Pod, now: int): string
  {
    AgeText(now - pod.creationTimestamp.GetOr(now))
  }

  /** The unit size for each age suffix. */
  function UnitSeconds(suffix: char): nat
  {
    if suffix == 'd' then SecondsPerDay
    else if suffix == 'h' then SecondsPerHour
    else if suffix == 'm' then SecondsPerMinute
    else 1
  }

  /**
   * For a non-negative duration the text is a count and a unit suffix;
   * reading the count back and multiplying by the unit brackets the
   * duration, and the unit is the largest one the duration reaches.
   */
  lemma AgeTextReadsBack(seconds: nat)
    ensures var t := AgeText(seconds);
      |t| >= 2 && t[|t| - 1] in "dhms" &&
      var u := UnitSeconds(t[|t| - 1]);
      ToNumber(t[..|t| - 1]).Some? &&
      var n := ToNumber(t[..|t| - 1]).value;
      n * u <= seconds < (n + 1) * u &&
      (seconds >= SecondsPerDay ==> t[|t| - 1] == 'd') &&
      (SecondsPerHour <= seconds < SecondsPerDay ==> t[|t| - 1] == 'h') &&
      (SecondsPerMinute <= seconds < SecondsPerHour ==> t[|t| - 1] == 'm') &&
      (seconds < SecondsPerMinute ==> t[|t| - 1] == 's')
  {
    var t := AgeText(seconds);
    var u: nat, n: nat, c: char;
    if seconds >= SecondsPerDay {
      u, n, c := SecondsPerDay, seconds / SecondsPerDay, 'd';
    } else if seconds >= SecondsPerHour {
      u, n, c := SecondsPerHour, seconds / SecondsPerHour, 'h';
    } else if seconds >= SecondsPerMinute {
      u, n, c := SecondsPerMinute, seconds / SecondsPerMinute, 'm';
    } else {
      u, n, c := 1, seconds, 's';
    }
    assert t == NatToString(n) + [c];
    assert t[..|t| - 1] == NatToString(n);
    ToNumberOfNatToString(n);
  }

  /** A creation time in the future gives a negative count of seconds. */
  lemma FutureCreationShowsNegativeSeconds(seconds: int)
    requires seconds < 0
    ensures AgeText(seconds) == IntToString(seconds) + "s"
  {
  }

  // ---------------------------------------------------------------------
  // Container details
  // ---------------------------------------------------------------------

  /** Container statuses by name; a later status with the same name replaces an earlier one. */
  function StatusByName(css: seq<ContainerStatus>): map<string, ContainerStatus>
  {
    if |css| == 0 then map[] else StatusByName(css[..|css| - 1])[css[|css| - 1].name := css[|css| - 1]]
  }

  /** The status found for a name is the last one in the list with that name, and there is one iff some status has it. */
  lemma {:induction false} StatusByNameLast(css: seq<ContainerStatus>, name: string)
    ensures name in StatusByName(css) <==> exists j :: 0 <= j < |css| && css[j].name == name
    ensures forall j :: (0 <= j < |css| && css[j].name == name &&
      (forall k :: j < k < |css| ==> css[k].name != name)) ==> StatusByName(css)[name] == css[j]
    decreases |css|
  {
    if |css| > 0 {
      var init := css[..|css| - 1];
      StatusByNameLast(init, name);
      if css[|css| - 1].name != name {
        assert forall j :: 0 <= j < |init| ==> init[j] == css[j];
        forall j | 0 <= j < |css| && css[j].name == name && (forall k :: j < k < |css| ==> css[k].name != name)
          ensures StatusByName(css)[name] == css[j]
        {
          assert j < |init|;
          assert forall k :: j < k < |init| ==> init[k].name != name;
        }
      }
    }
  }

  /** The state column of a container. */
  function StateText(cs: Option<ContainerStatus>): string
  {
    if cs.None? || cs.value.state.None? then "Unknown"
    else
      var st := cs.value.state.value;
      if st.running then "Running"
      else if st.waitingReason.Some? then st.waitingReason.value.GetOr("Waiting")
      else if st.terminatedReason.Some? then st.terminatedReason.value.GetOr("Terminated")
      else "Unknown"
  }

  /** The source tag and value of one `env` entry, by the first reference kind present. */
  function EnvEntryVar(e: EnvEntry): (v: EnvVar)
    ensures v.name == e.name
    ensures v.source == "Secret" <==> e.valueFrom.Some? && e.valueFrom.value.secretKeyRef.Some?
    ensures v.source == "Direct" <==> e.valueFrom.None?
    ensures v.source in ["Secret", "ConfigMap", "FieldRef", "ResourceRef", "Reference", "Direct"]
  {
    match e.valueFrom
    case Some(vf) =>
      if vf.secretKeyRef.Some? then EnvVar(e.name, vf.secretKeyRef.value.name + ":" + vf.secretKeyRef.value.key, "Secret")
      else if vf.configMapKeyRef.Some? then EnvVar(e.name, vf.configMapKeyRef.value.name + ":" + vf.configMapKeyRef.value.key, "ConfigMap")
      else if vf.fieldPath.Some? then EnvVar(e.name, vf.fieldPath.value, "FieldRef")
      else if vf.resource.Some? then EnvVar(e.name, vf.resource.value, "ResourceRef")
      else EnvVar(e.name, "", "Reference")
    case None => EnvVar(e.name, e.value.GetOr(""), "Direct")
  }

  function EnvEntryVars(envs: seq<EnvEntry>): (r: seq<EnvVar>)
    ensures |r| == |envs| && forall i :: 0 <= i < |envs| ==> r[i] == EnvEntryVar(envs[i])
  {
    seq(|envs|, i requires 0 <= i < |envs| => EnvEntryVar(envs[i]))
  }

  /** The summary entries one `envFrom` entry contributes: its config map first, then its secret. */
  function EnvFromVars(ef: EnvFromEntry): (r: seq<EnvVar>)
    ensures |r| == (if ef.configMapRef.Some? then 1 else 0) + (if ef.secretRef.Some? then 1 else 0)
    ensures forall v :: v in r ==> v.name == ef.prefix.GetOr("") + "* (all keys)"
  {
    (if ef.configMapRef.Some?
     then [EnvVar(ef.prefix.GetOr("") + "* (all keys)", "from ConfigMap: " + ef.configMapRef.value, "ConfigMap")]
     else []) +
    (if ef.secretRef.Some?
     then [EnvVar(ef.prefix.GetOr("") + "* (all keys)", "from Secret: " + ef.secretRef.value, "Secret")]
     else [])
  }

  function EnvFromAll(efs: seq<EnvFromEntry>): seq<EnvVar>
  {
    if |efs| == 0 then [] else EnvFromAll(efs[..|efs| - 1]) + EnvFromVars(efs[|efs| - 1])
  }

  /** The environment list of a container: its `env` entries in order, then the `envFrom` summaries. */
  function EnvVars(c: Container): seq<EnvVar>
  {
    EnvEntryVars(c.env.GetOr([])) + EnvFromAll(c.envFrom.GetOr([]))
  }

  /** Builds the environment list, appending one or two summary entries per `envFrom` entry. */
  method CollectEnvVars(c: Container) returns (envVars: seq<EnvVar>)
    ensures envVars == EnvVars(c)
  {
    envVars := EnvEntryVars(c.env.GetOr([]));
    if c.envFrom.Some? {
      var efs := c.envFrom.value;
      for i := 0 to |efs|
        invariant envVars == EnvEntryVars(c.env.GetOr([])) + EnvFromAll(efs[..i])
      {
        assert efs[..i + 1][..i] == efs[..i];
        var ef := efs[i];
        if ef.configMapRef.Some? {
          var prefix := ef.prefix.GetOr("");
          envVars := envVars + [EnvVar(prefix + "* (all keys)", "from ConfigMap: " + ef.configMapRef.value, "ConfigMap")];
        }
        if ef.secretRef.Some? {
          var prefix := ef.prefix.GetOr("");
          envVars := envVars + [EnvVar(prefix + "* (all keys)", "from Secret: " + ef.secretRef.value, "Secret")];
        }
      }
      assert efs[..|efs|] == efs;
    }
  }

  lemma {:induction false} EnvFromAllShape(efs: seq<EnvFromEntry>)
    ensures forall v :: v in EnvFromAll(efs) ==> EndsWith(v.name, "* (all keys)") && v.source in ["ConfigMap", "Secret"]
    decreases |efs|
  {
    if |efs| > 0 {
      EnvFromAllShape(efs[..|efs| - 1]);
    }
  }

  /**
   * The `env` entries come first, one per entry and with its name; every
   * later entry is an "(all keys)" summary from a config map or a secret.
   */
  lemma EnvVarsLayout(c: Container)
    ensures var env := c.env.GetOr([]);
      |EnvVars(c)| >= |env| &&
      (forall i :: 0 <= i < |env| ==> EnvVars(c)[i] == EnvEntryVar(env[i])) &&
      (forall i :: |env| <= i < |EnvVars(c)| ==>
        EndsWith(EnvVars(c)[i].name, "* (all keys)") && EnvVars(c)[i].source in ["ConfigMap", "Secret"])
  {
    var env := c.env.GetOr([]);
    var tail := EnvFromAll(c.envFrom.GetOr([]));
    EnvFromAllShape(c.envFrom.GetOr([]));
    forall i | |env| <= i < |EnvVars(c)|
      ensures EndsWith(EnvVars(c)[i].name, "* (all keys)") && EnvVars(c)[i].source in ["ConfigMap", "Secret"]
    {
      assert EnvVars(c)[i] == tail[i - |env|];
      assert tail[i - |env|] in tail;
    }
  }

  function PortOf(p: PortEntry): (r: ContainerPort)
    ensures r.protocol == (if p.protocol.Some? then p.protocol.value else "TCP")
    ensures r.containerPort == p.containerPort && r.name == p.name
  {
    ContainerPort(p.name, p.containerPort, p.protocol.GetOr("TCP"))
  }

  function Lookup(m: Option<map<string, string>>, key: string): Option<string>
  {
    if m.Some? && key in m.value then Some(m.value[key]) else None
  }

  function ResourcesOf(r: Option<ResourceEntry>): ResourceRequirements
  {
    match r
    case None => ResourceRequirements(None, None, None, None)
    case Some(re) =>
      ResourceRequirements(Lookup(re.requests, "cpu"), Lookup(re.limits, "cpu"),
                           Lookup(re.requests, "memory"), Lookup(re.limits, "memory"))
  }

  function ContainerDetail(c: Container, statuses: map<string, ContainerStatus>): ContainerDetails
  {
    var cs := if c.name in statuses then Some(statuses[c.name]) else None;
    ContainerDetails(
      c.name,
      c.image.GetOr(""),
      if cs.Some? then cs.value.ready else false,
      if cs.Some? then cs.value.restartCount else 0,
      StateText(cs),
      EnvVars(c),
      seq(|c.ports.GetOr([])|, i requires 0 <= i < |c.ports.GetOr([])| => PortOf(c.ports.GetOr([])[i])),
      ResourcesOf(c.resources))
  }

  /** One record per spec container, in spec order; none without a spec. */
  function ContainerDetailsOf(pod: Pod): (r: seq<ContainerDetails>)
    ensures pod.spec.None? ==> r == []
    ensures pod.spec.Some? ==> (|r| == |pod.spec.value.containers| &&
      forall i :: 0 <= i < |r| ==> r[i].name == pod.spec.value.containers[i].name)
  {
    match pod.spec
    case None => []
    case Some(spec) =>
      var statuses := StatusByName(ContainerStatuses(pod));
      seq(|spec.containers|, i requires 0 <= i < |spec.containers| => ContainerDetail(spec.containers[i], statuses))
  }

  /** A container without a status of its name is not ready, has no restarts and an Unknown state. */
  lemma UnmatchedContainerDefaults(pod: Pod, i: nat)
    requires pod.spec.Some? && i < |pod.spec.value.containers|
    requires forall j :: 0 <= j < |ContainerStatuses(pod)| ==> ContainerStatuses(pod)[j].name != pod.spec.value.containers[i].name
    ensures var d := ContainerDetailsOf(pod)[i]; !d.ready && d.restartCount == 0 && d.state == "Unknown"
  {
    StatusByNameLast(ContainerStatuses(pod), pod.spec.value.containers[i].name);
  }

  /** A container takes ready flag, restarts and state from the last status of its name. */
  lemma MatchedContainerUsesLastStatus(pod: Pod, i: nat, j: nat)
    requires pod.spec.Some? && i < |pod.spec.value.containers|
    requires j < |ContainerStatuses(pod)| && ContainerStatuses(pod)[j].name == pod.spec.value.containers[i].name
    requires forall k :: j < k < |ContainerStatuses(pod)| ==> ContainerStatuses(pod)[k].name != pod.spec.value.containers[i].name
    ensures var d := ContainerDetailsOf(pod)[i];
      var cs := ContainerStatuses(pod)[j];
      d.ready == cs.ready && d.restartCount == cs.restartCount && d.state == StateText(Some(cs))
  {
    StatusByNameLast(ContainerStatuses(pod), pod.spec.value.containers[i].name);
  }

  // ---------------------------------------------------------------------
  // The pod list row
  // ---------------------------------------------------------------------

  function PodInfoOf(pod: Pod, now: int): (info: PodInfo)
    ensures info.status == PodStatus(pod)
    ensures Split(info.ready, '/') == [NatToString(ReadyCount(pod).0), NatToString(ReadyCount(pod).1)]
    ensures pod.spec.Some? ==> |info.containers| == |pod.spec.value.containers|
  {
    PodInfo(
      pod.name.GetOr(""),
      pod.namespace.GetOr(""),
      PodStatus(pod),
      ReadyString(ReadyCount(pod).0, ReadyCount(pod).1),
      RestartCount(pod),
      Age(pod, now),
      if pod.status.Some? then pod.status.value.podIp.GetOr("") else "",
      if pod.spec.Some? then pod.spec.value.nodeName.GetOr("") else "",
      if pod.spec.Some? then seq(|pod.spec.value.containers|, i requires 0 <= i < |pod.spec.value.containers| => pod.spec.value.containers[i].name) else [])
  }
}
