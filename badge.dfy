/**
 * The badge colour rules: the pod status variant (with the not-fully-ready
 * override for running pods) and the log level variant.
 */
module Badge {
  import opened Wrappers
  import opened Text
  import LogModel
  import Pods

  datatype StatusVariant = SuccessVariant | WarningVariant | ErrorVariant | TerminatingVariant | DefaultVariant

  const ErrorStatuses := ["Failed", "CrashLoopBackOff", "ImagePullBackOff", "ErrImagePull", "Evicted",
                          "UnexpectedAdmissionError", "ContainerStatusUnknown"]

  /**
   * A ready text "r/t" whose first two parts both read as numbers with
   * r < t. Fewer than two parts leave the second undefined, which is not a
   * number; an empty part reads as zero.
   */
  predicate NotFullyReady(ready: Option<string>)
  {
    ready.Some? && ready.value != "" &&
    var parts := Split(ready.value, '/');
    |parts| >= 2 && ToNumber(parts[0]).Some? && ToNumber(parts[1]).Some? &&
    ToNumber(parts[0]).value < ToNumber(parts[1]).value
  }

  /** The colour of a status badge. */
  function StatusVariantOf(status: string, ready: Option<string>): (v: StatusVariant)
    ensures v == TerminatingVariant <==> status == "Terminating"
    ensures v == ErrorVariant <==> status in ErrorStatuses
  {
    if status == "Terminating" then TerminatingVariant
    else if status == "Running" && NotFullyReady(ready) then WarningVariant
    else if status == "Running" || status == "Succeeded" then SuccessVariant
    else if status == "Pending" || status == "ContainerCreating" then WarningVariant
    else if status in ErrorStatuses then ErrorVariant
    else DefaultVariant
  }

  /**
   * A running pod with the ready text the backend formats is amber exactly
   * when fewer containers are ready than the spec declares.
   */
  lemma RunningPodReadiness(ready: nat, total: nat)
    ensures StatusVariantOf("Running", Some(Pods.ReadyString(ready, total))) == if ready < total then WarningVariant else SuccessVariant
  {
    ToNumberOfNatToString(ready);
    ToNumberOfNatToString(total);
  }

  /** A missing or unparsable ready text leaves a running pod green. */
  lemma RunningWithoutUsableReady(ready: Option<string>)
    requires ready.None? || ready == Some("") || (ready.Some? && '/' !in ready.value) ||
             (ready.Some? && !AllDigits(Split(ready.value, '/')[0]))
    ensures StatusVariantOf("Running", ready) == SuccessVariant
  {
    if ready.Some? && '/' !in ready.value {
      SplitNoSeparator(ready.value, '/');
    }
  }

  /** Every status the backend can produce for a pod maps to its colour. */
  lemma PodStatusVariant(pod: Pods.Pod, now: int)
    ensures var info := Pods.PodInfoOf(pod, now);
      var v := StatusVariantOf(info.status, Some(info.ready));
      (pod.deleting ==> v == TerminatingVariant) &&
      (info.status == "ContainerCreating" ==> v == WarningVariant) &&
      (info.status in ErrorStatuses ==> v == ErrorVariant) &&
      (info.status == "Unknown" ==> v == DefaultVariant) &&
      (info.status == "Running" ==> (v == WarningVariant <==> Pods.ReadyCount(pod).0 < Pods.ReadyCount(pod).1))
  {
    var info := Pods.PodInfoOf(pod, now);
    RunningPodReadiness(Pods.ReadyCount(pod).0, Pods.ReadyCount(pod).1);
  }

  datatype LevelVariant = ErrorLevel | WarningLevel | InfoLevel | DebugLevel | Unstyled

  /** The log level badge: nothing for a missing or empty level, a colour for the four known levels. */
  function LevelBadge(level: Option<string>): (r: Option<LevelVariant>)
    ensures r.None? <==> level.None? || level == Some("")
    ensures r.Some? && r.value != Unstyled <==> level.Some? && LogModel.IsCanonicalLevel(level.value)
  {
    if level.None? || level.value == "" then None
    else if level.value == "ERROR" then Some(ErrorLevel)
    else if level.value == "WARN" then Some(WarningLevel)
    else if level.value == "INFO" then Some(InfoLevel)
    else if level.value == "DEBUG" then Some(DebugLevel)
    else Some(Unstyled)
  }
}
