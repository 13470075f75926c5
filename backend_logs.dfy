/**
 * The backend log pipeline: splitting a kubelet timestamp off a log line,
 * recognising JSON and plain-text lines, level normalisation and
 * detection, and the keyword/level search across a deployment's pods.
 */
module BackendLogs {
  import opened Wrappers
  import opened Text
  import opened LogModel

  // ---------------------------------------------------------------------
  // Timestamps
  // ---------------------------------------------------------------------

  /** The loose date-time test applied to the text before the first space. */
  predicate LooksLikeTimestamp(ts: string)
  {
    'T' in ts && (EndsWith(ts, "Z") || '+' in ts)
  }

  /** The outer shape test: longer than 30 characters, with `-` at positions 4 and 7. */
  predicate HasDateShape(line: string)
  {
    |line| > 30 && line[4] == '-' && line[7] == '-'
  }

  /** Index of the first space in `s`, or -1. */
  function FirstSpace(s: string): int
  {
    IndexOf(s, " ")
  }

  lemma FirstSpaceFacts(s: string)
    ensures FirstSpace(s) == -1 || 0 <= FirstSpace(s) < |s|
    ensures FirstSpace(s) >= 0 ==> s[FirstSpace(s)] == ' ' && ' ' !in s[..FirstSpace(s)]
    ensures FirstSpace(s) == -1 ==> ' ' !in s
  {
    IndexOfChar(s, ' ');
  }

  /**
   * Splits a kubelet timestamp off the front of a line: `(Some(ts), rest)`
   * when the line has the date shape and the text before its first space
   * looks like a timestamp, `(None, line)` otherwise.
   */
  function ExtractTimestamp(line: string): (r: (Option<string>, string))
    ensures r.0.None? ==> r.1 == line
    ensures r.0.Some? ==>
      HasDateShape(line) && r.0.value + " " + r.1 == line &&
      ' ' !in r.0.value && LooksLikeTimestamp(r.0.value)
  {
    if HasDateShape(line) then
      var k := FirstSpace(line);
      FirstSpaceFacts(line);
      if k >= 0 then
        var ts := line[..k];
        if LooksLikeTimestamp(ts) then
          assert ts + " " + line[k + 1..] == line;
          (Some(ts), line[k + 1..])
        else (None, line)
      else (None, line)
    else (None, line)
  }

  /** Any decomposition `ts + " " + rest` of a date-shaped line whose `ts` has no space is the one found. */
  lemma ExtractTimestampFindsPrefix(ts: string, rest: string)
    requires ' ' !in ts
    requires LooksLikeTimestamp(ts)
    requires HasDateShape(ts + " " + rest)
    ensures ExtractTimestamp(ts + " " + rest) == (Some(ts), rest)
  {
    var line := ts + " " + rest;
    FirstSpaceFacts(line);
    assert OccursAt(line, " ", |ts|);
    var k := FirstSpace(line);
    assert line[..k] == ts;
    assert line[k + 1..] == rest;
  }

  /** A line whose leading word fails the date-time test comes back whole, with no timestamp. */
  lemma ExtractTimestampRejects(ts: string, rest: string)
    requires ' ' !in ts
    requires !LooksLikeTimestamp(ts)
    ensures ExtractTimestamp(ts + " " + rest) == (None, ts + " " + rest)
  {
    var line := ts + " " + rest;
    FirstSpaceFacts(line);
    assert OccursAt(line, " ", |ts|);
    var k := FirstSpace(line);
    assert line[..k] == ts;
  }

  // ---------------------------------------------------------------------
  // Levels
  // ---------------------------------------------------------------------

  /** Upper-cases a level and folds the common aliases into the four canonical levels. */
  function NormalizeLogLevel(level: string): (r: string)
    ensures Upper(r) == r
    ensures IsCanonicalLevel(r) || r == Upper(level)
  {
    var upper := Upper(level);
    UpperIdempotent(level);
    if upper in {"ERROR", "ERR", "FATAL", "CRITICAL", "CRIT"} then "ERROR"
    else if upper in {"WARN", "WARNING"} then "WARN"
    else if upper in {"INFO", "INFORMATION"} then "INFO"
    else if upper in {"DEBUG", "TRACE", "VERBOSE"} then "DEBUG"
    else upper
  }

  lemma NormalizeLogLevelIdempotent(level: string)
    ensures NormalizeLogLevel(NormalizeLogLevel(level)) == NormalizeLogLevel(level)
  {
    var r := NormalizeLogLevel(level);
    UpperIdempotent(level);
    assert Upper("ERROR") == "ERROR" && Upper("WARN") == "WARN";
    assert Upper("INFO") == "INFO" && Upper("DEBUG") == "DEBUG";
  }

  /** Normalisation ignores case: two spellings that upper-case alike normalise alike. */
  lemma NormalizeLogLevelIgnoresCase(a: string, b: string)
    requires Upper(a) == Upper(b)
    ensures NormalizeLogLevel(a) == NormalizeLogLevel(b)
  {
  }

  /**
   * The alias table on every input: each group of upper-cased aliases folds
   * into its canonical level, and any other word comes back upper-cased.
   */
  lemma NormalizeLogLevelByGroup(level: string)
    ensures Upper(level) in {"ERROR", "ERR", "FATAL", "CRITICAL", "CRIT"} ==> NormalizeLogLevel(level) == "ERROR"
    ensures Upper(level) in {"WARN", "WARNING"} ==> NormalizeLogLevel(level) == "WARN"
    ensures Upper(level) in {"INFO", "INFORMATION"} ==> NormalizeLogLevel(level) == "INFO"
    ensures Upper(level) in {"DEBUG", "TRACE", "VERBOSE"} ==> NormalizeLogLevel(level) == "DEBUG"
    ensures Upper(level) !in {"ERROR", "ERR", "FATAL", "CRITICAL", "CRIT", "WARN", "WARNING",
                              "INFO", "INFORMATION", "DEBUG", "TRACE", "VERBOSE"} ==>
      NormalizeLogLevel(level) == Upper(level)
  {
  }

  /** The alias table, spelled out on lower-case inputs. */
  lemma NormalizeLogLevelAliases()
    ensures NormalizeLogLevel("err") == "ERROR" && NormalizeLogLevel("fatal") == "ERROR"
    ensures NormalizeLogLevel("critical") == "ERROR" && NormalizeLogLevel("crit") == "ERROR"
    ensures NormalizeLogLevel("warning") == "WARN" && NormalizeLogLevel("information") == "INFO"
    ensures NormalizeLogLevel("trace") == "DEBUG" && NormalizeLogLevel("verbose") == "DEBUG"
    ensures NormalizeLogLevel("notice") == "NOTICE"
  {
    assert Upper("err") == "ERR";
    assert Upper("fatal") == "FATAL";
    assert Upper("critical") == "CRITICAL";
    assert Upper("crit") == "CRIT";
    assert Upper("warning") == "WARNING";
    assert Upper("information") == "INFORMATION";
    assert Upper("trace") == "TRACE";
    assert Upper("verbose") == "VERBOSE";
    assert Upper("notice") == "NOTICE";
  }

  /** The ordered pattern table scanned by level detection: (needle in upper-cased text, level). */
  const Patterns: seq<(string, string)> := [
    ("[ERROR]", "ERROR"), ("[ERR]", "ERROR"), ("ERROR:", "ERROR"), ("ERROR ", "ERROR"),
    (" ERROR ", "ERROR"), ("FATAL:", "ERROR"), ("[FATAL]", "ERROR"),
    ("[WARN]", "WARN"), ("[WARNING]", "WARN"), ("WARN:", "WARN"), ("WARNING:", "WARN"),
    (" WARN ", "WARN"),
    ("[INFO]", "INFO"), ("INFO:", "INFO"), (" INFO ", "INFO"),
    ("[DEBUG]", "DEBUG"), ("DEBUG:", "DEBUG"), (" DEBUG ", "DEBUG"), ("[TRACE]", "DEBUG")
  ]

  /** The number of leading patterns that yield ERROR. */
  const ErrorPatternCount := 7

  /** The level of the first pattern at or after `from` that occurs in `upper`. */
  function FirstMatchFrom(upper: string, from: nat): Option<string>
    decreases |Patterns| - from
  {
    if from >= |Patterns| then None
    else if Contains(upper, Patterns[from].0) then Some(Patterns[from].1)
    else FirstMatchFrom(upper, from + 1)
  }

  /** The level detected in plain-text content. */
  function DetectedLevel(content: string): Option<string>
  {
    FirstMatchFrom(Upper(content), 0)
  }

  /** Scans the pattern table in order and returns the level of the first pattern found. */
  method DetectLogLevel(content: string) returns (level: Option<string>)
    ensures level == DetectedLevel(content)
  {
    var upper := Upper(content);
    for k := 0 to |Patterns|
      invariant FirstMatchFrom(upper, 0) == FirstMatchFrom(upper, k)
    {
      if Contains(upper, Patterns[k].0) {
        return Some(Patterns[k].1);
      }
    }
    return None;
  }

  lemma {:induction false} FirstMatchFromSpec(upper: string, from: nat, k: nat)
    requires from <= k < |Patterns|
    requires Contains(upper, Patterns[k].0)
    requires forall j :: from <= j < k ==> !Contains(upper, Patterns[j].0)
    ensures FirstMatchFrom(upper, from) == Some(Patterns[k].1)
    decreases k - from
  {
    if from < k {
      FirstMatchFromSpec(upper, from + 1, k);
    }
  }

  lemma {:induction false} FirstMatchFromNone(upper: string, from: nat)
    ensures FirstMatchFrom(upper, from).None? <==>
      forall j :: from <= j < |Patterns| ==> !Contains(upper, Patterns[j].0)
    decreases |Patterns| - from
  {
    if from < |Patterns| {
      FirstMatchFromNone(upper, from + 1);
    }
  }

  lemma {:induction false} FirstMatchFromCanonical(upper: string, from: nat)
    ensures FirstMatchFrom(upper, from).Some? ==> IsCanonicalLevel(FirstMatchFrom(upper, from).value)
    decreases |Patterns| - from
  {
    if from < |Patterns| {
      FirstMatchFromCanonical(upper, from + 1);
    }
  }

  /** The first pattern, in table order, that occurs in the upper-cased content decides the level. */
  lemma DetectedLevelIsFirstMatch(content: string, k: nat)
    requires k < |Patterns|
    requires Contains(Upper(content), Patterns[k].0)
    requires forall j :: 0 <= j < k ==> !Contains(Upper(content), Patterns[j].0)
    ensures DetectedLevel(content) == Some(Patterns[k].1)
  {
    FirstMatchFromSpec(Upper(content), 0, k);
  }

  /** No level is detected exactly when no pattern occurs. */
  lemma DetectedLevelNone(content: string)
    ensures DetectedLevel(content).None? <==>
      forall j :: 0 <= j < |Patterns| ==> !Contains(Upper(content), Patterns[j].0)
  {
    FirstMatchFromNone(Upper(content), 0);
  }

  /** A detected level is always one of the four canonical levels. */
  lemma DetectedLevelCanonical(content: string)
    ensures DetectedLevel(content).Some? ==> IsCanonicalLevel(DetectedLevel(content).value)
  {
    FirstMatchFromCanonical(Upper(content), 0);
  }

  lemma {:induction false} ErrorPatternWinsFrom(upper: string, from: nat, k: nat)
    requires from <= k < ErrorPatternCount
    requires Contains(upper, Patterns[k].0)
    ensures FirstMatchFrom(upper, from) == Some("ERROR")
    decreases k - from
  {
    if from < k && !Contains(upper, Patterns[from].0) {
      ErrorPatternWinsFrom(upper, from + 1, k);
    }
  }

  /** Any ERROR pattern in the content beats every WARN, INFO and DEBUG pattern. */
  lemma ErrorPatternWins(content: string, k: nat)
    requires k < ErrorPatternCount
    requires Contains(Upper(content), Patterns[k].0)
    ensures DetectedLevel(content) == Some("ERROR")
  {
    ErrorPatternWinsFrom(Upper(content), 0, k);
  }

  // ---------------------------------------------------------------------
  // JSON and plain lines
  // ---------------------------------------------------------------------

  /** A JSON field value, as far as the parser looks at it: a string or something else. */
  datatype JsonValue = JString(s: string) | JNonString

  /** A parsed JSON document: an object with its fields, or any other JSON value. */
  datatype Json = JObject(fields: map<string, JsonValue>) | JNonObject

  /** The JSON text parser (`serde_json::from_str`): `None` when the text is not JSON. */
  type JsonParser = string -> Option<Json>

  function Get(json: Json, key: string): Option<JsonValue>
  {
    match json
    case JObject(fields) => if key in fields then Some(fields[key]) else None
    case JNonObject => None
  }

  /** The position of the first key at or after `from` that is present in `json`, or `|keys|`. */
  function FirstPresentIndex(json: Json, keys: seq<string>, from: nat): (i: nat)
    requires from <= |keys|
    ensures from <= i <= |keys|
    ensures i < |keys| ==> Get(json, keys[i]).Some?
    ensures forall j :: from <= j < i ==> Get(json, keys[j]).None?
    decreases |keys| - from
  {
    if from == |keys| || Get(json, keys[from]).Some? then from
    else FirstPresentIndex(json, keys, from + 1)
  }

  /** The value of the first key, in order, that is present: an `or_else` chain of lookups. */
  function FirstPresent(json: Json, keys: seq<string>): (r: Option<JsonValue>)
    ensures r.None? <==> forall i :: 0 <= i < |keys| ==> Get(json, keys[i]).None?
    ensures r.Some? ==>
      exists i :: 0 <= i < |keys| && Get(json, keys[i]) == r && (forall j :: 0 <= j < i ==> Get(json, keys[j]).None?)
  {
    var i := FirstPresentIndex(json, keys, 0);
    if i < |keys| then Get(json, keys[i]) else None
  }

  /** The index search stops at the first present key. */
  lemma {:induction false} FirstPresentIndexAt(json: Json, keys: seq<string>, from: nat, i: nat)
    requires from <= i < |keys|
    requires forall j :: from <= j < i ==> Get(json, keys[j]).None?
    requires Get(json, keys[i]).Some?
    ensures FirstPresentIndex(json, keys, from) == i
    decreases i - from
  {
    if from < i {
      FirstPresentIndexAt(json, keys, from + 1, i);
    }
  }

  /** When key `i` is the first present one, the chain yields its value. */
  lemma FirstPresentAt(json: Json, keys: seq<string>, i: nat)
    requires i < |keys|
    requires forall j :: 0 <= j < i ==> Get(json, keys[j]).None?
    requires Get(json, keys[i]).Some?
    ensures FirstPresent(json, keys) == Get(json, keys[i])
  {
    FirstPresentIndexAt(json, keys, 0, i);
  }

  /**
   * The string under the first present key; `None` when that value is not
   * a string, even if a later key holds one (`and_then(as_str)` runs after
   * the `or_else` chain).
   */
  function FirstString(json: Json, keys: seq<string>): Option<string>
  {
    match FirstPresent(json, keys)
    case Some(JString(s)) => Some(s)
    case _ => None
  }

  const LevelKeys := ["level", "severity", "log_level", "lvl"]
  const MessageKeys := ["message", "msg", "log"]
  const TimestampKeys := ["timestamp", "time", "ts", "@timestamp"]

  /** An entry for a line whose remainder parsed as JSON. */
  function ParseJsonLog(json: Json, fallbackTimestamp: Option<string>, pod: string, container: string, raw: string): (e: LogEntry)
    ensures e.isJson && e.raw == raw && e.podName == pod && e.containerName == container
    ensures e.level.Some? ==> IsCanonicalLevel(e.level.value) || Upper(e.level.value) == e.level.value
    ensures FirstPresent(json, MessageKeys).None? ==> e.message == raw
    ensures FirstPresent(json, TimestampKeys).None? ==> e.timestamp == fallbackTimestamp
    ensures FirstPresent(json, LevelKeys).None? ==> e.level.None?
  {
    var level := match FirstString(json, LevelKeys)
      case Some(s) => Some(NormalizeLogLevel(s))
      case None => None;
    var message := FirstString(json, MessageKeys).GetOr(raw);
    var timestamp := match FirstString(json, TimestampKeys)
      case Some(s) => Some(s)
      case None => fallbackTimestamp;
    LogEntry(timestamp, level, message, raw, true, pod, container)
  }

  /**
   * The message comes from the first present key of message/msg/log: its
   * string, or the raw line when that value is not a string.
   */
  lemma JsonMessageFromKey(json: Json, fallbackTimestamp: Option<string>, pod: string, container: string, raw: string, i: nat)
    requires i < |MessageKeys|
    requires forall j :: 0 <= j < i ==> Get(json, MessageKeys[j]).None?
    requires Get(json, MessageKeys[i]).Some?
    ensures Get(json, MessageKeys[i]).value.JString? ==>
      ParseJsonLog(json, fallbackTimestamp, pod, container, raw).message == Get(json, MessageKeys[i]).value.s
    ensures Get(json, MessageKeys[i]).value.JNonString? ==>
      ParseJsonLog(json, fallbackTimestamp, pod, container, raw).message == raw
  {
    FirstPresentAt(json, MessageKeys, i);
  }

  /**
   * The timestamp comes from the first present key of
   * timestamp/time/ts/@timestamp: its string, or the line's prefix timestamp
   * when that value is not a string.
   */
  lemma JsonTimestampFromKey(json: Json, fallbackTimestamp: Option<string>, pod: string, container: string, raw: string, i: nat)
    requires i < |TimestampKeys|
    requires forall j :: 0 <= j < i ==> Get(json, TimestampKeys[j]).None?
    requires Get(json, TimestampKeys[i]).Some?
    ensures Get(json, TimestampKeys[i]).value.JString? ==>
      ParseJsonLog(json, fallbackTimestamp, pod, container, raw).timestamp == Some(Get(json, TimestampKeys[i]).value.s)
    ensures Get(json, TimestampKeys[i]).value.JNonString? ==>
      ParseJsonLog(json, fallbackTimestamp, pod, container, raw).timestamp == fallbackTimestamp
  {
    FirstPresentAt(json, TimestampKeys, i);
  }

  /**
   * The level comes from the first present key of level/severity/log_level/lvl:
   * its string normalised, or no level when that value is not a string.
   */
  lemma JsonLevelFromKey(json: Json, fallbackTimestamp: Option<string>, pod: string, container: string, raw: string, i: nat)
    requires i < |LevelKeys|
    requires forall j :: 0 <= j < i ==> Get(json, LevelKeys[j]).None?
    requires Get(json, LevelKeys[i]).Some?
    ensures Get(json, LevelKeys[i]).value.JString? ==>
      ParseJsonLog(json, fallbackTimestamp, pod, container, raw).level == Some(NormalizeLogLevel(Get(json, LevelKeys[i]).value.s))
    ensures Get(json, LevelKeys[i]).value.JNonString? ==>
      ParseJsonLog(json, fallbackTimestamp, pod, container, raw).level.None?
  {
    FirstPresentAt(json, LevelKeys, i);
  }

  /** An entry for a line that is not JSON: the whole remainder is the message. */
  function ParsePlainLog(content: string, timestamp: Option<string>, pod: string, container: string, raw: string): (e: LogEntry)
    ensures !e.isJson && e.raw == raw && e.message == content && e.timestamp == timestamp
    ensures e.podName == pod && e.containerName == container
    ensures e.level == DetectedLevel(content)
    ensures e.level.Some? ==> IsCanonicalLevel(e.level.value)
  {
    DetectedLevelCanonical(content);
    LogEntry(timestamp, DetectedLevel(content), content, raw, false, pod, container)
  }

  /** One log line as an entry: timestamp split off, then JSON if the remainder parses, else plain text. */
  function ParseLogLine(line: string, pod: string, container: string, parse: JsonParser): (e: LogEntry)
    ensures e.raw == line && e.podName == pod && e.containerName == container
    ensures e.isJson <==> parse(ExtractTimestamp(line).1).Some?
  {
    var (timestamp, rest) := ExtractTimestamp(line);
    match parse(rest)
    case Some(json) => ParseJsonLog(json, timestamp, pod, container, line)
    case None => ParsePlainLog(rest, timestamp, pod, container, line)
  }

  /** A timestamped plain-text line comes apart into its timestamp and its text. */
  lemma ParsePlainLineRoundTrip(ts: string, text: string, pod: string, container: string, parse: JsonParser)
    requires ' ' !in ts && LooksLikeTimestamp(ts)
    requires HasDateShape(ts + " " + text)
    requires parse(text).None?
    ensures ParseLogLine(ts + " " + text, pod, container, parse).timestamp == Some(ts)
    ensures ParseLogLine(ts + " " + text, pod, container, parse).message == text
    ensures !ParseLogLine(ts + " " + text, pod, container, parse).isJson
  {
    ExtractTimestampFindsPrefix(ts, text);
  }

  /** A JSON line with message and timestamp strings yields exactly those, whatever the prefix. */
  lemma ParseJsonLineFields(line: string, fields: map<string, JsonValue>, msg: string, time: string, pod: string, container: string, parse: JsonParser)
    requires parse(ExtractTimestamp(line).1) == Some(JObject(fields))
    requires "message" in fields && fields["message"] == JString(msg)
    requires "timestamp" in fields && fields["timestamp"] == JString(time)
    ensures ParseLogLine(line, pod, container, parse).message == msg
    ensures ParseLogLine(line, pod, container, parse).timestamp == Some(time)
    ensures ParseLogLine(line, pod, container, parse).isJson
  {
    assert Get(JObject(fields), MessageKeys[0]).Some?;
    assert Get(JObject(fields), TimestampKeys[0]).Some?;
  }

  /** A non-string value under the first level key hides a string under a later one. */
  lemma NonStringLevelHidesLaterKeys(raw: string, lvl: string)
    ensures ParseJsonLog(JObject(map["level" := JNonString, "severity" := JString(lvl)]), None, "p", "c", raw).level == None
  {
    assert Get(JObject(map["level" := JNonString, "severity" := JString(lvl)]), LevelKeys[0]).Some?;
  }

  // ---------------------------------------------------------------------
  // Deployment-wide search
  // ---------------------------------------------------------------------

  /** Lines fetched per container in a search. */
  const SearchTailLines := 1000

  /** A pod returned by the label-selector listing: its name and its spec's container names. */
  datatype PodListing = PodListing(name: Option<string>, containers: Option<seq<string>>)

  /** A log request for one container. */
  datatype LogRequest = LogRequest(pod: string, container: string, sinceSeconds: Option<int>, tailLines: int)

  /** The log endpoint: the lines of the container's log, or `None` when the request fails. */
  type LogFetch = LogRequest -> Option<seq<string>>

  predicate KeywordMatches(e: LogEntry, keyword: Option<string>)
  {
    keyword.None? || TextMatches(e, keyword.value)
  }

  predicate LevelMatches(e: LogEntry, level: Option<string>)
  {
    level.None? || (e.level.Some? && Upper(e.level.value) == Upper(level.value))
  }

  /** The search filter: both the keyword test and the level test pass. */
  predicate EntryMatches(e: LogEntry, keyword: Option<string>, level: Option<string>)
  {
    KeywordMatches(e, keyword) && LevelMatches(e, level)
  }

  /** Parsed entries of `lines` that pass the filter, in line order. */
  function MatchingEntries(lines: seq<string>, pod: string, container: string,
                           keyword: Option<string>, level: Option<string>, parse: JsonParser): (es: seq<LogEntry>)
    ensures |es| <= |lines|
    ensures forall e :: e in es ==> EntryMatches(e, keyword, level) && e.podName == pod && e.containerName == container
    decreases |lines|
  {
    if |lines| == 0 then []
    else
      var prefix := MatchingEntries(lines[..|lines| - 1], pod, container, keyword, level, parse);
      var e := ParseLogLine(lines[|lines| - 1], pod, container, parse);
      if EntryMatches(e, keyword, level) then prefix + [e] else prefix
  }

  function RequestFor(pod: string, container: string, since: Option<int>): LogRequest
  {
    LogRequest(pod, container, since, SearchTailLines)
  }

  /** The result for one container: present only when its fetch succeeded and some entry matched. */
  function ContainerResults(pod: string, container: string, keyword: Option<string>, level: Option<string>,
                            since: Option<int>, fetch: LogFetch, parse: JsonParser): seq<LogSearchResult>
  {
    match fetch(RequestFor(pod, container, since))
    case None => []
    case Some(lines) =>
      var entries := MatchingEntries(lines, pod, container, keyword, level, parse);
      if |entries| == 0 then [] else [LogSearchResult(pod, container, |entries|, entries)]
  }

  function PodName(p: PodListing): string
  {
    p.name.GetOr("")
  }

  function PodContainers(p: PodListing): seq<string>
  {
    p.containers.GetOr([])
  }

  /** Results over a prefix of one pod's containers. */
  function PodResults(pod: string, containers: seq<string>, keyword: Option<string>, level: Option<string>,
                      since: Option<int>, fetch: LogFetch, parse: JsonParser): seq<LogSearchResult>
    decreases |containers|
  {
    if |containers| == 0 then []
    else
      var last := containers[|containers| - 1];
      PodResults(pod, containers[..|containers| - 1], keyword, level, since, fetch, parse) +
      ContainerResults(pod, last, keyword, level, since, fetch, parse)
  }

  /** Results over a prefix of the pod listing, pods in order and containers in order. */
  function SearchResults(pods: seq<PodListing>, keyword: Option<string>, level: Option<string>,
                         since: Option<int>, fetch: LogFetch, parse: JsonParser): seq<LogSearchResult>
    decreases |pods|
  {
    if |pods| == 0 then []
    else
      var last := pods[|pods| - 1];
      SearchResults(pods[..|pods| - 1], keyword, level, since, fetch, parse) +
      PodResults(PodName(last), PodContainers(last), keyword, level, since, fetch, parse)
  }

  /** The log requests issued for a prefix of one pod's containers. */
  function PodRequests(pod: string, containers: seq<string>, since: Option<int>): seq<LogRequest>
    decreases |containers|
  {
    if |containers| == 0 then []
    else PodRequests(pod, containers[..|containers| - 1], since) + [RequestFor(pod, containers[|containers| - 1], since)]
  }

  /** The log requests a search issues, one per container. */
  function SearchRequests(pods: seq<PodListing>, since: Option<int>): seq<LogRequest>
    decreases |pods|
  {
    if |pods| == 0 then []
    else SearchRequests(pods[..|pods| - 1], since) + PodRequests(PodName(pods[|pods| - 1]), PodContainers(pods[|pods| - 1]), since)
  }

  /** Searches one pod's containers in order; a failed fetch skips the container. */
  method SearchPod(podName: string, containers: seq<string>, keyword: Option<string>, level: Option<string>,
                   since: Option<int>, fetch: LogFetch, parse: JsonParser)
    returns (results: seq<LogSearchResult>, requests: seq<LogRequest>)
    ensures results == PodResults(podName, containers, keyword, level, since, fetch, parse)
    ensures requests == PodRequests(podName, containers, since)
  {
    results := [];
    requests := [];
    for j := 0 to |containers|
      invariant results == PodResults(podName, containers[..j], keyword, level, since, fetch, parse)
      invariant requests == PodRequests(podName, containers[..j], since)
    {
      var request := RequestFor(podName, containers[j], since);
      requests := requests + [request];
      ghost var before := results;
      match fetch(request) {
        case Some(lines) =>
          var entries := MatchingEntries(lines, podName, containers[j], keyword, level, parse);
          if |entries| > 0 {
            results := results + [LogSearchResult(podName, containers[j], |entries|, entries)];
          }
        case None =>
      }
      assert results == before + ContainerResults(podName, containers[j], keyword, level, since, fetch, parse);
      assert containers[..j + 1][..j] == containers[..j];
    }
    assert containers[..|containers|] == containers;
  }

  /**
   * Searches every container of every pod: fetches each container's log
   * tail, keeps the matching entries, and records a result per container
   * with at least one match; a failed fetch skips the container.
   */
  method SearchDeploymentLogs(pods: seq<PodListing>, keyword: Option<string>, level: Option<string>,
                              since: Option<int>, fetch: LogFetch, parse: JsonParser)
    returns (results: seq<LogSearchResult>, requests: seq<LogRequest>)
    ensures results == SearchResults(pods, keyword, level, since, fetch, parse)
    ensures requests == SearchRequests(pods, since)
  {
    results := [];
    requests := [];
    for i := 0 to |pods|
      invariant results == SearchResults(pods[..i], keyword, level, since, fetch, parse)
      invariant requests == SearchRequests(pods[..i], since)
    {
      var podResults, podRequests := SearchPod(PodName(pods[i]), PodContainers(pods[i]), keyword, level, since, fetch, parse);
      results := results + podResults;
      requests := requests + podRequests;
      assert pods[..i + 1][..i] == pods[..i];
    }
    assert pods[..|pods|] == pods;
  }

  /** Every search result is non-empty, counts its entries, and holds only matching entries of its own pod. */
  predicate WellFormedResult(r: LogSearchResult, keyword: Option<string>, level: Option<string>)
  {
    |r.entries| > 0 && r.totalMatches == |r.entries| &&
    forall e :: e in r.entries ==> EntryMatches(e, keyword, level) && e.podName == r.podName && e.containerName == r.containerName
  }

  lemma {:induction false} PodResultsWellFormed(pod: string, containers: seq<string>, keyword: Option<string>, level: Option<string>,
                                                since: Option<int>, fetch: LogFetch, parse: JsonParser)
    ensures forall r :: r in PodResults(pod, containers, keyword, level, since, fetch, parse) ==> WellFormedResult(r, keyword, level)
    decreases |containers|
  {
    if |containers| > 0 {
      PodResultsWellFormed(pod, containers[..|containers| - 1], keyword, level, since, fetch, parse);
    }
  }

  lemma {:induction false} SearchResultsWellFormed(pods: seq<PodListing>, keyword: Option<string>, level: Option<string>,
                                                   since: Option<int>, fetch: LogFetch, parse: JsonParser)
    ensures forall r :: r in SearchResults(pods, keyword, level, since, fetch, parse) ==> WellFormedResult(r, keyword, level)
    decreases |pods|
  {
    if |pods| > 0 {
      SearchResultsWellFormed(pods[..|pods| - 1], keyword, level, since, fetch, parse);
      PodResultsWellFormed(PodName(pods[|pods| - 1]), PodContainers(pods[|pods| - 1]), keyword, level, since, fetch, parse);
    }
  }

  lemma {:induction false} PodRequestsUseFixedTail(pod: string, containers: seq<string>, since: Option<int>)
    ensures forall q :: q in PodRequests(pod, containers, since) ==> q.tailLines == SearchTailLines && q.sinceSeconds == since && q.pod == pod
    decreases |containers|
  {
    if |containers| > 0 {
      PodRequestsUseFixedTail(pod, containers[..|containers| - 1], since);
    }
  }

  /** Every request of a search asks for the last 1000 lines, over the requested time window. */
  lemma {:induction false} SearchRequestsUseFixedTail(pods: seq<PodListing>, since: Option<int>)
    ensures forall q :: q in SearchRequests(pods, since) ==> q.tailLines == SearchTailLines && q.sinceSeconds == since
    decreases |pods|
  {
    if |pods| > 0 {
      SearchRequestsUseFixedTail(pods[..|pods| - 1], since);
      PodRequestsUseFixedTail(PodName(pods[|pods| - 1]), PodContainers(pods[|pods| - 1]), since);
    }
  }

  lemma {:induction false} FailingFetchYieldsNothingForPod(pod: string, containers: seq<string>, keyword: Option<string>, level: Option<string>,
                                                          since: Option<int>, fetch: LogFetch, parse: JsonParser)
    requires forall c :: fetch(RequestFor(pod, c, since)).None?
    ensures PodResults(pod, containers, keyword, level, since, fetch, parse) == []
    decreases |containers|
  {
    if |containers| > 0 {
      FailingFetchYieldsNothingForPod(pod, containers[..|containers| - 1], keyword, level, since, fetch, parse);
    }
  }

  /** A pod whose every fetch fails contributes no result, and the search does not fail because of it. */
  lemma FailingPodIsSkipped(pods: seq<PodListing>, p: PodListing, keyword: Option<string>, level: Option<string>,
                            since: Option<int>, fetch: LogFetch, parse: JsonParser)
    requires forall c :: fetch(RequestFor(PodName(p), c, since)).None?
    ensures SearchResults(pods + [p], keyword, level, since, fetch, parse) == SearchResults(pods, keyword, level, since, fetch, parse)
  {
    FailingFetchYieldsNothingForPod(PodName(p), PodContainers(p), keyword, level, since, fetch, parse);
    assert (pods + [p])[..|pods + [p]| - 1] == pods;
  }

  /** A line is kept iff its parsed entry passes the filter: filtering is exact, not just sound. */
  lemma {:induction false} MatchingEntriesComplete(lines: seq<string>, pod: string, container: string,
                                                  keyword: Option<string>, level: Option<string>, parse: JsonParser, i: int)
    requires 0 <= i < |lines|
    requires EntryMatches(ParseLogLine(lines[i], pod, container, parse), keyword, level)
    ensures ParseLogLine(lines[i], pod, container, parse) in MatchingEntries(lines, pod, container, keyword, level, parse)
    decreases |lines|
  {
    if i < |lines| - 1 {
      MatchingEntriesComplete(lines[..|lines| - 1], pod, container, keyword, level, parse, i);
      assert lines[..|lines| - 1][i] == lines[i];
    }
  }

  /** Without a keyword or level every fetched line is kept. */
  lemma {:induction false} NoFilterKeepsAll(lines: seq<string>, pod: string, container: string, parse: JsonParser)
    ensures |MatchingEntries(lines, pod, container, None, None, parse)| == |lines|
    decreases |lines|
  {
    if |lines| > 0 {
      NoFilterKeepsAll(lines[..|lines| - 1], pod, container, parse);
    }
  }

  /** With a level given, an entry without a level never matches. */
  lemma LevelFilterDropsUnlevelled(e: LogEntry, keyword: Option<string>, level: string)
    requires e.level.None?
    ensures !EntryMatches(e, keyword, Some(level))
  {
  }
}
