/**
 * The log records exchanged between the backend and the client
 * (a `LogEntry` per log line, a `LogSearchResult` per pod container),
 * and the case-insensitive text match that both sides filter with.
 */
module LogModel {
  import opened Wrappers
  import opened Text

  datatype LogEntry = LogEntry(
    timestamp: Option<string>,
    level: Option<string>,
    message: string,
    raw: string,
    isJson: bool,
    podName: string,
    containerName: string)

  datatype LogSearchResult = LogSearchResult(
    podName: string,
    containerName: string,
    totalMatches: int,
    entries: seq<LogEntry>)

  /** The four canonical levels the backend normalises to. */
  predicate IsCanonicalLevel(level: string)
  {
    level == "ERROR" || level == "WARN" || level == "INFO" || level == "DEBUG"
  }

  /** The lower-cased `needle` occurs in the lower-cased message or raw line. */
  predicate TextMatches(e: LogEntry, needle: string)
  {
    ContainsIgnoringCase(e.message, needle) || ContainsIgnoringCase(e.raw, needle)
  }

  lemma EmptyNeedleMatches(e: LogEntry)
    ensures TextMatches(e, "")
  {
    ContainsEmpty(Lower(e.message));
  }
}
