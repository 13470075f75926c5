/** The time-range table, its labels, and the client-side timeout text. */
module TauriApi {
  import opened Wrappers
  import opened Text

  datatype TimeRange = M15 | M30 | H1 | H3 | H6 | H12 | H24 | H48

  /** The ranges in declaration order. */
  const AllRanges: seq<TimeRange> := [M15, M30, H1, H3, H6, H12, H24, H48]

  /** The key under which a range is stored and sent (`'15m'`, `'1h'`, ...). */
  function Key(r: TimeRange): string
  {
    match r
    case M15 => "15m" case M30 => "30m" case H1 => "1h" case H3 => "3h"
    case H6 => "6h" case H12 => "12h" case H24 => "24h" case H48 => "48h"
  }

  function FromKey(key: string): (r: Option<TimeRange>)
    ensures r.Some? ==> Key(r.value) == key
  {
    if key == "15m" then Some(M15) else if key == "30m" then Some(M30)
    else if key == "1h" then Some(H1) else if key == "3h" then Some(H3)
    else if key == "6h" then Some(H6) else if key == "12h" then Some(H12)
    else if key == "24h" then Some(H24) else if key == "48h" then Some(H48)
    else None
  }

  lemma KeyRoundTrip(r: TimeRange)
    ensures FromKey(Key(r)) == Some(r)
  {
  }

  /** `TIME_RANGES[range]`, in seconds. */
  function Seconds(r: TimeRange): nat
  {
    match r
    case M15 => 15 * 60 case M30 => 30 * 60 case H1 => 60 * 60 case H3 => 3 * 60 * 60
    case H6 => 6 * 60 * 60 case H12 => 12 * 60 * 60 case H24 => 24 * 60 * 60 case H48 => 48 * 60 * 60
  }

  /** The table lists the ranges from shortest to longest. */
  lemma SecondsStrictlyIncreasing(i: int, j: int)
    requires 0 <= i < j < |AllRanges|
    ensures Seconds(AllRanges[i]) < Seconds(AllRanges[j])
  {
  }

  /** `getTimeRangeLabel`. */
  function Label(r: TimeRange): string
  {
    match r
    case M15 => "Last 15 minutes" case M30 => "Last 30 minutes"
    case H1 => "Last 1 hour" case H3 => "Last 3 hours" case H6 => "Last 6 hours"
    case H12 => "Last 12 hours" case H24 => "Last 24 hours" case H48 => "Last 48 hours"
  }

  /** A label computed from a duration: whole minutes below an hour, else whole hours, `hour` singular for one. */
  function DurationLabel(seconds: nat): string
  {
    if seconds < 3600 then "Last " + NatToString(seconds / 60) + " minutes"
    else
      var hours := seconds / 3600;
      "Last " + NatToString(hours) + (if hours == 1 then " hour" else " hours")
  }

  lemma SmallNumbers()
    ensures NatToString(1) == "1" && NatToString(3) == "3" && NatToString(6) == "6"
    ensures NatToString(15) == "15" && NatToString(30) == "30" && NatToString(12) == "12"
    ensures NatToString(24) == "24" && NatToString(48) == "48"
  {
    assert NatToString(15) == NatToString(1) + [DigitChar(5)];
    assert NatToString(30) == NatToString(3) + [DigitChar(0)];
    assert NatToString(12) == NatToString(1) + [DigitChar(2)];
    assert NatToString(24) == NatToString(2) + [DigitChar(4)];
    assert NatToString(48) == NatToString(4) + [DigitChar(8)];
  }

  /** Every label names the range's own duration. */
  lemma LabelMatchesSeconds(r: TimeRange)
    ensures Label(r) == DurationLabel(Seconds(r))
  {
    SmallNumbers();
    match r
    case M15 => assert DurationLabel(900) == "Last " + "15" + " minutes";
    case M30 => assert DurationLabel(1800) == "Last " + "30" + " minutes";
    case H1 => assert DurationLabel(3600) == "Last " + "1" + " hour";
    case H3 => assert DurationLabel(10800) == "Last " + "3" + " hours";
    case H6 => assert DurationLabel(21600) == "Last " + "6" + " hours";
    case H12 => assert DurationLabel(43200) == "Last " + "12" + " hours";
    case H24 => assert DurationLabel(86400) == "Last " + "24" + " hours";
    case H48 => assert DurationLabel(172800) == "Last " + "48" + " hours";
  }

  /** Milliseconds before a backend call is abandoned on the client. */
  const ApiTimeoutMs := 30000

  /** The message of the error a timed-out call rejects with. */
  function TimeoutMessage(): string
  {
    "Connection timed out after " + NatToString(ApiTimeoutMs / 1000) + " seconds"
  }

  lemma TimeoutMessageText()
    ensures TimeoutMessage() == "Connection timed out after 30 seconds"
  {
    SmallNumbers();
  }
}
