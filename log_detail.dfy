/**
 * The log detail modal: the pretty-printed JSON view of a raw line, what
 * the modal shows, and the "copied" flags that reset two seconds after a
 * copy.
 */
module LogDetailModal {
  import opened Wrappers
  import opened Text
  import opened LogModel

  /** Where the JSON view starts: the first `{` of the raw line, or -1. */
  function JsonStart(raw: string): (k: int)
    ensures k == -1 <==> '{' !in raw
    ensures k >= 0 ==> k < |raw| && raw[k] == '{' && '{' !in raw[..k]
  {
    IndexOfChar(raw, '{');
    IndexOf(raw, "{")
  }

  /**
   * The JSON view's text: `''` without an entry; the raw line when it has
   * no `{` or when the text from its first `{` fails to parse; otherwise
   * that text parsed and pretty-printed.
   */
  function FormattedJson<D>(entry: Option<LogEntry>, parse: string -> Option<D>, pretty: D -> string): (r: string)
    ensures entry.None? ==> r == ""
    ensures entry.Some? && '{' !in entry.value.raw ==> r == entry.value.raw
    ensures entry.Some? && r != entry.value.raw ==>
      exists k :: 0 <= k < |entry.value.raw| && entry.value.raw[k] == '{' && '{' !in entry.value.raw[..k] &&
        parse(entry.value.raw[k..]).Some? && r == pretty(parse(entry.value.raw[k..]).value)
  {
    match entry
    case None => ""
    case Some(e) =>
      var k := JsonStart(e.raw);
      if k >= 0 then
        match parse(e.raw[k..])
        case Some(doc) => pretty(doc)
        case None => e.raw
      else e.raw
  }

  /** A raw line made of a `{`-free prefix and a JSON text shows that text pretty-printed. */
  lemma FormattedJsonAfterPrefix<D>(e: LogEntry, prefix: string, json: string, parse: string -> Option<D>, pretty: D -> string)
    requires e.raw == prefix + json
    requires '{' !in prefix && |json| > 0 && json[0] == '{'
    requires parse(json).Some?
    ensures FormattedJson(Some(e), parse, pretty) == pretty(parse(json).value)
  {
    var k := JsonStart(e.raw);
    assert e.raw[|prefix|] == '{';
    assert k == |prefix|;
    assert e.raw[k..] == json;
  }

  /** The modal renders only for an entry. */
  predicate Renders(entry: Option<LogEntry>)
  {
    entry.Some?
  }

  /** The JSON section appears only for a line the backend parsed as JSON. */
  predicate ShowsJsonSection(entry: Option<LogEntry>)
  {
    entry.Some? && entry.value.isJson
  }

  // ---------------------------------------------------------------------
  // Copied flags
  // ---------------------------------------------------------------------

  datatype CopyTarget = Message | RawLine | JsonView

  /** Milliseconds a "Copied" check mark stays before it is reset. */
  const CopiedResetMs := 2000

  /** A pending reset of one flag at a deadline (milliseconds). */
  datatype ResetTimer = ResetTimer(target: CopyTarget, deadline: int)

  /** Some timer for `t` in `timers` is due at `now`. */
  predicate DueFor(timers: seq<ResetTimer>, t: CopyTarget, now: int)
  {
    exists i :: 0 <= i < |timers| && timers[i].target == t && timers[i].deadline <= now
  }

  /** Some timer for `t` is pending in `timers`. */
  predicate HasTimer(timers: seq<ResetTimer>, t: CopyTarget)
  {
    exists i :: 0 <= i < |timers| && timers[i].target == t
  }

  lemma DueForAppend(timers: seq<ResetTimer>, x: ResetTimer, t: CopyTarget, now: int)
    ensures DueFor(timers + [x], t, now) <==> DueFor(timers, t, now) || (x.target == t && x.deadline <= now)
  {
    if DueFor(timers, t, now) {
      var j :| 0 <= j < |timers| && timers[j].target == t && timers[j].deadline <= now;
      assert (timers + [x])[j] == timers[j];
    }
    if DueFor(timers + [x], t, now) {
      var j :| 0 <= j < |timers + [x]| && (timers + [x])[j].target == t && (timers + [x])[j].deadline <= now;
      if j < |timers| {
        assert timers[j] == (timers + [x])[j];
      }
    }
    if x.target == t && x.deadline <= now {
      assert (timers + [x])[|timers|] == x;
    }
  }

  lemma HasTimerAppend(timers: seq<ResetTimer>, x: ResetTimer, t: CopyTarget)
    ensures HasTimer(timers + [x], t) <== HasTimer(timers, t) || x.target == t
  {
    if HasTimer(timers, t) {
      var j :| 0 <= j < |timers| && timers[j].target == t;
      assert (timers + [x])[j] == timers[j];
    }
    if x.target == t {
      assert (timers + [x])[|timers|] == x;
    }
  }

  /** A flag whose timers are not all due keeps a pending timer. */
  lemma HasTimerNotDue(timers: seq<ResetTimer>, t: CopyTarget, now: int)
    requires HasTimer(timers, t) && !DueFor(timers, t, now)
    ensures HasTimer(NotDue(timers, now), t)
  {
    var j :| 0 <= j < |timers| && timers[j].target == t;
    assert timers[j] in NotDue(timers, now);
    var r := NotDue(timers, now);
    var k :| 0 <= k < |r| && r[k] == timers[j];
  }

  /** The timers not yet due at `now`, in order. */
  function NotDue(timers: seq<ResetTimer>, now: int): (r: seq<ResetTimer>)
    ensures forall x :: x in r <==> x in timers && x.deadline > now
    decreases |timers|
  {
    if |timers| == 0 then []
    else
      var prefix := NotDue(timers[..|timers| - 1], now);
      var last := timers[|timers| - 1];
      assert timers == timers[..|timers| - 1] + [last];
      if last.deadline > now then prefix + [last] else prefix
  }

  class CopyFlags {
    var copiedMessage: bool
    var copiedRaw: bool
    var copiedJson: bool
    var timers: seq<ResetTimer>

    function Flag(t: CopyTarget): bool
      reads this
    {
      match t
      case Message => copiedMessage
      case RawLine => copiedRaw
      case JsonView => copiedJson
    }

    /** A raised flag always has a reset pending. */
    ghost predicate Valid()
      reads this
    {
      forall t: CopyTarget :: Flag(t) ==> HasTimer(timers, t)
    }

    constructor()
      ensures Valid()
      ensures !copiedMessage && !copiedRaw && !copiedJson && timers == []
    {
      copiedMessage := false;
      copiedRaw := false;
      copiedJson := false;
      timers := [];
    }

    method SetFlag(t: CopyTarget, value: bool)
      modifies this
      ensures Flag(t) == value
      ensures forall u :: u != t ==> Flag(u) == old(Flag(u))
      ensures timers == old(timers)
    {
      match t
      case Message => copiedMessage := value;
      case RawLine => copiedRaw := value;
      case JsonView => copiedJson := value;
    }

    /**
     * A copy button was pressed at `now`. Without an entry, or when the
     * clipboard write fails, nothing changes; otherwise the flag is raised
     * and a reset is scheduled 2000 ms later.
     */
    method Copy(t: CopyTarget, hasEntry: bool, clipboardWritten: bool, now: int)
      requires Valid()
      modifies this
      ensures Valid()
      ensures hasEntry && clipboardWritten ==> Flag(t) && timers == old(timers) + [ResetTimer(t, now + CopiedResetMs)]
      ensures !(hasEntry && clipboardWritten) ==> timers == old(timers) && Flag(t) == old(Flag(t))
      ensures forall u :: u != t ==> Flag(u) == old(Flag(u))
    {
      if hasEntry && clipboardWritten {
        var x := ResetTimer(t, now + CopiedResetMs);
        forall u: CopyTarget
          ensures HasTimer(timers + [x], u) <== HasTimer(timers, u) || x.target == u
        {
          HasTimerAppend(timers, x, u);
        }
        SetFlag(t, true);
        timers := timers + [x];
      }
    }

    /** The clock reached `now`: every due reset fires and lowers its flag. */
    method AdvanceClock(now: int)
      requires Valid()
      modifies this
      ensures Valid()
      ensures timers == NotDue(old(timers), now)
      ensures forall t :: Flag(t) == (old(Flag(t)) && !DueFor(old(timers), t, now))
    {
      var remaining: seq<ResetTimer> := [];
      var all := timers;
      for i := 0 to |all|
        invariant remaining == NotDue(all[..i], now)
        invariant forall t :: Flag(t) == (old(Flag(t)) && !DueFor(all[..i], t, now))
        invariant timers == all
      {
        var x := all[i];
        assert all[..i + 1] == all[..i] + [x];
        forall t: CopyTarget
          ensures DueFor(all[..i + 1], t, now) <==> DueFor(all[..i], t, now) || (x.target == t && x.deadline <= now)
        {
          DueForAppend(all[..i], x, t, now);
        }
        if x.deadline <= now {
          SetFlag(x.target, false);
        } else {
          remaining := remaining + [x];
        }
      }
      assert all[..|all|] == all;
      timers := remaining;
      forall t: CopyTarget | Flag(t)
        ensures HasTimer(timers, t)
      {
        HasTimerNotDue(all, t, now);
      }
    }
  }
}
