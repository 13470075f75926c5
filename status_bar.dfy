/**
 * The status bar: the refresh countdown driven by a one-second timer and
 * reset when a fetch completes, and the sync, pod-count and refresh labels.
 */
module StatusBar {
  import opened Wrappers
  import opened Text
  import Constants
  import UiStore

  /** The countdown's starting value: the refetch interval in whole seconds. */
  const CountdownStart: nat := Constants.RefetchIntervalMs / 1000

  /** The countdown and the fetching flag seen by the previous run of the reset effect. */
  datatype Clock = Clock(countdown: nat, wasFetching: bool) {

    predicate Valid()
    {
      countdown <= CountdownStart
    }

    /** One timer tick: count down by one, never below zero. */
    function Tick(): Clock
    {
      this.(countdown := if countdown > 0 then countdown - 1 else 0)
    }

    /** The reset effect for the current fetching flag: a completed fetch restarts the countdown. */
    function Observe(isFetching: bool): Clock
    {
      Clock(if wasFetching && !isFetching then CountdownStart else countdown, isFetching)
    }

    function Ticks(n: nat): Clock
      decreases n
    {
      if n == 0 then this else Tick().Ticks(n - 1)
    }
  }

  const InitialClock := Clock(CountdownStart, false)

  /** The countdown only restarts on a fetch that was running and has finished. */
  lemma ObserveResetsOnlyOnCompletion(c: Clock, isFetching: bool)
    ensures c.Observe(isFetching).wasFetching == isFetching
    ensures c.wasFetching && !isFetching ==> c.Observe(isFetching).countdown == CountdownStart
    ensures !(c.wasFetching && !isFetching) ==> c.Observe(isFetching).countdown == c.countdown
  {
  }

  /**
   * Running the effect again with an unchanged flag changes nothing, so
   * running it only when the flag changes, as React does, is the same as
   * running it on every render.
   */
  lemma ObserveIdempotent(c: Clock, isFetching: bool)
    ensures c.Observe(isFetching).Observe(isFetching) == c.Observe(isFetching)
  {
  }

  /** `n` ticks subtract `n`, stopping at zero. */
  lemma {:induction false} TicksSaturate(c: Clock, n: nat)
    ensures c.Ticks(n).countdown == if n >= c.countdown then 0 else c.countdown - n
    ensures c.Ticks(n).wasFetching == c.wasFetching
    decreases n
  {
    if n > 0 {
      TicksSaturate(c.Tick(), n - 1);
    }
  }

  /** Ticks and resets never take the countdown above its start value. */
  lemma ClockStaysBounded(c: Clock, isFetching: bool)
    requires c.Valid()
    ensures c.Tick().Valid() && c.Observe(isFetching).Valid()
  {
  }

  /** The status bar's countdown state. */
  class Countdown {
    var countdown: nat
    var wasFetching: bool

    function Snapshot(): Clock
      reads this
    {
      Clock(countdown, wasFetching)
    }

    constructor()
      ensures Snapshot() == InitialClock
      ensures countdown == 5 && !wasFetching
    {
      countdown := CountdownStart;
      wasFetching := false;
    }

    /** The interval timer fired. */
    method OnTick()
      modifies this
      ensures Snapshot() == old(Snapshot()).Tick()
      ensures old(Snapshot()).Valid() ==> Snapshot().Valid()
    {
      if countdown > 0 {
        countdown := countdown - 1;
      } else {
        countdown := 0;
      }
    }

    /** The reset effect ran with the current fetching flag. */
    method OnFetchingChanged(isFetching: bool)
      modifies this
      ensures Snapshot() == old(Snapshot()).Observe(isFetching)
      ensures old(Snapshot()).Valid() ==> Snapshot().Valid()
    {
      if wasFetching && !isFetching {
        countdown := CountdownStart;
      }
      wasFetching := isFetching;
    }
  }

  // ---------------------------------------------------------------------
  // Labels
  // ---------------------------------------------------------------------

  /** "Refresh in Ns", shown only while no fetch is running. */
  function RefreshLabel(isFetching: bool, countdown: nat): (r: Option<string>)
    ensures r.Some? <==> !isFetching
    ensures r.Some? ==> StartsWith(r.value, "Refresh in ") && EndsWith(r.value, "s")
  {
    if isFetching then None else Some("Refresh in " + NatToString(countdown) + "s")
  }

  /** The number of loaded pods; no data yet counts as none. */
  function PodCount(pods: Option<nat>): nat
  {
    match pods
    case None => 0
    case Some(n) => n
  }

  /** "Showing N pod(s)", only on the pods view. */
  function PodCountLabel(view: UiStore.View, count: nat): (r: Option<string>)
    ensures r.Some? <==> view == UiStore.Pods
  {
    if view == UiStore.Pods then Some("Showing " + NatToString(count) + " pod" + (if count != 1 then "s" else "")) else None
  }

  /** Before the pods arrive the bar reads "Showing 0 pods"; afterwards it shows their number. */
  lemma PodCountShown(pods: Option<nat>)
    ensures pods.None? ==> PodCountLabel(UiStore.Pods, PodCount(pods)) == Some("Showing 0 pods")
    ensures pods.Some? ==> PodCountLabel(UiStore.Pods, PodCount(pods)) == PodCountLabel(UiStore.Pods, pods.value)
  {
    if pods.None? {
      assert NatToString(0) == "0";
      assert "Showing " + "0" + " pod" + "s" == "Showing 0 pods";
    }
  }

  /** The noun is plural exactly when the count is not one. */
  lemma PluralIffNotOne(count: nat)
    ensures var shown := PodCountLabel(UiStore.Pods, count).value;
      EndsWith(shown, "pods") <==> count != 1
    ensures var shown := PodCountLabel(UiStore.Pods, count).value;
      count == 1 ==> shown == "Showing 1 pod"
  {
    var shown := PodCountLabel(UiStore.Pods, count).value;
    var head := "Showing " + NatToString(count) + " pod";
    if count != 1 {
      assert shown == head + "s";
      assert shown[|shown| - 4..] == "pods";
    } else {
      assert NatToString(1) == "1";
      assert shown == head;
      assert shown[|shown| - 1] == 'd';
    }
  }

  /** The sync indicator, shown only with a context: "Syncing..." while fetching, else "Live". */
  function SyncLabel(context: string, isFetching: bool): (r: Option<string>)
    ensures r.Some? <==> context != ""
  {
    if context == "" then None else Some(if isFetching then "Syncing..." else "Live")
  }

  /** The sync and refresh labels never claim a fetch is both running and finished. */
  lemma SyncAndRefreshAgree(context: string, isFetching: bool, countdown: nat)
    requires context != ""
    ensures RefreshLabel(isFetching, countdown).Some? <==> SyncLabel(context, isFetching) == Some("Live")
  {
  }

  /** After a fetch completes and `n` ticks pass, the bar reads the remaining whole seconds. */
  lemma RefreshAfterCompletion(c: Clock, n: nat)
    requires c.wasFetching && n <= CountdownStart
    ensures c.Observe(false).Ticks(n).countdown == CountdownStart - n
    ensures RefreshLabel(false, c.Observe(false).Ticks(n).countdown) ==
      Some("Refresh in " + NatToString(CountdownStart - n) + "s")
  {
    TicksSaturate(c.Observe(false), n);
  }
}
