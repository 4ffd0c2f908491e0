/** The scan scheduler of the service: one timer, one scan at a time, and requests that arrive while a scan runs. */
module ScanScheduler {
  import opened Outcomes
  import opened Basics

  const STARTUP_SCAN_RETRY_MS: int := 3000

  /** The closure variables; `timer` is the time the armed timer is due. */
  datatype State = State(stopped: bool, timer: Option<int>, nextScanAt: int, running: bool, requested: bool, urgent: bool,
                         completed: bool, lastStartedAt: int, correlate: bool, nextDelay: int)

  /** How a scan ends: whether its payload was read, and then whether dispatches are pending; and whether it got as far as
    * being marked complete. */
  datatype Ending = Ending(pendingDispatches: Option<bool>, completes: bool) {
    predicate Valid() { completes ==> pendingDispatches.Some? }
  }

  // ----- The closures, as functions of the state they find -----

  function Schedule(s: State, now: int, delay: int): State {
    if s.stopped then s else s.(timer := Some(now + delay), nextScanAt := now + delay)
  }

  function RestDelay(s: State, now: int): int {
    Max(250, 2000 - (now - s.lastStartedAt))
  }

  function Request(s: State, now: int): State {
    if s.stopped then s
    else if s.running then s.(requested := true, urgent := true)
    else Schedule(s, now, 250)
  }

  function RequestFile(s: State, now: int): State {
    if s.stopped then s
    else if s.running then s.(requested := true)
    else if s.timer.None? || now + RestDelay(s, now) < s.nextScanAt then Schedule(s, now, RestDelay(s, now))
    else s
  }

  /** What follows a scan: the callback of `finally`. */
  function Follow(s: State, now: int, interval: nat): State {
    if s.stopped then s
    else if s.requested then
      Schedule(s.(requested := false, urgent := false), now, if s.urgent then 250 else RestDelay(s, now))
    else if !s.completed then Schedule(s, now, STARTUP_SCAN_RETRY_MS)
    else if s.correlate || interval > 0 then Schedule(s, now, s.nextDelay)
    else s
  }

  /** The timer fires. A scan found running would only be asked to run again. */
  function Fire(s: State, now: int, interval: nat): State {
    var fired := s.(timer := None);
    if s.stopped then fired
    else if s.running then Follow(fired.(requested := true), now, interval)
    else fired.(running := true, lastStartedAt := now)
  }

  function NextDelay(correlate: bool, interval: nat): int {
    if !correlate then interval else if interval == 0 || interval > 3000 then 3000 else interval
  }

  /** A scan ends and its callback runs. */
  function End(s: State, now: int, interval: nat, e: Ending): State {
    var read := if e.pendingDispatches.None? then s
                else s.(correlate := e.pendingDispatches.value, nextDelay := NextDelay(e.pendingDispatches.value, interval));
    Follow(read.(completed := s.completed || e.completes, running := false), now, interval)
  }

  /** When the next scan is due after one that ended: an urgent request 250 ms from now, another request once two seconds
    * passed since the scan began, the startup scan again after its retry delay, and otherwise the configured interval, which
    * is at most three seconds, and three seconds if there is none, while dispatches wait. */
  lemma NextScanIsDue(s: State, now: int, interval: nat, e: Ending)
    requires !s.stopped && s.running && s.timer.None? && e.pendingDispatches.Some?
    ensures var after := End(s, now, interval, e);
            && !after.running
            && (s.requested && s.urgent ==> after.timer == Some(now + 250))
            && (s.requested && !s.urgent ==> after.timer == Some(Max(now + 250, s.lastStartedAt + 2000)))
            && (!s.requested && !s.completed && !e.completes ==> after.timer == Some(now + STARTUP_SCAN_RETRY_MS))
            && (!s.requested && (s.completed || e.completes) ==>
                  after.timer == if e.pendingDispatches.value then Some(now + if interval == 0 then 3000 else Min(interval, 3000))
                                 else if interval > 0 then Some(now + interval) else None)
  {
  }

  function Stop(s: State): State {
    s.(stopped := true, timer := None)
  }

  function Initial(now: int, interval: nat): State {
    Schedule(State(false, None, 0, false, false, false, false, 0, false, interval), now, 250)
  }

  class Scheduler {
    const interval: nat
    var stopped: bool
    var timer: Option<int>
    var nextScanAt: int
    var running: bool
    var requested: bool
    var urgent: bool
    var completed: bool
    var lastStartedAt: int
    var correlate: bool
    var nextDelay: int

    function View(): State
      reads this
    {
      State(stopped, timer, nextScanAt, running, requested, urgent, completed, lastStartedAt, correlate, nextDelay)
    }

    constructor (interval: nat, now: int)
      ensures View() == Initial(now, interval) && this.interval == interval
    {
      this.interval := interval;
      stopped, running, requested, urgent, completed, correlate := false, false, false, false, false, false;
      lastStartedAt, nextDelay, nextScanAt, timer := 0, interval, 0, None;
      new;
      ScheduleScan(now, 250);
    }

    /** `scheduleScan` */
    method ScheduleScan(now: int, delay: int)
      modifies this
      ensures View() == Schedule(old(View()), now, delay)
    {
      if stopped { return; }
      nextScanAt := now + delay;
      timer := Some(now + delay);
    }

    /** `requestScan` */
    method RequestScan(now: int)
      modifies this
      ensures View() == Request(old(View()), now)
    {
      if stopped { return; }
      if running {
        requested := true;
        urgent := true;
        return;
      }
      ScheduleScan(now, 250);
    }

    /** `requestFileScan` */
    method RequestFileScan(now: int)
      modifies this
      ensures View() == RequestFile(old(View()), now)
    {
      if stopped { return; }
      if running {
        requested := true;
        return;
      }
      var delay := Max(250, 2000 - (now - lastStartedAt));
      if timer.None? || now + delay < nextScanAt { ScheduleScan(now, delay); }
    }

    /** The timer callback, up to the point where the scan waits. */
    method TimerFires(now: int)
      modifies this
      ensures View() == Fire(old(View()), now, interval)
    {
      timer := None;
      if stopped { return; }
      if running {
        requested := true;
        AfterScan(now);
        return;
      }
      running := true;
      lastStartedAt := now;
    }

    method AfterScan(now: int)
      modifies this
      ensures View() == Follow(old(View()), now, interval)
    {
      if stopped { return; }
      if requested {
        requested := false;
        var delay := if urgent then 250 else Max(250, 2000 - (now - lastStartedAt));
        urgent := false;
        ScheduleScan(now, delay);
      } else if !completed {
        ScheduleScan(now, STARTUP_SCAN_RETRY_MS);
      } else if correlate || interval > 0 {
        ScheduleScan(now, nextDelay);
      }
    }

    /** The end of `scan`, then its `finally` callback. */
    method ScanEnds(now: int, e: Ending)
      requires e.Valid()
      modifies this
      ensures View() == End(old(View()), now, interval, e)
    {
      if e.pendingDispatches.Some? {
        correlate := e.pendingDispatches.value;
        nextDelay := if correlate then (if interval == 0 then 3000 else if interval < 3000 then interval else 3000) else interval;
        if e.completes { completed := true; }
      }
      running := false;
      AfterScan(now);
    }

    method StopService()
      modifies this
      ensures View() == Stop(old(View()))
    {
      stopped := true;
      timer := None;
    }
  }

  // ----- Every run -----

  datatype Event =
    | Requested(now: int)
    | FileRequested(now: int)
    | Fired(now: int)
    | Ended(now: int, e: Ending)
    | Stopped

  /** `owed`: a request was made since the last scan started. `active`: scans in progress. */
  datatype World = World(s: State, clock: int, owed: bool, active: nat)

  predicate Enabled(w: World, e: Event) {
    match e
    case Requested(now) => now >= w.clock
    case FileRequested(now) => now >= w.clock
    case Fired(now) => now >= w.clock && w.s.timer.Some? && now >= w.s.timer.value
    case Ended(now, ending) => now >= w.clock && w.active > 0 && ending.Valid()
    case Stopped => true
  }

  function Next(w: World, interval: nat, e: Event): World {
    match e
    case Requested(now) => World(Request(w.s, now), now, w.owed || !w.s.stopped, w.active)
    case FileRequested(now) => World(RequestFile(w.s, now), now, w.owed || !w.s.stopped, w.active)
    case Fired(now) =>
      if w.s.stopped || w.s.running then World(Fire(w.s, now, interval), now, w.owed, w.active)
      else World(Fire(w.s, now, interval), now, false, w.active + 1)
    case Ended(now, ending) => World(End(w.s, now, interval, ending), now, w.owed, if w.active > 0 then w.active - 1 else 0)
    case Stopped => w.(s := Stop(w.s))
  }

  ghost predicate Possible(w: World, interval: nat, run: seq<Event>)
    decreases |run|
  {
    |run| == 0 || (Enabled(w, run[0]) && Possible(Next(w, interval, run[0]), interval, run[1..]))
  }

  function After(w: World, interval: nat, run: seq<Event>): World
    decreases |run|
  {
    if |run| == 0 then w else After(Next(w, interval, run[0]), interval, run[1..])
  }

  predicate Inv(w: World) {
    && w.active == (if w.s.running then 1 else 0)
    && w.s.lastStartedAt <= w.clock
    && (w.s.timer.Some? ==> !w.s.running && w.s.timer.value == w.s.nextScanAt && !w.s.stopped)
    && (!w.s.stopped ==>
          && (w.owed ==> w.s.timer.Some? || (w.s.running && w.s.requested))
          && (!w.s.completed ==> w.s.timer.Some? || w.s.running)
          && (w.s.requested ==> w.s.running) && (w.s.urgent ==> w.s.requested))
  }

  lemma StepKeeps(w: World, interval: nat, e: Event)
    requires Inv(w) && Enabled(w, e)
    ensures Inv(Next(w, interval, e))
  {
  }

  lemma {:induction false} RunKeeps(w: World, interval: nat, run: seq<Event>)
    requires Inv(w) && Possible(w, interval, run)
    ensures Inv(After(w, interval, run))
    decreases |run|
  {
    if |run| > 0 {
      StepKeeps(w, interval, run[0]);
      RunKeeps(Next(w, interval, run[0]), interval, run[1..]);
    }
  }

  /** When the service starts. */
  function Started(now: int, interval: nat): World {
    World(Initial(now, interval), now, false, 0)
  }

  /** At any time: at most one scan is in progress and none is armed beside it; a request is waiting for an armed timer or for
    * the scan that runs; and until the first scan completed, a scan is armed or runs. */
  lemma NoRequestIsLost(start: int, interval: nat, run: seq<Event>)
    requires start >= 0 && Possible(Started(start, interval), interval, run)
    ensures var w := After(Started(start, interval), interval, run);
            && w.active <= 1 && (w.s.running <==> w.active == 1) && !(w.s.running && w.s.timer.Some?)
            && (!w.s.stopped && w.owed ==> w.s.timer.Some? || (w.s.running && w.s.requested))
            && (!w.s.stopped && !w.s.completed ==> w.s.timer.Some? || w.s.running)
  {
    RunKeeps(Started(start, interval), interval, run);
  }

  /** A waiting request is served by the next steps: an armed timer starts a scan, and a scan that ends with a request waiting
    * arms the timer for at most two seconds later. */
  lemma RequestsAreServed(w: World, interval: nat, now: int, e: Ending)
    requires Inv(w) && !w.s.stopped && w.owed && now >= w.clock && e.Valid()
    ensures w.s.timer.Some? && now >= w.s.timer.value ==>
              Enabled(w, Fired(now)) && Next(w, interval, Fired(now)).s.running && !Next(w, interval, Fired(now)).owed
    ensures w.s.timer.None? ==>
              && Enabled(w, Ended(now, e))
              && var after := Next(w, interval, Ended(now, e)).s;
                 after.timer.Some? && now + 250 <= after.timer.value <= now + 2000
  {
  }

  /** After a scan the timer is armed exactly when something is still to do: a request, an unfinished startup, pending
    * dispatches or a periodic interval. Pending dispatches are looked at again within three seconds. */
  lemma ArmedAfterAScanIff(w: World, interval: nat, now: int, e: Ending)
    requires Inv(w) && !w.s.stopped && w.active > 0 && now >= w.clock && e.Valid()
    ensures var after := Next(w, interval, Ended(now, e)).s;
            var correlate := if e.pendingDispatches.Some? then e.pendingDispatches.value else w.s.correlate;
            && !after.running
            && (after.timer.Some? <==> w.s.requested || !(w.s.completed || e.completes) || correlate || interval > 0)
            && (e.pendingDispatches == Some(true) ==> now <= after.timer.value <= now + 3000)
  {
  }

  // ----- Who may postpone an armed scan -----

  /** A file change never moves an armed scan later, and leaves a scan due within two seconds. */
  lemma FileRequestsNeverPostpone(w: World, interval: nat, now: int)
    requires Inv(w) && !w.s.stopped && !w.s.running && now >= w.clock
    ensures var after := Next(w, interval, FileRequested(now)).s;
            && after.timer.Some? && after.timer.value <= now + 2000
            && (w.s.timer.Some? ==> after.timer.value <= w.s.timer.value)
  {
  }

  /** Any other request moves an armed scan to 250 ms from now, so it postpones exactly the scans due earlier. */
  lemma OtherRequestsPostponeIff(w: World, interval: nat, now: int)
    requires Inv(w) && !w.s.stopped && w.s.timer.Some? && now >= w.clock
    ensures var after := Next(w, interval, Requested(now)).s;
            && after.timer == Some(now + 250)
            && (after.timer.value > w.s.timer.value <==> w.s.timer.value < now + 250)
  {
  }

  function Requests(times: seq<int>): seq<Event> {
    seq(|times|, i requires 0 <= i < |times| => Requested(times[i]))
  }

  /** Each request comes before the scan armed by the previous one is due. */
  predicate KeepComing(clock: int, due: int, times: seq<int>)
    decreases |times|
  {
    |times| == 0 || (clock <= times[0] < due && KeepComing(times[0], times[0] + 250, times[1..]))
  }

  /** Requests that keep coming postpone the scan for as long as they do: none starts in between. */
  lemma {:induction false} RequestsCanPostponeForEver(w: World, interval: nat, times: seq<int>)
    requires Inv(w) && !w.s.stopped && w.s.timer.Some? && KeepComing(w.clock, w.s.timer.value, times)
    ensures Possible(w, interval, Requests(times))
    ensures var v := After(w, interval, Requests(times));
            && !v.s.running && v.s.lastStartedAt == w.s.lastStartedAt
            && v.s.timer == (if |times| == 0 then w.s.timer else Some(times[|times| - 1] + 250))
            && (|times| > 0 ==> v.owed)
    decreases |times|
  {
    if |times| > 0 {
      var e := Requested(times[0]);
      var next := Next(w, interval, e);
      assert Requests(times)[0] == e && Requests(times)[1..] == Requests(times[1..]);
      StepKeeps(w, interval, e);
      RequestsCanPostponeForEver(next, interval, times[1..]);
      if |times| == 1 { assert times[1..] == []; }
    }
  }
}
