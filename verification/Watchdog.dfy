/** The watchdog that restarts a pool manager: a sliding-window rate limit with a latched alert. */
module WatchdogModule {

  datatype Config = Config(maxRestarts: nat, window: real, failThreshold: nat)

  datatype Status = Starting | Healthy | Degraded | Alert

  /** log holds the times of the restarts that were carried out since the alert was last cleared by hand. */
  datatype Watch = Watch(stamps: seq<real>, failures: nat, restarts: nat, status: Status, alert: bool, log: seq<real>)

  datatype Event =
    | Tick(now: real, exited: bool, healthy: bool)
    | ManualRestart(now: real)
    | ClearAlert

  /** The time stamps left when those before cutoff are dropped from the front. */
  function Pruned(stamps: seq<real>, cutoff: real): seq<real> {
    if stamps != [] && stamps[0] < cutoff then Pruned(stamps[1..], cutoff) else stamps
  }

  function Attempted(c: Config, w: Watch, now: real): Watch {
    var stamps := Pruned(w.stamps + [now], now - c.window);
    if |stamps| > c.maxRestarts then w.(stamps := stamps, status := Alert, alert := true)
    else w.(stamps := stamps, failures := 0, restarts := w.restarts + 1, status := Degraded, log := w.log + [now])
  }

  /** What one turn of the main loop learns before it decides on a restart. */
  function Checked(c: Config, w: Watch, exited: bool, healthy: bool): Watch {
    if exited then w.(failures := c.failThreshold)
    else if healthy then w.(failures := 0, status := if w.alert then w.status else Healthy)
    else w.(failures := w.failures + 1)
  }

  function Step(c: Config, w: Watch, e: Event): Watch {
    match e
    case Tick(now, exited, healthy) =>
      var checked := Checked(c, w, exited, healthy);
      if checked.failures >= c.failThreshold && !checked.alert then Attempted(c, checked, now) else checked
    case ManualRestart(now) => Attempted(c, w.(alert := false), now)
    case ClearAlert => w.(alert := false, status := Degraded, stamps := [], log := [])
  }

  function After(c: Config, events: seq<Event>): Watch {
    if events == [] then Watch([], 0, 0, Starting, false, []) else
      Step(c, After(c, events[..|events| - 1]), events[|events| - 1])
  }

  class Watchdog {
    const config: Config
    var restartTimestamps: seq<real>
    var consecutiveFailures: nat
    var totalRestarts: nat
    var status: Status
    var alertActive: bool
    ghost var log: seq<real>

    ghost function State(): Watch
      reads this
    {
      Watch(restartTimestamps, consecutiveFailures, totalRestarts, status, alertActive, log)
    }

    constructor (config: Config)
      ensures this.config == config && State() == After(config, [])
    {
      this.config := config;
      restartTimestamps, consecutiveFailures, totalRestarts, status, alertActive, log := [], 0, 0, Starting, false, [];
    }

    method RestartPoolManager(now: real)
      modifies this
      ensures State() == Attempted(config, old(State()), now)
      ensures AttemptSays(config, old(State()), now, State())
      ensures Inv(config, old(State()), now) ==> Inv(config, State(), now)
    {
      if Inv(config, State(), now) { AttemptKeeps(config, State(), now); }
      restartTimestamps := restartTimestamps + [now];
      var cutoff := now - config.window;
      while restartTimestamps != [] && restartTimestamps[0] < cutoff
        invariant Pruned(restartTimestamps, cutoff) == Pruned(old(restartTimestamps) + [now], cutoff)
        invariant State() == old(State()).(stamps := restartTimestamps)
        decreases |restartTimestamps|
      {
        restartTimestamps := restartTimestamps[1..];
      }
      if |restartTimestamps| > config.maxRestarts {
        status := Alert;
        alertActive := true;
        return;
      }
      totalRestarts := totalRestarts + 1;
      consecutiveFailures := 0;
      status := Degraded;
      log := log + [now];
    }

    method PostRestart(now: real)
      modifies this
      ensures State() == Step(config, old(State()), ManualRestart(now))
      ensures !alertActive <==> totalRestarts == old(totalRestarts) + 1
      ensures AttemptSays(config, old(State()).(alert := false), now, State())
      ensures Inv(config, old(State()), now) ==> Inv(config, State(), now)
    {
      alertActive := false;
      RestartPoolManager(now);
    }

    method PostClearAlert()
      modifies this
      ensures State() == Step(config, old(State()), ClearAlert)
      ensures forall now :: Inv(config, State(), now)
      ensures config.maxRestarts >= 1 && config.window >= 0.0 ==>
        forall now :: Attempted(config, State(), now).restarts == totalRestarts + 1
    {
      alertActive := false;
      status := Degraded;
      restartTimestamps := [];
      log := [];
      forall now ensures Inv(config, State(), now) { NothingYet(config, State(), now); }
    }

    /** One turn of the main loop. */
    method TickOnce(now: real, exited: bool, healthy: bool)
      modifies this
      ensures State() == Step(config, old(State()), Tick(now, exited, healthy))
      ensures old(alertActive) ==> alertActive && totalRestarts == old(totalRestarts) && log == old(log)
      ensures alertActive ==> old(alertActive) || consecutiveFailures >= config.failThreshold
      ensures Inv(config, old(State()), now) ==> Inv(config, State(), now)
      ensures TickSays(config, old(State()), now, exited, healthy, State())
    {
      hide Inv;
      TickIs(config, State(), now, exited, healthy);
      TickKeeps(config, State(), now, exited, healthy);
      if exited {
        consecutiveFailures := config.failThreshold;
      } else if healthy {
        consecutiveFailures := 0;
        if !alertActive { status := Healthy; }
      } else {
        consecutiveFailures := consecutiveFailures + 1;
      }
      if consecutiveFailures >= config.failThreshold {
        if !alertActive { RestartPoolManager(now); }
      }
    }
  }

  // ----- The rate limit -----

  /** The clock did not run backwards during the events, and reads now after them. */
  predicate Clock(events: seq<Event>, now: real) {
    events == [] || match events[|events| - 1]
                    case ClearAlert => Clock(events[..|events| - 1], now)
                    case e => e.now <= now && Clock(events[..|events| - 1], e.now)
  }

  ghost predicate Sorted(s: seq<real>) {
    forall i, j :: 0 <= i <= j < |s| ==> s[i] <= s[j]
  }

  ghost predicate UpTo(s: seq<real>, now: real) {
    forall i :: 0 <= i < |s| ==> s[i] <= now
  }

  /** Any restart and the one maxRestarts later are more than a window apart: no window holds more than maxRestarts. */
  ghost predicate RateLimited(c: Config, log: seq<real>) {
    forall i, j :: 0 <= i && i + c.maxRestarts <= j < |log| ==> log[j] - log[i] > c.window
  }

  function FromEnd(s: seq<real>, k: nat): real
    requires 1 <= k <= |s|
  {
    s[|s| - k]
  }

  /** Counted from the end, every restart not older than cut has a time stamp that is no older. */
  ghost predicate Covers(stamps: seq<real>, log: seq<real>, cut: real) {
    forall k :: 1 <= k <= |log| && FromEnd(log, k) >= cut ==> k <= |stamps| && FromEnd(stamps, k) >= FromEnd(log, k)
  }

  ghost predicate Inv(c: Config, w: Watch, now: real) {
    Sorted(w.stamps) && UpTo(w.stamps, now) && Sorted(w.log) && UpTo(w.log, now)
    && RateLimited(c, w.log) && Covers(w.stamps, w.log, now - c.window)
  }

  lemma {:induction false} PrunedIsSuffix(stamps: seq<real>, cutoff: real)
    requires Sorted(stamps)
    ensures var p := Pruned(stamps, cutoff);
      |p| <= |stamps| && p == stamps[|stamps| - |p|..]
      && (forall i :: 0 <= i < |stamps| - |p| ==> stamps[i] < cutoff)
      && (forall i :: 0 <= i < |p| ==> p[i] >= cutoff)
  {
    if stamps != [] && stamps[0] < cutoff {
      var rest := stamps[1..];
      assert forall i, j :: 0 <= i <= j < |rest| ==> rest[i] == stamps[i + 1] && rest[j] == stamps[j + 1];
      PrunedIsSuffix(rest, cutoff);
      assert forall i :: 0 < i < |stamps| ==> stamps[i] == rest[i - 1];
    }
  }

  lemma CoversPruned(stamps: seq<real>, log: seq<real>, cut: real)
    requires Sorted(stamps) && Covers(stamps, log, cut)
    ensures Covers(Pruned(stamps, cut), log, cut)
  {
    PrunedIsSuffix(stamps, cut);
    var p := Pruned(stamps, cut);
    forall k | 1 <= k <= |log| && FromEnd(log, k) >= cut ensures k <= |p| && FromEnd(p, k) >= FromEnd(log, k) {
      assert FromEnd(stamps, k) >= cut;
    }
  }

  lemma SortedAppend(s: seq<real>, now: real)
    requires Sorted(s) && UpTo(s, now)
    ensures Sorted(s + [now]) && UpTo(s + [now], now)
  {
  }

  lemma CoversAttempt(stamps: seq<real>, log: seq<real>, cut: real, now: real)
    requires Sorted(stamps) && UpTo(stamps, now) && Covers(stamps, log, cut)
    ensures Covers(stamps + [now], log, cut)
    ensures Covers(stamps + [now], log + [now], cut)
  {
    var more, longer := stamps + [now], log + [now];
    SortedAppend(stamps, now);
    forall k | 1 <= k <= |log| && FromEnd(log, k) >= cut ensures k <= |more| && FromEnd(more, k) >= FromEnd(log, k) {
      assert FromEnd(stamps, k) == FromEnd(more, k + 1);
    }
    forall k | 1 <= k <= |longer| && FromEnd(longer, k) >= cut ensures k <= |more| && FromEnd(more, k) >= FromEnd(longer, k) {
      if k > 1 {
        assert FromEnd(longer, k) == FromEnd(log, k - 1);
        assert FromEnd(more, k) == FromEnd(stamps, k - 1);
      }
    }
  }

  /** A restart that the limit lets through is more than a window after the one maxRestarts before it. */
  lemma LimitHolds(c: Config, stamps: seq<real>, log: seq<real>, now: real)
    requires RateLimited(c, log) && Sorted(log) && UpTo(log, now)
    requires Covers(stamps, log + [now], now - c.window) && |stamps| <= c.maxRestarts
    ensures RateLimited(c, log + [now])
  {
    var longer := log + [now];
    forall i, j | 0 <= i && i + c.maxRestarts <= j < |longer| ensures longer[j] - longer[i] > c.window {
      if j == |log| {
        var k := |longer| - i;
        assert FromEnd(longer, k) == longer[i];
        assert k > |stamps|;
      }
    }
  }

  lemma AttemptKeeps(c: Config, w: Watch, now: real)
    requires Inv(c, w, now)
    ensures Inv(c, Attempted(c, w, now), now)
  {
    hide Sorted, UpTo, RateLimited, Covers, Pruned;
    var cut, more := now - c.window, w.stamps + [now];
    SortedAppend(w.stamps, now);
    SortedAppend(w.log, now);
    CoversAttempt(w.stamps, w.log, cut, now);
    CoversPruned(more, w.log, cut);
    CoversPruned(more, w.log + [now], cut);
    PrunedSorted(more, cut, now);
    if |Pruned(more, cut)| <= c.maxRestarts {
      LimitHolds(c, Pruned(more, cut), w.log, now);
    }
  }

  lemma PrunedSorted(stamps: seq<real>, cut: real, now: real)
    requires Sorted(stamps) && UpTo(stamps, now)
    ensures Sorted(Pruned(stamps, cut)) && UpTo(Pruned(stamps, cut), now)
  {
    PrunedIsSuffix(stamps, cut);
  }

  lemma TimePasses(c: Config, w: Watch, before: real, now: real)
    requires Inv(c, w, before) && before <= now
    ensures Inv(c, w, now)
  {
  }

  lemma StepKeeps(c: Config, w: Watch, now: real, e: Event)
    requires Inv(c, w, if e.ClearAlert? then now else e.now)
    ensures Inv(c, Step(c, w, e), if e.ClearAlert? then now else e.now)
  {
    hide Attempted, RateLimited, Sorted, UpTo, Covers;
    match e
    case Tick(t, exited, healthy) =>
      var checked := Checked(c, w, exited, healthy);
      assert Inv(c, checked, t);
      AttemptKeeps(c, checked, t);
    case ManualRestart(t) => AttemptKeeps(c, w.(alert := false), t);
    case ClearAlert => NothingYet(c, w.(alert := false, status := Degraded, stamps := [], log := []), now);
  }

  lemma TickKeeps(c: Config, w: Watch, now: real, exited: bool, healthy: bool)
    ensures Inv(c, w, now) ==> Inv(c, Step(c, w, Tick(now, exited, healthy)), now)
  {
    hide Step;
    if Inv(c, w, now) { StepKeeps(c, w, now, Tick(now, exited, healthy)); }
  }

  lemma NothingYet(c: Config, w: Watch, now: real)
    requires w.stamps == [] && w.log == []
    ensures Inv(c, w, now)
  {
  }

  /**
   * For any clock that does not run backwards and any mix of automatic and manual attempts, no window of the configured
   * length holds more than maxRestarts restarts, counted since the alert was last cleared by hand.
   */
  lemma {:induction false} RestartsRateLimited(c: Config, events: seq<Event>, now: real)
    requires Clock(events, now)
    ensures Inv(c, After(c, events), now) && RateLimited(c, After(c, events).log)
  {
    if events == [] {
      NothingYet(c, After(c, []), now);
    } else {
      hide Step, Covers, Sorted, UpTo, RateLimited;
      var init, e := events[..|events| - 1], events[|events| - 1];
      var t := if e.ClearAlert? then now else e.now;
      RestartsRateLimited(c, init, t);
      StepKeeps(c, After(c, init), now, e);
      TimePasses(c, After(c, events), t, now);
    }
  }

  // ----- The latch -----

  /** Nobody uses the manual endpoints. */
  predicate Unattended(events: seq<Event>) {
    forall i :: 0 <= i < |events| ==> events[i].Tick?
  }

  function Runs(c: Config, w: Watch, events: seq<Event>): Watch {
    if events == [] then w else Step(c, Runs(c, w, events[..|events| - 1]), events[|events| - 1])
  }

  /** Once latched, the alert stays and the main loop performs no restart, however long it runs unattended. */
  lemma {:induction false} AlertLatches(c: Config, w: Watch, events: seq<Event>)
    requires w.alert && Unattended(events)
    ensures var r := Runs(c, w, events); r.alert && r.restarts == w.restarts && r.log == w.log && r.stamps == w.stamps && r.status == w.status
  {
    if events != [] { AlertLatches(c, w, events[..|events| - 1]); }
  }

  /** The failures in a row that a turn counts: an exited process counts for as many as the threshold, an answer for none. */
  function CountedFailures(c: Config, failures: nat, exited: bool, healthy: bool): nat {
    if exited then c.failThreshold else if healthy then 0 else failures + 1
  }

  /** after is what one turn leaves of w: a restart, or the alert, at the threshold, and otherwise only the count and the status. */
  ghost predicate TickSays(c: Config, w: Watch, now: real, exited: bool, healthy: bool, after: Watch) {
    var failures := CountedFailures(c, w.failures, exited, healthy);
    if w.alert || failures < c.failThreshold then
      after == w.(failures := failures, status := if healthy && !exited && !w.alert then Healthy else w.status)
    else AttemptSays(c, w.(failures := failures), now, after)
  }

  /** after is what an attempt leaves of w: one more restart while the window has room for it, and otherwise the alert. */
  ghost predicate AttemptSays(c: Config, w: Watch, now: real, after: Watch) {
    var stamps := Pruned(w.stamps + [now], now - c.window);
    if |stamps| <= c.maxRestarts then after == Watch(stamps, 0, w.restarts + 1, Degraded, w.alert, w.log + [now])
    else after == Watch(stamps, w.failures, w.restarts, Alert, true, w.log)
  }

  lemma TickIs(c: Config, w: Watch, now: real, exited: bool, healthy: bool)
    ensures TickSays(c, w, now, exited, healthy, Step(c, w, Tick(now, exited, healthy)))
  {
  }

  /** The time stamps that count against the limit are those of the window, when the clock has not run backwards. */
  lemma WindowOf(stamps: seq<real>, now: real, window: real)
    requires Sorted(stamps) && UpTo(stamps, now)
    ensures forall x :: x in Pruned(stamps + [now], now - window) <==> x in stamps + [now] && now - x <= window
  {
    var all := stamps + [now];
    SortedAppend(stamps, now);
    PrunedIsSuffix(all, now - window);
    var p := Pruned(all, now - window);
    forall x | x in all && now - x <= window ensures x in p {
      var i :| 0 <= i < |all| && all[i] == x;
      assert i >= |all| - |p| && p[i - (|all| - |p|)] == x;
    }
  }

  /** Without an alert, a turn of the loop restarts exactly when the failures reach the threshold and the window has room. */
  lemma TickRestarts(c: Config, w: Watch, now: real, exited: bool, healthy: bool)
    requires !w.alert
    ensures var failures := if exited then c.failThreshold else if healthy then 0 else w.failures + 1;
            var room := |Pruned(w.stamps + [now], now - c.window)| <= c.maxRestarts;
            var after := Step(c, w, Tick(now, exited, healthy));
            (after.restarts == w.restarts + 1 <==> failures >= c.failThreshold && room)
            && (after.alert <==> failures >= c.failThreshold && !room)
            && after.failures == (if failures >= c.failThreshold && room then 0 else failures)
            && after.log == (if failures >= c.failThreshold && room then w.log + [now] else w.log)
  {
  }
}
