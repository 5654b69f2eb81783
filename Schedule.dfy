/** One pass of the main loop: on Wednesday, Thursday and Friday, announce the start, probe every
    minute until a probe finds a slot, announce it, and nap `7 - weekday` days, where `weekday` is
    read when the pass begins. That nap reaches Monday only if the slot is found on the day the
    pass began; `DayIntended` is the pass with the nap counted from the moment of the find. */
module Schedule {
  import opened Events
  import opened SlotText
  import opened LinkScan
  import opened Probe

  const SecondsPerDay: nat := 86400

  /** Seconds between probes; doubled after a round that raised. */
  const CheckInterval: nat := 60

  /** The main loop calls `check_availability()` with its default `max_retries`. */
  const DefaultMaxRetries: int := 3

  /** `date.today().weekday()` at local time `now`, counted in seconds from a Monday 00:00
      (0 is Monday, 6 is Sunday). */
  function Weekday(now: nat): (w: nat)
    ensures w < 7
  {
    (now / SecondsPerDay) % 7
  }

  /** `weekday in [2, 3, 4]`: Wednesday, Thursday or Friday. */
  predicate IsMonitoringDay(weekday: int)
  {
    weekday == 2 || weekday == 3 || weekday == 4
  }

  /** `6 - weekday + 1`, the nap length as written, from the weekday read before the inner loop.
      On a monitoring day it is 3 to 5 days and lands on a Monday counted from `weekday`. */
  function NapDays(weekday: int): (days: int)
    ensures IsMonitoringDay(weekday) ==> 3 <= days <= 5 && (weekday + days) % 7 == 0
  {
    6 - weekday + 1
  }

  /** One iteration of the inner loop: `check_availability()` against the browser `browser`, or
      an exception escaping the iteration from code outside the model (such as the notification
      transport), whose partial effects are not modelled. */
  datatype Round = Probed(browser: nat -> Attempt) | Raised

  /** The inner loop's result: whether a probe found a slot, and what it did. */
  datatype WatchRun = WatchRun(found: bool, trace: seq<Event>)

  /** What one round does and whether it ends the inner loop: a raised round alerts and sleeps
      twice the interval; a probe that returns `True` alerts and then sleeps the interval, like
      any other probe. */
  function RoundStep(round: Round): WatchRun
  {
    match round
    case Raised => WatchRun(false, [Alert(Unexpected), Sleep(2 * CheckInterval)])
    case Probed(browser) =>
      var probe := Run(DefaultMaxRetries, browser);
      if probe.result == Some(true) then WatchRun(true, probe.trace + [Alert(SlotFound), Sleep(CheckInterval)])
      else WatchRun(false, probe.trace + [Sleep(CheckInterval)])
  }

  /** `while not found`, over the rounds the environment supplies. */
  function Watch(rounds: seq<Round>): WatchRun
  {
    if |rounds| == 0 then WatchRun(false, [])
    else
      var step := RoundStep(rounds[0]);
      if step.found then step
      else
        var rest := Watch(rounds[1..]);
        WatchRun(rest.found, step.trace + rest.trace)
  }

  /** `Idle`: not a monitoring day. `Found`: a slot was found and the nap taken.
      `StillWatching`: the supplied rounds ran out while the inner loop would go on. */
  datatype DayOutcome = Idle | Found | StillWatching

  datatype DayRun = DayRun(outcome: DayOutcome, trace: seq<Event>)

  /** One pass of the main loop started at local time `today`, with the inner loop's rounds. */
  function Day(today: nat, rounds: seq<Round>): DayRun
  {
    var weekday := Weekday(today);
    if !IsMonitoringDay(weekday) then DayRun(Idle, [])
    else
      var watch := Watch(rounds);
      if watch.found then
        DayRun(Found, [Alert(MonitoringStarted)] + watch.trace + [Sleep(SecondsPerDay * NapDays(weekday))])
      else
        DayRun(StillWatching, [Alert(MonitoringStarted)] + watch.trace)
  }

  /** The body of the inner loop: the `try` around one probe and its `except`. */
  method PlayRound(round: Round) returns (found: bool, events: seq<Event>)
    ensures WatchRun(found, events) == RoundStep(round)
  {
    found := false;
    match round {
      case Raised =>
        events := [Alert(Unexpected), Sleep(2 * CheckInterval)];
      case Probed(browser) =>
        var result, probeTrace, _ := CheckAvailability(DefaultMaxRetries, browser);
        events := probeTrace;
        if result == Some(true) {
          events := events + [Alert(SlotFound)];
          found := true;
        }
        events := events + [Sleep(CheckInterval)];
    }
  }

  /** `Watch` over the rounds from `i` on, one round unfolded. */
  lemma WatchAt(rounds: seq<Round>, i: nat)
    requires i < |rounds|
    ensures var step, rest := RoundStep(rounds[i]), Watch(rounds[i + 1..]);
      Watch(rounds[i..]) == if step.found then step else WatchRun(rest.found, step.trace + rest.trace)
  {
    assert rounds[i..][1..] == rounds[i + 1..];
  }

  /** The body of `while True`, up to the nap: the day gate, the start alert, the inner loop and
      the nap computed from the weekday read before the inner loop began. */
  method MonitorDay(today: nat, rounds: seq<Round>) returns (outcome: DayOutcome, trace: seq<Event>)
    ensures DayRun(outcome, trace) == Day(today, rounds)
  {
    var weekday := Weekday(today);
    if !IsMonitoringDay(weekday) {
      return Idle, [];
    }
    trace := [Alert(MonitoringStarted)];
    var found := false;
    var watched: seq<Event> := [];
    var i := 0;
    while !found && i < |rounds|
      invariant 0 <= i <= |rounds|
      invariant !found ==> Watch(rounds) == WatchRun(Watch(rounds[i..]).found, watched + Watch(rounds[i..]).trace)
      invariant found ==> Watch(rounds) == WatchRun(true, watched)
      decreases |rounds| - i
    {
      WatchAt(rounds, i);
      ghost var before := watched;
      var events;
      found, events := PlayRound(rounds[i]);
      watched := watched + events;
      if !found {
        assert watched + Watch(rounds[i + 1..]).trace == before + (events + Watch(rounds[i + 1..]).trace);
      }
      i := i + 1;
    }
    trace := trace + watched;
    if found {
      trace := trace + [Sleep(SecondsPerDay * NapDays(weekday))];
      outcome := Found;
    } else {
      outcome := StillWatching;
    }
  }

  // --- What one pass of the main loop guarantees ---

  /** A round ends the inner loop exactly when it is a probe that returns `True`. */
  predicate Finds(round: Round)
  {
    round.Probed? && Run(DefaultMaxRetries, round.browser).result == Some(true)
  }

  /** The position of the first round that finds a slot, or `|rounds|`. */
  function FirstFind(rounds: seq<Round>): (k: nat)
    ensures k <= |rounds|
    ensures forall i :: 0 <= i < k ==> !Finds(rounds[i])
    ensures k < |rounds| ==> Finds(rounds[k])
  {
    if |rounds| == 0 || Finds(rounds[0]) then 0 else 1 + FirstFind(rounds[1..])
  }

  /** The number of rounds that raised. */
  function RaisedCount(rounds: seq<Round>): nat
  {
    if |rounds| == 0 then 0 else (if rounds[0].Raised? then 1 else 0) + RaisedCount(rounds[1..])
  }

  /** One round: it ends the loop exactly when it finds; it never announces the start; it
      announces a slot exactly when it ends the loop; it sleeps twice the interval exactly when it
      raised. */
  lemma RoundAlerts(round: Round)
    ensures var step := RoundStep(round);
      && step.found == Finds(round)
      && (forall e :: e in step.trace && e.Alert? ==> e.notice != MonitoringStarted)
      && multiset(step.trace)[Alert(SlotFound)] == (if step.found then 1 else 0)
      && multiset(step.trace)[Sleep(2 * CheckInterval)] == (if round.Raised? then 1 else 0)
  {
    if round.Probed? {
      var probe := Run(DefaultMaxRetries, round.browser);
      RetryNotices(DefaultMaxRetries, round.browser, 0);
      RetrySleeps(DefaultMaxRetries, round.browser, 0);
      ProbeThenTail(probe.trace, probe.result == Some(true));
    }
  }

  /** A probe's trace followed by what the round adds after it. */
  lemma ProbeThenTail(t: seq<Event>, found: bool)
    requires forall e :: e in t && e.Alert? ==> e.notice in {SessionFailed, Unexpected, LinkFailed}
    requires forall e :: e in t && e.Sleep? ==> e == Sleep(RetryDelay)
    ensures var u := t + (if found then [Alert(SlotFound), Sleep(CheckInterval)] else [Sleep(CheckInterval)]);
      && (forall e :: e in u && e.Alert? ==> e.notice != MonitoringStarted)
      && multiset(u)[Alert(SlotFound)] == (if found then 1 else 0)
      && multiset(u)[Sleep(2 * CheckInterval)] == 0
  {
    var tail := if found then [Alert(SlotFound), Sleep(CheckInterval)] else [Sleep(CheckInterval)];
    assert Alert(SlotFound) !in t && Sleep(2 * CheckInterval) !in t;
    assert multiset(t + tail) == multiset(t) + multiset(tail);
  }

  /** Every session a round opens is quit within the round. */
  lemma RoundSessions(round: Round)
    ensures SessionsPaired(RoundStep(round).trace)
  {
    if round.Probed? {
      var probe := Run(DefaultMaxRetries, round.browser);
      RetrySessions(DefaultMaxRetries, round.browser, 0);
      var tail := if probe.result == Some(true) then [Alert(SlotFound), Sleep(CheckInterval)]
                  else [Sleep(CheckInterval)];
      BracketedSession(tail);
      SessionsPairedAppend(probe.trace, tail);
    } else {
      BracketedSession([Alert(Unexpected), Sleep(2 * CheckInterval)]);
    }
  }

  /** The inner loop ends exactly when some round's probe returns `True`: a round that raised,
      like a probe that finds nothing, does not end it. */
  lemma {:induction false} WatchFindsIff(rounds: seq<Round>)
    ensures Watch(rounds).found <==> exists i :: 0 <= i < |rounds| && Finds(rounds[i])
  {
    if |rounds| > 0 {
      RoundAlerts(rounds[0]);
      var rest := rounds[1..];
      if !Finds(rounds[0]) {
        WatchFindsIff(rest);
        if exists i :: 0 <= i < |rest| && Finds(rest[i]) {
          var i :| 0 <= i < |rest| && Finds(rest[i]);
          assert Finds(rounds[i + 1]);
        }
        if exists i :: 0 <= i < |rounds| && Finds(rounds[i]) {
          var i :| 0 <= i < |rounds| && Finds(rounds[i]);
          assert i > 0 && Finds(rest[i - 1]);
        }
      }
    }
  }

  /** The inner loop announces the slot once when it finds one and never otherwise; it never
      announces the start; it sleeps twice the interval once per raised round before the deciding
      one. */
  lemma WatchAlerts(rounds: seq<Round>)
    ensures var w := Watch(rounds);
      && multiset(w.trace)[Alert(SlotFound)] == (if w.found then 1 else 0)
      && (forall e :: e in w.trace && e.Alert? ==> e.notice != MonitoringStarted)
      && multiset(w.trace)[Sleep(2 * CheckInterval)] == RaisedCount(rounds[..FirstFind(rounds)])
  {
    WatchSlotAlerts(rounds);
    WatchNoStart(rounds);
    WatchRaisedSleeps(rounds);
  }

  lemma {:induction false} WatchSlotAlerts(rounds: seq<Round>)
    ensures multiset(Watch(rounds).trace)[Alert(SlotFound)] == if Watch(rounds).found then 1 else 0
  {
    if |rounds| > 0 {
      RoundAlerts(rounds[0]);
      if !Finds(rounds[0]) {
        WatchSlotAlerts(rounds[1..]);
      }
    }
  }

  lemma {:induction false} WatchNoStart(rounds: seq<Round>)
    ensures forall e :: e in Watch(rounds).trace && e.Alert? ==> e.notice != MonitoringStarted
  {
    if |rounds| > 0 {
      RoundAlerts(rounds[0]);
      if !Finds(rounds[0]) {
        WatchNoStart(rounds[1..]);
      }
    }
  }

  lemma {:induction false} WatchRaisedSleeps(rounds: seq<Round>)
    ensures multiset(Watch(rounds).trace)[Sleep(2 * CheckInterval)] == RaisedCount(rounds[..FirstFind(rounds)])
  {
    if |rounds| == 0 {
      assert rounds[..0] == [];
    } else {
      RoundAlerts(rounds[0]);
      var rest := rounds[1..];
      if Finds(rounds[0]) {
        assert rounds[..FirstFind(rounds)] == [];
      } else {
        WatchRaisedSleeps(rest);
        assert rounds[..FirstFind(rounds)][1..] == rest[..FirstFind(rest)];
      }
    }
  }

  /** Every session the inner loop opens is quit before the next is opened. */
  lemma {:induction false} WatchSessions(rounds: seq<Round>)
    ensures SessionsPaired(Watch(rounds).trace)
  {
    if |rounds| == 0 {
      BracketedSession([]);
    } else {
      RoundAlerts(rounds[0]);
      RoundSessions(rounds[0]);
      if !Finds(rounds[0]) {
        WatchSessions(rounds[1..]);
        SessionsPairedAppend(RoundStep(rounds[0]).trace, Watch(rounds[1..]).trace);
      }
    }
  }

  /** The day gate: the pass does anything at all exactly on Wednesday, Thursday and Friday. */
  lemma DayGate(today: nat, rounds: seq<Round>)
    ensures Day(today, rounds).outcome != Idle <==> Weekday(today) in {2, 3, 4}
    ensures Day(today, rounds).outcome == Idle ==> Day(today, rounds).trace == []
  {
  }

  /** On a monitoring day the start is announced exactly once, before anything else. */
  lemma StartAnnouncedOnce(today: nat, rounds: seq<Round>)
    requires IsMonitoringDay(Weekday(today))
    ensures Day(today, rounds).trace[0] == Alert(MonitoringStarted)
    ensures multiset(Day(today, rounds).trace)[Alert(MonitoringStarted)] == 1
  {
    var w := Watch(rounds);
    WatchAlerts(rounds);
    assert Alert(MonitoringStarted) !in w.trace;
  }

  /** On a monitoring day the pass ends with the nap exactly when some round's probe returned
      `True`, and announces the slot exactly once in that case and never otherwise. */
  lemma SlotAnnouncedOnFind(today: nat, rounds: seq<Round>)
    requires IsMonitoringDay(Weekday(today))
    ensures Day(today, rounds).outcome == Found <==> exists i :: 0 <= i < |rounds| && Finds(rounds[i])
    ensures multiset(Day(today, rounds).trace)[Alert(SlotFound)]
            == if Day(today, rounds).outcome == Found then 1 else 0
  {
    WatchFindsIff(rounds);
    WatchAlerts(rounds);
  }

  /** A pass that found a slot ends with the slot announcement, the interval and the nap of
      `7 - weekday` days, 3 to 5 days that end on a Monday counted from the weekday the pass began. */
  lemma FoundPassEndsWithNap(today: nat, rounds: seq<Round>)
    requires Day(today, rounds).outcome == Found
    ensures var t, days := Day(today, rounds).trace, NapDays(Weekday(today));
      && |t| >= 3
      && t[|t| - 3..] == [Alert(SlotFound), Sleep(CheckInterval), Sleep(SecondsPerDay * days)]
      && 3 <= days <= 5 && (Weekday(today) + days) % 7 == 0
  {
    var w := Watch(rounds);
    WatchEndsWithSlotFound(rounds);
    LastOfPass(w.trace, SecondsPerDay * NapDays(Weekday(today)));
  }

  lemma LastOfPass(w: seq<Event>, seconds: nat)
    requires |w| >= 2 && w[|w| - 2..] == [Alert(SlotFound), Sleep(CheckInterval)]
    ensures var t := [Alert(MonitoringStarted)] + w + [Sleep(seconds)];
      |t| >= 3 && t[|t| - 3..] == [Alert(SlotFound), Sleep(CheckInterval), Sleep(seconds)]
  {
    var t := [Alert(MonitoringStarted)] + w + [Sleep(seconds)];
    assert t[|t| - 3..] == w[|w| - 2..] + [Sleep(seconds)];
  }

  /** Every session opened during a pass is quit before the next is opened, and before the pass
      ends. */
  lemma DaySessionsPaired(today: nat, rounds: seq<Round>)
    ensures SessionsPaired(Day(today, rounds).trace)
  {
    if !IsMonitoringDay(Weekday(today)) {
      BracketedSession([]);
    } else {
      var w := Watch(rounds);
      var watched := [Alert(MonitoringStarted)] + w.trace;
      WatchSessions(rounds);
      BracketedSession([Alert(MonitoringStarted)]);
      SessionsPairedAppend([Alert(MonitoringStarted)], w.trace);
      if w.found {
        PairedThenSleep(watched, SecondsPerDay * NapDays(Weekday(today)));
      }
    }
  }

  /** A sleep opens and quits nothing. */
  lemma PairedThenSleep(t: seq<Event>, seconds: nat)
    requires SessionsPaired(t)
    ensures SessionsPaired(t + [Sleep(seconds)])
  {
    BracketedSession([Sleep(seconds)]);
    SessionsPairedAppend(t, [Sleep(seconds)]);
  }

  /** When the inner loop finds a slot, its last two events are the slot alert and the interval. */
  lemma {:induction false} WatchEndsWithSlotFound(rounds: seq<Round>)
    requires Watch(rounds).found
    ensures |Watch(rounds).trace| >= 2
    ensures Watch(rounds).trace[|Watch(rounds).trace| - 2..] == [Alert(SlotFound), Sleep(CheckInterval)]
  {
    RoundAlerts(rounds[0]);
    if !Finds(rounds[0]) {
      WatchEndsWithSlotFound(rounds[1..]);
    }
  }

  // --- Finding: the nap is computed from a stale weekday ---

  /** The pass as written: if the slot is found after midnight, it wakes on Tuesday, not Monday.
      Friday 23:59:00; the first probe sees no slot, the next one (after the 60-second interval,
      so on Saturday) finds one, and the 3-day nap computed from Friday ends on Tuesday. */
  lemma NapMissesMondayAsWritten()
    ensures var today := 4 * SecondsPerDay + SecondsPerDay - 60;
      var rounds := [Probed(_ => Links([])), Probed(_ => Links([Text("10:30")]))];
      var day := Day(today, rounds);
      && day.outcome == Found
      && day.trace[|day.trace| - 1] == Sleep(3 * SecondsPerDay)
      && Weekday(today + Elapsed(day.trace)) == 1
  {
    var first := [Opened, Quit, Sleep(CheckInterval)];
    var second := [Opened, Quit, Alert(SlotFound), Sleep(CheckInterval)];
    var nap := [Sleep(SecondsPerDay * 3)];
    FridayNightWatch(first, second);
    FridayNightElapsed(first, second, nap);
  }

  /** The inner loop of `NapMissesMondayAsWritten`: two sessions, then the slot alert. */
  lemma FridayNightWatch(first: seq<Event>, second: seq<Event>)
    requires first == [Opened, Quit, Sleep(CheckInterval)]
    requires second == [Opened, Quit, Alert(SlotFound), Sleep(CheckInterval)]
    ensures Weekday(4 * SecondsPerDay + SecondsPerDay - 60) == 4
    ensures Watch([Probed(_ => Links([])), Probed(_ => Links([Text("10:30")]))]) == WatchRun(true, first + second)
  {
    var empty: nat -> Attempt := _ => Links([]);
    var slot: nat -> Attempt := _ => Links([Text("10:30")]);
    var rounds := [Probed(empty), Probed(slot)];
    assert StartsWithTime("10:30");
    UnpaddedSlotText("10:30");
    assert Scan([Text("10:30")]) == ScanResult(true, []);
    assert Scan([]) == ScanResult(false, []);
    assert Run(DefaultMaxRetries, empty) == ProbeRun(Some(false), [Opened, Quit], 1);
    assert Run(DefaultMaxRetries, slot) == ProbeRun(Some(true), [Opened, Quit], 1);
    assert rounds[1..] == [Probed(slot)];
    assert Watch(rounds[1..]) == WatchRun(true, second);
  }

  /** The time that pass takes: two check intervals and the 3-day nap. */
  lemma FridayNightElapsed(first: seq<Event>, second: seq<Event>, nap: seq<Event>)
    requires first == [Opened, Quit, Sleep(CheckInterval)]
    requires second == [Opened, Quit, Alert(SlotFound), Sleep(CheckInterval)]
    requires nap == [Sleep(SecondsPerDay * 3)]
    ensures Elapsed([Alert(MonitoringStarted)] + (first + second) + nap) == 2 * CheckInterval + 3 * SecondsPerDay
  {
    var trace := [Alert(MonitoringStarted)] + (first + second) + nap;
    ElapsedSingle(Opened);
    ElapsedSingle(Quit);
    ElapsedSingle(Alert(SlotFound));
    ElapsedSingle(Alert(MonitoringStarted));
    ElapsedSingle(Sleep(CheckInterval));
    ElapsedSingle(nap[0]);
    ElapsedAppend([Opened], [Quit]);
    assert [Opened] + [Quit] == [Opened, Quit];
    ElapsedAppend([Opened, Quit], [Sleep(CheckInterval)]);
    assert [Opened, Quit] + [Sleep(CheckInterval)] == first;
    ElapsedAppend([Opened, Quit], [Alert(SlotFound)]);
    assert [Opened, Quit] + [Alert(SlotFound)] == [Opened, Quit, Alert(SlotFound)];
    ElapsedAppend([Opened, Quit, Alert(SlotFound)], [Sleep(CheckInterval)]);
    assert [Opened, Quit, Alert(SlotFound)] + [Sleep(CheckInterval)] == second;
    ElapsedAppend([Alert(MonitoringStarted)] + first, second + nap);
    assert trace == [Alert(MonitoringStarted)] + first + (second + nap);
    ElapsedAppend([Alert(MonitoringStarted)], first);
    ElapsedAppend(second, nap);
  }

  /** The pass as evidently intended: the same as `Day` up to the nap, which is counted from the
      weekday when the slot is found. */
  function DayIntended(today: nat, rounds: seq<Round>): DayRun
  {
    var day := Day(today, rounds);
    if day.outcome != Found then day
    else
      var watched := day.trace[..|day.trace| - 1];
      DayRun(Found, watched + [Sleep(SecondsPerDay * NapUntilMonday(today + Elapsed(watched)))])
  }

  /** The intended pass differs from the pass as written at most in the length of its final nap,
      and not at all when the slot is found on the weekday the pass began. */
  lemma DayIntendedOnlyChangesNap(today: nat, rounds: seq<Round>)
    ensures var day, fixed := Day(today, rounds), DayIntended(today, rounds);
      && fixed.outcome == day.outcome
      && |fixed.trace| == |day.trace|
      && (day.outcome != Found ==> fixed.trace == day.trace)
      && (day.outcome == Found ==>
            && fixed.trace[..|fixed.trace| - 1] == day.trace[..|day.trace| - 1]
            && fixed.trace[|fixed.trace| - 1].Sleep?
            && (Weekday(today + Elapsed(day.trace[..|day.trace| - 1])) == Weekday(today) ==> fixed == day))
  {
    var day := Day(today, rounds);
    if day.outcome == Found {
      var watched := day.trace[..|day.trace| - 1];
      var now := today + Elapsed(watched);
      var fixedTrace := watched + [Sleep(SecondsPerDay * NapUntilMonday(now))];
      assert fixedTrace[..|fixedTrace| - 1] == watched;
      if Weekday(now) == Weekday(today) {
        NapUntilMondayAgreesOnStartDay(today, now);
        assert day.trace == watched + [day.trace[|day.trace| - 1]];
      }
    }
  }

  /** A pass as intended that found a slot wakes up on a Monday. */
  lemma FoundPassWakesOnMonday(today: nat, rounds: seq<Round>)
    requires DayIntended(today, rounds).outcome == Found
    ensures Weekday(today + Elapsed(DayIntended(today, rounds).trace)) == 0
  {
    var day := Day(today, rounds);
    var watched := day.trace[..|day.trace| - 1];
    var nap := Sleep(SecondsPerDay * NapUntilMonday(today + Elapsed(watched)));
    ElapsedAppend(watched, [nap]);
    ElapsedSingle(nap);
  }

  /** The evident intent ("nap till Monday"): the nap measured from the weekday at the moment the
      slot is found. It always wakes on a Monday, after one to seven days. */
  function NapUntilMonday(now: nat): (days: nat)
    ensures 1 <= days <= 7
    ensures Weekday(now + SecondsPerDay * days) == 0
  {
    var days := 7 - Weekday(now);
    assert (now + SecondsPerDay * days) / SecondsPerDay == now / SecondsPerDay + days;
    days
  }

  /** It agrees with the nap as written whenever the slot is found on the day the pass began. */
  lemma NapUntilMondayAgreesOnStartDay(today: nat, now: nat)
    requires IsMonitoringDay(Weekday(today)) && Weekday(now) == Weekday(today)
    ensures NapUntilMonday(now) == NapDays(Weekday(today))
  {
  }
}
