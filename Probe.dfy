/** `check_availability(max_retries)`: up to `max_retries` browser sessions, a 30-second pause
    after each session-level failure that leaves attempts over, one alert when they run out or when
    anything else goes wrong, and every session that was created quit before the attempt ends. */
module Probe {
  import opened Events
  import opened LinkScan

  /** Seconds slept between attempts after a session-level failure. */
  const RetryDelay: nat := 30

  /** What the browser does in one attempt. `SessionError` is any `WebDriverException` (which
      includes `SessionNotCreatedException` and `TimeoutException`, so a 10-second wait that times
      out lands here); `OtherError` is any other exception. `created` says whether `setup_driver`
      had returned a session before the exception. Otherwise the page showed `links`. */
  datatype Attempt =
    | SessionError(created: bool)
    | OtherError(created: bool)
    | Links(links: seq<LinkRead>)
  {
    /** Whether this attempt holds a session that the `finally` clause quits. */
    predicate Created()
    {
      Links? || created
    }
  }

  /** What one call returns (`None` when the loop never runs), what it did, and how many sessions
      it asked the browser for. */
  datatype ProbeRun = ProbeRun(result: Option<bool>, trace: seq<Event>, attempts: nat)

  /** What one attempt does: its events (the `except` handler runs before the `finally` clause
      quits the session) and, unless it is a session error with attempts left, what the call
      returns. `count` is `retry_count` at the start of the attempt. */
  datatype Step = Step(events: seq<Event>, exit: Option<bool>)

  /** The events between creating and quitting the session: the scan's alerts, or what the
      matching `except` clause does. */
  function Handle(maxRetries: int, attempt: Attempt, count: nat): Step
  {
    match attempt
    case Links(links) =>
      var scan := Scan(links);
      Step(scan.alerts, Some(scan.found))
    case OtherError(_) =>
      Step([Alert(Unexpected)], Some(false))
    case SessionError(_) =>
      if count + 1 < maxRetries then Step([Sleep(RetryDelay)], None)
      else Step([Alert(SessionFailed)], Some(false))
  }

  function Once(maxRetries: int, attempt: Attempt, count: nat): Step
  {
    var handled := Handle(maxRetries, attempt, count);
    if attempt.Created() then Step([Opened] + handled.events + [Quit], handled.exit)
    else handled
  }

  /** The retry loop from the iteration with `retry_count == count` on; `browser(i)` is how attempt
      `i` (counted from 0) goes. */
  function Retry(maxRetries: int, browser: nat -> Attempt, count: nat): ProbeRun
    decreases maxRetries - count
  {
    if count >= maxRetries then ProbeRun(None, [], 0)
    else
      var step := Once(maxRetries, browser(count), count);
      if step.exit.Some? then ProbeRun(step.exit, step.events, 1)
      else
        var rest := Retry(maxRetries, browser, count + 1);
        ProbeRun(rest.result, step.events + rest.trace, 1 + rest.attempts)
  }

  /** One call of `check_availability(maxRetries)` against the browser `browser`. */
  function Run(maxRetries: int, browser: nat -> Attempt): ProbeRun
  {
    Retry(maxRetries, browser, 0)
  }

  /** The body of one loop iteration: `try` (create the session, scan the links), the two
      `except` clauses, and `finally` (quit the session if one was created; errors from quitting
      are swallowed). */
  method TryAttempt(maxRetries: int, attempt: Attempt, retryCount: nat)
    returns (events: seq<Event>, exit: Option<bool>, retryCount': nat)
    ensures Step(events, exit) == Once(maxRetries, attempt, retryCount)
    ensures retryCount' == if attempt.SessionError? then retryCount + 1 else retryCount
  {
    retryCount' := retryCount;
    var driverUp := attempt.Created();
    events := if driverUp then [Opened] else [];
    exit := None;
    match attempt {
      case Links(links) =>
        var found, alerts := ScanLinks(links);
        events := events + alerts;
        exit := Some(found);
      case SessionError(_) =>
        retryCount' := retryCount + 1;
        if retryCount' < maxRetries {
          events := events + [Sleep(RetryDelay)];
        } else {
          events := events + [Alert(SessionFailed)];
          exit := Some(false);
        }
      case OtherError(_) =>
        events := events + [Alert(Unexpected)];
        exit := Some(false);
    }
    if driverUp {
      events := events + [Quit];
    }
  }

  /** The retry loop: `while retry_count < max_retries`. */
  method CheckAvailability(maxRetries: int, browser: nat -> Attempt)
    returns (result: Option<bool>, trace: seq<Event>, attempts: nat)
    ensures ProbeRun(result, trace, attempts) == Run(maxRetries, browser)
  {
    var retryCount: nat := 0;
    trace, attempts := [], 0;
    while retryCount < maxRetries
      invariant attempts == retryCount
      invariant Run(maxRetries, browser) == var rest := Retry(maxRetries, browser, retryCount);
        ProbeRun(rest.result, trace + rest.trace, attempts + rest.attempts)
      decreases maxRetries - retryCount
    {
      var events, exit, next := TryAttempt(maxRetries, browser(retryCount), retryCount);
      ghost var before, rest := trace, Retry(maxRetries, browser, next);
      trace := trace + events;
      attempts := attempts + 1;
      if exit.Some? {
        assert Retry(maxRetries, browser, retryCount) == ProbeRun(exit, events, 1);
        return exit, trace, attempts;
      }
      assert Retry(maxRetries, browser, retryCount) == ProbeRun(rest.result, events + rest.trace, 1 + rest.attempts);
      assert trace + rest.trace == before + (events + rest.trace);
      retryCount := next;
    }
    return None, trace, attempts;
  }

  // --- What the retry policy guarantees ---

  /** The first attempt from `count` on that is not a session error, or `maxRetries` when the
      session errors last until the attempts run out. */
  function FirstNonSession(maxRetries: int, browser: nat -> Attempt, count: nat): (k: nat)
    requires count <= maxRetries
    ensures count <= k <= maxRetries
    ensures forall i :: count <= i < k ==> browser(i).SessionError?
    ensures k < maxRetries ==> !browser(k).SessionError?
    decreases maxRetries - count
  {
    if count == maxRetries || !browser(count).SessionError? then count
    else FirstNonSession(maxRetries, browser, count + 1)
  }

  /** How the call ends: the session errors before the first other outcome are retried until the
      attempts run out; the first other outcome ends the call, with the scan's answer if the page
      was read and `False` otherwise; running out of attempts gives `False`. Exactly one session is
      asked for per attempt up to and including the deciding one. */
  lemma {:induction false} RetryOutcome(maxRetries: int, browser: nat -> Attempt, count: nat)
    requires count < maxRetries
    ensures var r, k := Retry(maxRetries, browser, count), FirstNonSession(maxRetries, browser, count);
      && r.attempts == (if k < maxRetries then k + 1 else maxRetries) - count
      && r.result == (if k < maxRetries && browser(k).Links? then Some(Scan(browser(k).links).found)
                      else Some(false))
    decreases maxRetries - count
  {
    if browser(count).SessionError? && count + 1 < maxRetries {
      RetryOutcome(maxRetries, browser, count + 1);
    }
  }

  /** What one attempt contributes between opening and quitting its session: only alerts and
      sleeps; a 30-second sleep exactly when it is a session error with attempts left, and no
      other sleep; the session alert exactly when it is a session error on the last attempt; the
      "unexpected error" alert exactly when it failed otherwise; link-error alerts for the rest. */
  lemma HandleEvents(maxRetries: int, attempt: Attempt, count: nat)
    ensures var h := Handle(maxRetries, attempt, count);
      && (forall e :: e in h.events ==> e.Alert? || e.Sleep?)
      && (forall e :: e in h.events && e.Sleep? ==> e == Sleep(RetryDelay))
      && multiset(h.events)[Sleep(RetryDelay)]
         == (if attempt.SessionError? && count + 1 < maxRetries then 1 else 0)
      && multiset(h.events)[Alert(SessionFailed)]
         == (if attempt.SessionError? && count + 1 >= maxRetries then 1 else 0)
      && multiset(h.events)[Alert(Unexpected)] == (if attempt.OtherError? then 1 else 0)
      && (forall e :: e in h.events && e.Alert? ==> e.notice in {SessionFailed, Unexpected, LinkFailed})
  {
    if attempt.Links? {
      var alerts := Scan(attempt.links).alerts;
      ScanAlertsBeforeFirstSlot(attempt.links);
      assert Sleep(RetryDelay) !in alerts && Alert(SessionFailed) !in alerts && Alert(Unexpected) !in alerts;
    }
  }

  /** Opening and quitting a session adds only session events. */
  lemma OnceEvents(maxRetries: int, attempt: Attempt, count: nat, e: Event)
    requires e.Alert? || e.Sleep?
    ensures multiset(Once(maxRetries, attempt, count).events)[e]
            == multiset(Handle(maxRetries, attempt, count).events)[e]
    ensures e in Once(maxRetries, attempt, count).events <==> e in Handle(maxRetries, attempt, count).events
  {
  }

  /** The pauses of a call: one 30-second sleep per session error that leaves attempts over, and
      no other sleep. */
  lemma {:induction false} RetrySleeps(maxRetries: int, browser: nat -> Attempt, count: nat)
    requires count < maxRetries
    ensures var r, k := Retry(maxRetries, browser, count), FirstNonSession(maxRetries, browser, count);
      && multiset(r.trace)[Sleep(RetryDelay)] == (if k < maxRetries then k else maxRetries - 1) - count
      && (forall e :: e in r.trace && e.Sleep? ==> e == Sleep(RetryDelay))
    decreases maxRetries - count
  {
    var a := browser(count);
    HandleEvents(maxRetries, a, count);
    OnceEvents(maxRetries, a, count, Sleep(RetryDelay));
    forall e: Event | e.Sleep?
      ensures e in Once(maxRetries, a, count).events ==> e == Sleep(RetryDelay)
    {
      OnceEvents(maxRetries, a, count, e);
    }
    if a.SessionError? && count + 1 < maxRetries {
      RetrySleeps(maxRetries, browser, count + 1);
    }
  }

  /** The alerts a call sends about itself: one session alert exactly when session errors use up
      every attempt; one "unexpected error" alert exactly when the deciding attempt failed
      otherwise. */
  lemma {:induction false} RetryAlerts(maxRetries: int, browser: nat -> Attempt, count: nat)
    requires count < maxRetries
    ensures var r, k := Retry(maxRetries, browser, count), FirstNonSession(maxRetries, browser, count);
      && multiset(r.trace)[Alert(SessionFailed)] == (if k < maxRetries then 0 else 1)
      && multiset(r.trace)[Alert(Unexpected)] == (if k < maxRetries && browser(k).OtherError? then 1 else 0)
    decreases maxRetries - count
  {
    var a := browser(count);
    HandleEvents(maxRetries, a, count);
    OnceEvents(maxRetries, a, count, Alert(SessionFailed));
    OnceEvents(maxRetries, a, count, Alert(Unexpected));
    if a.SessionError? && count + 1 < maxRetries {
      RetryAlerts(maxRetries, browser, count + 1);
    }
  }

  /** Within one attempt a session is opened at most once and, if opened, quit before the
      attempt ends. */
  lemma OnceSessions(maxRetries: int, attempt: Attempt, count: nat)
    ensures SessionsPaired(Once(maxRetries, attempt, count).events)
    ensures multiset(Once(maxRetries, attempt, count).events)[Opened] == if attempt.Created() then 1 else 0
  {
    HandleEvents(maxRetries, attempt, count);
    BracketedSession(Handle(maxRetries, attempt, count).events);
  }

  /** Every session a call creates is quit before the next one is created and before the call
      returns; no more sessions are created than attempts are made. */
  lemma {:induction false} RetrySessions(maxRetries: int, browser: nat -> Attempt, count: nat)
    ensures SessionsPaired(Retry(maxRetries, browser, count).trace)
    ensures multiset(Retry(maxRetries, browser, count).trace)[Opened] <= Retry(maxRetries, browser, count).attempts
    decreases maxRetries - count
  {
    if count < maxRetries {
      var step := Once(maxRetries, browser(count), count);
      OnceSessions(maxRetries, browser(count), count);
      if step.exit.None? {
        var rest := Retry(maxRetries, browser, count + 1);
        RetrySessions(maxRetries, browser, count + 1);
        SessionsPairedAppend(step.events, rest.trace);
      }
    }
  }

  /** The loop body runs only when `max_retries >= 1`; otherwise the call returns `None` without
      creating a session or sending anything. When it runs, it ends with `True` or `False` after at
      least one and at most `max_retries` attempts. */
  lemma RunReturns(maxRetries: int, browser: nat -> Attempt)
    ensures Run(maxRetries, browser).result.None? <==> maxRetries <= 0
    ensures maxRetries <= 0 ==> Run(maxRetries, browser).trace == [] && Run(maxRetries, browser).attempts == 0
    ensures maxRetries >= 1 ==> 1 <= Run(maxRetries, browser).attempts <= maxRetries
  {
    if maxRetries >= 1 {
      RetryOutcome(maxRetries, browser, 0);
    }
  }

  /** `max_retries` session errors in a row: `max_retries` sessions asked for, `max_retries - 1`
      pauses of 30 seconds, exactly one session alert, no other error alert, and `False`. */
  lemma SessionErrorsExhaustRetries(maxRetries: int, browser: nat -> Attempt)
    requires maxRetries >= 1
    requires forall i :: 0 <= i < maxRetries ==> browser(i).SessionError?
    ensures var r := Run(maxRetries, browser);
      && r.result == Some(false)
      && r.attempts == maxRetries
      && multiset(r.trace)[Sleep(RetryDelay)] == maxRetries - 1
      && multiset(r.trace)[Alert(SessionFailed)] == 1
      && multiset(r.trace)[Alert(Unexpected)] == 0
  {
    RetryOutcome(maxRetries, browser, 0);
    RetrySleeps(maxRetries, browser, 0);
    RetryAlerts(maxRetries, browser, 0);
  }

  /** `k` session errors followed by anything else, with `k < max_retries`: exactly `k` pauses,
      `k + 1` sessions asked for, no session alert, and the answer of attempt `k` (the scan's
      verdict, or `False` after one "unexpected error" alert). */
  lemma SessionErrorsThenDecided(maxRetries: int, browser: nat -> Attempt, k: nat)
    requires k < maxRetries
    requires forall i :: 0 <= i < k ==> browser(i).SessionError?
    requires !browser(k).SessionError?
    ensures var r := Run(maxRetries, browser);
      && r.attempts == k + 1
      && multiset(r.trace)[Sleep(RetryDelay)] == k
      && multiset(r.trace)[Alert(SessionFailed)] == 0
      && multiset(r.trace)[Alert(Unexpected)] == (if browser(k).OtherError? then 1 else 0)
      && r.result == (if browser(k).Links? then Some(Scan(browser(k).links).found) else Some(false))
  {
    assert FirstNonSession(maxRetries, browser, 0) == k by {
      FirstNonSessionIs(maxRetries, browser, 0, k);
    }
    RetryOutcome(maxRetries, browser, 0);
    RetrySleeps(maxRetries, browser, 0);
    RetryAlerts(maxRetries, browser, 0);
  }

  lemma {:induction false} FirstNonSessionIs(maxRetries: int, browser: nat -> Attempt, count: nat, k: nat)
    requires count <= k < maxRetries
    requires forall i :: count <= i < k ==> browser(i).SessionError?
    requires !browser(k).SessionError?
    ensures FirstNonSession(maxRetries, browser, count) == k
    decreases k - count
  {
    if count < k {
      FirstNonSessionIs(maxRetries, browser, count + 1, k);
    }
  }

  /** Any exception other than a session error aborts the call at once: one "unexpected error"
      alert, `False`, no further attempt and no pause after it. */
  lemma UnexpectedErrorAborts(maxRetries: int, browser: nat -> Attempt, k: nat)
    requires k < maxRetries
    requires forall i :: 0 <= i < k ==> browser(i).SessionError?
    requires browser(k).OtherError?
    ensures var r := Run(maxRetries, browser);
      && r.result == Some(false)
      && r.attempts == k + 1
      && multiset(r.trace)[Alert(Unexpected)] == 1
      && multiset(r.trace)[Sleep(RetryDelay)] == k
  {
    SessionErrorsThenDecided(maxRetries, browser, k);
  }

  /** The call returns `True` exactly when, after a run of session errors shorter than
      `max_retries`, the page is read and one of its links is a slot time. */
  lemma ProbeFindsSlotIff(maxRetries: int, browser: nat -> Attempt)
    ensures Run(maxRetries, browser).result == Some(true) <==>
      exists k :: 0 <= k < maxRetries && (forall i :: 0 <= i < k ==> browser(i).SessionError?)
        && browser(k).Links?
        && exists j :: 0 <= j < |browser(k).links| && IsSlotLink(browser(k).links[j])
  {
    if maxRetries >= 1 {
      var k := FirstNonSession(maxRetries, browser, 0);
      RetryOutcome(maxRetries, browser, 0);
      if k < maxRetries && browser(k).Links? {
        ScanFindsAnySlot(browser(k).links);
      }
      forall k' | 0 <= k' < maxRetries && (forall i :: 0 <= i < k' ==> browser(i).SessionError?)
          && browser(k').Links?
        ensures k' == k
      {
        FirstNonSessionIs(maxRetries, browser, 0, k');
      }
    }
  }

  /** A call sends only its own three kinds of alert: never "monitoring started" nor "slot found". */
  lemma {:induction false} RetryNotices(maxRetries: int, browser: nat -> Attempt, count: nat)
    ensures forall e :: e in Retry(maxRetries, browser, count).trace && e.Alert? ==>
      e.notice in {SessionFailed, Unexpected, LinkFailed}
    decreases maxRetries - count
  {
    if count < maxRetries {
      var a := browser(count);
      HandleEvents(maxRetries, a, count);
      if Once(maxRetries, a, count).exit.None? {
        RetryNotices(maxRetries, browser, count + 1);
      }
    }
  }
}
