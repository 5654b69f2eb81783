# sokol-monitor: slot scan, retry policy and monitoring day

`check_availability.py` watches a booking page for a free slot of one class. On Wednesday,
Thursday and Friday it opens a headless browser every minute and clicks the class. Any link
text that starts with a time such as `10:30` counts as an open slot. When it finds one, it
pushes a notification and naps `7 - weekday` days. `weekday` is read when the day's
monitoring begins, so the nap ends on a Monday only if the slot is found that same day (see
Findings). This project models the decision logic under the browser and network plumbing, and
proves what that logic guarantees.

Everything the program does is recorded as a trace of `Events.Event` values:

- `Alert(notice)`: a push notification, one constructor per message text;
- `Sleep(seconds)`: a `time.sleep`;
- `Opened` and `Quit`: a browser session being created and quit.

The browser is a function `browser: nat -> Attempt` that says how attempt `i` goes:

- a session-level exception (`WebDriverException`, which includes `SessionNotCreatedException`
  and `TimeoutException`);
- any other exception;
- the list of links shown after the click, each link `Text(raw)` or `Throws` when reading its
  text raises.

In both error cases a flag says whether a session had already been created.

Modules:

- `Events`: notices and their exact message texts, trace events, session pairing, elapsed time.
- `SlotText`: `str.strip()` and a backtracking matcher for `re.match(r"\d{1,2}:\d{2}", ...)`,
  proved equal to "starts with `H:MM` or `HH:MM`".
- `LinkScan`: the `for` loop over the links (`ScanLinks`), proved against the function `Scan`.
- `Probe`: `check_availability(max_retries)`. The loop body is `TryAttempt` and the loop is
  `CheckAvailability`; both are proved against the functions `Once` and `Run`. Lemmas state the
  retry policy.
- `Schedule`: one pass of the main loop. One inner-loop iteration is `PlayRound` and the pass is
  `MonitorDay`; both are proved against `RoundStep` and `Day`. Lemmas state the day gate, the
  alerts and the nap. `DayIntended` is the same pass with the corrected nap from Findings.

A wait timeout at line 65 or 71 raises `TimeoutException`, a subclass of `WebDriverException`.
So it is caught by the session-error clause at line 89 and retried, not by the generic clause
at line 100. The model follows the code here.

## Model

| member | source | states |
|---|---|---|
| Events.MessageInjective | check_availability.py:85-138 | different notices have different push bodies; the two catch-all handlers (lines 103 and 138) send the same body, so they are one notice |
| SlotText.StripLeftSpec | check_availability.py:77 | leading-whitespace removal gives the longest suffix that does not start with whitespace, and removes only whitespace |
| SlotText.StripRightSpec | check_availability.py:77 | trailing-whitespace removal gives the longest prefix that does not end with whitespace, and removes only whitespace |
| SlotText.StripSpec | check_availability.py:77 | `strip()` returns the slice of the text between its leading and trailing whitespace, and everything outside that slice is whitespace |
| SlotText.StripEnds | check_availability.py:77-78 | the stripped text is empty (the link is skipped) iff the text is all whitespace; otherwise it neither starts nor ends with whitespace |
| SlotText.GreedyDigits | check_availability.py:80-81 | the greedy `\d{1,2}` takes at most two leading digits, all of them digits, and stops early only at a non-digit |
| SlotText.MatcherAgreesWithPattern | check_availability.py:80-81 | the backtracking match of `\d{1,2}:\d{2}`, anchored at the start, succeeds iff the text starts with `D:DD` or `DD:DD`; what follows is ignored |
| SlotText.StartsWithTimeIgnoresTrailingSpace | check_availability.py:77-81 | removing trailing whitespace never changes whether the text starts with a time |
| SlotText.SlotTextSpec | check_availability.py:77-81 | a link text is a slot iff, after its leading whitespace, it starts with `H:MM` or `HH:MM`; the blank-text guard never changes the verdict |
| SlotText.UnpaddedSlotText | check_availability.py:77-81 | a text that does not start with whitespace is a slot iff it starts with a time |
| SlotText.SlotTextAccepts | check_availability.py:77-82 | `"10:30 - book"`, `"  9:05\n"` and `"12:345"` are slots |
| SlotText.SlotTextRejects | check_availability.py:77-81 | `"Book 10:30"`, `"1030"`, `"123:45"`, `"1:3"` and a whitespace-only text are not slots |
| LinkScan.FirstSlot | check_availability.py:75-82 | the position of the first slot link: no earlier link is one, and it is one unless it is past the end |
| LinkScan.ScanLinks | check_availability.py:75-87 | the loop over the links, with its early return, returns exactly the verdict and alerts of `Scan` |
| LinkScan.ScanFindsAnySlot | check_availability.py:75-87 | the scan returns `True` iff some link's text is a slot; an unreadable link does not stop later links from being examined |
| LinkScan.ScanAlertsBeforeFirstSlot | check_availability.py:83-86 | the scan sends exactly one link-error alert for each unreadable link before the first slot link, and no other alert |
| Probe.TryAttempt | check_availability.py:53-111 | one loop iteration produces the events and exit of `Once`, with the handler's events before the `finally` quit; `retry_count` goes up only on a session error |
| Probe.CheckAvailability | check_availability.py:50-111 | the `while retry_count < max_retries` loop returns the result, trace and attempt count of `Run` |
| Probe.FirstNonSession | check_availability.py:89-98 | the first attempt from `count` on that is not a session error, or `max_retries`; every attempt before it is a session error |
| Probe.RetryOutcome | check_availability.py:51-104 | the call makes one attempt per leading session error plus the deciding one, capped at `max_retries`; it returns the scan's verdict if that attempt read the page, and `False` otherwise |
| Probe.HandleEvents | check_availability.py:75-104 | inside a session an attempt only alerts and sleeps: one 30 s sleep iff it is a session error with attempts left, one session alert iff it is a session error on the last attempt, one "unexpected" alert iff it is another error |
| Probe.OnceEvents | check_availability.py:106-111 | the `finally` clause adds only the session's opening and quitting |
| Probe.RetrySleeps | check_availability.py:89-94 | the call sleeps 30 s once per session error that leaves attempts over, and never for any other length |
| Probe.RetryAlerts | check_availability.py:95-104 | one session alert iff session errors use up every attempt; one "unexpected" alert iff the deciding attempt failed otherwise |
| Probe.OnceSessions | check_availability.py:53-55 | a created session is opened once and quit before its attempt ends; no session means no quit |
| Probe.RetrySessions | check_availability.py:106-111 | each session is quit before the next is created and before the call returns; sessions never outnumber attempts |
| Probe.RunReturns | check_availability.py:50-52 | the result is `None` iff `max_retries <= 0`, and then nothing is sent or created; otherwise 1 to `max_retries` attempts are made |
| Probe.SessionErrorsExhaustRetries | check_availability.py:89-98 | `max_retries` session errors give `False`, `max_retries` attempts, `max_retries - 1` sleeps of 30 s, one session alert and no "unexpected" alert |
| Probe.SessionErrorsThenDecided | check_availability.py:89-104 | `k < max_retries` session errors and then anything else give exactly `k` sleeps, `k + 1` attempts, no session alert, and the answer of attempt `k` |
| Probe.FirstNonSessionIs | check_availability.py:89-92 | the first non-session attempt is the `k` whose predecessors are all session errors |
| Probe.UnexpectedErrorAborts | check_availability.py:100-104 | any other exception gives one "unexpected" alert and `False` at once, with no later attempt and no sleep after it |
| Probe.ProbeFindsSlotIff | check_availability.py:50-98 | the call returns `True` iff, after fewer than `max_retries` session errors, the page is read and one of its links is a slot |
| Probe.RetryNotices | check_availability.py:85-103 | the call sends only link, session and "unexpected" alerts, never "started" or "found" |
| Schedule.Weekday | check_availability.py:116-117 | the weekday is between 0 (Monday) and 6 |
| Schedule.NapDays | check_availability.py:141 | on Wednesday to Friday, `6 - weekday + 1` is 3 to 5 days and ends on a Monday counted from that weekday |
| Schedule.PlayRound | check_availability.py:123-139 | one inner-loop iteration gives the verdict and events of `RoundStep`: the probe, "found" and the interval on success, just the interval otherwise, and "unexpected" with twice the interval when it raised |
| Schedule.MonitorDay | check_availability.py:116-143 | one pass (day gate, start alert, `while not found` loop, nap) gives the outcome and trace of `Day` |
| Schedule.FirstFind | check_availability.py:122-127 | the first round whose probe returns `True`: no earlier round does |
| Schedule.RoundAlerts | check_availability.py:123-139 | a round ends the loop iff its probe returns `True`; it sends "found" exactly then and never "started"; it sleeps twice the interval iff it raised |
| Schedule.RoundSessions | check_availability.py:123-139 | each session a round opens is quit within that round |
| Schedule.WatchFindsIff | check_availability.py:122-139 | the inner loop ends iff some round's probe returns `True`; a raised round does not end it |
| Schedule.WatchAlerts | check_availability.py:122-139 | the inner loop sends "found" once iff it ends, never "started", and sleeps twice the interval once per raised round before the deciding one |
| Schedule.WatchEndsWithSlotFound | check_availability.py:124-132 | when the inner loop ends, its last events are "found" followed by the interval |
| Schedule.WatchSessions | check_availability.py:122-139 | each session opened in the inner loop is quit before the next is opened |
| Schedule.DayGate | check_availability.py:116-117 | the pass does anything at all iff the weekday is Wednesday, Thursday or Friday |
| Schedule.StartAnnouncedOnce | check_availability.py:117-118 | on a monitoring day "started" is the first event and is sent exactly once |
| Schedule.SlotAnnouncedOnFind | check_availability.py:122-127 | on a monitoring day the pass ends with the nap iff some probe returns `True`, and sends "found" exactly once then and never otherwise |
| Schedule.FoundPassEndsWithNap | check_availability.py:124-143 | a successful pass ends with "found", the interval, and a nap of exactly `7 - weekday` days for the weekday read at line 116; that is 3 to 5 days, which reaches Monday counted from that weekday |
| Schedule.DaySessionsPaired | check_availability.py:114-143 | every session opened during a pass is quit before the next is opened and before the pass ends |
| Schedule.NapMissesMondayAsWritten | check_availability.py:116-143 | the pass as written (`Day`), started Friday 23:59 with a slot found on Saturday, finds, naps 3 days and wakes on Tuesday |
| Schedule.NapUntilMonday | check_availability.py:141-143 | the Findings' corrected member, not a property of these lines: the nap counted from the moment of the find lasts 1 to 7 days and always ends on a Monday |
| Schedule.NapUntilMondayAgreesOnStartDay | check_availability.py:141 | the Findings' corrected nap equals the nap as written when the slot is found on the weekday the pass started |
| Schedule.DayIntendedOnlyChangesNap | check_availability.py:141-143 | the Findings' corrected pass (`DayIntended`) has the same outcome and the same events as the pass as written, except possibly the length of the final nap; it equals the pass as written when the slot is found on the start weekday |
| Schedule.FoundPassWakesOnMonday | check_availability.py:141-143 | the Findings' corrected pass, not the code as written: a corrected pass that finds a slot wakes on a Monday |

## Left out

- `setup_driver`, the Chrome options, `driver.get`, the element waits, the click and
  `find_elements` (check_availability.py:32-72) are not modelled. The `Attempt` value an
  attempt hands the model stands in for them.
- The HTTP pushes to ntfy.sh are recorded only as `Alert` events. A push is taken never to
  fail. So the model does not cover:
  - a failing push inside the link handler (line 85) escaping to the generic clause;
  - a failing push in the inner loop escaping to its `except` (lines 134-139).
  An iteration of the inner loop that raises is the abstract round `Raised`. Only its
  handler's alert and sleep are modelled; what it did before raising is not.
- Logging, `traceback` and the `logging.info` of the first link's text and href (line 66) are
  not modelled.
- `time.sleep` is recorded as `Sleep` events. Work between sleeps is taken to take no time, so
  the clock at any point is the start time plus the seconds slept (`Events.Elapsed`).
- `Schedule.Weekday` counts days from a Monday midnight in local time. Time zones, daylight
  saving and the calendar are not modelled.
- The inactive-day branch is not modelled: its nap until 10:00 the next day (lines 144-149)
  depends on `time.mktime` and the local time zone.
- The endless outer `while True` is not modelled, nor are its 5-minute error pause and its
  60-second pause (lines 114, 151-158). `Schedule.Day` is one pass of its body.
- `Schedule.MonitorDay` takes the inner loop's rounds as a finite sequence. When they run out
  before a slot is found, the pass stops with `StillWatching`, where the program would go on
  probing.
- `SlotText.IsDigit`: Python's `\d` also matches non-ASCII decimal digits; the model matches
  only `0`-`9`.
- `SlotText.IsSpace`: `str.strip()` also strips non-ASCII whitespace such as U+0085 and
  U+00A0; the model covers only the ASCII whitespace characters.
- `Probe.TryAttempt` always records a `Quit` for a created session. An exception raised by
  `driver.quit()` is swallowed at line 111, so it has no observable effect.
- `Probe.RetrySessions` bounds the number of sessions by the number of attempts rather than
  stating it exactly: an attempt whose session was never created opens none.

## Findings

| source | as written | input that shows it | evidently intended | confidence | as-written member | corrected member |
|---|---|---|---|---|---|---|
| check_availability.py:116-143 | the nap length `6 - weekday + 1` uses the weekday read at line 116, before the inner loop started | a pass starting Friday 23:59:00 whose second probe, at 00:00 on Saturday, finds a slot naps 3 days and wakes on Tuesday | nap until Monday ("Taking a nap till Monday"), counted from the weekday when the slot is found | medium, not executed | Schedule.NapMissesMondayAsWritten | Schedule.FoundPassWakesOnMonday |
