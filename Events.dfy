/** The observable behaviour of the monitor: the alerts it pushes, the sleeps it takes and the
    browser sessions it opens and quits, recorded as a trace of events. */
module Events {

  /** A Python return value that may be `None`. */
  datatype Option<T> = None | Some(value: T)

  /** The distinct push-notification bodies the modelled code sends. The probe's catch-all
      (check_availability.py:103) and the main loop's per-round catch-all (check_availability.py:138)
      send the same text, so they are one notice. */
  datatype Notice = MonitoringStarted | SlotFound | SessionFailed | Unexpected | LinkFailed

  /** The exact message body of each notice. */
  function Message(n: Notice): string
  {
    match n
    case MonitoringStarted => "Zaczynam monitorowanie terminu."
    case SlotFound => "Nowy termin Sok\U{F3}\U{142}!!!"
    case SessionFailed => "B\U{142}\U{105}d sesji przegl\U{105}darki."
    case Unexpected => "Nieoczekiwany B\U{142}\U{105}d! Sprawd\U{17A} logi."
    case LinkFailed => "B\U{142}\U{105}d linku."
  }

  /** Different notices are different push bodies, so a count of one notice in a trace is a count
      of one message text. */
  lemma MessageInjective(m: Notice, n: Notice)
    ensures Message(m) == Message(n) ==> m == n
  {
  }

  /** One observable step: a push notification, a `time.sleep`, or a browser session being
      created (`setup_driver` returned) or quit. */
  datatype Event = Alert(notice: Notice) | Sleep(seconds: nat) | Opened | Quit

  /** The event itself if it is a session event, else nothing. */
  function SessionPart(e: Event): seq<Event>
  {
    if e == Opened || e == Quit then [e] else []
  }

  /** The session events of a trace, in order. */
  function SessionEvents(t: seq<Event>): seq<Event>
  {
    if |t| == 0 then [] else SessionPart(t[0]) + SessionEvents(t[1..])
  }

  lemma {:induction false} SessionEventsAppend(a: seq<Event>, b: seq<Event>)
    ensures SessionEvents(a + b) == SessionEvents(a) + SessionEvents(b)
  {
    if |a| == 0 {
      assert a + b == b;
    } else {
      var ab := a + b;
      assert ab[0] == a[0] && ab[1..] == a[1..] + b;
      SessionEventsAppend(a[1..], b);
      calc {
        SessionEvents(ab);
        SessionPart(a[0]) + SessionEvents(a[1..] + b);
        SessionPart(a[0]) + (SessionEvents(a[1..]) + SessionEvents(b));
        (SessionPart(a[0]) + SessionEvents(a[1..])) + SessionEvents(b);
      }
    }
  }

  /** A stretch of alerts and sleeps has no session events. */
  lemma {:induction false} NoSessionEvents(t: seq<Event>)
    requires forall e :: e in t ==> e.Alert? || e.Sleep?
    ensures SessionEvents(t) == []
  {
    if |t| > 0 {
      assert t[0] in t;
      assert forall e :: e in t[1..] ==> e in t;
      NoSessionEvents(t[1..]);
    }
  }

  /** `s` is `Opened, Quit, Opened, Quit, ...`: at most one session is live at any point and
      every session opened is quit exactly once, before the next is opened. */
  predicate Paired(s: seq<Event>)
  {
    |s| % 2 == 0 && forall i :: 0 <= i < |s| ==> s[i] == (if i % 2 == 0 then Opened else Quit)
  }

  /** Every session the trace opens is quit before another is opened and before the trace ends. */
  predicate SessionsPaired(t: seq<Event>)
  {
    Paired(SessionEvents(t))
  }

  lemma ParityShift(i: int, n: int)
    requires n % 2 == 0
    ensures (i - n) % 2 == i % 2
  {
  }

  lemma PairedAppend(s: seq<Event>, u: seq<Event>)
    requires Paired(s) && Paired(u)
    ensures Paired(s + u)
  {
    forall i | 0 <= i < |s + u|
      ensures (s + u)[i] == (if i % 2 == 0 then Opened else Quit)
    {
      if i >= |s| {
        assert (s + u)[i] == u[i - |s|];
        ParityShift(i, |s|);
      } else {
        assert (s + u)[i] == s[i];
      }
    }
  }

  lemma SessionsPairedAppend(a: seq<Event>, b: seq<Event>)
    requires SessionsPaired(a) && SessionsPaired(b)
    ensures SessionsPaired(a + b)
  {
    SessionEventsAppend(a, b);
    PairedAppend(SessionEvents(a), SessionEvents(b));
  }

  /** Total seconds slept in a trace; everything else is taken to be instantaneous. */
  function Elapsed(t: seq<Event>): (secs: nat)
  {
    if |t| == 0 then 0
    else (if t[0].Sleep? then t[0].seconds else 0) + Elapsed(t[1..])
  }

  lemma ElapsedSingle(e: Event)
    ensures Elapsed([e]) == if e.Sleep? then e.seconds else 0
  {
    assert [e][1..] == [];
  }

  lemma {:induction false} ElapsedAppend(a: seq<Event>, b: seq<Event>)
    ensures Elapsed(a + b) == Elapsed(a) + Elapsed(b)
  {
    if |a| == 0 {
      assert a + b == b;
    } else {
      assert (a + b)[1..] == a[1..] + b;
      ElapsedAppend(a[1..], b);
    }
  }

  /** A stretch of alerts and sleeps, bracketed by opening and quitting one session, keeps the
      sessions paired and opens exactly one. */
  lemma BracketedSession(middle: seq<Event>)
    requires forall e :: e in middle ==> e.Alert? || e.Sleep?
    ensures SessionsPaired(middle) && multiset(middle)[Opened] == 0
    ensures SessionsPaired([Opened] + middle + [Quit]) && multiset([Opened] + middle + [Quit])[Opened] == 1
  {
    NoSessionEvents(middle);
    BracketedSessionEvents(middle);
    PairedOne();
    assert Opened !in middle;
    OpenedOnce(middle);
  }

  lemma PairedOne()
    ensures Paired([]) && Paired([Opened, Quit])
  {
  }

  lemma OpenedOnce(middle: seq<Event>)
    requires Opened !in middle
    ensures multiset(middle)[Opened] == 0 && multiset([Opened] + middle + [Quit])[Opened] == 1
  {
    assert multiset([Opened] + middle + [Quit]) == multiset{Opened} + multiset(middle) + multiset{Quit};
  }

  lemma BracketedSessionEvents(middle: seq<Event>)
    requires SessionEvents(middle) == []
    ensures SessionEvents([Opened] + middle + [Quit]) == [Opened, Quit]
  {
    assert SessionEvents([Opened]) == [Opened] by { assert [Opened][1..] == []; }
    assert SessionEvents([Quit]) == [Quit] by { assert [Quit][1..] == []; }
    SessionEventsAppend([Opened], middle);
    SessionEventsAppend([Opened] + middle, [Quit]);
  }
}
