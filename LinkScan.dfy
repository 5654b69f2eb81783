/** The scan over the links shown after the click: the first link whose text is a slot time
    ends the scan with `True`; a link whose text cannot be read costs one alert and is skipped. */
module LinkScan {
  import opened Events
  import opened SlotText

  /** What reading one link's `.text` gives: its text, or an exception. */
  datatype LinkRead = Text(raw: string) | Throws

  /** What the scan returns and the alerts it sends on the way. */
  datatype ScanResult = ScanResult(found: bool, alerts: seq<Event>)

  predicate IsSlotLink(link: LinkRead)
  {
    link.Text? && IsSlotText(link.raw)
  }

  /** The scan, link by link: `True` at the first slot link, one link-error alert per unreadable
      link before it, `False` when the links run out. */
  function Scan(links: seq<LinkRead>): (r: ScanResult)
  {
    if |links| == 0 then ScanResult(false, [])
    else match links[0]
      case Throws =>
        var rest := Scan(links[1..]);
        ScanResult(rest.found, [Alert(LinkFailed)] + rest.alerts)
      case Text(raw) =>
        if IsSlotText(raw) then ScanResult(true, []) else Scan(links[1..])
  }

  /** The position of the first slot link, or `|links|` when there is none. */
  function FirstSlot(links: seq<LinkRead>): (k: nat)
    ensures k <= |links|
    ensures forall i :: 0 <= i < k ==> !IsSlotLink(links[i])
    ensures k < |links| ==> IsSlotLink(links[k])
  {
    if |links| == 0 || IsSlotLink(links[0]) then 0 else 1 + FirstSlot(links[1..])
  }

  /** The number of unreadable links in `links`. */
  function Unreadable(links: seq<LinkRead>): (n: nat)
    ensures n <= |links|
  {
    if |links| == 0 then 0 else (if links[0].Throws? then 1 else 0) + Unreadable(links[1..])
  }

  /** `n` link-error alerts. */
  function LinkAlerts(n: nat): (s: seq<Event>)
    ensures |s| == n && forall e :: e in s ==> e == Alert(LinkFailed)
  {
    if n == 0 then [] else [Alert(LinkFailed)] + LinkAlerts(n - 1)
  }

  /** The scan reports a slot exactly when some link's text is a slot time: an unreadable link
      does not end the scan, so every later link is still examined. */
  lemma {:induction false} ScanFindsAnySlot(links: seq<LinkRead>)
    ensures Scan(links).found <==> exists i :: 0 <= i < |links| && IsSlotLink(links[i])
  {
    if |links| > 0 {
      ScanFindsAnySlot(links[1..]);
      if exists i :: 0 <= i < |links| && IsSlotLink(links[i]) {
        var i :| 0 <= i < |links| && IsSlotLink(links[i]);
        if i > 0 {
          assert IsSlotLink(links[1..][i - 1]);
        }
      }
      if exists i :: 0 <= i < |links[1..]| && IsSlotLink(links[1..][i]) {
        var i :| 0 <= i < |links[1..]| && IsSlotLink(links[1..][i]);
        assert IsSlotLink(links[i + 1]);
      }
    }
  }

  /** The scan stops at the first slot link: it sends exactly one link-error alert for each
      unreadable link before that one, and nothing else. */
  lemma {:induction false} ScanAlertsBeforeFirstSlot(links: seq<LinkRead>)
    ensures Scan(links).alerts == LinkAlerts(Unreadable(links[..FirstSlot(links)]))
  {
    var k := FirstSlot(links);
    if k == 0 {
      assert links[..k] == [];
    } else {
      var rest := links[1..];
      ScanAlertsBeforeFirstSlot(rest);
      assert k == 1 + FirstSlot(rest);
      assert links[..k][1..] == rest[..k - 1];
      var n := Unreadable(rest[..k - 1]);
      if links[0].Throws? {
        assert Unreadable(links[..k]) == 1 + n;
        assert Scan(links).alerts == [Alert(LinkFailed)] + Scan(rest).alerts;
      } else {
        assert Unreadable(links[..k]) == n;
        assert Scan(links) == Scan(rest);
      }
    }
  }

  /** The `for` loop over the links, with its early `return`. */
  method ScanLinks(links: seq<LinkRead>) returns (found: bool, alerts: seq<Event>)
    ensures ScanResult(found, alerts) == Scan(links)
  {
    alerts := [];
    var i := 0;
    while i < |links|
      invariant 0 <= i <= |links|
      invariant Scan(links) == ScanResult(Scan(links[i..]).found, alerts + Scan(links[i..]).alerts)
      decreases |links| - i
    {
      assert links[i..][1..] == links[i + 1..];
      match links[i] {
        case Throws =>
          alerts := alerts + [Alert(LinkFailed)];
        case Text(raw) =>
          var text := Strip(raw);
          if text != [] {
            if MatchesTimePrefix(text) {
              return true, alerts;
            }
          }
      }
      i := i + 1;
    }
    return false, alerts;
  }
}
