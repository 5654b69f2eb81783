/** The test a link's text must pass to count as an open slot: `str.strip()` followed by
    `re.match(r"\d{1,2}:\d{2}", text)`. Only ASCII digits and ASCII whitespace are modelled. */
module SlotText {

  /** What the regex class `\d` matches, narrowed to ASCII. */
  predicate IsDigit(c: char)
  {
    '0' <= c <= '9'
  }

  /** What `str.strip()` removes, narrowed to the ASCII characters Python counts as whitespace. */
  predicate IsSpace(c: char)
  {
    c == ' ' || c == '\t' || c == '\n' || c == '\r' || c == '\U{B}' || c == '\U{C}'
    || ('\U{1C}' <= c <= '\U{1F}')
  }

  /** Drops leading whitespace. */
  function StripLeft(s: string): string
  {
    if |s| > 0 && IsSpace(s[0]) then StripLeft(s[1..]) else s
  }

  /** Drops trailing whitespace. */
  function StripRight(s: string): string
  {
    if |s| > 0 && IsSpace(s[|s| - 1]) then StripRight(s[..|s| - 1]) else s
  }

  /** `str.strip()`. */
  function Strip(s: string): string
  {
    StripRight(StripLeft(s))
  }

  /** `StripLeft` gives the longest suffix of `s` that does not start with whitespace. */
  lemma {:induction false} StripLeftSpec(s: string)
    ensures |StripLeft(s)| <= |s| && StripLeft(s) == s[|s| - |StripLeft(s)|..]
    ensures forall j :: 0 <= j < |s| - |StripLeft(s)| ==> IsSpace(s[j])
    ensures |StripLeft(s)| > 0 ==> !IsSpace(StripLeft(s)[0])
  {
    if |s| > 0 && IsSpace(s[0]) {
      StripLeftSpec(s[1..]);
    }
  }

  /** `StripRight` gives the longest prefix of `s` that does not end with whitespace. */
  lemma {:induction false} StripRightSpec(s: string)
    ensures |StripRight(s)| <= |s| && StripRight(s) == s[..|StripRight(s)|]
    ensures forall j :: |StripRight(s)| <= j < |s| ==> IsSpace(s[j])
    ensures |StripRight(s)| > 0 ==> !IsSpace(StripRight(s)[|StripRight(s)| - 1])
  {
    if |s| > 0 && IsSpace(s[|s| - 1]) {
      StripRightSpec(s[..|s| - 1]);
    }
  }

  /** What `str.strip()` removes is whitespace, and only at the two ends: the result is the slice
      of `s` that starts after its leading whitespace. */
  lemma StripSpec(s: string)
    ensures |StripLeft(s)| <= |s|
    ensures var i := |s| - |StripLeft(s)|;
      && i + |Strip(s)| <= |s|
      && Strip(s) == s[i..i + |Strip(s)|]
      && (forall j :: 0 <= j < i ==> IsSpace(s[j]))
      && (forall j :: i + |Strip(s)| <= j < |s| ==> IsSpace(s[j]))
  {
    var l := StripLeft(s);
    var r := StripRight(l);
    var i := |s| - |l|;
    StripLeftSpec(s);
    StripRightSpec(l);
    assert s[i..][..|r|] == s[i..i + |r|];
    forall j | i + |r| <= j < |s|
      ensures IsSpace(s[j])
    {
      assert s[j] == l[j - i];
    }
  }

  /** The stripped text is empty (the link is skipped) exactly when `s` is all whitespace, and
      otherwise neither starts nor ends with whitespace. */
  lemma StripEnds(s: string)
    ensures Strip(s) == [] <==> forall j :: 0 <= j < |s| ==> IsSpace(s[j])
    ensures Strip(s) != [] ==> !IsSpace(Strip(s)[0]) && !IsSpace(Strip(s)[|Strip(s)| - 1])
  {
    var l := StripLeft(s);
    var r := StripRight(l);
    StripSpec(s);
    StripLeftSpec(s);
    StripRightSpec(l);
    if r != [] {
      assert r[0] == l[0];
      var i := |s| - |l|;
      assert !IsSpace(s[i]);
    }
  }

  // --- re.match(r"\d{1,2}:\d{2}", text) ---

  /** How many digits the greedy `\d{1,2}` first takes at the start of `t` (with `cap` = 2). */
  function GreedyDigits(t: string, cap: nat): (n: nat)
    ensures n <= cap && n <= |t|
    ensures forall j :: 0 <= j < n ==> IsDigit(t[j])
    ensures n < cap && n < |t| ==> !IsDigit(t[n])
  {
    if cap == 0 || |t| == 0 || !IsDigit(t[0]) then 0 else 1 + GreedyDigits(t[1..], cap - 1)
  }

  /** The rest of the pattern, `:\d{2}`, matches right after the first `k` characters. */
  predicate TailMatches(t: string, k: nat)
  {
    k + 3 <= |t| && t[k] == ':' && IsDigit(t[k + 1]) && IsDigit(t[k + 2])
  }

  /** The regex engine's backtracking over `\d{1,2}`: having taken `k` digits, try the rest of the
      pattern; on failure give one digit back, but never go below the minimum of one. */
  predicate Backtrack(t: string, k: nat)
  {
    k >= 1 && (TailMatches(t, k) || Backtrack(t, k - 1))
  }

  /** `re.match(r"\d{1,2}:\d{2}", t)` is not `None`. The match is anchored at the start only. */
  predicate MatchesTimePrefix(t: string)
  {
    Backtrack(t, GreedyDigits(t, 2))
  }

  /** Reference reading of the pattern: the text starts with `D:DD` or `DD:DD`. */
  predicate StartsWithTime(t: string)
  {
    (|t| >= 4 && IsDigit(t[0]) && t[1] == ':' && IsDigit(t[2]) && IsDigit(t[3]))
    || (|t| >= 5 && IsDigit(t[0]) && IsDigit(t[1]) && t[2] == ':' && IsDigit(t[3]) && IsDigit(t[4]))
  }

  /** The backtracking matcher accepts exactly the texts that start with a 1- or 2-digit hour,
      a colon and two digits; what follows is ignored. */
  lemma MatcherAgreesWithPattern(t: string)
    ensures MatchesTimePrefix(t) <==> StartsWithTime(t)
  {
    var n := GreedyDigits(t, 2);
    if n == 2 {
      assert Backtrack(t, 2) <==> TailMatches(t, 2) || TailMatches(t, 1) || Backtrack(t, 0);
    } else if n == 1 {
      assert Backtrack(t, 1) <==> TailMatches(t, 1) || Backtrack(t, 0);
    }
  }

  /** Trailing whitespace never takes part in a match, because the pattern has none. */
  lemma StartsWithTimeIgnoresTrailingSpace(t: string)
    ensures StartsWithTime(StripRight(t)) <==> StartsWithTime(t)
  {
    StripRightSpec(t);
    var r := StripRight(t);
    if |r| < |t| && |r| < 5 {
      // the first character stripped is whitespace, hence neither a digit nor the colon
      assert IsSpace(t[|r|]);
      assert !IsDigit(t[|r|]) && t[|r|] != ':';
    }
  }

  /** One link's text, as the scan tests it: strip it, skip it if empty, else match the pattern. */
  predicate IsSlotText(raw: string)
  {
    var text := Strip(raw);
    text != [] && MatchesTimePrefix(text)
  }

  /** A link text announces a slot exactly when, after its leading whitespace, it starts with
      `H:MM` or `HH:MM`; the emptiness guard never changes the verdict. */
  lemma SlotTextSpec(raw: string)
    ensures IsSlotText(raw) <==> StartsWithTime(StripLeft(raw))
    ensures IsSlotText(raw) <==> MatchesTimePrefix(Strip(raw))
  {
    StripSpec(raw);
    StripEnds(raw);
    StripLeftSpec(raw);
    MatcherAgreesWithPattern(Strip(raw));
    StartsWithTimeIgnoresTrailingSpace(StripLeft(raw));
  }

  /** A text with no leading whitespace is a slot text exactly when it starts with a time. */
  lemma UnpaddedSlotText(t: string)
    requires |t| > 0 && !IsSpace(t[0])
    ensures IsSlotText(t) <==> StartsWithTime(t)
  {
    assert StripLeft(t) == t;
    SlotTextSpec(t);
  }

  /** Texts that announce a slot: the pattern is anchored at the start after stripping, takes
      1 or 2 hour digits, and allows anything after the minutes. */
  lemma SlotTextAccepts(t: string)
    requires t == "10:30 - book" || t == "  9:05\n" || t == "12:345"
    ensures IsSlotText(t)
  {
    if t == "  9:05\n" {
      var u := t[2..];
      assert u[0] == '9' && StripLeft(t) == StripLeft(t[1..]) == StripLeft(u) == u;
      assert StartsWithTime(u);
      SlotTextSpec(t);
    } else {
      assert StartsWithTime(t);
      UnpaddedSlotText(t);
    }
  }

  /** Texts that do not: a time that is not at the start, no colon, three hour digits, a single
      minute digit, and a text that is only whitespace. */
  lemma SlotTextRejects(t: string)
    requires t == "Book 10:30" || t == "1030" || t == "123:45" || t == "1:3" || t == " \t "
    ensures !IsSlotText(t)
  {
    if t == " \t " {
      assert StripLeft(t[2..]) == StripLeft(t[2..][1..]);
      assert StripLeft(t) == StripLeft(t[1..]) == StripLeft(t[2..]) == [];
      SlotTextSpec(t);
    } else {
      UnpaddedSlotText(t);
    }
  }
}
