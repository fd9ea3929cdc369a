/** main.py's first step on a received thread URL:
    `re.sub(r"\?utm_source=.*", "", url)`. The regex removes, scanning left
    to right, each "?utm_source=" together with the rest of its line (`.`
    stops at a newline), then carries on after the removed text. */
module Tracking {
  const MARKER: string := "?utm_source="

  predicate MarkerAt(s: string) {
    MARKER <= s
  }

  /** The length of what `.*` consumes: everything up to the first newline. */
  function LineRun(s: string): (k: nat)
    ensures k <= |s|
    ensures forall i :: 0 <= i < k ==> s[i] != '\n'
    ensures k < |s| ==> s[k] == '\n'
    decreases |s|
  {
    if s == [] || s[0] == '\n' then 0 else 1 + LineRun(s[1..])
  }

  /** `re.sub(r"\?utm_source=.*", "", s)` */
  function StripTracking(s: string): (r: string)
    ensures |r| <= |s|
    decreases |s|
  {
    if s == [] then []
    else if MarkerAt(s) then StripTracking(s[|MARKER| + LineRun(s[|MARKER|..])..])
    else [s[0]] + StripTracking(s[1..])
  }

  /** Where the first "?utm_source=" starts; `|s|` when there is none. */
  function MarkerIndex(s: string): (k: nat)
    ensures k <= |s|
    ensures k < |s| ==> MarkerAt(s[k..])
    decreases |s|
  {
    if s == [] || MarkerAt(s) then 0
    else
      var k := 1 + MarkerIndex(s[1..]);
      assert s[k..] == s[1..][k - 1..];
      k
  }

  /** No "?utm_source=" starts before the first one. */
  lemma {:induction false} NoMarkerBefore(s: string, i: nat)
    requires i < MarkerIndex(s)
    ensures !MarkerAt(s[i..])
    decreases i
  {
    if i > 0 {
      NoMarkerBefore(s[1..], i - 1);
      assert s[i..] == s[1..][i - 1..];
    }
  }

  /** A URL without "?utm_source=" is left as it is. */
  lemma {:induction false} StripTrackingWithoutMarker(s: string)
    requires forall i :: 0 <= i < |s| ==> !MarkerAt(s[i..])
    ensures StripTracking(s) == s
    decreases |s|
  {
    if s != [] {
      assert s[0..] == s;
      assert forall i :: 0 <= i < |s| - 1 ==> s[1..][i..] == s[i + 1..];
      StripTrackingWithoutMarker(s[1..]);
    }
  }

  /** On a single line, everything from the first "?utm_source=" on is cut
      off and everything before it is kept. */
  lemma {:induction false} StripTrackingOneLine(s: string)
    requires '\n' !in s
    ensures StripTracking(s) == s[..MarkerIndex(s)]
    decreases |s|
  {
    if s == [] {
    } else if MarkerAt(s) {
      MarkerCutsLine(s);
    } else {
      var m := MarkerIndex(s[1..]);
      NoNewlineAfterFirst(s);
      StripTrackingOneLine(s[1..]);
      KeepsFirst(s, s[1..][..m]);
      assert s[..1 + m] == [s[0]] + s[1..][..m];
    }
  }

  lemma MarkerCutsLine(s: string)
    requires '\n' !in s && MarkerAt(s)
    ensures StripTracking(s) == [] && MarkerIndex(s) == 0
  {
    var rest := s[|MARKER|..];
    assert '\n' !in rest by {
      assert forall i :: 0 <= i < |rest| ==> rest[i] == s[i + |MARKER|];
    }
    assert LineRun(rest) == |rest|;
    assert s[|MARKER| + |rest|..] == [];
  }

  lemma NoNewlineAfterFirst(s: string)
    requires '\n' !in s && s != []
    ensures '\n' !in s[1..]
  {
    assert forall i :: 0 <= i < |s| - 1 ==> s[1..][i] == s[i + 1];
  }

  lemma KeepsFirst(s: string, kept: string)
    requires s != [] && !MarkerAt(s) && StripTracking(s[1..]) == kept
    ensures StripTracking(s) == [s[0]] + kept
    ensures MarkerIndex(s) == 1 + MarkerIndex(s[1..])
  {
  }

  /** On a single line, cleaning twice is cleaning once: the kept text holds
      no "?utm_source=". */
  lemma StripTrackingIdempotentOnLine(s: string)
    requires '\n' !in s
    ensures StripTracking(StripTracking(s)) == StripTracking(s)
  {
    StripTrackingOneLine(s);
    var k := MarkerIndex(s);
    var kept := s[..k];
    forall i | 0 <= i < |kept| ensures !MarkerAt(kept[i..]) {
      assert kept[i..] <= s[i..];
      NoMarkerBefore(s, i);
    }
    StripTrackingWithoutMarker(kept);
  }
}
