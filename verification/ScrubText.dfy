/** `scrubString` (packages/middleware/src/relayer-key.ts): three global replacements. */
module ScrubText {

  const REDACTED := "<redacted:relayer-key>"

  predicate IsHex(c: char) { '0' <= c <= '9' || 'a' <= c <= 'f' || 'A' <= c <= 'F' }

  lemma HexDigitsAre(c: char)
    ensures IsHex(c) <==> c in "0123456789abcdefABCDEF"
  {
  }

  predicate AllHex(s: string) { forall i :: 0 <= i < |s| ==> IsHex(s[i]) }

  /** How many hex digits s starts with. */
  function HexRun(s: string): (n: nat)
    ensures n <= |s|
    ensures forall i :: 0 <= i < n ==> IsHex(s[i])
    ensures n < |s| ==> !IsHex(s[n])
  {
    if s == [] || !IsHex(s[0]) then 0 else 1 + HexRun(s[1..])
  }

  /** A match of /0x[0-9a-fA-F]{n}/ at the head. */
  predicate Matches(s: string, n: nat) {
    |s| >= 2 && s[0] == '0' && s[1] == 'x' && HexRun(s[2..]) >= n
  }

  /** `replace(/0x[0-9a-fA-F]{n}/g, REDACTED)` */
  function ReplacePrefixed(s: string, n: nat): string
    decreases |s|
  {
    if s == [] then []
    else if Matches(s, n) then REDACTED + ReplacePrefixed(s[n + 2..], n)
    else [s[0]] + ReplacePrefixed(s[1..], n)
  }

  /** Every maximal run of 64 or more hex digits; `afterHex` is the lookbehind. */
  function ReplaceRuns(s: string, afterHex: bool): string
    decreases |s|
  {
    if s == [] then []
    else if !afterHex && HexRun(s) >= 64 then REDACTED + ReplaceRuns(s[HexRun(s)..], true)
    else [s[0]] + ReplaceRuns(s[1..], IsHex(s[0]))
  }

  function ScrubString(s: string): string {
    ReplaceRuns(ReplacePrefixed(ReplacePrefixed(s, 130), 64), false)
  }

  // ---------------------------------------------------------------- no secret-shaped run is left

  predicate LongRunAt(s: string, i: nat) {
    i + 64 <= |s| && forall k :: i <= k < i + 64 ==> IsHex(s[k])
  }

  /** No 64 consecutive hex digits anywhere. */
  ghost predicate NoLongRun(s: string) { forall i: nat :: !LongRunAt(s, i) }

  lemma LongRunShift(c: char, s: string, i: nat)
    ensures LongRunAt([c] + s, i + 1) <==> LongRunAt(s, i)
  {
    var t := [c] + s;
    assert forall k :: 0 <= k < |s| ==> s[k] == t[k + 1];
    if LongRunAt(t, i + 1) {
      forall k | i <= k < i + 64 ensures IsHex(s[k]) { assert IsHex(t[k + 1]); }
    }
  }

  lemma LongRunAtStart(s: string)
    ensures LongRunAt(s, 0) <==> HexRun(s) >= 64
  {
  }

  lemma HeadAndTail(c: char, s: string)
    requires NoLongRun(s) && HexRun([c] + s) < 64
    ensures NoLongRun([c] + s)
  {
    LongRunAtStart([c] + s);
    forall i: nat ensures !LongRunAt([c] + s, i) {
      if i > 0 { LongRunShift(c, s, i - 1); }
    }
  }

  lemma RunOfNoLongRun(s: string)
    requires NoLongRun(s)
    ensures HexRun(s) < 64
    ensures s != [] ==> NoLongRun(s[1..])
  {
    LongRunAtStart(s);
    if s != [] {
      assert s == [s[0]] + s[1..];
      forall i: nat ensures !LongRunAt(s[1..], i) {
        LongRunShift(s[0], s[1..], i);
      }
    }
  }

  lemma HexRunCons(c: char, s: string)
    ensures HexRun([c] + s) == if IsHex(c) then 1 + HexRun(s) else 0
  {
    assert ([c] + s)[1..] == s;
  }

  /** What a run starts with after the third pass. */
  lemma {:induction false} LeadingRun(s: string, afterHex: bool)
    ensures HexRun(ReplaceRuns(s, afterHex)) == if !afterHex && HexRun(s) >= 64 then 0 else HexRun(s)
    decreases |s|
  {
    if s != [] && (afterHex || HexRun(s) < 64) {
      LeadingRun(s[1..], IsHex(s[0]));
      HexRunCons(s[0], ReplaceRuns(s[1..], IsHex(s[0])));
    } else if s != [] {
      assert ReplaceRuns(s, afterHex)[0] == '<';
    }
  }

  lemma {:induction false} AppendAfterBreak(a: string, b: string)
    requires |a| < 64 && a != [] && !IsHex(a[|a| - 1]) && NoLongRun(b)
    ensures NoLongRun(a + b)
    decreases |a|
  {
    var t := a[1..] + b;
    assert a + b == [a[0]] + t;
    HexRunCons(a[0], t);
    if |a| == 1 {
      assert t == b;
    } else {
      AppendAfterBreak(a[1..], b);
      assert t[|a| - 2] == a[|a| - 1];
    }
    HeadAndTail(a[0], t);
  }

  lemma {:induction false} ThirdPassLeavesNoLongRun(s: string, afterHex: bool)
    requires afterHex ==> HexRun(s) < 64
    ensures NoLongRun(ReplaceRuns(s, afterHex))
    decreases |s|
  {
    if s != [] {
      if !afterHex && HexRun(s) >= 64 {
        ThirdPassLeavesNoLongRun(s[HexRun(s)..], true);
        AppendAfterBreak(REDACTED, ReplaceRuns(s[HexRun(s)..], true));
      } else {
        ThirdPassLeavesNoLongRun(s[1..], IsHex(s[0]));
        LeadingRun(s, afterHex);
        HeadAndTail(s[0], ReplaceRuns(s[1..], IsHex(s[0])));
      }
    }
  }

  /** Whatever comes in, 64 consecutive hex digits never come out. */
  lemma OutputHasNoLongRun(s: string)
    ensures NoLongRun(ScrubString(s))
  {
    ThirdPassLeavesNoLongRun(ReplacePrefixed(ReplacePrefixed(s, 130), 64), false);
  }

  // ---------------------------------------------------------------- the rest stays

  lemma {:induction false} PrefixedUnchanged(s: string, n: nat)
    requires n >= 64 && NoLongRun(s)
    ensures ReplacePrefixed(s, n) == s
    decreases |s|
  {
    if s != [] {
      RunOfNoLongRun(s);
      if |s| >= 2 {
        assert s[2..] == s[1..][1..];
        RunOfNoLongRun(s[1..]);
        RunOfNoLongRun(s[2..]);
      }
      PrefixedUnchanged(s[1..], n);
      assert [s[0]] + s[1..] == s;
    }
  }

  lemma {:induction false} RunsUnchanged(s: string, afterHex: bool)
    requires NoLongRun(s)
    ensures ReplaceRuns(s, afterHex) == s
    decreases |s|
  {
    if s != [] {
      RunOfNoLongRun(s);
      RunsUnchanged(s[1..], IsHex(s[0]));
      assert [s[0]] + s[1..] == s;
    }
  }

  lemma UnchangedWithoutLongRun(s: string)
    requires NoLongRun(s)
    ensures ScrubString(s) == s
  {
    PrefixedUnchanged(s, 130);
    PrefixedUnchanged(s, 64);
    RunsUnchanged(s, false);
  }

  lemma Idempotent(s: string)
    ensures ScrubString(ScrubString(s)) == ScrubString(s)
  {
    OutputHasNoLongRun(s);
    UnchangedWithoutLongRun(ScrubString(s));
  }

  /** A character no secret contains: scrubbing works on what lies between such characters. */
  predicate Separator(c: char) { !IsHex(c) && c != 'x' }

  lemma {:induction false} HexRunStops(a: string, c: char, b: string)
    requires !IsHex(c)
    ensures HexRun(a + [c] + b) == HexRun(a)
  {
    var t := a + [c] + b;
    assert forall i :: 0 <= i < |a| ==> t[i] == a[i];
    assert t[|a|] == c;
  }

  lemma TailLocal(a: string, k: nat, c: char, b: string)
    requires k <= |a|
    ensures (a + [c] + b)[k..] == a[k..] + [c] + b
  {
  }

  lemma Regroup(p: string, x: string, c: char, y: string)
    ensures (p + x) + [c] + y == p + (x + [c] + y)
  {
  }

  lemma MatchesLocal(a: string, c: char, b: string, n: nat)
    requires Separator(c) && a != []
    ensures Matches(a + [c] + b, n) <==> Matches(a, n)
  {
    var t := a + [c] + b;
    assert t[0] == a[0] && t[1] == if |a| == 1 then c else a[1];
    if |a| >= 2 {
      TailLocal(a, 2, c, b);
      HexRunStops(a[2..], c, b);
    }
  }

  lemma {:induction false} PrefixedLocal(a: string, c: char, b: string, n: nat)
    requires Separator(c)
    ensures ReplacePrefixed(a + [c] + b, n) == ReplacePrefixed(a, n) + [c] + ReplacePrefixed(b, n)
    decreases |a|
  {
    if a == [] {
      assert (a + [c] + b)[1..] == b;
    } else {
      MatchesLocal(a, c, b, n);
      var k := if Matches(a, n) then n + 2 else 1;
      TailLocal(a, k, c, b);
      PrefixedLocal(a[k..], c, b, n);
      Regroup(if Matches(a, n) then REDACTED else [a[0]], ReplacePrefixed(a[k..], n), c, ReplacePrefixed(b, n));
    }
  }

  lemma {:induction false} RunsLocal(a: string, c: char, b: string, afterHex: bool)
    requires Separator(c)
    ensures ReplaceRuns(a + [c] + b, afterHex) == ReplaceRuns(a, afterHex) + [c] + ReplaceRuns(b, false)
    decreases |a|
  {
    if a == [] {
      assert (a + [c] + b)[1..] == b;
    } else {
      HexRunStops(a, c, b);
      var cut := !afterHex && HexRun(a) >= 64;
      var k := if cut then HexRun(a) else 1;
      var after := if cut then true else IsHex(a[0]);
      TailLocal(a, k, c, b);
      RunsLocal(a[k..], c, b, after);
      Regroup(if cut then REDACTED else [a[0]], ReplaceRuns(a[k..], after), c, ReplaceRuns(b, false));
    }
  }

  /** Words are scrubbed on their own: text around a separator neither moves nor matters. */
  lemma ScrubIsLocal(a: string, c: char, b: string)
    requires Separator(c)
    ensures ScrubString(a + [c] + b) == ScrubString(a) + [c] + ScrubString(b)
  {
    PrefixedLocal(a, c, b, 130);
    PrefixedLocal(ReplacePrefixed(a, 130), c, ReplacePrefixed(b, 130), 64);
    RunsLocal(ReplacePrefixed(ReplacePrefixed(a, 130), 64), c, ReplacePrefixed(ReplacePrefixed(b, 130), 64), false);
  }

  // ---------------------------------------------------------------- secrets themselves

  lemma {:induction false} HexRunOfHex(h: string)
    requires AllHex(h)
    ensures HexRun(h) == |h|
  {
  }

  lemma {:induction false} HexHasNoPrefix(h: string, n: nat)
    requires AllHex(h)
    ensures ReplacePrefixed(h, n) == h
    decreases |h|
  {
    if h != [] {
      HexHasNoPrefix(h[1..], n);
      assert [h[0]] + h[1..] == h;
    }
  }

  /** A bare run of 64 or more hex digits becomes the marker. */
  lemma BareSecretIsRedacted(h: string)
    requires AllHex(h) && |h| >= 64
    ensures ScrubString(h) == "<redacted:relayer-key>"
  {
    HexHasNoPrefix(h, 130);
    HexHasNoPrefix(h, 64);
    HexRunOfHex(h);
    assert h[|h|..] == [];
    assert ReplaceRuns(h, false) == REDACTED + ReplaceRuns([], true);
  }

  lemma {:induction false} PrefixMatches(h: string, n: nat)
    requires AllHex(h)
    ensures Matches("0x" + h, n) <==> |h| >= n
    ensures |h| >= n ==> ("0x" + h)[n + 2..] == h[n..]
  {
    assert ("0x" + h)[2..] == h;
    HexRunOfHex(h);
  }

  lemma {:induction false} XStays(h: string, n: nat)
    requires AllHex(h)
    ensures ReplacePrefixed("x" + h, n) == "x" + h
  {
    var s := "x" + h;
    assert s[0] == 'x' && s[1..] == h;
    HexHasNoPrefix(h, n);
  }

  lemma {:induction false} PrefixedAlone(h: string, n: nat)
    requires AllHex(h)
    ensures ReplacePrefixed("0x" + h, n) ==
            if |h| >= n then REDACTED + ReplacePrefixed(h[n..], n) else "0x" + h
  {
    var s := "0x" + h;
    PrefixMatches(h, n);
    if |h| < n {
      assert s[0] == '0' && s[1..] == "x" + h;
      XStays(h, n);
      assert s == [s[0]] + ("x" + h);
    }
  }

  /** A separator at the end of a text leaves the rest to be scrubbed alone. */
  lemma {:induction false} MarkerAside(rest: string, n: nat)
    requires n >= 64 && AllHex(rest)
    ensures ReplacePrefixed(REDACTED + rest, n) == REDACTED + rest
    ensures ReplaceRuns(REDACTED + rest, false) == REDACTED + ReplaceRuns(rest, false)
  {
    var front := REDACTED[..|REDACTED| - 1];
    assert REDACTED + rest == front + ['>'] + rest;
    PrefixedLocal(front, '>', rest, n);
    RunsLocal(front, '>', rest, false);
    PrefixedUnchanged(front, n);
    RunsUnchanged(front, false);
    HexHasNoPrefix(rest, n);
  }

  lemma {:induction false} HexAlone(h: string)
    requires AllHex(h)
    ensures ReplaceRuns(h, false) == if |h| >= 64 then "<redacted:relayer-key>" else h
  {
    HexRunOfHex(h);
    if |h| >= 64 {
      assert h[|h|..] == [];
      assert REDACTED + [] == REDACTED;
    } else {
      RunsUnchanged(h, false);
    }
  }

  /** How many digits of a 0x-prefixed run the first two passes take. */
  function Taken(h: string): (n: nat)
    requires |h| >= 64
    ensures n <= |h|
  {
    if |h| >= 130 then 130 else 64
  }

  lemma {:induction false} PrefixTaken(h: string)
    requires AllHex(h) && |h| >= 64
    ensures ReplacePrefixed(ReplacePrefixed("0x" + h, 130), 64) == REDACTED + h[Taken(h)..]
  {
    var rest := h[Taken(h)..];
    PrefixedAlone(h, 130);
    PrefixedAlone(h, 64);
    HexHasNoPrefix(rest, Taken(h));
    if |h| >= 130 {
      MarkerAside(rest, 64);
    }
  }

  lemma {:induction false} ShortRunStays(h: string)
    requires AllHex(h) && |h| < 64
    ensures ScrubString("0x" + h) == "0x" + h
  {
    PrefixedAlone(h, 130);
    PrefixedAlone(h, 64);
    var s := "0x" + h;
    forall i: nat
      ensures !LongRunAt(s, i)
    {
      assert s[1] == 'x' && |s| < 66;
      assert LongRunAt(s, i) ==> i <= 1;
    }
    RunsUnchanged(s, false);
  }

  /** A 0x-prefixed run of hex digits, whatever its length: the marker takes the place of 130 digits,
      or else of 64, and of what is left if that is 64 digits or more; a shorter rest stays. */
  lemma {:induction false} PrefixedRunBecomes(h: string)
    requires AllHex(h)
    ensures ScrubString("0x" + h) ==
      if |h| < 64 then "0x" + h
      else
        var rest := h[if |h| >= 130 then 130 else 64..];
        "<redacted:relayer-key>" + if |rest| >= 64 then "<redacted:relayer-key>" else rest
  {
    if |h| < 64 {
      ShortRunStays(h);
    } else {
      var rest := h[Taken(h)..];
      PrefixTaken(h);
      MarkerAside(rest, 64);
      HexAlone(rest);
    }
  }

  /** So do a 0x-prefixed key and a 0x-prefixed signature. */
  lemma PrefixedSecretIsRedacted(h: string)
    requires AllHex(h) && (|h| == 64 || |h| == 130)
    ensures ScrubString("0x" + h) == "<redacted:relayer-key>"
  {
    PrefixedRunBecomes(h);
  }
}
