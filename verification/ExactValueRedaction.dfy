/** Exact-value redaction: the sequential longest-first replacement loop and the
    walk over an object graph that applies it to every key and string.

    The central result is an exact one: a value is guaranteed to be absent from
    every redacted string, whatever else is being redacted, if and only if no
    alignment of the value agrees with the placeholder. */
module Replacement {

  ghost predicate OccursAt(s: string, w: string, i: int) {
    0 <= i && i + |w| <= |s| && s[i..i + |w|] == w
  }

  ghost predicate Contains(s: string, w: string) {
    exists i :: OccursAt(s, w, i)
  }

  ghost predicate FreeBefore(s: string, w: string, limit: int) {
    forall i :: 0 <= i < limit ==> !OccursAt(s, w, i)
  }

  /** JavaScript's replaceAll for a non-empty string pattern: leftmost matches, no overlap. */
  function ReplaceAll(s: string, v: string, r: string): string
    requires v != ""
    decreases |s|
  {
    if |s| < |v| then s
    else if s[..|v|] == v then r + ReplaceAll(s[|v|..], v, r)
    else [s[0]] + ReplaceAll(s[1..], v, r)
  }

  /** The pieces of a text between the leftmost occurrences of `v`. */
  function Split(s: string, v: string): (pieces: seq<string>)
    requires v != ""
    ensures pieces != []
    decreases |s|
  {
    if |s| < |v| then [s]
    else if s[..|v|] == v then [""] + Split(s[|v|..], v)
    else
      var later := Split(s[1..], v);
      [[s[0]] + later[0]] + later[1..]
  }

  function Join(pieces: seq<string>, between: string): string
    requires pieces != []
  {
    if |pieces| == 1 then pieces[0] else pieces[0] + between + Join(pieces[1..], between)
  }

  lemma JoinLonger(c: char, pieces: seq<string>, between: string)
    requires pieces != []
    ensures Join([[c] + pieces[0]] + pieces[1..], between) == [c] + Join(pieces, between)
  {
    var longer := [[c] + pieces[0]] + pieces[1..];
    assert longer[1..] == pieces[1..];
    if |pieces| > 1 {
      assert [c] + pieces[0] + between + Join(pieces[1..], between) == [c] + (pieces[0] + between + Join(pieces[1..], between));
    }
  }

  /** Replacing changes nothing but the occurrences: the text is its pieces around `v`, and the
      result is the same pieces around `r`. */
  lemma {:induction false} ReplacesOnlyOccurrences(s: string, v: string, r: string)
    requires v != ""
    ensures Join(Split(s, v), v) == s && ReplaceAll(s, v, r) == Join(Split(s, v), r)
    decreases |s|
  {
    if |s| >= |v| {
      if s[..|v|] == v {
        ReplacesOnlyOccurrences(s[|v|..], v, r);
        var later := Split(s[|v|..], v);
        assert ([""] + later)[1..] == later;
        assert "" + v + s[|v|..] == s && "" + r + Join(later, r) == r + Join(later, r);
      } else {
        ReplacesOnlyOccurrences(s[1..], v, r);
        var later := Split(s[1..], v);
        JoinLonger(s[0], later, v);
        JoinLonger(s[0], later, r);
        assert [s[0]] + s[1..] == s;
      }
    }
  }

  /** Placing `w` so that its first character falls on position `d` of `r`, the
      characters that land on `r` are those of `r`. */
  predicate AgreesAt(w: string, r: string, d: int) {
    forall k :: 0 <= k < |w| && 0 <= k + d < |r| ==> w[k] == r[k + d]
  }

  /** Some placement that touches `r` agrees with it. */
  predicate Overlaps(w: string, r: string) {
    exists d :: -|w| < d < |r| && AgreesAt(w, r, d)
  }

  lemma OccursInPrefix(x: string, y: string, w: string)
    ensures forall i :: OccursAt(x, w, i) ==> OccursAt(x + y, w, i)
  {
    forall i | OccursAt(x, w, i) ensures OccursAt(x + y, w, i) {
      assert (x + y)[i..i + |w|] == x[i..i + |w|];
    }
  }

  lemma OccursInSuffix(x: string, y: string, w: string)
    ensures forall i :: OccursAt(y, w, i) ==> OccursAt(x + y, w, |x| + i)
  {
    forall i | OccursAt(y, w, i) ensures OccursAt(x + y, w, |x| + i) {
      assert (x + y)[|x| + i..|x| + i + |w|] == y[i..i + |w|];
    }
  }

  /** An occurrence in `p + r + q` lies in `p`, lies in `q`, or touches `r`. */
  lemma OccurrenceAround(p: string, r: string, q: string, w: string)
    requires w != "" && Contains(p + r + q, w)
    ensures Contains(p, w) || Contains(q, w) || Overlaps(w, r)
  {
    var t := p + r + q;
    var i :| OccursAt(t, w, i);
    if i + |w| <= |p| {
      assert t[i..i + |w|] == p[i..i + |w|];
      assert OccursAt(p, w, i);
    } else if |p| + |r| <= i {
      var j := i - |p| - |r|;
      assert t[i..i + |w|] == q[j..j + |w|];
      assert OccursAt(q, w, j);
    } else {
      var d := i - |p|;
      forall k | 0 <= k < |w| && 0 <= k + d < |r|
        ensures w[k] == r[k + d]
      {
        assert w[k] == t[i..i + |w|][k] == t[i + k];
      }
      assert AgreesAt(w, r, d);
    }
  }

  lemma MatchKeepsOut(p: string, r: string, tail: string, whole: string, w: string)
    requires w != "" && !Overlaps(w, r) && !Contains(tail, w)
    requires FreeBefore(whole, w, |p|) && p <= whole
    ensures !Contains(p + r + tail, w)
  {
    OccursInPrefix(p, whole[|p|..], w);
    assert whole == p + whole[|p|..];
    if Contains(p + r + tail, w) {
      OccurrenceAround(p, r, tail, w);
      assert false;
    }
  }

  lemma FreeSuffix(x: string, y: string, w: string)
    requires FreeBefore(x + y, w, |x + y|)
    ensures FreeBefore(y, w, |y|)
  {
    OccursInSuffix(x, y, w);
  }

  lemma FreeMeansOut(s: string, w: string, limit: int)
    requires FreeBefore(s, w, limit) && |s| < limit + |w|
    ensures !Contains(s, w)
  {
  }

  /** One step of the pass, seen behind the prefix `p`. */
  lemma PassUnfolds(p: string, s: string, v: string, r: string)
    requires 0 < |v| <= |s|
    ensures p + ReplaceAll(s, v, r) ==
            if s[..|v|] == v then p + r + ([] + ReplaceAll(s[|v|..], v, r))
            else (p + [s[0]]) + ReplaceAll(s[1..], v, r)
  {
    if s[..|v|] == v {
      Regroup(p, r, ReplaceAll(s[|v|..], v, r));
    } else {
      Regroup(p, [s[0]], ReplaceAll(s[1..], v, r));
    }
  }

  lemma Regroup(a: string, b: string, c: string)
    ensures a + (b + c) == (a + b) + c == (a + b) + ([] + c)
  {
    assert [] + c == c;
  }

  /** Replacing `v` behind an already emitted prefix `p` does not bring `w` into being. */
  lemma {:induction false} PassKeepsOut(p: string, s: string, v: string, r: string, w: string)
    requires v != "" && w != "" && !Overlaps(w, r)
    requires FreeBefore(p + s, w, if w == v then |p| else |p + s|)
    ensures !Contains(p + ReplaceAll(s, v, r), w)
    decreases |s|
  {
    hide Overlaps, FreeBefore, Contains, OccursAt;
    if |s| < |v| {
      FreeMeansOut(p + s, w, if w == v then |p| else |p + s|);
    } else {
      hide ReplaceAll;
      PassUnfolds(p, s, v, r);
      if s[..|v|] == v {
        PassMatch(p, s, v, r, w);
        PassKeepsOut([], s[|v|..], v, r, w);
        MatchKeepsOut(p, r, [] + ReplaceAll(s[|v|..], v, r), p + s, w);
      } else {
        PassStep(p, s, v, w);
        PassKeepsOut(p + [s[0]], s[1..], v, r, w);
      }
    }
  }

  lemma PassStep(p: string, s: string, v: string, w: string)
    requires 0 < |v| <= |s| && s[..|v|] != v
    requires FreeBefore(p + s, w, if w == v then |p| else |p + s|)
    ensures var moved := (p + [s[0]]) + s[1..];
            FreeBefore(moved, w, if w == v then |p + [s[0]]| else |moved|)
  {
    assert (p + [s[0]]) + s[1..] == p + s;
    assert (p + s)[|p|..|p| + |v|] == s[..|v|];
  }

  /** After a match the pass starts afresh, and nothing emitted so far holds `w`. */
  lemma PassMatch(p: string, s: string, v: string, r: string, w: string)
    requires v != "" && |v| <= |s| && s[..|v|] == v
    requires FreeBefore(p + s, w, if w == v then |p| else |p + s|)
    ensures FreeBefore([] + s[|v|..], w, if w == v then 0 else |s[|v|..]|)
    ensures FreeBefore(p + s, w, |p|)
  {
    var rest := s[|v|..];
    assert p + s == (p + v) + rest && [] + rest == rest;
    if w != v {
      FreeSuffix(p + v, rest, w);
    }
  }

  lemma {:induction false} NoOccurrenceNoChange(s: string, v: string, r: string)
    requires v != "" && !Contains(s, v)
    ensures ReplaceAll(s, v, r) == s
    decreases |s|
  {
    if |s| >= |v| {
      assert !OccursAt(s, v, 0);
      assert s == [s[0]] + s[1..];
      OccursInSuffix([s[0]], s[1..], v);
      NoOccurrenceNoChange(s[1..], v, r);
    }
  }

  lemma {:induction false} FirstMatch(x: string, v: string, y: string, r: string)
    requires v != "" && FreeBefore(x + v + y, v, |x|)
    ensures ReplaceAll(x + v + y, v, r) == x + r + ReplaceAll(y, v, r)
    decreases |x|
  {
    var s := x + v + y;
    if x == "" {
      assert s == v + y && s[..|v|] == v && s[|v|..] == y;
    } else {
      assert !OccursAt(s, v, 0);
      assert s[1..] == x[1..] + v + y && s == [s[0]] + s[1..];
      OccursInSuffix([s[0]], s[1..], v);
      FirstMatch(x[1..], v, y, r);
    }
  }

  // ------------------------------------------- inputs that reproduce a value

  lemma ReplaceItself(v: string, r: string)
    requires v != ""
    ensures ReplaceAll(v, v, r) == r
  {
    assert v == "" + v + "";
    FirstMatch("", v, "", r);
    assert r == "" + r + ReplaceAll("", v, r);
  }

  /** `v` begins with an end of `r`. */
  lemma HeadReproduces(v: string, r: string, d: int)
    requires 0 < d < |r| < d + |v| && AgreesAt(v, r, d)
    ensures Contains(ReplaceAll(v + v[|r| - d..], v, r), v)
  {
    var c := v[|r| - d..];
    assert v + c == "" + v + c;
    FirstMatch("", v, c, r);
    hide ReplaceAll, FreeBefore;
    var out := "" + r + c;
    forall k | 0 <= k < |v| ensures out[d + k] == v[k] {}
    assert out[d..d + |v|] == v;
    assert OccursAt(out, v, d);
  }

  lemma FirstOccurrence(v: string, r: string) returns (a: nat)
    requires Contains(v, r)
    ensures OccursAt(v, r, a) && FreeBefore(v, r, a)
  {
    var from :| OccursAt(v, r, from);
    a := 0;
    while !OccursAt(v, r, a)
      invariant a <= from && FreeBefore(v, r, a)
      decreases from - a
    {
      a := a + 1;
    }
  }

  /** Two overlapping copies of `v`: what occurs in `v` behind the shift also occurs
      that much earlier. */
  lemma ShiftedCopies(x: string, v: string, y: string, p: nat, r: string, at: nat)
    requires p < |x| && OccursAt(x + v + y, v, p) && OccursAt(v, r, at) && |x| - p <= at
    ensures OccursAt(v, r, at - (|x| - p))
  {
    var s, shift := x + v + y, |x| - p;
    forall k | 0 <= k < |r| ensures v[at - shift + k] == r[k] {
      assert s[p..p + |v|][at + k] == s[p + at + k] == v[at - shift + k];
      assert v[at..at + |r|][k] == v[at + k];
    }
    assert v[at - shift..at - shift + |r|] == r;
  }

  /** Wrapped in its own ends, a value around `r` reproduces itself. */
  lemma WrappedReproduces(a: string, b: string, v: string, r: string)
    requires r != "" && v == a + r + b && FreeBefore(v, r, |a|)
    ensures ReplaceAll(a + v + b, v, r) == v
  {
    assert v[|a|..|a| + |r|] == r;
    // an earlier copy of `v` would carry an earlier copy of `r`
    forall p: nat | p < |a| ensures !OccursAt(a + v + b, v, p) {
      if OccursAt(a + v + b, v, p) {
        ShiftedCopies(a, v, b, p, r, |a|);
        assert false;
      }
    }
    FirstMatch(a, v, b, r);
    assert ReplaceAll(b, v, r) == b;
  }

  lemma TailIsPrefix(v: string, r: string, d: int)
    requires -|v| < d < 0 && d + |v| <= |r| && AgreesAt(v, r, d)
    ensures v[-d..] <= r
  {
    forall k | 0 <= k < |v| + d ensures v[-d..][k] == r[k] {}
  }

  function Run(c: char, n: nat): string { seq(n, _ => c) }

  /** The run first occurs right after `a`, and no longer value ending otherwise occurs. */
  lemma RunAfter(a: string, c: char, n: nat)
    requires 0 < |a| <= n && a[|a| - 1] != c
    ensures FreeBefore(a + Run(c, n), Run(c, n), |a|)
    ensures forall w :: |w| == n + 1 && w[n] != c ==> !Contains(a + Run(c, n), w)
  {
    var u := Run(c, n);
    var s := a + u;
    forall p | 0 <= p < |a| && p + |u| <= |s| ensures !OccursAt(s, u, p) {
      assert s[p..p + |u|][|a| - 1 - p] == a[|a| - 1] != c;
      assert u[|a| - 1 - p] == c;
    }
    forall w: string, i | |w| == n + 1 && w[n] != c && 0 <= i && i + |w| <= |s|
      ensures !OccursAt(s, w, i)
    {
      assert s[i..i + |w|][n] == s[i + n];
      assert s[i + n] == u[i + n - |a|] == c;
    }
  }

  /** `v` ends with a beginning of `r`: replacing a shorter value right after the head of
      `v` completes it. */
  lemma TailCompleted(a: string, b: string, r: string, c: char)
    requires a != "" && b != "" && b <= r && c != b[|b| - 1] && c != a[|a| - 1]
    ensures var v, u := a + b, Run(c, |a + b| - 1);
            ReplaceAll(a + u, v, r) == a + u && Contains(ReplaceAll(a + u, u, r), v)
  {
    var v, u := a + b, Run(c, |a + b| - 1);
    assert v[|v| - 1] == b[|b| - 1];
    RunAfter(a, c, |v| - 1);
    hide Run;
    assert ReplaceAll(a + u, v, r) == a + u by { NoOccurrenceNoChange(a + u, v, r); }
    assert a + u + "" == a + u;
    FirstMatch(a, u, "", r);
    hide ReplaceAll, FreeBefore;
    var out := a + r + ReplaceAll("", u, r);
    assert out[0..|v|] == v;
    assert OccursAt(out, v, 0);
  }
}

module ExactValueRedaction {
  import opened Replacement

  const REDACTED: string := "[redacted]"

  function RedactString(s: string, values: seq<string>): string
    requires "" !in values
    decreases |values|
  {
    if values == [] then s
    else RedactString(ReplaceAll(s, values[0], REDACTED), values[1..])
  }

  /** The passes run in the order of the list, and each replaces the occurrences of its value and
      nothing else. */
  lemma EachPassReplacesOnlyItsValue(s: string, values: seq<string>)
    requires "" !in values
    ensures RedactString(s, []) == s
    ensures values != [] ==>
              && Join(Split(s, values[0]), values[0]) == s
              && RedactString(s, values) == RedactString(Join(Split(s, values[0]), "[redacted]"), values[1..])
  {
    if values != [] { ReplacesOnlyOccurrences(s, values[0], "[redacted]"); }
  }

  /** A value in the list, or one the text never held, stays out through every later pass. */
  lemma {:induction false} AbsentStaysAbsent(s: string, values: seq<string>, w: string)
    requires "" !in values && w != "" && !Overlaps(w, REDACTED)
    requires w in values || !Contains(s, w)
    ensures !Contains(RedactString(s, values), w)
    decreases |values|
  {
    if values != [] {
      assert [] + s == s;
      var next := ReplaceAll(s, values[0], REDACTED);
      if w == values[0] || !Contains(s, w) {
        PassKeepsOut([], s, values[0], REDACTED, w);
        assert [] + next == next;
      }
      AbsentStaysAbsent(next, values[1..], w);
    }
  }

  /** Text without the values is returned unchanged: nothing but exact values is scrubbed. */
  lemma {:induction false} CleanTextUnchanged(s: string, values: seq<string>)
    requires "" !in values && forall v :: v in values ==> !Contains(s, v)
    ensures RedactString(s, values) == s
    decreases |values|
  {
    if values != [] {
      NoOccurrenceNoChange(s, values[0], REDACTED);
      CleanTextUnchanged(s, values[1..]);
    }
  }

  // --------------------------------------------- normalising the value list

  /** The list built from the supplied values: distinct, non-empty, never the placeholder
      itself, longest first (a stable sort). */
  function Normalize(values: seq<string>): seq<string>
    decreases |values|
  {
    if values == [] then [] else
      var init, v := values[..|values| - 1], values[|values| - 1];
      var list := Normalize(init);
      if v == "" || v == REDACTED || v in init then list else InsertByLength(list, v)
  }

  /** Stable insertion: after every entry that is at least as long. */
  function InsertByLength(list: seq<string>, v: string): seq<string> {
    if list == [] then [v]
    else if |list[0]| >= |v| then [list[0]] + InsertByLength(list[1..], v)
    else [v] + list
  }

  ghost predicate LongestFirst(values: seq<string>) {
    forall i, j :: 0 <= i < j < |values| ==> |values[i]| >= |values[j]|
  }

  ghost predicate Distinct(values: seq<string>) {
    forall i, j :: 0 <= i < j < |values| ==> values[i] != values[j]
  }

  lemma {:induction false} InsertByLengthSorts(list: seq<string>, v: string)
    requires LongestFirst(list) && Distinct(list) && v !in list
    ensures LongestFirst(InsertByLength(list, v)) && Distinct(InsertByLength(list, v))
    ensures forall w :: w in InsertByLength(list, v) <==> w == v || w in list
  {
    if list != [] && |list[0]| >= |v| {
      InsertByLengthSorts(list[1..], v);
      var r := InsertByLength(list[1..], v);
      forall j | 0 <= j < |r| ensures |list[0]| >= |r[j]| && list[0] != r[j] {
        assert r[j] in r;
      }
    }
  }

  /** What the list holds, and in which order it is applied. */
  lemma {:induction false} NormalizeMeaning(values: seq<string>)
    ensures forall w :: w in Normalize(values) <==> w in values && w != "" && w != REDACTED
    ensures LongestFirst(Normalize(values)) && Distinct(Normalize(values))
    decreases |values|
  {
    if values != [] {
      var init, v := values[..|values| - 1], values[|values| - 1];
      NormalizeMeaning(init);
      assert values == init + [v];
      if !(v == "" || v == REDACTED || v in init) {
        InsertByLengthSorts(Normalize(init), v);
      }
    }
  }

  /** Exact values scrubbed from one string. */
  function Scrub(s: string, values: seq<string>): string {
    NormalizeMeaning(values);
    RedactString(s, Normalize(values))
  }

  // -------------------------------------------------- the exact guarantee

  /** Whatever is redacted along with `v`, no redacted string contains `v`. */
  ghost predicate AlwaysScrubbed(v: string) {
    forall values: seq<string>, s: string :: v in values ==> !Contains(Scrub(s, values), v)
  }

  lemma ScrubSingle(s: string, v: string)
    requires v != "" && v != REDACTED
    ensures Scrub(s, [v]) == ReplaceAll(s, v, REDACTED)
  {
    assert [v][..0] == [] && Normalize([]) == [];
    assert Normalize([v]) == InsertByLength([], v) == [v];
    assert [v][1..] == [];
    assert RedactString(s, [v]) == RedactString(ReplaceAll(s, v, REDACTED), []);
  }

  lemma ScrubPair(s: string, v: string, u: string)
    requires 0 < |u| < |v| && v != REDACTED && u != REDACTED
    ensures Scrub(s, [v, u]) == ReplaceAll(ReplaceAll(s, v, REDACTED), u, REDACTED)
  {
    assert [v, u][..1] == [v] && [v][..0] == [] && Normalize([]) == [];
    assert Normalize([v]) == InsertByLength([], v) == [v];
    assert [v][1..] == [];
    assert Normalize([v, u]) == InsertByLength([v], u) == [v] + InsertByLength([], u) == [v, u];
    assert [v, u][1..] == [u] && [u][1..] == [];
    var s1 := ReplaceAll(s, v, REDACTED);
    assert RedactString(s, [v, u]) == RedactString(s1, [u]);
    assert RedactString(s1, [u]) == RedactString(ReplaceAll(s1, u, REDACTED), []);
  }

  lemma NotScrubbedAlone(v: string, s: string)
    requires v != "" && v != REDACTED && Contains(ReplaceAll(s, v, REDACTED), v)
    ensures !AlwaysScrubbed(v)
  {
    ScrubSingle(s, v);
    assert v in [v];
  }

  lemma PlaceholderCharacters(k: nat)
    requires k < |REDACTED|
    ensures REDACTED[k] != 'x' && REDACTED[k] != 'y'
  {
  }

  lemma NotScrubbedTail(a: string, b: string, c: char)
    requires a != "" && b != "" && b <= REDACTED && a + b != REDACTED
    requires c != b[|b| - 1] && c != a[|a| - 1] && c != REDACTED[0]
    ensures !AlwaysScrubbed(a + b)
  {
    var v := a + b;
    TailCompleted(a, b, REDACTED, c);
    var u := Run(c, |v| - 1);
    assert u[0] == c;
    ScrubPair(a + u, v, u);
    assert v in [v, u];
  }

  /** The placeholder lies inside the value. */
  lemma AroundNotScrubbed(v: string, d: int)
    requires v != "" && v != REDACTED && d <= 0 && |REDACTED| <= d + |v| && AgreesAt(v, REDACTED, d)
    ensures !AlwaysScrubbed(v)
  {
    forall k | 0 <= k < |REDACTED| ensures v[-d + k] == REDACTED[k] {}
    assert v[-d..-d + |REDACTED|] == REDACTED;
    assert OccursAt(v, REDACTED, -d);
    var at := FirstOccurrence(v, REDACTED);
    var a, b := v[..at], v[at + |REDACTED|..];
    assert v == a + REDACTED + b;
    WrappedReproduces(a, b, v, REDACTED);
    assert OccursAt(v, v, 0);
    hide AlwaysScrubbed;
    NotScrubbedAlone(v, a + v + b);
  }

  /** The value lies inside the placeholder. */
  lemma InsideNotScrubbed(v: string, d: int)
    requires v != "" && v != REDACTED && 0 <= d && d + |v| <= |REDACTED| && AgreesAt(v, REDACTED, d)
    ensures !AlwaysScrubbed(v)
  {
    ReplaceItself(v, REDACTED);
    assert REDACTED[d..d + |v|] == v;
    assert OccursAt(REDACTED, v, d);
    NotScrubbedAlone(v, v);
  }

  lemma OverlapsNotScrubbed(v: string, d: int)
    requires v != "" && v != REDACTED && -|v| < d < |REDACTED| && AgreesAt(v, REDACTED, d)
    ensures !AlwaysScrubbed(v)
  {
    hide AlwaysScrubbed;
    if d <= 0 && |REDACTED| <= d + |v| {
      AroundNotScrubbed(v, d);
    } else if 0 <= d && d + |v| <= |REDACTED| {
      InsideNotScrubbed(v, d);
    } else if d > 0 {
      HeadReproduces(v, REDACTED, d);
      NotScrubbedAlone(v, v + v[|REDACTED| - d..]);
    } else {
      var a, b := v[..-d], v[-d..];
      assert v == a + b;
      TailIsPrefix(v, REDACTED, d);
      PlaceholderCharacters(|b| - 1);
      PlaceholderCharacters(0);
      NotScrubbedTail(a, b, if a[|a| - 1] == 'x' then 'y' else 'x');
    }
  }

  /** The exact guarantee: a value is absent from every redacted string, whatever the other
      values, precisely when it agrees with the placeholder under no touching alignment. */
  lemma ScrubbedExactly(v: string)
    requires v != "" && v != REDACTED
    ensures AlwaysScrubbed(v) <==> !Overlaps(v, REDACTED)
  {
    if Overlaps(v, REDACTED) {
      var d :| -|v| < d < |REDACTED| && AgreesAt(v, REDACTED, d);
      OverlapsNotScrubbed(v, d);
    } else {
      forall values: seq<string>, s: string | v in values
        ensures !Contains(Scrub(s, values), v)
      {
        NormalizeMeaning(values);
        AbsentStaysAbsent(s, Normalize(values), v);
      }
    }
  }

  /** The simpler condition callers can see at a glance is enough. */
  lemma NoSharedCharacterIsEnough(v: string)
    requires v != "" && forall c :: c in v ==> c !in REDACTED
    ensures !Overlaps(v, REDACTED) && AlwaysScrubbed(v)
  {
    forall d | -|v| < d < |REDACTED| ensures !AgreesAt(v, REDACTED, d) {
      var k := if d < 0 then -d else 0;
      assert v[k] in v && REDACTED[k + d] in REDACTED;
    }
    assert v != REDACTED by { assert v[0] in v; }
    ScrubbedExactly(v);
  }

  /** The guarantee is not unconditional: the token "red" survives its own redaction. */
  lemma PlaceholderPartSurvives()
    ensures Contains(Scrub("red", ["red"]), "red")
  {
    ScrubSingle("red", "red");
    ReplaceItself("red", REDACTED);
    assert REDACTED[1..4] == "red";
    assert OccursAt(REDACTED, "red", 1);
  }
}
