/** What marker replacement means, independently of how the input arrives.

    `Reference` is the whole-input definition: at every position the longest marker that
    stands there is replaced, the scan continues behind it, and replacement text is never
    scanned again. `LeftmostLongest` says what the engine's automaton returns. The lemmas relate
    the two, and say when a match found in a window of the input is already final. */
module ReplacementSpec {
  import opened Basics

  // ---------- the whole-input reference ----------

  predicate MatchesAt(pattern: Bytes, hay: Bytes, at: nat) {
    at + |pattern| <= |hay| && forall i {:trigger pattern[i]} :: 0 <= i < |pattern| ==> hay[at + i] == pattern[i]
  }

  predicate Stands(marker: Bytes, input: Bytes, at: nat, markers: map<Bytes, Bytes>) {
    marker in markers && marker != [] && MatchesAt(marker, input, at)
  }

  /** `p` is the longest non-empty marker that stands at `at`. */
  ghost predicate Longest(p: Bytes, input: Bytes, at: nat, markers: map<Bytes, Bytes>) {
    Stands(p, input, at, markers) && forall q :: Stands(q, input, at, markers) ==> |q| <= |p|
  }

  lemma {:induction false} LongestExists(candidates: set<Bytes>)
    requires candidates != {}
    ensures exists p :: p in candidates && forall q :: q in candidates ==> |q| <= |p|
  {
    var p :| p in candidates;
    var others := candidates - {p};
    if others == {} {
      assert candidates == {p};
    } else {
      LongestExists(others);
      var r :| r in others && forall q :: q in others ==> |q| <= |r|;
      var longest := if |p| <= |r| then r else p;
      assert longest in candidates && forall q :: q in candidates ==> |q| <= |longest|;
    }
  }

  lemma LongestStands(p: Bytes, input: Bytes, at: nat, markers: map<Bytes, Bytes>)
    requires Stands(p, input, at, markers)
    ensures exists r :: Longest(r, input, at, markers)
  {
    var candidates := set q | q in markers && Stands(q, input, at, markers);
    assert p in candidates;
    LongestExists(candidates);
    var r :| r in candidates && forall q :: q in candidates ==> |q| <= |r|;
    assert Longest(r, input, at, markers);
  }

  ghost function LongestAt(input: Bytes, at: nat, markers: map<Bytes, Bytes>): Option<Bytes> {
    if p :| Longest(p, input, at, markers) then Some(p) else None
  }

  /** An input, its markers, and the marker chosen at each of its positions. */
  datatype Scan = Scan(input: Bytes, markers: map<Bytes, Bytes>, choices: seq<Option<Bytes>>) {
    ghost predicate Valid() {
      |choices| == |input| && forall at :: 0 <= at < |input| ==> ChosenAt(at)
    }

    /** The longest marker that stands at `at` is chosen there, if there is one. */
    ghost predicate ChosenAt(at: nat)
      requires at < |choices|
    {
      match choices[at]
      case None => forall q :: !Stands(q, input, at, markers)
      case Some(p) => Longest(p, input, at, markers)
    }
  }

  ghost function ScanOf(input: Bytes, markers: map<Bytes, Bytes>): (scan: Scan)
    ensures scan.Valid() && scan.input == input && scan.markers == markers
  {
    var scan := Scan(input, markers, seq(|input|, at requires 0 <= at => LongestAt(input, at, markers)));
    assert forall at :: 0 <= at < |input| ==> scan.ChosenAt(at) by {
      forall at | 0 <= at < |input|
        ensures scan.ChosenAt(at)
      {
        forall q | Stands(q, input, at, markers)
          ensures LongestAt(input, at, markers).Some?
        {
          LongestStands(q, input, at, markers);
        }
      }
    }
    scan
  }

  ghost function ReferenceFrom(scan: Scan, at: nat): Bytes
    requires scan.Valid() && at <= |scan.input|
    decreases |scan.input| - at
  {
    if at == |scan.input| then []
    else
      assert scan.ChosenAt(at);
      match scan.choices[at]
      case None => [scan.input[at]] + ReferenceFrom(scan, at + 1)
      case Some(p) => scan.markers[p] + ReferenceFrom(scan, at + |p|)
  }

  ghost function Reference(input: Bytes, markers: map<Bytes, Bytes>): Bytes {
    ReferenceFrom(ScanOf(input, markers), 0)
  }

  /** Between positions `a` and `b` of the input the reference puts exactly `piece`. */
  ghost predicate Spans(scan: Scan, a: nat, b: nat, piece: Bytes)
    requires scan.Valid()
  {
    a <= b <= |scan.input| && ReferenceFrom(scan, a) == piece + ReferenceFrom(scan, b)
  }

  lemma Compose(scan: Scan, a: nat, b: nat, c: nat, left: Bytes, right: Bytes)
    requires scan.Valid() && Spans(scan, a, b, left) && Spans(scan, b, c, right)
    ensures Spans(scan, a, c, left + right)
  {
  }

  /** What is still to come completes what is already done, also behind any `base`. */
  lemma Completes(scan: Scan, a: nat, b: nat, piece: Bytes, base: Bytes)
    requires scan.Valid() && Spans(scan, a, b, piece)
    ensures |piece| + |ReferenceFrom(scan, b)| == |ReferenceFrom(scan, a)|
    ensures base + piece <= base + ReferenceFrom(scan, a)
    ensures (base + piece) + ReferenceFrom(scan, b) == base + ReferenceFrom(scan, a)
  {
    Fits(base, piece, ReferenceFrom(scan, b));
  }

  lemma Fits(base: Bytes, piece: Bytes, rest: Bytes)
    ensures base + piece <= base + (piece + rest) == (base + piece) + rest
  {
  }

  // ---------- the search the engine performs ----------

  datatype Match = Match(start: nat, end: nat, pattern: nat)

  /** `found` is the leftmost match at or behind `from`, and the longest one that starts there. */
  ghost predicate LeftmostLongest(patterns: seq<Bytes>, hay: Bytes, from: nat, found: Option<Match>) {
    match found
    case None => forall i, k :: 0 <= i < |patterns| && from <= k ==> !MatchesAt(patterns[i], hay, k)
    case Some(m) =>
      && m.pattern < |patterns|
      && from <= m.start
      && m.end == m.start + |patterns[m.pattern]|
      && MatchesAt(patterns[m.pattern], hay, m.start)
      && forall i, k :: 0 <= i < |patterns| && from <= k && MatchesAt(patterns[i], hay, k) ==>
           m.start < k || (m.start == k && |patterns[i]| <= m.end - m.start)
  }

  // ---------- how patterns represent a marker map ----------

  predicate Listed(pattern: Bytes, patterns: seq<Bytes>) {
    pattern in patterns
  }

  predicate Entry(patterns: seq<Bytes>, replacements: seq<Bytes>, markers: map<Bytes, Bytes>, i: nat)
    requires i < |patterns| == |replacements|
  {
    patterns[i] != [] && patterns[i] in markers && markers[patterns[i]] == replacements[i]
  }

  /** `patterns` and `replacements` list, in some order, exactly the non-empty markers. */
  ghost predicate Represents(patterns: seq<Bytes>, replacements: seq<Bytes>, markers: map<Bytes, Bytes>) {
    && |patterns| == |replacements|
    && (forall i :: 0 <= i < |patterns| ==> Entry(patterns, replacements, markers, i))
    && (forall p {:trigger Listed(p, patterns)} :: p in markers && p != [] ==> Listed(p, patterns))
  }

  ghost predicate NoneLongerThan(patterns: seq<Bytes>, limit: nat) {
    forall i :: 0 <= i < |patterns| ==> |patterns[i]| <= limit
  }

  /** Two patterns of the same length that stand at the same place are the same. */
  lemma SameText(p: Bytes, q: Bytes, hay: Bytes, at: nat)
    requires MatchesAt(p, hay, at) && MatchesAt(q, hay, at) && |p| == |q|
    ensures p == q
  {
    forall i | 0 <= i < |p|
      ensures p[i] == q[i]
    {
      assert hay[at + i] == p[i];
    }
  }

  // ---------- stability: a match decided before the input is complete ----------

  /** `hay` is what stands at `base` in the whole input. */
  ghost predicate Window(whole: Bytes, base: nat, hay: Bytes) {
    base + |hay| <= |whole| && forall i {:trigger hay[i]} :: 0 <= i < |hay| ==> whole[base + i] == hay[i]
  }

  /** Position `at` of the window is decided: either the longest pattern would still fit behind
      it, or the window reaches the end of the input. */
  ghost predicate Decided(whole: Bytes, base: nat, hay: Bytes, at: nat, limit: nat) {
    at + limit <= |hay| || base + |hay| == |whole|
  }

  lemma MatchesInWindow(pattern: Bytes, whole: Bytes, base: nat, hay: Bytes, at: nat)
    requires Window(whole, base, hay) && (at + |pattern| <= |hay| || base + |hay| == |whole|)
    ensures MatchesAt(pattern, whole, base + at) <==> MatchesAt(pattern, hay, at)
  {
    if MatchesAt(pattern, whole, base + at) {
      forall i | 0 <= i < |pattern|
        ensures hay[at + i] == pattern[i]
      {
        assert whole[base + at + i] == pattern[i];
      }
    }
  }

  /** The marker chosen at a decided position is a pattern that matches there in the window. */
  lemma ChoiceMatches(patterns: seq<Bytes>, replacements: seq<Bytes>, limit: nat, scan: Scan, base: nat, hay: Bytes, at: nat)
    returns (i: nat)
    requires scan.Valid() && Represents(patterns, replacements, scan.markers) && NoneLongerThan(patterns, limit)
    requires Window(scan.input, base, hay) && Decided(scan.input, base, hay, at, limit)
    requires base + at < |scan.input| && scan.choices[base + at].Some?
    ensures i < |patterns| && patterns[i] == scan.choices[base + at].value
    ensures MatchesAt(patterns[i], hay, at)
  {
    var p := scan.choices[base + at].value;
    assert scan.ChosenAt(base + at);
    assert Listed(p, patterns);
    i :| 0 <= i < |patterns| && patterns[i] == p;
    MatchesInWindow(p, scan.input, base, hay, at);
  }

  lemma CopyAt(scan: Scan, at: nat, b: byte)
    requires scan.Valid() && at < |scan.input|
    requires scan.input[at] == b && scan.choices[at].None?
    ensures Spans(scan, at, at + 1, [b])
  {
  }

  lemma ReplaceAt(scan: Scan, at: nat, end: nat, p: Bytes, replacement: Bytes)
    requires scan.Valid() && at < |scan.input| && scan.choices[at] == Some(p)
    requires p in scan.markers && scan.markers[p] == replacement && end == at + |p|
    ensures Spans(scan, at, end, replacement)
  {
    assert scan.ChosenAt(at);
  }

  /** At position `at` of the window the reference copies one byte. */
  ghost predicate CopiesAt(scan: Scan, base: nat, hay: Bytes, at: nat)
    requires scan.Valid() && at < |hay|
  {
    Spans(scan, base + at, base + at + 1, [hay[at]])
  }

  /** Steps that each copy one byte make one step that copies the stretch. */
  lemma {:induction false} CopyRun(scan: Scan, base: nat, hay: Bytes, from: nat, stop: nat)
    requires scan.Valid() && from <= stop <= |hay| && base + |hay| <= |scan.input|
    requires forall k :: from <= k < stop ==> CopiesAt(scan, base, hay, k)
    ensures Spans(scan, base + from, base + stop, hay[from..stop])
    decreases stop
  {
    if from < stop {
      var last := stop - 1;
      CopyRun(scan, base, hay, from, last);
      assert CopiesAt(scan, base, hay, last);
      Compose(scan, base + from, base + last, base + stop, hay[from..last], [hay[last]]);
      Snoc(hay, from, stop);
    }
  }

  lemma Snoc(hay: Bytes, from: nat, stop: nat)
    requires from < stop <= |hay|
    ensures hay[from..stop - 1] + [hay[stop - 1]] == hay[from..stop]
  {
  }

  /** Copying a stretch of decided positions where nothing matches is a step of the reference. */
  lemma CopyStep(patterns: seq<Bytes>, replacements: seq<Bytes>, limit: nat,
                 scan: Scan, base: nat, hay: Bytes, from: nat, stop: nat, found: Option<Match>)
    requires scan.Valid() && Represents(patterns, replacements, scan.markers) && NoneLongerThan(patterns, limit)
    requires Window(scan.input, base, hay) && from <= stop <= |hay|
    requires from == stop || Decided(scan.input, base, hay, stop - 1, limit)
    requires LeftmostLongest(patterns, hay, from, found) && (found.None? || stop <= found.value.start)
    ensures Spans(scan, base + from, base + stop, hay[from..stop])
  {
    forall k | from <= k < stop
      ensures CopiesAt(scan, base, hay, k)
    {
      if scan.choices[base + k].Some? {
        var i := ChoiceMatches(patterns, replacements, limit, scan, base, hay, k);
        assert false;
      }
      CopyAt(scan, base + k, hay[k]);
    }
    CopyRun(scan, base, hay, from, stop);
  }

  /** At a decided match the engine's automaton and the reference choose the same marker. */
  lemma SameChoice(patterns: seq<Bytes>, replacements: seq<Bytes>, limit: nat,
                   scan: Scan, base: nat, hay: Bytes, from: nat, m: Match)
    requires scan.Valid() && Represents(patterns, replacements, scan.markers) && NoneLongerThan(patterns, limit)
    requires Window(scan.input, base, hay) && Decided(scan.input, base, hay, m.start, limit)
    requires LeftmostLongest(patterns, hay, from, Some(m))
    ensures m.start < m.end && base + m.start < |scan.input|
    ensures scan.choices[base + m.start] == Some(patterns[m.pattern])
  {
    var p := patterns[m.pattern];
    assert Entry(patterns, replacements, scan.markers, m.pattern);
    MatchesInWindow(p, scan.input, base, hay, m.start);
    assert scan.ChosenAt(base + m.start);
    assert Stands(p, scan.input, base + m.start, scan.markers);
    var i := ChoiceMatches(patterns, replacements, limit, scan, base, hay, m.start);
    SameText(p, patterns[i], hay, m.start);
  }

  /** Replacing a decided match is a step of the reference. */
  lemma ReplaceStep(patterns: seq<Bytes>, replacements: seq<Bytes>, limit: nat,
                    scan: Scan, base: nat, hay: Bytes, from: nat, m: Match)
    requires scan.Valid() && Represents(patterns, replacements, scan.markers) && NoneLongerThan(patterns, limit)
    requires Window(scan.input, base, hay) && Decided(scan.input, base, hay, m.start, limit)
    requires LeftmostLongest(patterns, hay, from, Some(m))
    ensures m.start < m.end && Spans(scan, base + m.start, base + m.end, replacements[m.pattern])
  {
    SameChoice(patterns, replacements, limit, scan, base, hay, from, m);
    assert Entry(patterns, replacements, scan.markers, m.pattern);
    ReplaceAt(scan, base + m.start, base + m.end, patterns[m.pattern], replacements[m.pattern]);
  }
}
