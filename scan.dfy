/**
 * Leftmost scanning, as Python's `re.findall` and `re.search` do it for one fixed
 * pattern. A pattern is supplied as a matcher: a function that, given the whole text
 * and a position, says how long the match starting there is (0 for none), or which
 * capture group it yields. The hand-written matchers of each extractor module decide
 * the pattern's own semantics; this module decides where matching is attempted.
 */
module Scan {
  import opened Wrappers

  /** Length of the match of a pattern at a position; 0 means no match there. */
  type Matcher = (string, nat) -> nat

  /** A matcher result, cut to 0 when it would run past the end of the text. */
  function MatchLen(m: Matcher, s: string, i: nat): (n: nat)
    ensures n > 0 ==> i + n <= |s|
  {
    var n := m(s, i);
    if i + n <= |s| then n else 0
  }

  /** Where one match of a `findall` starts and how long it is. */
  datatype Span = Span(start: nat, len: nat) {
    function End(): nat { start + len }
  }

  /** No match of `m` starts anywhere in `[from, to)`. */
  ghost predicate NoMatchIn(m: Matcher, s: string, from: nat, to: nat) {
    forall j | from <= j < to :: MatchLen(m, s, j) == 0
  }

  /**
   * The non-overlapping matches that `findall` reports when it starts at position
   * `i`: try at each position; after a match resume at its end, otherwise one further.
   */
  function SpansFrom(m: Matcher, s: string, i: nat): (r: seq<Span>)
    ensures forall k | 0 <= k < |r| :: r[k].End() <= |s|
    decreases |s| - i
  {
    if i >= |s| then []
    else
      var n := MatchLen(m, s, i);
      if n > 0 then [Span(i, n)] + SpansFrom(m, s, i + n) else SpansFrom(m, s, i + 1)
  }

  /** Every span found from `i` lies in the text after `i` and is a non-empty match there. */
  lemma {:induction false} SpansFromMatches(m: Matcher, s: string, i: nat)
    ensures forall k | 0 <= k < |SpansFrom(m, s, i)| ::
      && i <= SpansFrom(m, s, i)[k].start && SpansFrom(m, s, i)[k].len > 0
      && SpansFrom(m, s, i)[k].End() <= |s|
      && MatchLen(m, s, SpansFrom(m, s, i)[k].start) == SpansFrom(m, s, i)[k].len
    decreases |s| - i
  {
    if i < |s| {
      var n := MatchLen(m, s, i);
      if n > 0 {
        SpansFromMatches(m, s, i + n);
        var rest := SpansFrom(m, s, i + n);
        assert SpansFrom(m, s, i) == [Span(i, n)] + rest;
        forall k | 1 <= k < |SpansFrom(m, s, i)| ensures SpansFrom(m, s, i)[k] == rest[k - 1] {
        }
      } else {
        SpansFromMatches(m, s, i + 1);
        SkipStep(m, s, i);
      }
    }
  }

  function Spans(m: Matcher, s: string): seq<Span> {
    SpansFrom(m, s, 0)
  }

  /** `re.findall` of a pattern without groups: the matched substrings, left to right. */
  function FindAll(m: Matcher, s: string): (r: seq<string>)
    ensures |r| == |Spans(m, s)|
    ensures forall k | 0 <= k < |r| :: r[k] == s[Spans(m, s)[k].start..Spans(m, s)[k].End()]
  {
    var sp := Spans(m, s);
    SpansFromMatches(m, s, 0);
    assert forall k | 0 <= k < |sp| :: sp[k].start <= sp[k].End() <= |s|;
    seq(|sp|, k requires 0 <= k < |sp| => s[sp[k].start..sp[k].End()])
  }

  /** Every span is a non-empty match of `m`. */
  ghost predicate AllMatch(m: Matcher, s: string, sp: seq<Span>) {
    forall k | 0 <= k < |sp| :: sp[k].len > 0 && MatchLen(m, s, sp[k].start) == sp[k].len
  }

  /** Spans are in order, do not overlap, and no match starts in a gap between two of them. */
  ghost predicate GapsClear(m: Matcher, s: string, sp: seq<Span>) {
    |sp| <= 1 || (
      && sp[0].End() <= sp[1].start
      && NoMatchIn(m, s, sp[0].End(), sp[1].start)
      && GapsClear(m, s, sp[1..]))
  }

  /**
   * The declarative description of a leftmost scan from `i`: spans in order, each a
   * match, no match starting before the first, in a gap between two, or after the last.
   */
  ghost predicate IsLeftmostScan(m: Matcher, s: string, i: nat, sp: seq<Span>) {
    && AllMatch(m, s, sp)
    && GapsClear(m, s, sp)
    && (sp == [] ==> NoMatchIn(m, s, i, |s|))
    && (sp != [] ==>
          && i <= sp[0].start
          && NoMatchIn(m, s, i, sp[0].start)
          && NoMatchIn(m, s, sp[|sp| - 1].End(), |s|))
  }

  /** `SpansFrom` is a leftmost scan. */
  lemma SpansFromIsLeftmostScan(m: Matcher, s: string, i: nat)
    ensures IsLeftmostScan(m, s, i, SpansFrom(m, s, i))
  {
    SpansFromMatches(m, s, i);
    SpansFromFront(m, s, i);
    SpansFromBack(m, s, i);
    SpansFromGaps(m, s, i);
  }

  /** No match starts before the first span, or anywhere when there is none. */
  lemma {:induction false} SpansFromFront(m: Matcher, s: string, i: nat)
    ensures SpansFrom(m, s, i) == [] ==> NoMatchIn(m, s, i, |s|)
    ensures SpansFrom(m, s, i) != [] ==> NoMatchIn(m, s, i, SpansFrom(m, s, i)[0].start)
    decreases |s| - i
  {
    if i < |s| && MatchLen(m, s, i) == 0 {
      assert SpansFrom(m, s, i) == SpansFrom(m, s, i + 1);
      SpansFromFront(m, s, i + 1);
    }
  }

  /** No match starts after the end of the last span. */
  lemma {:induction false} SpansFromBack(m: Matcher, s: string, i: nat)
    ensures SpansFrom(m, s, i) != [] ==> NoMatchIn(m, s, Last(SpansFrom(m, s, i)).End(), |s|)
    decreases |s| - i
  {
    if i < |s| {
      if MatchLen(m, s, i) > 0 {
        SpansFromFront(m, s, i + MatchLen(m, s, i));
        SpansFromBack(m, s, i + MatchLen(m, s, i));
        BackMatchStep(m, s, i);
      } else {
        SpansFromBack(m, s, i + 1);
        SkipStep(m, s, i);
      }
    }
  }

  function Last(sp: seq<Span>): Span
    requires sp != []
  {
    sp[|sp| - 1]
  }

  lemma BackMatchStep(m: Matcher, s: string, i: nat)
    requires i < |s| && MatchLen(m, s, i) > 0
    requires var rest := SpansFrom(m, s, i + MatchLen(m, s, i));
      && (rest == [] ==> NoMatchIn(m, s, i + MatchLen(m, s, i), |s|))
      && (rest != [] ==> NoMatchIn(m, s, Last(rest).End(), |s|))
    ensures NoMatchIn(m, s, Last(SpansFrom(m, s, i)).End(), |s|)
  {
    var n := MatchLen(m, s, i);
    var rest := SpansFrom(m, s, i + n);
    assert SpansFrom(m, s, i) == [Span(i, n)] + rest;
    if rest != [] {
      assert Last(SpansFrom(m, s, i)) == Last(rest);
    }
  }

  lemma SkipStep(m: Matcher, s: string, i: nat)
    requires i < |s| && MatchLen(m, s, i) == 0
    ensures SpansFrom(m, s, i) == SpansFrom(m, s, i + 1)
  {
  }

  /** No match starts in a gap between two spans. */
  lemma {:induction false} SpansFromGaps(m: Matcher, s: string, i: nat)
    ensures GapsClear(m, s, SpansFrom(m, s, i))
    decreases |s| - i
  {
    if i < |s| {
      if MatchLen(m, s, i) > 0 {
        SpansFromFront(m, s, i + MatchLen(m, s, i));
        SpansFromGaps(m, s, i + MatchLen(m, s, i));
        GapsMatchStep(m, s, i);
      } else {
        SpansFromGaps(m, s, i + 1);
        SkipStep(m, s, i);
      }
    }
  }

  lemma GapsMatchStep(m: Matcher, s: string, i: nat)
    requires i < |s| && MatchLen(m, s, i) > 0
    requires var rest := SpansFrom(m, s, i + MatchLen(m, s, i));
      && GapsClear(m, s, rest)
      && (rest != [] ==> NoMatchIn(m, s, i + MatchLen(m, s, i), rest[0].start))
    ensures GapsClear(m, s, SpansFrom(m, s, i))
  {
    var n := MatchLen(m, s, i);
    var rest := SpansFrom(m, s, i + n);
    SpansFromMatches(m, s, i + n);
    var sp := [Span(i, n)] + rest;
    assert SpansFrom(m, s, i) == sp;
    assert sp[1..] == rest;
  }

  /** A leftmost scan is unique: every sequence of spans that is one equals `SpansFrom`. */
  lemma {:induction false} LeftmostScanIsUnique(m: Matcher, s: string, i: nat, sp: seq<Span>)
    requires IsLeftmostScan(m, s, i, sp)
    ensures sp == SpansFrom(m, s, i)
    decreases |s| - i
  {
    if sp == [] {
      NoMatchMeansNoSpans(m, s, i);
    } else {
      var first := sp[0];
      SkipNoMatch(m, s, i, first.start);
      assert first.start < |s|;
      assert SpansFrom(m, s, first.start) == [first] + SpansFrom(m, s, first.End());
      var rest := sp[1..];
      assert IsLeftmostScan(m, s, first.End(), rest) by {
        assert AllMatch(m, s, rest) by {
          forall k | 0 <= k < |rest| ensures rest[k].len > 0 && MatchLen(m, s, rest[k].start) == rest[k].len {
            assert rest[k] == sp[k + 1];
          }
        }
        if rest != [] {
          assert rest[0] == sp[1];
          assert sp[|sp| - 1] == rest[|rest| - 1];
        }
      }
      LeftmostScanIsUnique(m, s, first.End(), rest);
      assert sp == [first] + rest;
    }
  }

  lemma {:induction false} NoMatchMeansNoSpans(m: Matcher, s: string, i: nat)
    requires NoMatchIn(m, s, i, |s|)
    ensures SpansFrom(m, s, i) == []
    decreases |s| - i
  {
    if i < |s| {
      NoMatchMeansNoSpans(m, s, i + 1);
    }
  }

  /** Positions without a match can be skipped. */
  lemma {:induction false} SkipNoMatch(m: Matcher, s: string, i: nat, j: nat)
    requires i <= j && NoMatchIn(m, s, i, j)
    ensures j <= |s| ==> SpansFrom(m, s, i) == SpansFrom(m, s, j)
    ensures j > |s| ==> SpansFrom(m, s, i) == []
    decreases j - i
  {
    if i < j {
      SkipNoMatch(m, s, i + 1, j);
      if i < |s| {
        assert MatchLen(m, s, i) == 0;
      }
    }
  }

  /** `findall` finds nothing exactly when the pattern matches at no position (both directions). */
  lemma FindAllEmptyIff(m: Matcher, s: string)
    ensures FindAll(m, s) == [] <==> NoMatchIn(m, s, 0, |s|)
  {
    SpansFromIsLeftmostScan(m, s, 0);
    if NoMatchIn(m, s, 0, |s|) {
      NoMatchMeansNoSpans(m, s, 0);
    }
  }

  /** `re.search(...) is not None` for a pattern given by a length matcher. */
  predicate Occurs(m: Matcher, s: string) {
    Spans(m, s) != []
  }

  lemma OccursIff(m: Matcher, s: string)
    ensures Occurs(m, s) <==> !NoMatchIn(m, s, 0, |s|)
  {
    FindAllEmptyIff(m, s);
  }

  /**
   * `re.search` for a pattern with a capture group: the first position, scanning from
   * `i` up to and including the end of the text, at which the group matcher succeeds.
   */
  function SearchFrom<T>(f: (string, nat) -> Option<T>, s: string, i: nat): (r: Option<nat>)
    ensures r.Some? ==> i <= r.value <= |s| && f(s, r.value).Some?
    ensures r.Some? ==> forall k | i <= k < r.value :: f(s, k).None?
    ensures r.None? <==> forall k | i <= k <= |s| :: f(s, k).None?
    decreases |s| + 1 - i
  {
    if i > |s| then None
    else if f(s, i).Some? then Some(i)
    else SearchFrom(f, s, i + 1)
  }

  /** The group of the leftmost match, `None` when the pattern does not occur. */
  function First<T>(f: (string, nat) -> Option<T>, s: string): Option<T> {
    match SearchFrom(f, s, 0)
    case Some(p) => f(s, p)
    case None => None
  }
}
