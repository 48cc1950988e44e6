/**
 * The text cleaner and the business-information extractor of the data-cleaning
 * script: `TelegramDataCleaner.clean_text`, the pattern table `business_patterns`
 * and `TelegramDataCleaner.extract_business_info`.
 *
 * Each regular expression of the table is a hand-written matcher. In each of them
 * the classes that follow each other are disjoint (digits, whitespace, separators,
 * currency words), so taking every repetition greedily and never giving characters
 * back finds the same match as Python's backtracking engine. `TimeAt` alone is
 * written with the retry spelled out: two hour digits, then one.
 */
module DataCleaning {
  import opened Wrappers
  import opened Text
  import opened Scan

  // ===========================================================================
  // clean_text
  // ===========================================================================

  /** `re.sub(r'\s+', ' ', s)`: every run of whitespace becomes one space. */
  function Collapse(s: string): (r: string)
    ensures |r| == 0 <==> |s| == 0
    ensures r != [] ==> (IsSpace(r[0]) <==> IsSpace(s[0]))
    ensures r != [] ==> (IsSpace(r[|r| - 1]) <==> IsSpace(s[|s| - 1]))
    decreases |s|
  {
    if s == [] then []
    else if IsSpace(s[0]) then " " + Collapse(s[SpaceRun(s, 0)..])
    else [s[0]] + Collapse(s[1..])
  }

  /** After collapsing, the only whitespace is `' '`, and every other character comes from the input. */
  lemma {:induction false} CollapseChars(s: string)
    ensures forall k | 0 <= k < |Collapse(s)| ::
      Collapse(s)[k] == ' ' || (!IsSpace(Collapse(s)[k]) && Collapse(s)[k] in s)
    decreases |s|
  {
    if s != [] {
      var n := if IsSpace(s[0]) then SpaceRun(s, 0) else 1;
      var rest := s[n..];
      CollapseChars(rest);
      forall k | 0 <= k < |rest| ensures rest[k] in s { assert rest[k] == s[n + k]; }
    }
  }

  /** After collapsing, no two whitespace characters are adjacent. */
  lemma {:induction false} CollapseNoDoubleSpace(s: string)
    ensures forall k | 0 <= k < |Collapse(s)| - 1 :: !(IsSpace(Collapse(s)[k]) && IsSpace(Collapse(s)[k + 1]))
    decreases |s|
  {
    if s != [] {
      var n := if IsSpace(s[0]) then SpaceRun(s, 0) else 1;
      var rest := s[n..];
      CollapseNoDoubleSpace(rest);
      var r := Collapse(s);
      assert r[1..] == Collapse(rest);
      forall k | 0 <= k < |r| - 1 ensures !(IsSpace(r[k]) && IsSpace(r[k + 1])) {
        if k > 0 {
          assert r[k] == Collapse(rest)[k - 1] && r[k + 1] == Collapse(rest)[k];
        }
      }
    }
  }

  /** The punctuation the cleaner's character class lists. */
  predicate KeptPunctuation(c: char) {
    c == '.' || c == ',' || c == '!' || c == '?' || c == '@' || c == '#' || c == '$'
    || c == '%' || c == '&' || c == '*' || c == '(' || c == ')' || c == '-' || c == '+'
    || c == '=' || c == '<' || c == '>' || c == '[' || c == ']' || c == '{' || c == '}'
    || c == '|' || c == ';' || c == ':' || c == '\'' || c == '"'
  }

  /** Characters of `[\w\sሀ-፿.,!?@#$%&*()\-+=<>\[\]{}|;:'"\n]`. */
  predicate Allowed(c: char) {
    IsWordChar(c) || IsSpace(c) || IsEthiopic(c) || KeptPunctuation(c) || c == '\n'
  }

  /** `re.sub(r'[^...]', '', s)`: delete every character outside the class. */
  function DropDisallowed(s: string): string {
    if s == [] then []
    else if Allowed(s[0]) then [s[0]] + DropDisallowed(s[1..])
    else DropDisallowed(s[1..])
  }

  /** Filtering keeps only allowed characters, all taken from the input. */
  lemma {:induction false} DropDisallowedChars(s: string)
    ensures forall k | 0 <= k < |DropDisallowed(s)| :: Allowed(DropDisallowed(s)[k]) && DropDisallowed(s)[k] in s
  {
    if s != [] {
      var rest := s[1..];
      DropDisallowedChars(rest);
      forall k | 0 <= k < |rest| ensures rest[k] in s { assert rest[k] == s[1 + k]; }
    }
  }

  /** `re.sub(r'\n+', '\n', s)`: every run of newlines becomes one newline. */
  function SqueezeNewlines(s: string): (r: string)
    ensures s != [] ==> r != [] && r[0] == s[0]
  {
    if s == [] then []
    else if |s| >= 2 && s[0] == '\n' && s[1] == '\n' then SqueezeNewlines(s[1..])
    else [s[0]] + SqueezeNewlines(s[1..])
  }

  /** After squeezing, no two line breaks are adjacent. */
  lemma {:induction false} SqueezeNoDoubleNewline(s: string)
    ensures forall k | 0 <= k < |SqueezeNewlines(s)| - 1 ::
      !(SqueezeNewlines(s)[k] == '\n' && SqueezeNewlines(s)[k + 1] == '\n')
  {
    if s != [] {
      SqueezeNoDoubleNewline(s[1..]);
      var r := SqueezeNewlines(s);
      var rest := SqueezeNewlines(s[1..]);
      if !(|s| >= 2 && s[0] == '\n' && s[1] == '\n') {
        assert r == [s[0]] + rest;
        forall k | 0 <= k < |r| - 1 ensures !(r[k] == '\n' && r[k + 1] == '\n') {
          if k > 0 {
            assert r[k] == rest[k - 1] && r[k + 1] == rest[k];
          }
        }
      }
    }
  }

  /** `clean_text`: `None` and `""` give `""`; otherwise strip, collapse, filter, squeeze, strip. */
  function CleanText(text: Option<string>): string {
    if text.None? || text.value == "" then ""
    else Strip(SqueezeNewlines(DropDisallowed(Collapse(Strip(text.value)))))
  }

  lemma {:induction false} DropDisallowedIsSubsequence(s: string)
    ensures IsSubsequence(DropDisallowed(s), s)
  {
    if s != [] {
      DropDisallowedIsSubsequence(s[1..]);
      if !Allowed(s[0]) {
        assert IsSubsequence(DropDisallowed(s), s[1..]);
      }
    }
  }

  lemma {:induction false} DropDisallowedKeepsAllowed(s: string)
    requires forall k | 0 <= k < |s| :: Allowed(s[k])
    ensures DropDisallowed(s) == s
  {
    if s != [] {
      DropDisallowedKeepsAllowed(s[1..]);
      assert [s[0]] + s[1..] == s;
    }
  }

  lemma {:induction false} SqueezeWithoutNewlines(s: string)
    requires '\n' !in s
    ensures SqueezeNewlines(s) == s
  {
    if s != [] {
      SqueezeWithoutNewlines(s[1..]);
      assert [s[0]] + s[1..] == s;
    }
  }

  /** A character the cleaner can leave in its output. */
  predicate CleanChar(c: char) {
    IsWordChar(c) || c == ' ' || IsEthiopic(c) || KeptPunctuation(c)
  }

  predicate AllClean(s: string) {
    forall k | 0 <= k < |s| :: CleanChar(s[k])
  }

  /** The only whitespace character the cleaner can leave is `' '`. */
  lemma CleanCharIsNotOtherSpace(c: char)
    requires CleanChar(c)
    ensures c != '\n' && (IsSpace(c) ==> c == ' ')
  {
  }

  lemma DropCollapsedIsClean(c: string)
    requires forall k | 0 <= k < |c| :: c[k] == ' ' || !IsSpace(c[k])
    ensures AllClean(DropDisallowed(c))
  {
    var f := DropDisallowed(c);
    DropDisallowedChars(c);
    forall k | 0 <= k < |f| ensures CleanChar(f[k]) {
      assert f[k] in c;
      var j :| 0 <= j < |c| && c[j] == f[k];
    }
  }

  lemma SliceKeepsClean(f: string, a: nat, b: nat)
    requires a <= b <= |f| && AllClean(f)
    ensures AllClean(f[a..b])
  {
    var r := f[a..b];
    forall k | 0 <= k < |r| ensures CleanChar(r[k]) {
      assert r[k] == f[a + k];
    }
  }

  lemma StripKeepsClean(f: string)
    requires AllClean(f)
    ensures AllClean(Strip(f))
  {
    var r := Strip(f);
    SliceKeepsClean(f, Leading(f), Leading(f) + |r|);
  }

  lemma CleanHasNoNewline(s: string)
    requires AllClean(s)
    ensures '\n' !in s
    ensures forall k | 0 <= k < |s| :: IsSpace(s[k]) ==> s[k] == ' '
  {
    forall k | 0 <= k < |s| ensures s[k] != '\n' && (IsSpace(s[k]) ==> s[k] == ' ') {
      CleanCharIsNotOtherSpace(s[k]);
    }
  }

  lemma StripIsSubsequence(f: string, c: string)
    requires IsSubsequence(f, c)
    ensures IsSubsequence(Strip(f), c)
  {
    SliceOfSubsequence(f, c, Leading(f), Leading(f) + |Strip(f)|);
  }

  /**
   * What `clean_text` returns: `""` for `None` or `""`; otherwise a string without
   * leading or trailing whitespace and without `'\n'`, whose only whitespace is `' '`,
   * made of word characters, spaces, Ethiopic characters and the listed punctuation,
   * and obtained from the whitespace-collapsed input by deleting characters.
   */
  lemma CleanTextShape(text: Option<string>)
    ensures text.None? || text == Some("") ==> CleanText(text) == ""
    ensures Trimmed(CleanText(text))
    ensures '\n' !in CleanText(text)
    ensures forall k | 0 <= k < |CleanText(text)| :: IsSpace(CleanText(text)[k]) ==> CleanText(text)[k] == ' '
    ensures AllClean(CleanText(text))
    ensures text.Some? ==> IsSubsequence(CleanText(text), Collapse(Strip(text.value)))
  {
    if text.Some? && text.value != "" {
      var c := Collapse(Strip(text.value));
      var f := DropDisallowed(c);
      CollapseChars(Strip(text.value));
      DropCollapsedIsClean(c);
      CleanHasNoNewline(f);
      SqueezeWithoutNewlines(f);
      var r := Strip(f);
      assert r == CleanText(text);
      StripKeepsClean(f);
      CleanHasNoNewline(r);
      DropDisallowedIsSubsequence(c);
      StripIsSubsequence(f, c);
    } else {
      assert CleanText(text) == "";
      if text.Some? {
        EmptyIsSubsequence(Collapse(Strip(text.value)));
      }
    }
  }

  /** Collapsing a text of allowed characters without newlines keeps it so. */
  lemma CollapseAllowed(y: string)
    requires forall k | 0 <= k < |y| :: Allowed(y[k]) && y[k] != '\n'
    ensures forall k | 0 <= k < |Collapse(y)| :: Allowed(Collapse(y)[k]) && Collapse(y)[k] != '\n'
  {
    var c := Collapse(y);
    CollapseChars(y);
    forall k | 0 <= k < |c| ensures Allowed(c[k]) && c[k] != '\n' {
      if !IsSpace(c[k]) {
        var j :| 0 <= j < |y| && y[j] == c[k];
      }
    }
  }

  /** Cleaning cleaned text only collapses the runs of spaces the filter left behind. */
  lemma CleanTwice(text: Option<string>)
    ensures CleanText(Some(CleanText(text))) == Collapse(CleanText(text))
  {
    var y := CleanText(text);
    CleanTextShape(text);
    if y != "" {
      StripTrimmed(y);
      var c := Collapse(y);
      CollapseAllowed(y);
      DropDisallowedKeepsAllowed(c);
      SqueezeWithoutNewlines(c);
      StripTrimmed(c);
    }
  }

  /**
   * `clean_text` is not idempotent: deleting the euro sign of `"a € b"` leaves two
   * spaces, which only a second pass collapses.
   */
  lemma CleanTextNotIdempotent()
    ensures CleanText(Some("a \U{20AC} b")) == "a  b"
    ensures CleanText(Some(CleanText(Some("a \U{20AC} b")))) == "a b"
  {
    CleanSpacedDisallowed('a', '\U{20AC}', 'b');
    assert "a \U{20AC} b" == ['a', ' ', '\U{20AC}', ' ', 'b'];
    assert "a  b" == ['a', ' ', ' ', 'b'];
    CleanDoubleSpaced('a', 'b');
    assert "a b" == ['a', ' ', 'b'];
  }

  /** A printable, non-space character the filter keeps. */
  predicate Keepable(c: char) {
    Allowed(c) && !IsSpace(c) && c != '\n'
  }

  /** `clean_text` by its five stages, each given separately. */
  lemma CleanStages(t: string, a: string, b: string, c: string, d: string, r: string)
    requires t != "" && Strip(t) == a && Collapse(a) == b && DropDisallowed(b) == c
    requires SqueezeNewlines(c) == d && Strip(d) == r
    ensures CleanText(Some(t)) == r
  {
  }

  /** Deleting a character between two spaced words leaves two spaces. */
  lemma CleanSpacedDisallowed(x: char, e: char, y: char)
    requires Keepable(x) && Keepable(y) && !Allowed(e) && !IsSpace(e)
    ensures CleanText(Some([x, ' ', e, ' ', y])) == [x, ' ', ' ', y]
  {
    SpacedWordsUnchanged(x, e, y);
    DropAroundFive(x, e, y);
    DoubleSpacedUnchanged(x, y);
    CleanStages([x, ' ', e, ' ', y], [x, ' ', e, ' ', y], [x, ' ', e, ' ', y],
      [x, ' ', ' ', y], [x, ' ', ' ', y], [x, ' ', ' ', y]);
  }

  /** Three single-spaced words pass the strip and the collapse unchanged. */
  lemma SpacedWordsUnchanged(x: char, e: char, y: char)
    requires !IsSpace(x) && !IsSpace(e) && !IsSpace(y)
    ensures Strip([x, ' ', e, ' ', y]) == [x, ' ', e, ' ', y]
    ensures Collapse([x, ' ', e, ' ', y]) == [x, ' ', e, ' ', y]
  {
    StripTrimmed([x, ' ', e, ' ', y]);
    ThreeWordsSingleSpaced(x, e, y);
    SingleSpacedCollapse([x, ' ', e, ' ', y]);
  }

  /** Two words with a double space between pass the squeeze and the strip unchanged. */
  lemma DoubleSpacedUnchanged(x: char, y: char)
    requires !IsSpace(x) && !IsSpace(y) && x != '\n' && y != '\n'
    ensures SqueezeNewlines([x, ' ', ' ', y]) == [x, ' ', ' ', y]
    ensures Strip([x, ' ', ' ', y]) == [x, ' ', ' ', y]
  {
    SqueezeWithoutNewlines([x, ' ', ' ', y]);
    StripTrimmed([x, ' ', ' ', y]);
  }

  lemma ThreeWordsSingleSpaced(x: char, e: char, y: char)
    requires !IsSpace(x) && !IsSpace(e) && !IsSpace(y)
    ensures SingleSpaced([x, ' ', e, ' ', y])
  {
  }

  lemma DropAroundFive(x: char, e: char, y: char)
    requires Keepable(x) && Keepable(y) && !Allowed(e)
    ensures DropDisallowed([x, ' ', e, ' ', y]) == [x, ' ', ' ', y]
  {
    assert [x, ' ', e, ' ', y] == [x, ' '] + [e] + [' ', y];
    DropAround([x, ' '], e, [' ', y]);
    assert [x, ' '] + [' ', y] == [x, ' ', ' ', y];
  }

  /** A second pass collapses the two spaces to one. */
  lemma CleanDoubleSpaced(x: char, y: char)
    requires Keepable(x) && Keepable(y)
    ensures CleanText(Some([x, ' ', ' ', y])) == [x, ' ', y]
  {
    var w := [x, ' ', ' ', y];
    var r := [x, ' ', y];
    StripTrimmed(w);
    DoubleSpacedCollapse(x, y);
    DropDisallowedKeepsAllowed(r);
    SqueezeWithoutNewlines(r);
    StripTrimmed(r);
    CleanStages(w, w, r, r, r, r);
  }

  lemma DoubleSpacedCollapse(x: char, y: char)
    requires !IsSpace(x) && !IsSpace(y)
    ensures Collapse([x, ' ', ' ', y]) == [x, ' ', y]
  {
    var w := [x, ' ', ' ', y];
    DoubleSpaceHead(y);
    assert w[1..] == [' ', ' ', y];
  }

  /** Two spaces before a non-space character collapse to one. */
  lemma DoubleSpaceHead(y: char)
    requires !IsSpace(y)
    ensures Collapse([' ', ' ', y]) == [' ', y]
  {
    var t := [' ', ' ', y];
    assert SpaceRun(t, 2) == 0;
    assert SpaceRun(t, 0) == 2;
    assert t[2..] == [y];
    assert SingleSpaced([y]);
    SingleSpacedCollapse([y]);
  }

  /** Filtering deletes one disallowed character between two runs of allowed ones. */
  lemma {:induction false} DropAround(a: string, e: char, b: string)
    requires forall k | 0 <= k < |a| :: Allowed(a[k])
    requires forall k | 0 <= k < |b| :: Allowed(b[k])
    requires !Allowed(e)
    ensures DropDisallowed(a + [e] + b) == a + b
    decreases |a|
  {
    if a == [] {
      assert a + [e] + b == [e] + b;
      assert ([e] + b)[1..] == b;
      DropDisallowedKeepsAllowed(b);
    } else {
      DropAround(a[1..], e, b);
      assert (a + [e] + b)[1..] == a[1..] + [e] + b;
      assert a + b == [a[0]] + (a[1..] + b);
    }
  }

  /** Every whitespace character is a `' '` followed by a non-space character (or the end). */
  predicate SingleSpaced(w: string) {
    forall k | 0 <= k < |w| && IsSpace(w[k]) :: w[k] == ' ' && (k + 1 < |w| ==> !IsSpace(w[k + 1]))
  }

  /** Collapsing leaves a single-spaced string as it is. */
  lemma {:induction false} SingleSpacedCollapse(w: string)
    requires SingleSpaced(w)
    ensures Collapse(w) == w
    decreases |w|
  {
    if w != [] {
      SingleSpacedTail(w);
      SingleSpacedCollapse(w[1..]);
      SingleSpacedStep(w);
      HeadTail(w);
    }
  }

  lemma SingleSpacedTail(w: string)
    requires w != [] && SingleSpaced(w)
    ensures SingleSpaced(w[1..])
  {
    var rest := w[1..];
    forall k | 0 <= k < |rest| && IsSpace(rest[k]) ensures rest[k] == ' ' && (k + 1 < |rest| ==> !IsSpace(rest[k + 1])) {
      assert rest[k] == w[k + 1];
    }
  }

  /** On a single-spaced string, collapsing keeps the first character and goes on after it. */
  lemma SingleSpacedStep(w: string)
    requires w != [] && SingleSpaced(w)
    ensures Collapse(w) == [w[0]] + Collapse(w[1..])
  {
    if IsSpace(w[0]) {
      assert |w| > 1 ==> SpaceRun(w, 1) == 0;
      assert SpaceRun(w, 0) == 1;
    }
  }

  // ===========================================================================
  // business_patterns
  // ===========================================================================

  /** `\b` at position `i`: word character on exactly one side. */
  predicate WordBoundary(s: string, i: nat) {
    (0 < i <= |s| && IsWordChar(s[i - 1])) != (i < |s| && IsWordChar(s[i]))
  }

  /** `(?:\+251|0)[79]\d{8}|\b\d{10}\b`. */
  function PhoneAt(s: string, i: nat): (n: nat)
    ensures n == 0 || n == 10 || n == 13
    ensures n > 0 ==> i + n <= |s|
    ensures n == 13 ==> LitAt(s, i, "+251") && (s[i + 4] == '7' || s[i + 4] == '9') && AllDigits(s[i + 5..i + 13])
    ensures n == 10 ==> AllDigits(s[i..i + 10])
  {
    var p := if LitAt(s, i, "+251") then 4 else if LitAt(s, i, "0") then 1 else 0;
    if p > 0 && i + p + 9 <= |s| && (s[i + p] == '7' || s[i + p] == '9') && AllDigits(s[i + p + 1..i + p + 9]) then
      assert p == 1 ==> s[i..i + 10] == [s[i]] + [s[i + 1]] + s[i + 2..i + 10];
      p + 9
    else if WordBoundary(s, i) && i + 10 <= |s| && AllDigits(s[i..i + 10]) && WordBoundary(s, i + 10) then 10
    else 0
  }

  /** `(?:ብር|birr|ETB|\$)` under `re.IGNORECASE`. */
  function CurrencyAt(s: string, i: nat): (n: nat)
    ensures n > 0 ==> i + n <= |s| && !IsDigit(s[i]) && !IsSpace(s[i])
  {
    if LitAt(s, i, "\U{1265}\U{122D}") then 2
    else if LitAtCI(s, i, "birr") then (assert Lower(s[i]) == 'b'; 4)
    else if LitAtCI(s, i, "etb") then (assert Lower(s[i]) == 'e'; 3)
    else if LitAt(s, i, "$") then 1
    else 0
  }

  /** `\d+(?:[.,]\d+)?`, greedy. */
  function AmountAt(s: string, i: nat): (n: nat)
    ensures n > 0 ==> i + n <= |s| && IsDigit(s[i]) && IsDigit(s[i + n - 1])
    ensures forall k | i <= k < i + n :: IsDigit(s[k]) || s[k] == '.' || s[k] == ','
  {
    var d := DigitRun(s, i);
    if d == 0 then 0
    else if i + d < |s| && (s[i + d] == '.' || s[i + d] == ',') && DigitRun(s, i + d + 1) > 0 then
      d + 1 + DigitRun(s, i + d + 1)
    else d
  }

  /**
   * `(?:ብር|birr|ETB|\$)\s*\d+(?:[.,]\d+)?|\d+(?:[.,]\d+)?\s*(?:ብር|birr|ETB|\$)`: a
   * currency then an amount, or an amount then a currency; the second alternative is
   * only reached where the first fails, and it cannot start on a currency word.
   */
  function PriceAt(s: string, i: nat): (n: nat)
    ensures n > 0 ==> i + n <= |s|
    ensures n > 0 ==> CurrencyAt(s, i) > 0 || IsDigit(s[i])
    ensures n > 0 ==> exists k | i <= k < i + n :: IsDigit(s[k])
  {
    var c := CurrencyAt(s, i);
    if c > 0 then
      var w := SpaceRun(s, i + c);
      var a := AmountAt(s, i + c + w);
      if a > 0 then (assert IsDigit(s[i + c + w]); c + w + a) else 0
    else
      var a := AmountAt(s, i);
      if a > 0 then
        var w := SpaceRun(s, i + a);
        var c2 := CurrencyAt(s, i + a + w);
        if c2 > 0 then a + w + c2 else 0
      else 0
  }

  /** `w1\s*w2` under `re.IGNORECASE`. */
  function SpacedPairAt(s: string, i: nat, w1: string, w2: string): (n: nat)
    ensures n > 0 ==> i + n <= |s| && LitAtCI(s, i, w1)
  {
    if LitAtCI(s, i, w1) then
      var w := SpaceRun(s, i + |w1|);
      if LitAtCI(s, i + |w1| + w, w2) then |w1| + w + |w2| else 0
    else 0
  }

  /** The place names of the address pattern, Ethiopic and Latin spellings. */
  const Gazetteer: seq<string> := [
    "\U{1266}\U{120C}", "bole",
    "\U{1352}\U{12EB}\U{1233}", "piassa",
    "\U{1218}\U{122D}\U{12AB}\U{1276}", "mercato"
  ]

  /** The first gazetteer name (up to case) found at position `i`, as a length. */
  function GazetteerAt(s: string, i: nat, names: seq<string>): (n: nat)
    ensures n > 0 ==> i + n <= |s| && exists k | 0 <= k < |names| :: |names[k]| == n && LitAtCI(s, i, names[k])
  {
    if names == [] then 0
    else if |names[0]| > 0 && LitAtCI(s, i, names[0]) then |names[0]|
    else
      var n := GazetteerAt(s, i, names[1..]);
      if n > 0 then
        var k :| 0 <= k < |names[1..]| && |names[1..][k]| == n && LitAtCI(s, i, names[1..][k]);
        assert names[1..][k] == names[k + 1];
        n
      else 0
  }

  /** `(?:አዲስ\s*አበባ|addis\s*ababa|ቦሌ|bole|ፒያሳ|piassa|መርካቶ|mercato)` under `re.IGNORECASE`. */
  function AddressAt(s: string, i: nat): (n: nat)
    ensures n > 0 ==> i + n <= |s|
  {
    var a := SpacedPairAt(s, i, "\U{12A0}\U{12F2}\U{1235}", "\U{12A0}\U{1260}\U{1263}");
    if a > 0 then a
    else
      var b := SpacedPairAt(s, i, "addis", "ababa");
      if b > 0 then b else GazetteerAt(s, i, Gazetteer)
  }

  /** `(?:AM|PM|ጠዋት|ማታ)` under `re.IGNORECASE`. */
  function DayPeriodAt(s: string, i: nat): (n: nat)
    ensures n > 0 ==> i + n <= |s|
  {
    if LitAtCI(s, i, "am") || LitAtCI(s, i, "pm") then 2
    else if LitAt(s, i, "\U{1320}\U{12CB}\U{1275}") then 3
    else if LitAt(s, i, "\U{121B}\U{1273}") then 2
    else 0
  }

  /**
   * `\d{1,2}:\d{2}(?:\s*(?:AM|PM|ጠዋት|ማታ))?`: one or two digits, a colon, two digits,
   * then an optional day period. Two hour digits are tried first; one is tried only
   * when the second character is the colon.
   */
  function TimeAt(s: string, i: nat): (n: nat)
    ensures n > 0 ==> 4 <= n && i + n <= |s|
    ensures n > 0 ==> IsDigit(s[i]) && (s[i + 1] == ':' || (IsDigit(s[i + 1]) && s[i + 2] == ':'))
  {
    var h := if i + 2 < |s| && IsDigit(s[i]) && IsDigit(s[i + 1]) && s[i + 2] == ':' then 2
             else if i + 1 < |s| && IsDigit(s[i]) && s[i + 1] == ':' then 1
             else 0;
    if h > 0 && i + h + 3 <= |s| && IsDigit(s[i + h + 1]) && IsDigit(s[i + h + 2]) then
      var w := SpaceRun(s, i + h + 3);
      var p := DayPeriodAt(s, i + h + 3 + w);
      if p > 0 then h + 3 + w + p else h + 3
    else 0
  }

  /** `(?:delivery|ዴሊቨሪ|መላክ|ማድረስ)` under `re.IGNORECASE`. */
  function DeliveryAt(s: string, i: nat): (n: nat)
    ensures n > 0 ==> i + n <= |s|
  {
    if LitAtCI(s, i, "delivery") then 8
    else if LitAt(s, i, "\U{12F4}\U{120A}\U{1268}\U{122A}") then 4
    else if LitAt(s, i, "\U{1218}\U{120B}\U{12AD}") then 3
    else if LitAt(s, i, "\U{121B}\U{12F5}\U{1228}\U{1235}") then 4
    else 0
  }

  // ===========================================================================
  // extract_business_info
  // ===========================================================================

  /** The `BusinessExtraction` dataclass. */
  datatype BusinessExtraction = BusinessExtraction(
    businessName: Option<string>,
    productName: Option<string>,
    price: Option<string>,
    contactInfo: Option<string>,
    address: Option<string>,
    openingHours: Option<string>,
    deliveryInfo: Option<string>)

  const NoExtraction := BusinessExtraction(None, None, None, None, None, None, None)

  const DeliveryMarker := "Delivery available"

  /** `', '.join(pattern.findall(text))` when there is a match, `None` otherwise. */
  function JoinedMatches(m: Matcher, text: string): Option<string> {
    var found := FindAll(m, text);
    if found == [] then None else Some(Join(", ", found))
  }

  /** The two name fields while the heuristic runs. */
  datatype Names = Names(business: Option<string>, product: Option<string>)

  /** One iteration of the name heuristic over a raw line. */
  function NameStep(n: Names, raw: string): Names {
    var line := Strip(raw);
    if 5 < |line| < 100 then
      if n.business.None? && HasAlpha(line) then n.(business := Some(line))
      else if n.product.None? && n.business != Some(line) then n.(product := Some(line))
      else n
    else n
  }

  /** The name heuristic run over `lines`, in order. */
  function NamesOf(lines: seq<string>): Names {
    if lines == [] then Names(None, None)
    else NameStep(NamesOf(lines[..|lines| - 1]), lines[|lines| - 1])
  }

  /** `text.split('\n')[:3]`. */
  function FirstLines(text: string): (r: seq<string>)
    ensures 1 <= |r| <= 3
  {
    var lines := Split(text, '\n');
    if |lines| <= 3 then lines else lines[..3]
  }

  /** The names `extract_business_info` chooses for `text`. */
  function NamesFor(text: string): Names {
    if text == "" then Names(None, None) else NamesOf(FirstLines(text))
  }

  /** What `extract_business_info` returns for `text`. */
  function BusinessInfoOf(text: string): BusinessExtraction {
    if text == "" then NoExtraction
    else
      BusinessExtraction(
        NamesFor(text).business,
        NamesFor(text).product,
        JoinedMatches(PriceAt, text),
        JoinedMatches(PhoneAt, text),
        JoinedMatches(AddressAt, text),
        JoinedMatches(TimeAt, text),
        if Occurs(DeliveryAt, text) then Some(DeliveryMarker) else None)
  }

  /** `extract_business_info`: the pattern fields, then the heuristic loop over the first three lines. */
  method ExtractBusinessInfo(text: string) returns (e: BusinessExtraction)
    ensures text == "" ==> e == NoExtraction
    ensures e == BusinessInfoOf(text)
  {
    if text == "" {
      return NoExtraction;
    }
    var phones := FindAll(PhoneAt, text);
    var prices := FindAll(PriceAt, text);
    var addresses := FindAll(AddressAt, text);
    var times := FindAll(TimeAt, text);
    var delivery := Occurs(DeliveryAt, text);
    var business, product := ChooseNames(FirstLines(text));
    e := BusinessExtraction(
      business,
      product,
      if prices == [] then None else Some(Join(", ", prices)),
      if phones == [] then None else Some(Join(", ", phones)),
      if addresses == [] then None else Some(Join(", ", addresses)),
      if times == [] then None else Some(Join(", ", times)),
      if delivery then Some(DeliveryMarker) else None);
  }

  /** The loop over the first lines: the first long enough line with a letter names the business, the next other one the product. */
  lemma NamesStep(first: seq<string>, i: nat)
    requires i < |first|
    ensures NamesOf(first[..i + 1]) == NameStep(NamesOf(first[..i]), first[i])
  {
    PrefixOfPrefix(first, i);
  }

  method ChooseNames(first: seq<string>) returns (business: Option<string>, product: Option<string>)
    ensures Names(business, product) == NamesOf(first)
  {
    business, product := None, None;
    var i := 0;
    while i < |first|
      invariant 0 <= i <= |first|
      invariant Names(business, product) == NamesOf(first[..i])
    {
      NamesStep(first, i);
      var line := Strip(first[i]);
      if 5 < |line| < 100 {
        if business.None? && HasAlpha(line) {
          business := Some(line);
        } else if product.None? && business != Some(line) {
          product := Some(line);
        }
      }
      i := i + 1;
    }
    assert first[..|first|] == first;
  }

  // ---------------------------------------------------------------------------
  // Properties of the pattern fields
  // ---------------------------------------------------------------------------

  /**
   * A joined field is `None` exactly when its pattern matches nowhere; otherwise it is
   * the `", "`-join of the matches of the leftmost non-overlapping scan, in order.
   */
  lemma JoinedMatchesSpec(m: Matcher, text: string)
    ensures JoinedMatches(m, text).None? <==> NoMatchIn(m, text, 0, |text|)
    ensures JoinedMatches(m, text).Some? ==>
      JoinedMatches(m, text).value == Join(", ", FindAll(m, text))
      && IsLeftmostScan(m, text, 0, Spans(m, text))
  {
    FindAllEmptyIff(m, text);
    SpansFromIsLeftmostScan(m, text, 0);
  }

  /**
   * The pattern fields of `extract_business_info`: each is `None` exactly when its
   * pattern matches nowhere in the text, and otherwise holds all the matches.
   */
  lemma PatternFields(text: string)
    requires text != ""
    ensures BusinessInfoOf(text).contactInfo.None? <==> NoMatchIn(PhoneAt, text, 0, |text|)
    ensures BusinessInfoOf(text).price.None? <==> NoMatchIn(PriceAt, text, 0, |text|)
    ensures BusinessInfoOf(text).address.None? <==> NoMatchIn(AddressAt, text, 0, |text|)
    ensures BusinessInfoOf(text).openingHours.None? <==> NoMatchIn(TimeAt, text, 0, |text|)
    ensures BusinessInfoOf(text).contactInfo.Some? ==>
      BusinessInfoOf(text).contactInfo.value == Join(", ", FindAll(PhoneAt, text))
    ensures BusinessInfoOf(text).price.Some? ==>
      BusinessInfoOf(text).price.value == Join(", ", FindAll(PriceAt, text))
    ensures BusinessInfoOf(text).address.Some? ==>
      BusinessInfoOf(text).address.value == Join(", ", FindAll(AddressAt, text))
    ensures BusinessInfoOf(text).openingHours.Some? ==>
      BusinessInfoOf(text).openingHours.value == Join(", ", FindAll(TimeAt, text))
  {
    JoinedMatchesSpec(PhoneAt, text);
    JoinedMatchesSpec(PriceAt, text);
    JoinedMatchesSpec(AddressAt, text);
    JoinedMatchesSpec(TimeAt, text);
  }

  /** `delivery_info` is `None` or the fixed marker, and set exactly when the delivery pattern occurs. */
  lemma DeliveryField(text: string)
    ensures BusinessInfoOf(text).deliveryInfo.None? || BusinessInfoOf(text).deliveryInfo == Some(DeliveryMarker)
    ensures BusinessInfoOf(text).deliveryInfo.Some? <==> !NoMatchIn(DeliveryAt, text, 0, |text|)
  {
    OccursIff(DeliveryAt, text);
  }

  // ---------------------------------------------------------------------------
  // Properties of the name heuristic
  // ---------------------------------------------------------------------------

  /** A name the heuristic may choose: a stripped line of 6 to 99 characters. */
  predicate NameShaped(name: string) {
    5 < |name| < 100 && Strip(name) == name
  }

  /** The lines, each stripped. */
  function StripAll(lines: seq<string>): (r: seq<string>)
    ensures |r| == |lines|
    ensures forall k | 0 <= k < |lines| :: r[k] == Strip(lines[k])
  {
    seq(|lines|, k requires 0 <= k < |lines| => Strip(lines[k]))
  }

  /** What the heuristic keeps true after every line. */
  predicate NamesInvariant(n: Names, lines: seq<string>) {
    && (n.business.Some? ==>
          NameShaped(n.business.value) && HasAlpha(n.business.value) && n.business.value in StripAll(lines))
    && (n.product.Some? ==> NameShaped(n.product.value) && n.product.value in StripAll(lines))
    && (n.business.Some? && n.product.Some? ==> n.business != n.product)
    && (n.business.None? && n.product.Some? ==> !HasAlpha(n.product.value))
  }

  lemma StripIdempotent(s: string)
    ensures Strip(Strip(s)) == Strip(s)
  {
    StripTrimmed(Strip(s));
  }

  lemma NameStepInvariant(n: Names, lines: seq<string>, raw: string, next: Names, lines': seq<string>)
    requires NamesInvariant(n, lines)
    requires next == NameStep(n, raw) && lines' == lines + [raw]
    ensures NamesInvariant(next, lines')
  {
    StripIdempotent(raw);
    assert StripAll(lines') == StripAll(lines) + [Strip(raw)];
  }

  lemma {:induction false} NamesOfInvariant(lines: seq<string>)
    ensures NamesInvariant(NamesOf(lines), lines)
  {
    if lines != [] {
      NamesOfInvariant(lines[..|lines| - 1]);
      NamesOfStep(lines);
    }
  }

  lemma NamesOfStep(lines: seq<string>)
    requires lines != [] && NamesInvariant(NamesOf(lines[..|lines| - 1]), lines[..|lines| - 1])
    ensures NamesInvariant(NamesOf(lines), lines)
  {
    var init := lines[..|lines| - 1];
    DropLastAppend(lines);
    NameStepInvariant(NamesOf(init), init, lines[|lines| - 1], NamesOf(lines), lines);
  }

  /** The names of `BusinessExtraction` are those the heuristic chooses. */
  lemma BusinessInfoNames(text: string)
    ensures BusinessInfoOf(text).businessName == NamesFor(text).business
    ensures BusinessInfoOf(text).productName == NamesFor(text).product
  {
  }

  /**
   * The name heuristic: a chosen name is one of the first three lines, stripped and
   * 6 to 99 characters long; `business_name` contains a letter; the two names differ;
   * and a `product_name` chosen before any `business_name` has no letter.
   */
  lemma NameHeuristic(text: string)
    ensures NamesInvariant(NamesFor(text), FirstLines(text))
  {
    if text != "" {
      NamesOfInvariant(FirstLines(text));
    }
  }

  /** Only the first three lines matter: text after a third line break never changes the names. */
  lemma NamesIgnoreLaterLines(text: string, more: string)
    requires |Split(text, '\n')| >= 3
    ensures NamesFor(text + "\n" + more) == NamesFor(text)
  {
    SplitAppend(text, more, '\n');
    var whole := Split(text + "\n" + more, '\n');
    assert whole[..3] == Split(text, '\n')[..3];
    assert text != "";
  }

  /** With one line of text, at most one of the two names is set. */
  lemma OneLineOneName(text: string)
    requires '\n' !in text
    ensures NamesFor(text).business.None? || NamesFor(text).product.None?
  {
    if text != "" {
      SplitWithoutSep(text, '\n');
      var lines := [text];
      assert FirstLines(text) == lines;
      assert lines[..0] == [];
      assert NamesOf(lines) == NameStep(Names(None, None), text);
    }
  }

  /**
   * Cleaned text has no line breaks, so the heuristic sees it as one line and never
   * sets both names.
   */
  lemma CleanedTextHasOneName(raw: Option<string>)
    ensures Split(CleanText(raw), '\n') == [CleanText(raw)]
    ensures NamesFor(CleanText(raw)).business.None? || NamesFor(CleanText(raw)).product.None?
  {
    CleanTextShape(raw);
    SplitWithoutSep(CleanText(raw), '\n');
    OneLineOneName(CleanText(raw));
  }

  /**
   * A first line without letters becomes `product_name` before any `business_name`
   * is chosen; a second line with a letter then becomes `business_name`.
   */
  lemma ProductBeforeBusiness(l1: string, l2: string)
    requires '\n' !in l1 && '\n' !in l2 && Trimmed(l1) && Trimmed(l2)
    requires 5 < |l1| < 100 && 5 < |l2| < 100
    requires !HasAlpha(l1) && HasAlpha(l2)
    ensures NamesFor(l1 + "\n" + l2) == Names(Some(l2), Some(l1))
  {
    SplitAppend(l1, l2, '\n');
    SplitWithoutSep(l1, '\n');
    SplitWithoutSep(l2, '\n');
    var lines := [l1, l2];
    assert FirstLines(l1 + "\n" + l2) == lines;
    StripTrimmed(l1);
    StripTrimmed(l2);
    assert NamesOf([l1]) == Names(None, Some(l1)) by {
      assert [l1][..0] == [];
    }
    assert lines[..1] == [l1];
  }
}
