/**
 * Strings as `seq<char>` and the few Python string operations the extractors use:
 * character classes (`\s`, `\d`, `\w`, `str.isalpha`), `strip`, `split`, `join`,
 * `lower`, `title`, `replace`, `str(int)` and `in` on strings.
 *
 * Unicode classification is modelled exactly for whitespace and for ASCII; outside
 * ASCII only the Ethiopic block (U+1200-U+137F) is classified, since it is the one
 * script the code names. Case mapping covers ASCII letters only.
 */
module Text {

  // ---------------------------------------------------------------------------
  // Character classes
  // ---------------------------------------------------------------------------

  /** Python's `str.isspace()`, which is also what `\s` matches in a `str` pattern. */
  predicate IsSpace(c: char) {
    c == ' ' || ('\t' <= c <= '\r') || ('\U{1C}' <= c <= '\U{1F}')
    || c == '\U{85}' || c == '\U{A0}' || c == '\U{1680}'
    || ('\U{2000}' <= c <= '\U{200A}') || c == '\U{2028}' || c == '\U{2029}'
    || c == '\U{202F}' || c == '\U{205F}' || c == '\U{3000}'
  }

  /** `\d`, restricted to the ASCII digits. */
  predicate IsDigit(c: char) {
    '0' <= c <= '9'
  }

  predicate IsAsciiLetter(c: char) {
    ('a' <= c <= 'z') || ('A' <= c <= 'Z')
  }

  /** The block U+1200-U+137F that the cleaner keeps explicitly. */
  predicate IsEthiopic(c: char) {
    '\U{1200}' <= c <= '\U{137F}'
  }

  /** The code points of U+1200-U+135A that Unicode leaves unassigned. */
  predicate IsEthiopicGap(c: char) {
    c == '\U{1249}' || c == '\U{124E}' || c == '\U{124F}' || c == '\U{1257}' || c == '\U{1259}'
    || c == '\U{125E}' || c == '\U{125F}' || c == '\U{1289}' || c == '\U{128E}' || c == '\U{128F}'
    || c == '\U{12B1}' || c == '\U{12B6}' || c == '\U{12B7}' || c == '\U{12BF}' || c == '\U{12C1}'
    || c == '\U{12C6}' || c == '\U{12C7}' || c == '\U{12D7}' || c == '\U{1311}' || c == '\U{1316}'
    || c == '\U{1317}'
  }

  /** Ethiopic syllables, the assigned code points of U+1200-U+135A: `str.isalpha()` accepts them. */
  predicate IsEthiopicLetter(c: char) {
    '\U{1200}' <= c <= '\U{135A}' && !IsEthiopicGap(c)
  }

  /** Ethiopic digits and numbers, which `\w` accepts but `str.isalpha()` does not. */
  predicate IsEthiopicNumber(c: char) {
    '\U{1369}' <= c <= '\U{137C}'
  }

  /** `str.isalpha()` of one character. */
  predicate IsAlpha(c: char) {
    IsAsciiLetter(c) || IsEthiopicLetter(c)
  }

  /** `\w` in a `str` pattern: letters, digits, numbers and the underscore. */
  predicate IsWordChar(c: char) {
    IsAlpha(c) || IsDigit(c) || c == '_' || IsEthiopicNumber(c)
  }

  /** `any(ch.isalpha() for ch in s)`. */
  predicate HasAlpha(s: string) {
    exists k | 0 <= k < |s| :: IsAlpha(s[k])
  }

  predicate AllDigits(s: string) {
    forall k | 0 <= k < |s| :: IsDigit(s[k])
  }

  // ---------------------------------------------------------------------------
  // Case mapping
  // ---------------------------------------------------------------------------

  function Lower(c: char): char {
    if 'A' <= c <= 'Z' then (c as int + 32) as char else c
  }

  function Upper(c: char): char {
    if 'a' <= c <= 'z' then (c as int - 32) as char else c
  }

  /** Lowering changes letters only: it keeps `.` and whitespace where they are. */
  lemma LowerKeepsClass(c: char)
    ensures Lower(c) == '.' <==> c == '.'
    ensures IsSpace(Lower(c)) <==> IsSpace(c)
  {
  }

  /** `s.lower()`. */
  function LowerStr(s: string): (r: string)
    ensures |r| == |s|
    ensures forall k | 0 <= k < |s| :: r[k] == Lower(s[k])
  {
    seq(|s|, k requires 0 <= k < |s| => Lower(s[k]))
  }

  /** Lowering commutes with slicing. */
  lemma LowerSlice(s: string, a: nat, b: nat)
    requires a <= b <= |s|
    ensures LowerStr(s[a..b]) == LowerStr(s)[a..b]
  {
  }

  /** Characters `str.title()` treats as cased. */
  predicate IsCased(c: char) {
    IsAsciiLetter(c)
  }

  /** `s.title()`: a cased letter is upper-cased when the character before it is not cased, lower-cased otherwise. */
  function Title(s: string): (r: string)
    ensures |r| == |s|
  {
    seq(|s|, k requires 0 <= k < |s| =>
      if !IsCased(s[k]) then s[k]
      else if k > 0 && IsCased(s[k - 1]) then Lower(s[k])
      else Upper(s[k]))
  }

  /** `s.replace(a, b)` for one-character `a` and `b`. */
  function ReplaceChar(s: string, a: char, b: char): (r: string)
    ensures |r| == |s|
    ensures a != b ==> a !in r
  {
    seq(|s|, k requires 0 <= k < |s| => if s[k] == a then b else s[k])
  }

  // ---------------------------------------------------------------------------
  // Substrings
  // ---------------------------------------------------------------------------

  predicate ContainsAt(s: string, sub: string, i: nat) {
    i + |sub| <= |s| && s[i..i + |sub|] == sub
  }

  /** Python's `sub in s`. */
  predicate Contains(s: string, sub: string) {
    exists i | 0 <= i <= |s| - |sub| :: ContainsAt(s, sub, i)
  }

  /** `s[i:].startswith(lit)` up to ASCII case, as an `re.IGNORECASE` literal matches. */
  predicate LitAtCI(s: string, i: nat, lit: string) {
    i + |lit| <= |s| && LowerStr(s[i..i + |lit|]) == LowerStr(lit)
  }

  /** `s[i:].startswith(lit)`. */
  predicate LitAt(s: string, i: nat, lit: string) {
    i + |lit| <= |s| && s[i..i + |lit|] == lit
  }

  /** Length of the run of digits starting at position `i`. */
  function DigitRun(s: string, i: nat): (n: nat)
    ensures i + n <= |s| || n == 0
    ensures forall k | i <= k < i + n :: IsDigit(s[k])
    ensures i + n < |s| ==> !IsDigit(s[i + n])
    decreases |s| - i
  {
    if i < |s| && IsDigit(s[i]) then 1 + DigitRun(s, i + 1) else 0
  }

  /** Length of the run of whitespace starting at position `i`. */
  function SpaceRun(s: string, i: nat): (n: nat)
    ensures i + n <= |s| || n == 0
    ensures forall k | i <= k < i + n :: IsSpace(s[k])
    ensures i + n < |s| ==> !IsSpace(s[i + n])
    decreases |s| - i
  {
    if i < |s| && IsSpace(s[i]) then 1 + SpaceRun(s, i + 1) else 0
  }

  // ---------------------------------------------------------------------------
  // strip, split, join
  // ---------------------------------------------------------------------------

  /** Number of leading whitespace characters. */
  function Leading(s: string): (n: nat)
    ensures n <= |s|
    ensures forall k | 0 <= k < n :: IsSpace(s[k])
    ensures n < |s| ==> !IsSpace(s[n])
  {
    if s != [] && IsSpace(s[0]) then 1 + Leading(s[1..]) else 0
  }

  /** Number of trailing whitespace characters. */
  function Trailing(s: string): (n: nat)
    ensures n <= |s|
    ensures forall k | |s| - n <= k < |s| :: IsSpace(s[k])
    ensures n < |s| ==> !IsSpace(s[|s| - 1 - n])
  {
    if s != [] && IsSpace(s[|s| - 1]) then 1 + Trailing(s[..|s| - 1]) else 0
  }

  /**
   * `s.strip()`: the result is the slice of `s` that starts at its first non-space
   * character and ends at its last, and everything cut off is whitespace.
   */
  function Strip(s: string): (r: string)
    ensures Leading(s) + |r| <= |s| && r == s[Leading(s)..Leading(s) + |r|]
    ensures r == [] || (!IsSpace(r[0]) && !IsSpace(r[|r| - 1]))
    ensures forall k | 0 <= k < |s| && !(Leading(s) <= k < Leading(s) + |r|) :: IsSpace(s[k])
  {
    var t := s[Leading(s)..];
    t[..|t| - Trailing(t)]
  }

  /** A string that does not start or end with whitespace. */
  predicate Trimmed(s: string) {
    s == [] || (!IsSpace(s[0]) && !IsSpace(s[|s| - 1]))
  }

  lemma StripTrimmed(s: string)
    requires Trimmed(s)
    ensures Strip(s) == s
  {
    assert Leading(s) == 0;
    assert Trailing(s) == 0;
  }

  /** `s.split(sep)` with an explicit one-character separator: never an empty list. */
  function Split(s: string, sep: char): (r: seq<string>)
    ensures |r| >= 1
    ensures forall k | 0 <= k < |r| :: sep !in r[k]
  {
    if s == [] then [[]]
    else
      var rest := Split(s[1..], sep);
      if s[0] == sep then [[]] + rest else [[s[0]] + rest[0]] + rest[1..]
  }

  /** `sep.join(parts)`. */
  function Join(sep: string, parts: seq<string>): string {
    if |parts| == 0 then []
    else if |parts| == 1 then parts[0]
    else parts[0] + sep + Join(sep, parts[1..])
  }

  /** Joining the pieces of a split with the separator gives back the string. */
  lemma {:induction false} JoinSplit(s: string, sep: char)
    ensures Join([sep], Split(s, sep)) == s
  {
    if s != [] {
      var rest := Split(s[1..], sep);
      JoinSplit(s[1..], sep);
      if s[0] == sep {
        assert Split(s, sep) == [[]] + rest;
        assert ([[]] + rest)[1..] == rest;
      } else {
        var parts := [[s[0]] + rest[0]] + rest[1..];
        assert Split(s, sep) == parts;
        if |rest| > 1 {
          assert parts[1..] == rest[1..];
          assert Join([sep], rest) == rest[0] + [sep] + Join([sep], rest[1..]);
        }
      }
    }
  }

  /** A string without the separator splits into itself alone. */
  lemma {:induction false} SplitWithoutSep(s: string, sep: char)
    requires sep !in s
    ensures Split(s, sep) == [s]
  {
    if s != [] {
      assert sep !in s[1..];
      SplitWithoutSep(s[1..], sep);
      assert [s[0]] + s[1..] == s;
    }
  }

  /** Splitting at a separator splits each side on its own. */
  lemma {:induction false} SplitAppend(a: string, b: string, sep: char)
    ensures Split(a + [sep] + b, sep) == Split(a, sep) + Split(b, sep)
  {
    if a == [] {
      assert a + [sep] + b == [sep] + b;
      assert ([sep] + b)[1..] == b;
    } else {
      assert (a + [sep] + b)[1..] == a[1..] + [sep] + b;
      SplitAppend(a[1..], b, sep);
    }
  }

  // ---------------------------------------------------------------------------
  // str(int)
  // ---------------------------------------------------------------------------

  function DigitChar(d: nat): (c: char)
    requires d < 10
    ensures IsDigit(c)
  {
    ('0' as int + d) as char
  }

  function DigitValue(c: char): (d: nat)
    requires IsDigit(c)
    ensures d < 10 && DigitChar(d) == c
  {
    c as int - '0' as int
  }

  /** `str(n)` for a non-negative integer: decimal digits, no leading zero. */
  function NatToString(n: nat): (r: string)
    ensures |r| >= 1 && AllDigits(r)
    ensures r[0] == '0' ==> n == 0
  {
    if n < 10 then [DigitChar(n)]
    else
      var front := NatToString(n / 10);
      assert (front + [DigitChar(n % 10)])[0] == front[0];
      front + [DigitChar(n % 10)]
  }

  /** `str(n)` for any integer. */
  function IntToString(n: int): (r: string)
    ensures |r| >= 1
  {
    if n < 0 then "-" + NatToString(-n) else NatToString(n)
  }

  /** `int(s)` for a string of decimal digits. */
  function ParseNat(s: string): nat
    requires AllDigits(s)
  {
    if s == [] then 0 else 10 * ParseNat(s[..|s| - 1]) + DigitValue(s[|s| - 1])
  }

  lemma {:induction false} ParseNatToString(n: nat)
    ensures ParseNat(NatToString(n)) == n
  {
    if n >= 10 {
      var r := NatToString(n);
      ParseNatToString(n / 10);
      assert r[..|r| - 1] == NatToString(n / 10);
    }
  }

  /** `str` is injective on integers, so a rendered id determines the id. */
  lemma IntToStringInjective(a: int, b: int)
    requires IntToString(a) == IntToString(b)
    ensures a == b
  {
    IntToStringSign(a);
    IntToStringSign(b);
    if a < 0 {
      NatToStringInjective(-a, -b);
    } else {
      NatToStringInjective(a, b);
    }
  }

  /** A rendered integer starts with `-` exactly when it is negative; the digits follow. */
  lemma IntToStringSign(n: int)
    ensures IntToString(n)[0] == '-' <==> n < 0
    ensures n < 0 ==> IntToString(n)[1..] == NatToString(-n)
    ensures n >= 0 ==> IntToString(n) == NatToString(n)
  {
    var d := NatToString(if n < 0 then -n else n);
    assert IsDigit(d[0]);
  }

  lemma NatToStringInjective(a: nat, b: nat)
    requires NatToString(a) == NatToString(b)
    ensures a == b
  {
    ParseNatToString(a);
    ParseNatToString(b);
  }

  // ---------------------------------------------------------------------------
  // Sequence identities, stated once so that proofs can cite them cheaply
  // ---------------------------------------------------------------------------

  lemma DropLastAppend<T>(s: seq<T>)
    requires s != []
    ensures s[..|s| - 1] + [s[|s| - 1]] == s
  {
  }

  lemma PrefixOfPrefix<T>(s: seq<T>, i: nat)
    requires i < |s|
    ensures s[..i + 1][..i] == s[..i]
  {
  }

  lemma HeadTail<T>(s: seq<T>)
    requires s != []
    ensures [s[0]] + s[1..] == s
  {
  }

  lemma AppendKeeps<T>(s: seq<T>, x: T, k: nat)
    requires k < |s|
    ensures (s + [x])[k] == s[k]
  {
  }

  lemma AppendedAt<T>(s: seq<T>, prev: seq<T>, last: T, k: nat)
    requires s == prev + [last] && k < |s|
    ensures s[k] == if k < |prev| then prev[k] else last
  {
  }

  lemma AppendAssoc<T>(a: seq<T>, b: seq<T>, c: seq<T>)
    ensures a + b + c == a + (b + c)
  {
  }

  lemma SliceOfSlice<T>(s: seq<T>, i: nat, e: nat, a: nat, b: nat)
    requires i <= e <= |s| && a <= b <= e - i
    ensures s[i..e][a..b] == s[i + a..i + b]
  {
    forall q | 0 <= q < b - a ensures s[i..e][a..b][q] == s[i + a..i + b][q] {
      assert s[i..e][a..b][q] == s[i..e][a + q] == s[i + a + q];
    }
  }

  // ---------------------------------------------------------------------------
  // Subsequences
  // ---------------------------------------------------------------------------

  /** `a` can be obtained from `b` by deleting elements. */
  predicate IsSubsequence<T(==)>(a: seq<T>, b: seq<T>)
    decreases |b|
  {
    if b == [] then a == []
    else (a != [] && a[0] == b[0] && IsSubsequence(a[1..], b[1..])) || IsSubsequence(a, b[1..])
  }

  lemma {:induction false} EmptyIsSubsequence<T>(b: seq<T>)
    ensures IsSubsequence([], b)
  {
    if b != [] {
      EmptyIsSubsequence(b[1..]);
    }
  }

  lemma {:induction false} SubsequenceDropFirst<T>(a: seq<T>, b: seq<T>)
    requires a != [] && IsSubsequence(a, b)
    ensures IsSubsequence(a[1..], b)
  {
    if a[0] == b[0] && IsSubsequence(a[1..], b[1..]) {
    } else {
      SubsequenceDropFirst(a, b[1..]);
    }
  }

  lemma {:induction false} SubsequenceDropLast<T>(a: seq<T>, b: seq<T>)
    requires a != [] && IsSubsequence(a, b)
    ensures IsSubsequence(a[..|a| - 1], b)
  {
    if a[0] == b[0] && IsSubsequence(a[1..], b[1..]) {
      if |a| == 1 {
        EmptyIsSubsequence(b);
      } else {
        SubsequenceDropLast(a[1..], b[1..]);
        assert a[..|a| - 1][1..] == a[1..][..|a| - 2];
      }
    } else {
      SubsequenceDropLast(a, b[1..]);
    }
  }

  lemma {:induction false} PrefixOfSubsequence<T>(a: seq<T>, b: seq<T>, j: nat)
    requires j <= |a| && IsSubsequence(a, b)
    ensures IsSubsequence(a[..j], b)
    decreases |a|
  {
    if j < |a| {
      SubsequenceDropLast(a, b);
      PrefixOfSubsequence(a[..|a| - 1], b, j);
      assert a[..|a| - 1][..j] == a[..j];
    } else {
      assert a[..j] == a;
    }
  }

  lemma {:induction false} SuffixOfSubsequence<T>(a: seq<T>, b: seq<T>, i: nat)
    requires i <= |a| && IsSubsequence(a, b)
    ensures IsSubsequence(a[i..], b)
    decreases i
  {
    if i > 0 {
      SubsequenceDropFirst(a, b);
      SuffixOfSubsequence(a[1..], b, i - 1);
      assert a[1..][i - 1..] == a[i..];
    } else {
      assert a[i..] == a;
    }
  }

  /** Every slice of a subsequence is a subsequence. */
  lemma SliceOfSubsequence<T>(a: seq<T>, b: seq<T>, i: nat, j: nat)
    requires i <= j <= |a| && IsSubsequence(a, b)
    ensures IsSubsequence(a[i..j], b)
  {
    PrefixOfSubsequence(a, b, j);
    SuffixOfSubsequence(a[..j], b, i);
    assert a[..j][i..] == a[i..j];
  }
}
