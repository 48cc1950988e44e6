/**
 * The second extractor, `TelegramScraper.extract_business_info` of the package
 * scraper, the file-type choice of its `save_media_file`, and the `any(values)` gate
 * of its `save_to_database`.
 *
 * Unlike the data-cleaning extractor, this one tries ordered lists of patterns, keeps
 * capture group 1 of the first that matches anywhere (`re.search`), and takes the
 * delivery note from the first `'.'`-separated sentence naming a keyword.
 *
 * Every pattern's capture group is followed either by nothing or by whitespace and a
 * letter word; the repetitions inside a group read digits, separators and
 * whitespace, so taking them greedily gives Python's match.
 */
module Scraper {
  import opened Wrappers
  import opened Text
  import opened Scan

  /** A pattern with one capture group: the group of the match starting at a position. */
  type GroupMatcher = (string, nat) -> Option<string>

  // ===========================================================================
  // Price patterns
  // ===========================================================================

  /** Length of `\d{3}`-groups after commas: the `(?:,\d{3})*` part, greedy. */
  function ThousandsRun(s: string, i: nat): (n: nat)
    ensures i + n <= |s| || n == 0
    ensures forall k | i <= k < i + n :: IsDigit(s[k]) || s[k] == ','
    decreases |s| - i
  {
    if i + 4 <= |s| && s[i] == ',' && IsDigit(s[i + 1]) && IsDigit(s[i + 2]) && IsDigit(s[i + 3])
    then 4 + ThousandsRun(s, i + 4)
    else 0
  }

  /** Length of `\d+(?:,\d{3})*(?:\.\d{2})?` at `i`, greedy; 0 when no digit starts there. */
  function AmountAt(s: string, i: nat): (n: nat)
    ensures n > 0 ==> i + n <= |s| && IsDigit(s[i])
    ensures forall k | i <= k < i + n :: IsDigit(s[k]) || s[k] == ',' || s[k] == '.'
  {
    var d := DigitRun(s, i);
    if d == 0 then 0
    else
      var t := ThousandsRun(s, i + d);
      var j := i + d + t;
      if j + 3 <= |s| && s[j] == '.' && IsDigit(s[j + 1]) && IsDigit(s[j + 2]) then d + t + 3
      else d + t
  }

  /** A price group: a non-empty run of digits, commas and points that starts with a digit. */
  predicate AmountShaped(v: string) {
    v != [] && IsDigit(v[0]) && forall k | 0 <= k < |v| :: IsDigit(v[k]) || v[k] == ',' || v[k] == '.'
  }

  lemma AmountSlice(s: string, i: nat)
    requires AmountAt(s, i) > 0
    ensures AmountShaped(s[i..i + AmountAt(s, i)])
  {
    var v := s[i..i + AmountAt(s, i)];
    forall k | 0 <= k < |v| ensures IsDigit(v[k]) || v[k] == ',' || v[k] == '.' {
      assert v[k] == s[i + k];
    }
  }

  /** The amount group at `i`, if a digit starts there. */
  function AmountGroup(s: string, i: nat): (r: Option<string>)
    ensures r.Some? ==> AmountShaped(r.value)
  {
    var a := AmountAt(s, i);
    if a > 0 then (AmountSlice(s, i); Some(s[i..i + a])) else None
  }

  /** `(\d+(?:,\d{3})*(?:\.\d{2})?)\s*(?:birr|ETB|br)`. */
  function PriceWithCurrency(s: string, i: nat): (r: Option<string>)
    ensures r.Some? ==> AmountShaped(r.value)
  {
    var a := AmountAt(s, i);
    var j := i + a + SpaceRun(s, i + a);
    if a > 0 && (LitAtCI(s, j, "birr") || LitAtCI(s, j, "etb") || LitAtCI(s, j, "br"))
    then AmountGroup(s, i)
    else None
  }

  /** `(?:price|ዋጋ)\s*:?\s*(\d+(?:,\d{3})*(?:\.\d{2})?)`. */
  function PriceLabelled(s: string, i: nat): (r: Option<string>)
    ensures r.Some? ==> AmountShaped(r.value)
  {
    var k := if LitAtCI(s, i, "price") then 5 else if LitAt(s, i, "\U{12CB}\U{130B}") then 2 else 0;
    if k == 0 then None
    else
      var j1 := i + k + SpaceRun(s, i + k);
      var j2 := if j1 < |s| && s[j1] == ':' then j1 + 1 else j1;
      var j3 := j2 + SpaceRun(s, j2);
      AmountGroup(s, j3)
  }

  /** `(\d+(?:,\d{3})*(?:\.\d{2})?)\s*(?:ብር)`. */
  function PriceWithBirr(s: string, i: nat): (r: Option<string>)
    ensures r.Some? ==> AmountShaped(r.value)
  {
    var a := AmountAt(s, i);
    var j := i + a + SpaceRun(s, i + a);
    if a > 0 && LitAt(s, j, "\U{1265}\U{122D}") then AmountGroup(s, i) else None
  }

  /** `price_patterns`, in the order they are tried. */
  const PricePatterns: seq<GroupMatcher> := [PriceWithCurrency, PriceLabelled, PriceWithBirr]

  // ===========================================================================
  // Contact patterns
  // ===========================================================================

  /** A character of `[\d\s\-\(\)]`. */
  predicate DialChar(c: char) {
    IsDigit(c) || IsSpace(c) || c == '-' || c == '(' || c == ')'
  }

  /** A character of `[\d\s\-]`. */
  predicate DigitSpaceDash(c: char) {
    IsDigit(c) || IsSpace(c) || c == '-'
  }

  function DialRun(s: string, i: nat): (n: nat)
    ensures i + n <= |s| || n == 0
    decreases |s| - i
  {
    if i < |s| && DialChar(s[i]) then 1 + DialRun(s, i + 1) else 0
  }

  function DigitSpaceDashRun(s: string, i: nat): (n: nat)
    ensures i + n <= |s| || n == 0
    decreases |s| - i
  {
    if i < |s| && DigitSpaceDash(s[i]) then 1 + DigitSpaceDashRun(s, i + 1) else 0
  }

  /** `(?:call|contact|phone|tel)\s*:?\s*([+]?\d[\d\s\-\(\)]{8,})`. */
  function ContactLabelled(s: string, i: nat): (r: Option<string>)
    ensures r.Some? ==> |r.value| >= 9
  {
    var k := if LitAtCI(s, i, "call") then 4
             else if LitAtCI(s, i, "contact") then 7
             else if LitAtCI(s, i, "phone") then 5
             else if LitAtCI(s, i, "tel") then 3
             else 0;
    if k == 0 then None
    else
      var j1 := i + k + SpaceRun(s, i + k);
      var j2 := if j1 < |s| && s[j1] == ':' then j1 + 1 else j1;
      var p := j2 + SpaceRun(s, j2);
      var plus := if p < |s| && s[p] == '+' then 1 else 0;
      if p + plus < |s| && IsDigit(s[p + plus]) then
        var run := DialRun(s, p + plus + 1);
        if run >= 8 then Some(s[p..p + plus + 1 + run]) else None
      else None
  }

  /** `([+]?251[\d\s\-]{8,})`. */
  function ContactCountryCode(s: string, i: nat): (r: Option<string>)
    ensures r.Some? ==> |r.value| >= 11
  {
    var plus := if i < |s| && s[i] == '+' then 1 else 0;
    if LitAt(s, i + plus, "251") then
      var run := DigitSpaceDashRun(s, i + plus + 3);
      if run >= 8 then Some(s[i..i + plus + 3 + run]) else None
    else None
  }

  /** `(09\d{8})`. */
  function ContactMobile(s: string, i: nat): (r: Option<string>)
    ensures r.Some? ==> |r.value| == 10 && r.value[..2] == "09" && AllDigits(r.value[2..])
  {
    if i + 10 <= |s| && LitAt(s, i, "09") && AllDigits(s[i + 2..i + 10]) then
      assert s[i..i + 10][..2] == s[i..i + 2];
      assert s[i..i + 10][2..] == s[i + 2..i + 10];
      Some(s[i..i + 10])
    else None
  }

  /** `contact_patterns`, in the order they are tried. */
  const ContactPatterns: seq<GroupMatcher> := [ContactLabelled, ContactCountryCode, ContactMobile]

  // ===========================================================================
  // First success over an ordered pattern list
  // ===========================================================================

  /** The group of the first pattern, from index `i` on, that matches somewhere in `text`. */
  function FirstOf(patterns: seq<GroupMatcher>, text: string, i: nat): (r: Option<string>)
    ensures r.None? <==> forall k | i <= k < |patterns| :: First(patterns[k], text).None?
    ensures r.Some? ==> exists k | i <= k < |patterns| ::
      First(patterns[k], text) == r && forall j | i <= j < k :: First(patterns[j], text).None?
    decreases |patterns| - i
  {
    if i >= |patterns| then None
    else
      var here := First(patterns[i], text);
      if here.Some? then here else FirstOf(patterns, text, i + 1)
  }

  // ===========================================================================
  // Delivery
  // ===========================================================================

  const DeliveryKeywords: seq<string> := ["delivery", "shipping", "transport", "\U{1218}\U{120B}\U{12AD}", "\U{121B}\U{12F5}\U{1228}\U{1235}"]

  /** `keyword.lower() in s.lower()`. */
  predicate MentionsKeyword(s: string, keyword: string) {
    Contains(LowerStr(s), LowerStr(keyword))
  }

  /** The index of the first keyword, in list order, that the text mentions. */
  function FirstKeyword(keywords: seq<string>, text: string, i: nat): (r: Option<nat>)
    ensures r.Some? ==> i <= r.value < |keywords| && MentionsKeyword(text, keywords[r.value])
    ensures r.Some? ==> forall j | i <= j < r.value :: !MentionsKeyword(text, keywords[j])
    ensures r.None? <==> forall j | i <= j < |keywords| :: !MentionsKeyword(text, keywords[j])
    decreases |keywords| - i
  {
    if i >= |keywords| then None
    else if MentionsKeyword(text, keywords[i]) then Some(i)
    else FirstKeyword(keywords, text, i + 1)
  }

  /** The first sentence, from index `i` on, that mentions `keyword`. */
  function FirstSentence(sentences: seq<string>, keyword: string, i: nat): (r: Option<nat>)
    ensures r.Some? ==> i <= r.value < |sentences| && MentionsKeyword(sentences[r.value], keyword)
    ensures r.Some? ==> forall j | i <= j < r.value :: !MentionsKeyword(sentences[j], keyword)
    ensures r.None? <==> forall j | i <= j < |sentences| :: !MentionsKeyword(sentences[j], keyword)
    decreases |sentences| - i
  {
    if i >= |sentences| then None
    else if MentionsKeyword(sentences[i], keyword) then Some(i)
    else FirstSentence(sentences, keyword, i + 1)
  }

  /** `value` is the stripped first `'.'`-separated segment of `text` that mentions `keyword`. */
  predicate FirstSentenceValue(text: string, keyword: string, value: string) {
    var sentences := Split(text, '.');
    exists j | 0 <= j < |sentences| ::
      && value == Strip(sentences[j])
      && MentionsKeyword(sentences[j], keyword)
      && forall i | 0 <= i < j :: !MentionsKeyword(sentences[i], keyword)
  }

  /** The delivery rule: the stripped first sentence naming the first mentioned keyword. */
  function DeliveryOf(text: string): Option<string> {
    match FirstKeyword(DeliveryKeywords, text, 0)
    case None => None
    case Some(k) =>
      var sentences := Split(text, '.');
      match FirstSentence(sentences, DeliveryKeywords[k], 0)
      case None => None
      case Some(j) => Some(Strip(sentences[j]))
  }

  // ===========================================================================
  // extract_business_info
  // ===========================================================================

  /** The seven keys of the `business_info` dictionary. */
  datatype ScrapedInfo = ScrapedInfo(
    businessName: Option<string>,
    productName: Option<string>,
    price: Option<string>,
    contactInfo: Option<string>,
    address: Option<string>,
    openingHours: Option<string>,
    deliveryInfo: Option<string>)

  const EmptyInfo := ScrapedInfo(None, None, None, None, None, None, None)

  /** What `extract_business_info` returns. */
  function InfoOf(text: string): ScrapedInfo {
    if text == "" then EmptyInfo
    else EmptyInfo.(
      price := FirstOf(PricePatterns, text, 0),
      contactInfo := FirstOf(ContactPatterns, text, 0),
      deliveryInfo := DeliveryOf(text))
  }

  /** One `for pattern in ...: match = re.search(...); if match: ...; break` loop. */
  method FirstPatternGroup(patterns: seq<GroupMatcher>, text: string) returns (r: Option<string>)
    ensures r == FirstOf(patterns, text, 0)
  {
    var i := 0;
    while i < |patterns|
      invariant 0 <= i <= |patterns|
      invariant FirstOf(patterns, text, 0) == FirstOf(patterns, text, i)
    {
      var m := First(patterns[i], text);
      if m.Some? {
        return m;
      }
      i := i + 1;
    }
    return None;
  }

  /** The delivery loops: the first mentioned keyword, then the first sentence mentioning it. */
  method DeliverySentence(text: string) returns (r: Option<string>)
    ensures r == DeliveryOf(text)
  {
    r := None;
    var k := 0;
    while k < |DeliveryKeywords|
      invariant 0 <= k <= |DeliveryKeywords|
      invariant FirstKeyword(DeliveryKeywords, text, 0) == FirstKeyword(DeliveryKeywords, text, k)
    {
      var keyword := DeliveryKeywords[k];
      if Contains(LowerStr(text), LowerStr(keyword)) {
        var sentences := Split(text, '.');
        var j := 0;
        while j < |sentences|
          invariant 0 <= j <= |sentences|
          invariant FirstSentence(sentences, keyword, 0) == FirstSentence(sentences, keyword, j)
        {
          if Contains(LowerStr(sentences[j]), LowerStr(keyword)) {
            r := Some(Strip(sentences[j]));
            break;
          }
          j := j + 1;
        }
        return;
      }
      k := k + 1;
    }
  }

  /** `extract_business_info`: the price loop, the contact loop, the delivery loops. */
  method ExtractBusinessInfo(text: string) returns (info: ScrapedInfo)
    ensures info == InfoOf(text)
  {
    info := EmptyInfo;
    if text == "" {
      return;
    }
    var price := FirstPatternGroup(PricePatterns, text);
    var contact := FirstPatternGroup(ContactPatterns, text);
    var delivery := DeliverySentence(text);
    info := info.(price := price, contactInfo := contact, deliveryInfo := delivery);
  }

  // ---------------------------------------------------------------------------
  // Properties
  // ---------------------------------------------------------------------------

  /**
   * The result always has the seven keys; empty text gives all `None`, and the name,
   * product, address and hours keys are never assigned.
   */
  lemma UnassignedKeys(text: string)
    ensures text == "" ==> InfoOf(text) == EmptyInfo
    ensures InfoOf(text).businessName.None? && InfoOf(text).productName.None?
    ensures InfoOf(text).address.None? && InfoOf(text).openingHours.None?
  {
  }

  /**
   * Price: the first pattern in list order that matches anywhere decides, and its
   * group is a run of digits, commas and points starting with a digit.
   */
  lemma PriceRule(text: string)
    requires text != ""
    ensures InfoOf(text).price.None? <==> forall k | 0 <= k < 3 :: First(PricePatterns[k], text).None?
    ensures InfoOf(text).price.Some? ==> exists k | 0 <= k < 3 ::
      First(PricePatterns[k], text) == InfoOf(text).price && forall j | 0 <= j < k :: First(PricePatterns[j], text).None?
    ensures InfoOf(text).price.Some? ==> AmountShaped(InfoOf(text).price.value)
  {
    var r := InfoOf(text).price;
    if r.Some? {
      var k :| 0 <= k < 3 && First(PricePatterns[k], text) == r;
      var p := SearchFrom(PricePatterns[k], text, 0);
      assert p.Some?;
      assert PricePatterns[k](text, p.value) == r;
      if k == 0 {
        assert PricePatterns[k] == PriceWithCurrency;
      } else if k == 1 {
        assert PricePatterns[k] == PriceLabelled;
      } else {
        assert PricePatterns[k] == PriceWithBirr;
      }
    }
  }

  /**
   * Contact: the same first-success rule; a hit of the third pattern, with the first
   * two failing, is exactly `09` followed by eight digits.
   */
  lemma ContactRule(text: string)
    requires text != ""
    ensures InfoOf(text).contactInfo.None? <==> forall k | 0 <= k < 3 :: First(ContactPatterns[k], text).None?
    ensures InfoOf(text).contactInfo.Some? ==> exists k | 0 <= k < 3 ::
      First(ContactPatterns[k], text) == InfoOf(text).contactInfo && forall j | 0 <= j < k :: First(ContactPatterns[j], text).None?
    ensures InfoOf(text).contactInfo.Some? && First(ContactPatterns[0], text).None? && First(ContactPatterns[1], text).None? ==>
      var v := InfoOf(text).contactInfo.value;
      |v| == 10 && v[..2] == "09" && AllDigits(v[2..])
    ensures InfoOf(text).contactInfo.Some? ==> |InfoOf(text).contactInfo.value| >= 9
  {
    var r := InfoOf(text).contactInfo;
    if r.Some? {
      var k :| 0 <= k < 3 && First(ContactPatterns[k], text) == r && forall j | 0 <= j < k :: First(ContactPatterns[j], text).None?;
      var p := SearchFrom(ContactPatterns[k], text, 0);
      assert p.Some?;
      assert ContactPatterns[k](text, p.value) == r;
      if k == 0 {
        assert ContactPatterns[k] == ContactLabelled;
      } else if k == 1 {
        assert ContactPatterns[k] == ContactCountryCode;
      } else {
        assert ContactPatterns[k] == ContactMobile;
      }
    }
  }

  /** A non-empty keyword without whitespace or points. */
  predicate WordLike(w: string) {
    w != [] && forall k | 0 <= k < |w| :: !IsSpace(w[k]) && w[k] != '.'
  }

  lemma DeliveryKeywordsWordLike()
    ensures forall k | 0 <= k < |DeliveryKeywords| :: WordLike(LowerStr(DeliveryKeywords[k]))
  {
    forall k | 0 <= k < |DeliveryKeywords| ensures WordLike(LowerStr(DeliveryKeywords[k])) {
      var w := DeliveryKeywords[k];
      assert WordLike(w);
      forall j | 0 <= j < |w| ensures !IsSpace(LowerStr(w)[j]) && LowerStr(w)[j] != '.' {
        LowerKeepsClass(w[j]);
      }
    }
  }

  /** The index of the first occurrence of `c` in `s`. */
  function IndexOf(s: string, c: char): (r: nat)
    requires c in s
    ensures r < |s| && s[r] == c && c !in s[..r]
  {
    if s[0] == c then 0
    else
      var r := 1 + IndexOf(s[1..], c);
      assert s[..r] == [s[0]] + s[1..][..r - 1];
      r
  }

  /** An occurrence of a word without points ends before any point at or after its start. */
  lemma PointBlocksOccurrence(text: string, w: string, i: nat, p: nat)
    requires '.' !in w && ContainsAt(LowerStr(text), w, i) && i <= p < |text| && text[p] == '.'
    ensures i + |w| <= p
  {
    LowerKeepsClass(text[p]);
    assert LowerStr(text)[p] == '.';
    forall q | i <= q < i + |w|
      ensures LowerStr(text)[q] != '.'
    {
      assert LowerStr(text)[q] == w[q - i];
    }
  }

  /** Splitting at the first point: the part before it, then the pieces of the rest. */
  lemma SplitAtFirstPoint(text: string, p: nat)
    requires p < |text| && text[p] == '.' && '.' !in text[..p]
    ensures Split(text, '.') == [text[..p]] + Split(text[p + 1..], '.')
  {
    assert text == text[..p] + "." + text[p + 1..];
    SplitAppend(text[..p], text[p + 1..], '.');
    SplitWithoutSep(text[..p], '.');
  }

  /**
   * A word without points that occurs in the lowered text occurs in one of the
   * lowered `'.'`-separated sentences.
   */
  lemma {:induction false} OccurrenceInSentence(text: string, w: string)
    requires '.' !in w && Contains(LowerStr(text), w)
    ensures exists k | 0 <= k < |Split(text, '.')| :: Contains(LowerStr(Split(text, '.')[k]), w)
    decreases |text|
  {
    var i :| 0 <= i <= |LowerStr(text)| - |w| && ContainsAt(LowerStr(text), w, i);
    if '.' !in text {
      SplitWithoutSep(text, '.');
      assert Split(text, '.')[0] == text;
    } else {
      var p := IndexOf(text, '.');
      if i <= p {
        HeadSentence(text, w, i, p);
      } else {
        var rest := text[p + 1..];
        SliceKeepsOccurrence(text, rest, p + 1, w, i);
        assert ContainsAt(LowerStr(rest), w, i - p - 1);
        OccurrenceInSentence(rest, w);
        var k :| 0 <= k < |Split(rest, '.')| && Contains(LowerStr(Split(rest, '.')[k]), w);
        RestSentence(text, rest, p, k);
        assert Contains(LowerStr(Split(text, '.')[k + 1]), w);
      }
    }
  }

  /** An occurrence before the first point lies in the first sentence. */
  lemma HeadSentence(text: string, w: string, i: nat, p: nat)
    requires '.' !in w && ContainsAt(LowerStr(text), w, i)
    requires i <= p < |text| && text[p] == '.' && '.' !in text[..p]
    ensures exists k | 0 <= k < |Split(text, '.')| :: Contains(LowerStr(Split(text, '.')[k]), w)
  {
    var head := text[..p];
    PointBlocksOccurrence(text, w, i, p);
    SliceKeepsOccurrence(text, head, 0, w, i);
    SplitAtFirstPoint(text, p);
    assert Split(text, '.')[0] == head;
  }

  /** A sentence of the text after the first point is the next sentence of the whole text. */
  lemma RestSentence(text: string, rest: string, p: nat, k: nat)
    requires p < |text| && text[p] == '.' && '.' !in text[..p] && rest == text[p + 1..]
    requires k < |Split(rest, '.')|
    ensures k + 1 < |Split(text, '.')| && Split(text, '.')[k + 1] == Split(rest, '.')[k]
  {
    SplitAtFirstPoint(text, p);
  }

  /** An occurrence of a word without whitespace lies inside the stripped part. */
  lemma OccurrenceInsideStrip(sentence: string, w: string, i: nat)
    requires WordLike(w) && ContainsAt(LowerStr(sentence), w, i)
    ensures Leading(sentence) <= i && i + |w| <= Leading(sentence) + |Strip(sentence)|
  {
    var low := LowerStr(sentence);
    assert low[i] == w[0];
    LowerKeepsClass(sentence[i]);
    assert low[i + |w| - 1] == w[|w| - 1];
    LowerKeepsClass(sentence[i + |w| - 1]);
  }

  /** Stripping a sentence keeps an occurrence of a word without whitespace. */
  lemma StripKeepsOccurrence(sentence: string, w: string)
    requires WordLike(w) && Contains(LowerStr(sentence), w)
    ensures Contains(LowerStr(Strip(sentence)), w)
  {
    var i :| 0 <= i <= |LowerStr(sentence)| - |w| && ContainsAt(LowerStr(sentence), w, i);
    var r, a := Strip(sentence), Leading(sentence);
    OccurrenceInsideStrip(sentence, w, i);
    SliceKeepsOccurrence(sentence, r, a, w, i);
    assert ContainsAt(LowerStr(r), w, i - a);
  }

  /**
   * An occurrence in the lowered `s` that lies inside the slice `r` of `s` starting at `a`
   * is an occurrence in the lowered `r`.
   */
  lemma SliceKeepsOccurrence(s: string, r: string, a: nat, w: string, i: nat)
    requires a + |r| <= |s| && r == s[a..a + |r|]
    requires ContainsAt(LowerStr(s), w, i) && a <= i && i + |w| <= a + |r|
    ensures ContainsAt(LowerStr(r), w, i - a)
  {
    var low, lr := LowerStr(s), LowerStr(r);
    forall q | 0 <= q < |w| ensures lr[i - a + q] == w[q] {
      assert r[i - a + q] == s[i + q];
      assert low[i..i + |w|][q] == low[i + q];
    }
    assert lr[i - a..i - a + |w|] == w;
  }

  /**
   * Delivery: the value is `None` exactly when no keyword is mentioned; otherwise the
   * keyword used is the first in list order that the text mentions (not the first in
   * text order), and the value is the stripped first `'.'`-separated segment of the
   * text that mentions it, which has no `'.'`.
   */
  lemma DeliveryRule(text: string)
    ensures InfoOf(text).deliveryInfo.None? <==>
      text == "" || forall k | 0 <= k < |DeliveryKeywords| :: !MentionsKeyword(text, DeliveryKeywords[k])
    ensures InfoOf(text).deliveryInfo.Some? ==> exists k | 0 <= k < |DeliveryKeywords| ::
      && MentionsKeyword(text, DeliveryKeywords[k])
      && MentionsKeyword(InfoOf(text).deliveryInfo.value, DeliveryKeywords[k])
      && (forall j | 0 <= j < k :: !MentionsKeyword(text, DeliveryKeywords[j]))
      && FirstSentenceValue(text, DeliveryKeywords[k], InfoOf(text).deliveryInfo.value)
    ensures InfoOf(text).deliveryInfo.Some? ==>
      '.' !in InfoOf(text).deliveryInfo.value && Trimmed(InfoOf(text).deliveryInfo.value)
  {
    if text != "" {
      assert InfoOf(text).deliveryInfo == DeliveryOf(text);
      DeliveryOfRule(text);
    }
  }

  /** The delivery rule on a non-empty text, stated of `DeliveryOf` itself. */
  lemma DeliveryOfRule(text: string)
    requires text != ""
    ensures DeliveryOf(text).None? <==> forall k | 0 <= k < |DeliveryKeywords| :: !MentionsKeyword(text, DeliveryKeywords[k])
    ensures DeliveryOf(text).Some? ==> exists k | 0 <= k < |DeliveryKeywords| ::
      && MentionsKeyword(text, DeliveryKeywords[k])
      && MentionsKeyword(DeliveryOf(text).value, DeliveryKeywords[k])
      && (forall j | 0 <= j < k :: !MentionsKeyword(text, DeliveryKeywords[j]))
      && FirstSentenceValue(text, DeliveryKeywords[k], DeliveryOf(text).value)
    ensures DeliveryOf(text).Some? ==> '.' !in DeliveryOf(text).value && Trimmed(DeliveryOf(text).value)
  {
    var fk := FirstKeyword(DeliveryKeywords, text, 0);
    if fk.Some? {
      var kw := DeliveryKeywords[fk.value];
      DeliveryKeywordsWordLike();
      KeywordSentence(text, kw);
      var sentences := Split(text, '.');
      var fs := FirstSentence(sentences, kw, 0);
      assert DeliveryOf(text).value == Strip(sentences[fs.value]);
      assert FirstSentenceValue(text, kw, DeliveryOf(text).value);
    }
  }

  /** A mentioned keyword without whitespace or points has a first sentence naming it, and that sentence stripped has no point. */
  lemma KeywordSentence(text: string, kw: string)
    requires WordLike(LowerStr(kw)) && MentionsKeyword(text, kw)
    ensures var sentences := Split(text, '.');
      var fs := FirstSentence(sentences, kw, 0);
      && fs.Some?
      && MentionsKeyword(Strip(sentences[fs.value]), kw)
      && '.' !in Strip(sentences[fs.value]) && Trimmed(Strip(sentences[fs.value]))
  {
    var sentences := Split(text, '.');
    OccurrenceInSentence(text, LowerStr(kw));
    var fs := FirstSentence(sentences, kw, 0);
    var sen := sentences[fs.value];
    StripKeepsOccurrence(sen, LowerStr(kw));
    var v := Strip(sen);
    forall q | 0 <= q < |v| ensures v[q] != '.' {
      assert v[q] == sen[Leading(sen) + q];
    }
  }

  // ===========================================================================
  // save_to_database: the `any(values)` gate
  // ===========================================================================

  /** `any(business_info.values())`. */
  predicate AnyValue(info: ScrapedInfo) {
    Truthy(info.businessName) || Truthy(info.productName) || Truthy(info.price) || Truthy(info.contactInfo)
    || Truthy(info.address) || Truthy(info.openingHours) || Truthy(info.deliveryInfo)
  }

  /** A business row is saved exactly when a price, a contact or a delivery note was found. */
  lemma SaveGate(text: string)
    ensures AnyValue(InfoOf(text)) <==>
      InfoOf(text).price.Some? || InfoOf(text).contactInfo.Some? || InfoOf(text).deliveryInfo.Some?
  {
    if text != "" {
      PriceRule(text);
      ContactRule(text);
      DeliveryRule(text);
      var d := InfoOf(text).deliveryInfo;
      if d.Some? {
        var k :| 0 <= k < |DeliveryKeywords| && MentionsKeyword(d.value, DeliveryKeywords[k]);
        DeliveryKeywordsWordLike();
        assert LowerStr(DeliveryKeywords[k]) != [];
      }
    }
  }

  // ===========================================================================
  // save_media_file: file type and extension
  // ===========================================================================

  /** The media classes `save_media_file` distinguishes. */
  datatype Media =
    | NoMedia
    | Photo
    | Document(mimeType: Option<string>)
    | Video
    | OtherMedia

  datatype FileKind = FileKind(fileType: string, extension: string)

  /**
   * The (file type, extension) pair, or `None` when there is no media to save. A
   * document with an empty or missing MIME type, and any other media class, keeps the
   * defaults `unknown` and `''`.
   */
  function MediaKindOf(media: Media): (r: Option<FileKind>)
    ensures r.None? <==> media.NoMedia?
    ensures media.Photo? ==> r == Some(FileKind("image", ".jpg"))
    ensures media.Video? ==> r == Some(FileKind("video", ".mp4"))
    ensures media.OtherMedia? || (media.Document? && !Truthy(media.mimeType)) ==> r == Some(FileKind("unknown", ""))
    ensures media.Document? && Truthy(media.mimeType)
      && !Contains(media.mimeType.value, "image") && !Contains(media.mimeType.value, "video")
      ==> r == Some(FileKind("document", ".bin"))
    ensures media.Document? && Truthy(media.mimeType)
      && !Contains(media.mimeType.value, "image") && Contains(media.mimeType.value, "video")
      ==> r == Some(FileKind("video", ".mp4"))
    ensures r.Some? && r.value.fileType == "document" ==> media.Document?
    ensures r.Some? ==> (r.value.extension == "" <==> r.value.fileType == "unknown")
    ensures r.Some? && r.value.fileType == "image" ==> r.value.extension == ".jpg" || r.value.extension == ".png"
    ensures media.Document? && Truthy(media.mimeType) ==>
      && (r.value.fileType == "image" <==> Contains(media.mimeType.value, "image"))
      && (r.value.fileType == "video" <==> !Contains(media.mimeType.value, "image") && Contains(media.mimeType.value, "video"))
      && (r.value.extension == ".jpg" <==> Contains(media.mimeType.value, "image") && Contains(media.mimeType.value, "jpeg"))
  {
    match media
    case NoMedia => None
    case Photo => Some(FileKind("image", ".jpg"))
    case Document(mime) =>
      if !Truthy(mime) then Some(FileKind("unknown", ""))
      else if Contains(mime.value, "image") then
        Some(FileKind("image", if Contains(mime.value, "jpeg") then ".jpg" else ".png"))
      else if Contains(mime.value, "video") then Some(FileKind("video", ".mp4"))
      else Some(FileKind("document", ".bin"))
    case Video => Some(FileKind("video", ".mp4"))
    case OtherMedia => Some(FileKind("unknown", ""))
  }

  /** `f"{username}_{id}_{timestamp}{ext}"`, with the formatted date given as text. */
  function SavedFileName(username: string, id: int, timestamp: string, kind: FileKind): (r: string)
    ensures |r| >= |username| + |timestamp| + |kind.extension| + 3
    ensures r[..|username| + 1] == username + "_"
    ensures r[|r| - |kind.extension|..] == kind.extension
  {
    username + "_" + IntToString(id) + "_" + timestamp + kind.extension
  }
}
