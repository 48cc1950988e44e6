/**
 * The database loader of the demo pipeline, `TelegramDataLoader`: its own small
 * business-record extractor (a keyword gate, a phone pattern and a service-type
 * priority) and the way `load_json_files` gathers channel rows, message rows,
 * business records and media records out of the exported JSON files before they
 * are inserted.
 */
module Loader {
  import opened Wrappers
  import opened Text
  import opened Scan

  // ---------------------------------------------------------------------------
  // extract_business_info
  // ---------------------------------------------------------------------------

  /** The words whose presence in the lowercased text lets a message yield records. */
  const MedicalKeywords: seq<string> := ["medical", "hospital", "clinic", "pharmacy", "health"]

  predicate MentionsMedical(text: string) {
    exists k | 0 <= k < |MedicalKeywords| :: Contains(LowerStr(text), MedicalKeywords[k])
  }

  /** The separator class `[\-\s]`. */
  predicate IsSeparator(c: char) {
    c == '-' || IsSpace(c)
  }

  /** `[\-\s]?` at position `j`: 1 when a separator is there, else 0. */
  function SepLen(s: string, j: nat): (n: nat)
    ensures n <= 1
    ensures n == 1 <==> j < |s| && IsSeparator(s[j])
  {
    if j < |s| && IsSeparator(s[j]) then 1 else 0
  }

  /** `\d{n}` at position `j`. */
  predicate DigitsAt(s: string, j: nat, n: nat) {
    j + n <= |s| && AllDigits(s[j..j + n])
  }

  /**
   * `\+?251[\-\s]?\d{2}[\-\s]?\d{3}[\-\s]?\d{4}` at position `i`: the match length, or 0.
   * Taking each optional part whenever it is present is what backtracking settles on:
   * without the `'+'` the literal `251` would have to start at a `'+'`, and without a
   * separator the following digits would have to start at a separator.
   */
  function PhoneAt(s: string, i: nat): (n: nat)
    ensures n > 0 ==> i + n <= |s|
  {
    var j0 := i + (if i < |s| && s[i] == '+' then 1 else 0);
    var j1 := j0 + 3;
    var j2 := j1 + SepLen(s, j1) + 2;
    var j3 := j2 + SepLen(s, j2) + 3;
    if LitAt(s, j0, "251")
      && DigitsAt(s, j1 + SepLen(s, j1), 2)
      && DigitsAt(s, j2 + SepLen(s, j2), 3)
      && DigitsAt(s, j3 + SepLen(s, j3), 4)
    then j3 + SepLen(s, j3) + 4 - i
    else 0
  }

  /** Number of decimal digits in a string. */
  function DigitCount(s: string): nat {
    if s == [] then 0 else DigitCount(s[..|s| - 1]) + (if IsDigit(s[|s| - 1]) then 1 else 0)
  }

  lemma {:induction false} DigitCountAppend(a: string, b: string)
    ensures DigitCount(a + b) == DigitCount(a) + DigitCount(b)
    decreases |b|
  {
    if b != [] {
      assert (a + b)[..|a + b| - 1] == a + b[..|b| - 1];
      assert (a + b)[|a + b| - 1] == b[|b| - 1];
      DigitCountAppend(a, b[..|b| - 1]);
      assert DigitCount(a + b) == DigitCount((a + b)[..|a + b| - 1]) + (if IsDigit(b[|b| - 1]) then 1 else 0);
      assert DigitCount(b) == DigitCount(b[..|b| - 1]) + (if IsDigit(b[|b| - 1]) then 1 else 0);
    } else {
      assert a + b == a;
    }
  }

  lemma {:induction false} DigitCountAllDigits(s: string)
    requires AllDigits(s)
    ensures DigitCount(s) == |s|
  {
    if s != [] {
      DigitCountAllDigits(s[..|s| - 1]);
    }
  }

  /** A separator, or nothing, holds no digit. */
  lemma DigitCountSeparator(s: string)
    requires |s| <= 1 && (|s| == 1 ==> IsSeparator(s[0]))
    ensures DigitCount(s) == 0
  {
    if |s| == 1 {
      assert s[..0] == [];
    }
  }

  /** A slice splits at any point between its ends. */
  lemma SliceSplit(s: string, a: nat, b: nat, c: nat)
    requires a <= b <= c <= |s|
    ensures s[a..c] == s[a..b] + s[b..c]
  {
  }

  /**
   * Digits with single separators between them: every character is a digit or a
   * separator, no two separators are adjacent, and the last character is a digit.
   */
  ghost predicate Grouped(t: string) {
    && t != []
    && (forall j | 0 <= j < |t| :: IsDigit(t[j]) || IsSeparator(t[j]))
    && (forall j | 0 <= j < |t| - 1 :: IsDigit(t[j]) || IsDigit(t[j + 1]))
    && IsDigit(t[|t| - 1])
  }

  lemma GroupedAppend(x: string, y: string)
    requires Grouped(x) && Grouped(y)
    ensures Grouped(x + y)
  {
    var t := x + y;
    forall j | 0 <= j < |t| - 1 ensures IsDigit(t[j]) || IsDigit(t[j + 1]) {
      if j < |x| - 1 {
        assert t[j] == x[j] && t[j + 1] == x[j + 1];
      } else if j == |x| - 1 {
        assert t[j] == x[j];
      } else {
        assert t[j] == y[j - |x|] && t[j + 1] == y[j + 1 - |x|];
      }
    }
  }

  /** `[\-\s]?\d{n}` at `j`, when it matches, is a group holding `n` digits. */
  lemma ChunkShaped(s: string, j: nat, n: nat)
    requires n > 0 && DigitsAt(s, j + SepLen(s, j), n)
    ensures Grouped(s[j..j + SepLen(s, j) + n])
    ensures DigitCount(s[j..j + SepLen(s, j) + n]) == n
  {
    var a := SepLen(s, j);
    var e := j + a + n;
    ChunkGrouped(s, j, a, e);
    ChunkDigitCount(s, j, a, e);
  }

  /** An optional separator followed by digits is a group. */
  lemma ChunkGrouped(s: string, j: nat, a: nat, e: nat)
    requires a <= 1 && j + a < e <= |s| && (a == 1 ==> IsSeparator(s[j]))
    requires AllDigits(s[j + a..e])
    ensures Grouped(s[j..e])
  {
    var t := s[j..e];
    forall q | a <= q < |t| ensures IsDigit(t[q]) {
      assert t[q] == s[j + a..e][q - a];
    }
  }

  lemma ChunkDigitCount(s: string, j: nat, a: nat, e: nat)
    requires a <= 1 && j + a <= e <= |s| && (a == 1 ==> IsSeparator(s[j]))
    requires AllDigits(s[j + a..e])
    ensures DigitCount(s[j..e]) == e - j - a
  {
    SliceSplit(s, j, j + a, e);
    DigitCountSeparator(s[j..j + a]);
    DigitCountAllDigits(s[j + a..e]);
    DigitCountAppend(s[j..j + a], s[j + a..e]);
  }

  /**
   * The shape of a phone number the loader records: an optional `'+'`, then `251`,
   * then exactly nine more digits, with at most three separators (`'-'` or whitespace)
   * among them, never two in a row, and a digit at the end.
   */
  ghost predicate PhoneShaped(p: string) {
    var k := if p != [] && p[0] == '+' then 1 else 0;
    && k + 3 <= |p| && p[k..k + 3] == "251"
    && |p| <= k + 15
    && Grouped(p[k + 3..])
    && DigitCount(p[k + 3..]) == 9
  }

  /** Every match of the phone pattern is phone-shaped. */
  lemma PhoneAtShaped(s: string, i: nat)
    requires PhoneAt(s, i) > 0
    ensures PhoneShaped(s[i..i + PhoneAt(s, i)])
  {
    var k := if i < |s| && s[i] == '+' then 1 else 0;
    var j1 := i + k + 3;
    var e := PhoneTailEnd(s, j1);
    assert e == i + PhoneAt(s, i);
    PhoneTailShaped(s, j1);
    var p := s[i..e];
    assert p[0] == s[i];
    SliceOfSlice(s, i, e, k, k + 3);
    SliceOfSlice(s, i, e, k + 3, e - i);
    assert p[k + 3..] == p[k + 3..e - i];
    PhoneShapedIntro(p, k);
  }


  /** Where the three digit groups of the phone pattern end, when they start at `j1`. */
  function PhoneTailEnd(s: string, j1: nat): nat {
    var j2 := j1 + SepLen(s, j1) + 2;
    var j3 := j2 + SepLen(s, j2) + 3;
    j3 + SepLen(s, j3) + 4
  }

  /** The part of a phone match after `251` is nine digits in groups of 2, 3 and 4. */
  lemma PhoneTailShaped(s: string, j1: nat)
    requires DigitsAt(s, j1 + SepLen(s, j1), 2)
    requires DigitsAt(s, j1 + SepLen(s, j1) + 2 + SepLen(s, j1 + SepLen(s, j1) + 2), 3)
    requires var j3 := j1 + SepLen(s, j1) + 2 + SepLen(s, j1 + SepLen(s, j1) + 2) + 3;
      DigitsAt(s, j3 + SepLen(s, j3), 4)
    ensures PhoneTailEnd(s, j1) <= |s| && PhoneTailEnd(s, j1) <= j1 + 12
    ensures Grouped(s[j1..PhoneTailEnd(s, j1)]) && DigitCount(s[j1..PhoneTailEnd(s, j1)]) == 9
  {
    var j2 := j1 + SepLen(s, j1) + 2;
    var j3 := j2 + SepLen(s, j2) + 3;
    var e := j3 + SepLen(s, j3) + 4;
    ChunkShaped(s, j1, 2);
    ChunkShaped(s, j2, 3);
    ChunkShaped(s, j3, 4);
    GroupedSlices(s, j1, j2, j3, e);
  }

  /** Three adjacent slices grouped as 2, 3 and 4 digits make one slice of nine grouped digits. */
  lemma GroupedSlices(s: string, a: nat, b: nat, c: nat, d: nat)
    requires a <= b <= c <= d <= |s|
    requires Grouped(s[a..b]) && Grouped(s[b..c]) && Grouped(s[c..d])
    requires DigitCount(s[a..b]) == 2 && DigitCount(s[b..c]) == 3 && DigitCount(s[c..d]) == 4
    ensures Grouped(s[a..d]) && DigitCount(s[a..d]) == 9
  {
    SliceSplit(s, a, b, d);
    SliceSplit(s, b, c, d);
    assert s[a..d] == s[a..b] + (s[b..c] + s[c..d]);
    TailShaped(s[a..b], s[b..c], s[c..d]);
  }

  /** Three groups of 2, 3 and 4 digits make a group of 9 digits. */
  lemma TailShaped(x: string, y: string, z: string)
    requires Grouped(x) && Grouped(y) && Grouped(z)
    requires DigitCount(x) == 2 && DigitCount(y) == 3 && DigitCount(z) == 4
    ensures Grouped(x + (y + z)) && DigitCount(x + (y + z)) == 9
  {
    GroupedAppend(y, z);
    GroupedAppend(x, y + z);
    DigitCountAppend(y, z);
    DigitCountAppend(x, y + z);
  }

  lemma PhoneShapedIntro(p: string, k: nat)
    requires k <= 1 && k + 3 <= |p| && (p[0] == '+' <==> k == 1)
    requires p[k..k + 3] == "251" && |p| <= k + 15
    requires Grouped(p[k + 3..]) && DigitCount(p[k + 3..]) == 9
    ensures PhoneShaped(p)
  {
  }

  /** `service_type`: the first of pharmacy, emergency, vaccination, checkup the lowercased text mentions. */
  function ServiceTypeOf(text: string): (r: string)
    ensures r == "pharmacy" <==> Contains(LowerStr(text), "pharmacy")
    ensures r == "emergency" <==>
      !Contains(LowerStr(text), "pharmacy") && Contains(LowerStr(text), "emergency")
    ensures r == "vaccination" <==>
      !Contains(LowerStr(text), "pharmacy") && !Contains(LowerStr(text), "emergency")
      && Contains(LowerStr(text), "vaccination")
    ensures r == "checkup" <==>
      !Contains(LowerStr(text), "pharmacy") && !Contains(LowerStr(text), "emergency")
      && !Contains(LowerStr(text), "vaccination") && Contains(LowerStr(text), "checkup")
    ensures r == "general_medical" <==>
      !Contains(LowerStr(text), "pharmacy") && !Contains(LowerStr(text), "emergency")
      && !Contains(LowerStr(text), "vaccination") && !Contains(LowerStr(text), "checkup")
  {
    var low := LowerStr(text);
    if Contains(low, "pharmacy") then "pharmacy"
    else if Contains(low, "emergency") then "emergency"
    else if Contains(low, "vaccination") then "vaccination"
    else if Contains(low, "checkup") then "checkup"
    else "general_medical"
  }

  /** `channel.replace('_', ' ').title()`: as long as the channel name, and without underscores. */
  function BusinessNameOf(channel: string): (r: string)
    ensures |r| == |channel|
    ensures '_' !in r
  {
    var spaced := ReplaceChar(channel, '_', ' ');
    var r := Title(spaced);
    assert forall k | 0 <= k < |r| :: r[k] != '_' by {
      forall k | 0 <= k < |r| ensures r[k] != '_' {
        assert spaced[k] != '_';
      }
    }
    r
  }

  const DefaultLocation: string := "Addis Ababa"

  /** One row of the loader's `business_info` table (`extracted_at`, a clock reading, is left out). */
  datatype BusinessRecord = BusinessRecord(
    channelUsername: string,
    messageId: int,
    businessName: string,
    phoneNumber: string,
    serviceType: string,
    location: string)

  /** The records for a list of phones, in order, one per phone. */
  function RecordsFor(phones: seq<string>, channel: string, msgId: int, service: string): seq<BusinessRecord> {
    if phones == [] then []
    else
      RecordsFor(phones[..|phones| - 1], channel, msgId, service)
        + [BusinessRecord(channel, msgId, BusinessNameOf(channel), phones[|phones| - 1], service, DefaultLocation)]
  }

  /** What `extract_business_info(text, channel, msg_id)` returns. */
  function BusinessRecordsOf(text: string, channel: string, msgId: int): seq<BusinessRecord> {
    if MentionsMedical(text) then RecordsFor(FindAll(PhoneAt, text), channel, msgId, ServiceTypeOf(text))
    else []
  }

  /** `extract_business_info`: the gate, the service type chain, then one record per phone match. */
  method ExtractBusinessInfo(text: string, channel: string, msgId: int) returns (records: seq<BusinessRecord>)
    ensures records == BusinessRecordsOf(text, channel, msgId)
  {
    records := [];
    var low := LowerStr(text);
    if MentionsMedical(text) {
      var phones := FindAll(PhoneAt, text);
      var serviceType := "general_medical";
      if Contains(low, "pharmacy") {
        serviceType := "pharmacy";
      } else if Contains(low, "emergency") {
        serviceType := "emergency";
      } else if Contains(low, "vaccination") {
        serviceType := "vaccination";
      } else if Contains(low, "checkup") {
        serviceType := "checkup";
      }
      assert serviceType == ServiceTypeOf(text);
      records := RecordsForPhones(phones, channel, msgId, serviceType);
    }
  }

  /** The loop of `extract_business_info` over the phone matches: one record per match, in order. */
  method RecordsForPhones(phones: seq<string>, channel: string, msgId: int, serviceType: string)
    returns (records: seq<BusinessRecord>)
    ensures records == RecordsFor(phones, channel, msgId, serviceType)
  {
    records := [];
    var businessName := BusinessNameOf(channel);
    for i := 0 to |phones|
      invariant records == RecordsFor(phones[..i], channel, msgId, serviceType)
    {
      PrefixOfPrefix(phones, i);
      records := records + [BusinessRecord(channel, msgId, businessName, phones[i], serviceType, DefaultLocation)];
    }
    assert phones[..|phones|] == phones;
  }

  /** `RecordsFor` makes one record per phone, each carrying that phone and the shared fields. */
  lemma {:induction false} RecordsForSpec(phones: seq<string>, channel: string, msgId: int, service: string)
    ensures |RecordsFor(phones, channel, msgId, service)| == |phones|
    ensures forall k | 0 <= k < |phones| ::
      RecordsFor(phones, channel, msgId, service)[k]
        == BusinessRecord(channel, msgId, BusinessNameOf(channel), phones[k], service, DefaultLocation)
  {
    if phones != [] {
      RecordsForSpec(phones[..|phones| - 1], channel, msgId, service);
    }
  }

  /**
   * No records unless the text mentions a medical keyword; otherwise exactly one record
   * per phone match, in `findall` order, each with the channel, the message id, the
   * channel-derived business name, the text's service type and the default location.
   */
  lemma BusinessRecordsRule(text: string, channel: string, msgId: int)
    ensures !MentionsMedical(text) ==> BusinessRecordsOf(text, channel, msgId) == []
    ensures MentionsMedical(text) ==> |BusinessRecordsOf(text, channel, msgId)| == |FindAll(PhoneAt, text)|
    ensures MentionsMedical(text) ==> forall k | 0 <= k < |FindAll(PhoneAt, text)| ::
      BusinessRecordsOf(text, channel, msgId)[k] == BusinessRecord(channel, msgId, BusinessNameOf(channel),
        FindAll(PhoneAt, text)[k], ServiceTypeOf(text), DefaultLocation)
  {
    RecordsForSpec(FindAll(PhoneAt, text), channel, msgId, ServiceTypeOf(text));
  }

  /** A message yields no records exactly when it has no medical keyword or no phone match anywhere. */
  lemma NoRecordsIff(text: string, channel: string, msgId: int)
    ensures BusinessRecordsOf(text, channel, msgId) == [] <==>
      !MentionsMedical(text) || NoMatchIn(PhoneAt, text, 0, |text|)
  {
    BusinessRecordsRule(text, channel, msgId);
    FindAllEmptyIff(PhoneAt, text);
  }

  /** Every phone `findall` reports is phone-shaped. */
  lemma FoundPhoneShaped(text: string, k: nat)
    requires k < |FindAll(PhoneAt, text)|
    ensures PhoneShaped(FindAll(PhoneAt, text)[k])
  {
    SpansFromMatches(PhoneAt, text, 0);
    var span := Spans(PhoneAt, text)[k];
    assert MatchLen(PhoneAt, text, span.start) == span.len;
    PhoneAtShaped(text, span.start);
  }

  /** Every recorded phone number is phone-shaped. */
  lemma RecordedPhonesShaped(text: string, channel: string, msgId: int)
    ensures forall k | 0 <= k < |BusinessRecordsOf(text, channel, msgId)| ::
      PhoneShaped(BusinessRecordsOf(text, channel, msgId)[k].phoneNumber)
  {
    BusinessRecordsRule(text, channel, msgId);
    forall k | 0 <= k < |BusinessRecordsOf(text, channel, msgId)|
      ensures PhoneShaped(BusinessRecordsOf(text, channel, msgId)[k].phoneNumber)
    {
      FoundPhoneShaped(text, k);
    }
  }

  // ---------------------------------------------------------------------------
  // load_json_files
  // ---------------------------------------------------------------------------

  /** The `channel_info` object of an export file: the key the loader reads and two it stores. */
  datatype ChannelInfo = ChannelInfo(username: string, title: string, participantsCount: int)

  /** One message of an export file, with the keys the loader reads. */
  datatype ExportedMessage = ExportedMessage(
    id: int,
    date: string,
    text: string,
    hasMedia: bool,
    mediaType: Option<string>,
    mediaFilePath: Option<string>)

  /**
   * How far the loader got through the message on which its per-file `try` raised:
   * before the message is queued (it is not a dictionary, or lacks `raw_data`), after
   * it is queued (it lacks `text` or `id`, or its text is not a string), or after its
   * business records are queued (it lacks `has_media`, or a key of the media record).
   */
  datatype Reached = BeforeRow | AfterRow | AfterBusiness

  /** How the loop over a file's messages ends: all processed, or raising on one of them. */
  datatype Ending = Completed | RaisedAt(reached: Reached, failing: ExportedMessage)

  /**
   * A JSON file found under the data directory. `Unreadable`: it cannot be opened or
   * parsed, or lacks `channel_info` or its `username`, so it adds nothing. `ChannelOnly`:
   * its channel is read but `messages` is missing or not a list of dictionaries.
   * `Export`: the messages processed in full, then how the loop ended. The `try` covers
   * the whole file, so whatever was queued before a failure stays queued.
   */
  datatype ExportFile =
    | Unreadable
    | ChannelOnly(channelInfo: ChannelInfo)
    | Export(channelInfo: ChannelInfo, messages: seq<ExportedMessage>, ending: Ending)

  /** A message as queued for `telegram_messages`: tagged with its channel's username. */
  datatype MessageRow = MessageRow(channelUsername: string, message: ExportedMessage)

  /** The fixed `file_size` of every media record. */
  const DemoFileSize: int := 1024

  datatype MediaRecord = MediaRecord(
    channelUsername: string,
    messageId: int,
    filePath: string,
    mediaType: Option<string>,
    fileSize: int,
    createdAt: string)

  /** `message['has_media'] and message['media_file_path']`. */
  predicate HasMediaFile(m: ExportedMessage) {
    m.hasMedia && Truthy(m.mediaFilePath)
  }

  function MediaRecordFor(channel: string, m: ExportedMessage): MediaRecord
    requires m.mediaFilePath.Some?
  {
    MediaRecord(channel, m.id, m.mediaFilePath.value, m.mediaType, DemoFileSize, m.date)
  }

  /** The four collections `load_json_files` hands to the inserter. */
  datatype Collected = Collected(
    channels: map<string, ChannelInfo>,
    messages: seq<MessageRow>,
    business: seq<BusinessRecord>,
    media: seq<MediaRecord>)

  function MessageRowsOf(channel: string, msgs: seq<ExportedMessage>): seq<MessageRow> {
    if msgs == [] then []
    else MessageRowsOf(channel, msgs[..|msgs| - 1]) + [MessageRow(channel, msgs[|msgs| - 1])]
  }

  function BusinessOfMessages(channel: string, msgs: seq<ExportedMessage>): seq<BusinessRecord> {
    if msgs == [] then []
    else
      var m := msgs[|msgs| - 1];
      BusinessOfMessages(channel, msgs[..|msgs| - 1]) + BusinessRecordsOf(m.text, channel, m.id)
  }

  function MediaOfMessages(channel: string, msgs: seq<ExportedMessage>): seq<MediaRecord> {
    if msgs == [] then []
    else
      var m := msgs[|msgs| - 1];
      MediaOfMessages(channel, msgs[..|msgs| - 1]) + (if HasMediaFile(m) then [MediaRecordFor(channel, m)] else [])
  }

  /** Each list over one more message is the list so far plus what that message adds. */
  lemma CollectStep(channel: string, msgs: seq<ExportedMessage>, j: nat)
    requires j < |msgs|
    ensures MessageRowsOf(channel, msgs[..j + 1]) == MessageRowsOf(channel, msgs[..j]) + [MessageRow(channel, msgs[j])]
    ensures BusinessOfMessages(channel, msgs[..j + 1])
      == BusinessOfMessages(channel, msgs[..j]) + BusinessRecordsOf(msgs[j].text, channel, msgs[j].id)
    ensures MediaOfMessages(channel, msgs[..j + 1]) == MediaOfMessages(channel, msgs[..j])
      + (if HasMediaFile(msgs[j]) then [MediaRecordFor(channel, msgs[j])] else [])
  {
    PrefixOfPrefix(msgs, j);
  }

  /** The channel map after reading a file's `channel_info`: the first file of a channel wins. */
  function Claim(channels: map<string, ChannelInfo>, info: ChannelInfo): map<string, ChannelInfo> {
    if info.username in channels then channels else channels[info.username := info]
  }

  /** The message row queued for the message that raised, if it got that far. */
  function FailingRows(channel: string, e: Ending): seq<MessageRow> {
    if e.RaisedAt? && e.reached != BeforeRow then [MessageRow(channel, e.failing)] else []
  }

  /** The business records queued for the message that raised, if it got that far. */
  function FailingBusiness(channel: string, e: Ending): seq<BusinessRecord> {
    if e.RaisedAt? && e.reached == AfterBusiness then BusinessRecordsOf(e.failing.text, channel, e.failing.id) else []
  }

  /** What one file adds: its channel unless already known, then what its messages queued. */
  function FileStep(c: Collected, f: ExportFile): Collected {
    match f
    case Unreadable => c
    case ChannelOnly(info) => Collected(Claim(c.channels, info), c.messages, c.business, c.media)
    case Export(info, msgs, ending) =>
      var u := info.username;
      Collected(
        Claim(c.channels, info),
        c.messages + MessageRowsOf(u, msgs) + FailingRows(u, ending),
        c.business + BusinessOfMessages(u, msgs) + FailingBusiness(u, ending),
        c.media + MediaOfMessages(u, msgs))
  }

  /** What `load_json_files` collects from the files, in the order they are found. */
  function CollectedOf(files: seq<ExportFile>): Collected {
    if files == [] then Collected(map[], [], [], [])
    else FileStep(CollectedOf(files[..|files| - 1]), files[|files| - 1])
  }

  /** The inner loop of `load_json_files`: one file's messages appended to the three lists. */
  method CollectMessages(channel: string, msgs: seq<ExportedMessage>,
    messages0: seq<MessageRow>, business0: seq<BusinessRecord>, media0: seq<MediaRecord>)
    returns (messages: seq<MessageRow>, business: seq<BusinessRecord>, media: seq<MediaRecord>)
    ensures messages == messages0 + MessageRowsOf(channel, msgs)
    ensures business == business0 + BusinessOfMessages(channel, msgs)
    ensures media == media0 + MediaOfMessages(channel, msgs)
  {
    messages, business, media := messages0, business0, media0;
    for j := 0 to |msgs|
      invariant messages == messages0 + MessageRowsOf(channel, msgs[..j])
      invariant business == business0 + BusinessOfMessages(channel, msgs[..j])
      invariant media == media0 + MediaOfMessages(channel, msgs[..j])
    {
      var m := msgs[j];
      CollectStep(channel, msgs, j);
      var row := MessageRow(channel, m);
      AppendAssoc(messages0, MessageRowsOf(channel, msgs[..j]), [row]);
      messages := messages + [row];
      var records := ExtractBusinessInfo(m.text, channel, m.id);
      AppendAssoc(business0, BusinessOfMessages(channel, msgs[..j]), records);
      business := business + records;
      if m.hasMedia && Truthy(m.mediaFilePath) {
        var item := MediaRecordFor(channel, m);
        AppendAssoc(media0, MediaOfMessages(channel, msgs[..j]), [item]);
        media := media + [item];
      } else {
        assert MediaOfMessages(channel, msgs[..j]) + [] == MediaOfMessages(channel, msgs[..j]);
      }
    }
    assert msgs[..|msgs|] == msgs;
  }

  /** `load_json_files`, up to the insertion: file by file, message by message. */
  method LoadJsonFiles(files: seq<ExportFile>) returns (c: Collected)
    ensures c == CollectedOf(files)
  {
    var channels: map<string, ChannelInfo> := map[];
    var messages: seq<MessageRow> := [];
    var business: seq<BusinessRecord> := [];
    var media: seq<MediaRecord> := [];
    for i := 0 to |files|
      invariant Collected(channels, messages, business, media) == CollectedOf(files[..i])
    {
      PrefixOfPrefix(files, i);
      match files[i]
      case Unreadable =>
      case ChannelOnly(info) =>
        if info.username !in channels {
          channels := channels[info.username := info];
        }
      case Export(info, msgs, ending) =>
        var u := info.username;
        if u !in channels {
          channels := channels[u := info];
        }
        messages, business, media := CollectMessages(u, msgs, messages, business, media);
        if ending.RaisedAt? && ending.reached != BeforeRow {
          messages := messages + [MessageRow(u, ending.failing)];
        }
        if ending.RaisedAt? && ending.reached == AfterBusiness {
          var records := ExtractBusinessInfo(ending.failing.text, u, ending.failing.id);
          business := business + records;
        }
    }
    assert files[..|files|] == files;
    c := Collected(channels, messages, business, media);
  }

  /** Some file among `files` has a readable `channel_info` for channel `u`. */
  ghost predicate ExportsChannel(files: seq<ExportFile>, u: string) {
    exists k | 0 <= k < |files| :: !files[k].Unreadable? && files[k].channelInfo.username == u
  }

  /** A file changes the channel map only by claiming its channel. */
  lemma StepChannels(c: Collected, f: ExportFile)
    ensures FileStep(c, f).channels == if f.Unreadable? then c.channels else Claim(c.channels, f.channelInfo)
  {
  }

  /**
   * A channel is collected exactly when some file has a readable `channel_info` for it,
   * even a file that raises later, while its messages are processed.
   */
  lemma {:induction false} ChannelsDomain(files: seq<ExportFile>, u: string)
    ensures u in CollectedOf(files).channels <==> ExportsChannel(files, u)
  {
    if files != [] {
      var init := files[..|files| - 1];
      ChannelsDomain(init, u);
      StepChannels(CollectedOf(init), files[|files| - 1]);
      if ExportsChannel(init, u) {
        var k :| 0 <= k < |init| && !init[k].Unreadable? && init[k].channelInfo.username == u;
        assert files[k] == init[k];
      }
    }
  }

  /**
   * The first file with a readable `channel_info` for a channel supplies its channel row,
   * whether or not it raises later; later files never overwrite it.
   */
  lemma {:induction false} FirstFileWins(files: seq<ExportFile>, k: nat)
    requires k < |files| && !files[k].Unreadable?
    requires !ExportsChannel(files[..k], files[k].channelInfo.username)
    ensures files[k].channelInfo.username in CollectedOf(files).channels
    ensures CollectedOf(files).channels[files[k].channelInfo.username] == files[k].channelInfo
  {
    var u := files[k].channelInfo.username;
    var init := files[..|files| - 1];
    StepChannels(CollectedOf(init), files[|files| - 1]);
    if k == |files| - 1 {
      assert init == files[..k];
      ChannelsDomain(init, u);
    } else {
      assert init[..k] == files[..k];
      FirstFileWins(init, k);
    }
  }

  /** One message row per message, in order, tagged with the channel. */
  lemma {:induction false} MessageRowsSpec(channel: string, msgs: seq<ExportedMessage>)
    ensures |MessageRowsOf(channel, msgs)| == |msgs|
    ensures forall j | 0 <= j < |msgs| :: MessageRowsOf(channel, msgs)[j] == MessageRow(channel, msgs[j])
  {
    if msgs != [] {
      MessageRowsSpec(channel, msgs[..|msgs| - 1]);
    }
  }

  /**
   * The number of message rows a file queues: one per message processed in full, one
   * more when the message that raised was already queued, none for a file without messages.
   */
  function QueuedRows(f: ExportFile): nat {
    match f
    case Export(_, msgs, ending) => |msgs| + |FailingRows("", ending)|
    case _ => 0
  }

  function QueuedTotal(files: seq<ExportFile>): nat {
    if files == [] then 0 else QueuedTotal(files[..|files| - 1]) + QueuedRows(files[|files| - 1])
  }

  /** Rows queued before a failure are kept: the collected message count adds up file by file. */
  lemma {:induction false} CollectedMessageCount(files: seq<ExportFile>)
    ensures |CollectedOf(files).messages| == QueuedTotal(files)
  {
    if files != [] {
      var init := files[..|files| - 1];
      CollectedMessageCount(init);
      match files[|files| - 1]
      case Unreadable =>
      case ChannelOnly(_) =>
      case Export(info, msgs, ending) =>
        MessageRowsSpec(info.username, msgs);
    }
  }

  /**
   * A message yields a media record exactly when `has_media` is set and its file path
   * is non-empty; every media record carries the channel and the fixed file size.
   */
  lemma {:induction false} MediaRule(channel: string, msgs: seq<ExportedMessage>)
    ensures forall j | 0 <= j < |msgs| && HasMediaFile(msgs[j]) ::
      MediaRecordFor(channel, msgs[j]) in MediaOfMessages(channel, msgs)
    ensures forall r | r in MediaOfMessages(channel, msgs) ::
      r.channelUsername == channel && r.fileSize == DemoFileSize
      && exists j | 0 <= j < |msgs| :: HasMediaFile(msgs[j]) && r == MediaRecordFor(channel, msgs[j])
    ensures |MediaOfMessages(channel, msgs)| <= |msgs|
  {
    if msgs != [] {
      var init := msgs[..|msgs| - 1];
      MediaRule(channel, init);
      forall j | 0 <= j < |msgs| && HasMediaFile(msgs[j])
        ensures MediaRecordFor(channel, msgs[j]) in MediaOfMessages(channel, msgs)
      {
        if j < |init| {
          assert msgs[j] == init[j];
        }
      }
      forall r | r in MediaOfMessages(channel, msgs)
        ensures exists j | 0 <= j < |msgs| :: HasMediaFile(msgs[j]) && r == MediaRecordFor(channel, msgs[j])
      {
        if r in MediaOfMessages(channel, init) {
          var j :| 0 <= j < |init| && HasMediaFile(init[j]) && r == MediaRecordFor(channel, init[j]);
          assert msgs[j] == init[j];
        } else {
          assert r == MediaRecordFor(channel, msgs[|msgs| - 1]);
        }
      }
    }
  }

  /** Every collected media record, from whichever file, has the fixed demo file size and a non-empty path. */
  lemma {:induction false} CollectedMediaShape(files: seq<ExportFile>)
    ensures forall r | r in CollectedOf(files).media :: r.fileSize == DemoFileSize && r.filePath != ""
  {
    if files != [] {
      var init := files[..|files| - 1];
      CollectedMediaShape(init);
      match files[|files| - 1]
      case Unreadable =>
      case ChannelOnly(_) =>
      case Export(info, msgs, _) =>
        MediaRule(info.username, msgs);
    }
  }
  /** `r` is one of the values `f` gives some element of `xs`. */
  ghost predicate InSome<T, U>(xs: seq<T>, f: T -> seq<U>, r: U) {
    exists j | 0 <= j < |xs| :: r in f(xs[j])
  }

  /** An element of a non-empty list gives `r` exactly when one before the last does, or the last does. */
  lemma InSomeStep<T, U>(xs: seq<T>, f: T -> seq<U>, r: U)
    requires xs != []
    ensures InSome(xs, f, r) <==> InSome(xs[..|xs| - 1], f, r) || r in f(xs[|xs| - 1])
  {
    var init := xs[..|xs| - 1];
    if InSome(init, f, r) {
      var j :| 0 <= j < |init| && r in f(init[j]);
      assert init[j] == xs[j];
    }
    if InSome(xs, f, r) {
      var j :| 0 <= j < |xs| && r in f(xs[j]);
      if j < |init| {
        assert init[j] == xs[j];
      }
    }
  }

  /** The records `extract_business_info` gives one message of a channel. */
  function MessageRecords(channel: string): ExportedMessage -> seq<BusinessRecord> {
    (m: ExportedMessage) => BusinessRecordsOf(m.text, channel, m.id)
  }

  /** A record is queued for a file's messages exactly when it is one of some message's records. */
  lemma {:induction false} BusinessOfMessagesMembers(channel: string, msgs: seq<ExportedMessage>, r: BusinessRecord)
    ensures r in BusinessOfMessages(channel, msgs) <==> InSome(msgs, MessageRecords(channel), r)
  {
    if msgs != [] {
      var init, m := msgs[..|msgs| - 1], msgs[|msgs| - 1];
      BusinessOfMessagesMembers(channel, init, r);
      InSomeStep(msgs, MessageRecords(channel), r);
      assert BusinessOfMessages(channel, msgs) == BusinessOfMessages(channel, init) + BusinessRecordsOf(m.text, channel, m.id);
    }
  }

  /**
   * File `f` queues business record `r`: one of the records of a message it processed in
   * full, or of the message that raised after its records were queued.
   */
  ghost predicate QueuesRecord(f: ExportFile, r: BusinessRecord) {
    && f.Export?
    && (InSome(f.messages, MessageRecords(f.channelInfo.username), r)
        || r in FailingBusiness(f.channelInfo.username, f.ending))
  }

  /**
   * The collected business records are exactly the records the files queue, including
   * those of a file that raised part-way: nothing queued is lost and nothing else appears.
   */
  lemma {:induction false} CollectedBusiness(files: seq<ExportFile>, r: BusinessRecord)
    ensures r in CollectedOf(files).business <==> exists k | 0 <= k < |files| :: QueuesRecord(files[k], r)
  {
    CollectedBusinessOfFiles(files, r);
    forall k | 0 <= k < |files| ensures QueuesRecord(files[k], r) <==> r in FileBusiness(files[k]) {
      if files[k].Export? {
        BusinessOfMessagesMembers(files[k].channelInfo.username, files[k].messages, r);
      }
    }
  }

  /** The business records one file queues, in order. */
  function FileBusiness(f: ExportFile): seq<BusinessRecord> {
    match f
    case Export(info, msgs, ending) =>
      BusinessOfMessages(info.username, msgs) + FailingBusiness(info.username, ending)
    case _ => []
  }

  /** The collected business records are those of some file. */
  lemma {:induction false} CollectedBusinessOfFiles(files: seq<ExportFile>, r: BusinessRecord)
    ensures r in CollectedOf(files).business <==> InSome(files, FileBusiness, r)
  {
    if files != [] {
      var init := files[..|files| - 1];
      CollectedBusinessOfFiles(init, r);
      InSomeStep(files, FileBusiness, r);
      assert CollectedOf(files).business == CollectedOf(init).business + FileBusiness(files[|files| - 1]);
    }
  }
  /** The message rows one file queues, in order. */
  function FileRows(f: ExportFile): seq<MessageRow> {
    match f
    case Export(info, msgs, ending) => MessageRowsOf(info.username, msgs) + FailingRows(info.username, ending)
    case _ => []
  }

  /**
   * File `f` queues message row `row`: the row is tagged with the file's channel and holds
   * one of the messages it processed in full, or the message that raised after line 173.
   */
  ghost predicate QueuesRow(f: ExportFile, row: MessageRow) {
    && f.Export?
    && row.channelUsername == f.channelInfo.username
    && (row.message in f.messages
        || (f.ending.RaisedAt? && f.ending.reached != BeforeRow && row.message == f.ending.failing))
  }

  lemma FileRowsMembers(f: ExportFile, row: MessageRow)
    ensures row in FileRows(f) <==> QueuesRow(f, row)
  {
    if f.Export? {
      var u, msgs := f.channelInfo.username, f.messages;
      MessageRowsSpec(u, msgs);
      if row in MessageRowsOf(u, msgs) {
        var j :| 0 <= j < |msgs| && MessageRowsOf(u, msgs)[j] == row;
      }
      if row.channelUsername == u && row.message in msgs {
        var j :| 0 <= j < |msgs| && msgs[j] == row.message;
        assert MessageRowsOf(u, msgs)[j] == row;
      }
    }
  }

  /** The collected message rows are those of some file. */
  lemma {:induction false} CollectedRowsOfFiles(files: seq<ExportFile>, row: MessageRow)
    ensures row in CollectedOf(files).messages <==> InSome(files, FileRows, row)
  {
    if files != [] {
      var init := files[..|files| - 1];
      CollectedRowsOfFiles(init, row);
      InSomeStep(files, FileRows, row);
      assert CollectedOf(files).messages == CollectedOf(init).messages + FileRows(files[|files| - 1]);
    }
  }

  /**
   * The collected message rows are exactly the rows the files queue, each tagged with its
   * file's channel, including the failing message of a file that raised after queuing it.
   */
  lemma CollectedMessages(files: seq<ExportFile>, row: MessageRow)
    ensures row in CollectedOf(files).messages <==> exists k | 0 <= k < |files| :: QueuesRow(files[k], row)
  {
    CollectedRowsOfFiles(files, row);
    forall k | 0 <= k < |files| ensures QueuesRow(files[k], row) <==> row in FileRows(files[k]) {
      FileRowsMembers(files[k], row);
    }
  }
}
