/**
 * The sample-data generator of the scraper demo: each message is a fixed function of
 * its id, each channel file numbers its messages from 1, and each day back in time
 * gets five more messages per channel than the day before it.
 *
 * Dates are whole minutes; `hash(channel)`, the clock and the ISO formatting of dates
 * are parameters.
 */
module ScraperDemo {
  import opened Wrappers
  import opened Text
  import Loader

  // ---------------------------------------------------------------------------
  // generate_sample_message
  // ---------------------------------------------------------------------------

  /**
   * The ten sample texts, by position: `SampleText(i)` is entry `i` of the list, for
   * `0 <= i < 10`. A message picks entry `id % 10`.
   */
  function SampleText(i: int): string
    requires 0 <= i < 10
  {
    if i == 0 then "\U{1F3E5} New medical equipment available at our clinic! Contact us for more info."
    else if i == 1 then "\U{1F4DE} Call us at +251-11-123-4567 for appointments"
    else if i == 2 then "\U{1F48A} Pharmacy services available 24/7. Quality medicines guaranteed."
    else if i == 3 then "\U{1FA7A} Free health checkup this weekend. Book your slot now!"
    else if i == 4 then "\U{1F691} Emergency services available. We care for your health."
    else if i == 5 then "\U{1F489} Vaccination campaign starting next week. Stay protected!"
    else if i == 6 then "\U{1F3E5} Our medical center offers comprehensive healthcare solutions."
    else if i == 7 then "\U{1F4CB} Health insurance accepted. Affordable healthcare for all."
    else if i == 8 then "\U{1F468}\U{200D}\U{2695}\U{FE0F} Experienced doctors and modern facilities at your service."
    else "\U{1F52C} Laboratory services with accurate and fast results."
  }

  /** A position in the list of sample texts. */
  type TextIndex = i: int | 0 <= i < 10

  /**
   * A generated message, with its date in minutes. Its `text` is held as its position
   * in the list of sample texts; `Text()` is the string itself.
   */
  datatype SampleMessage = SampleMessage(
    id: int,
    date: int,
    textIndex: TextIndex,
    senderId: int,
    senderUsername: string,
    senderFirstName: string,
    senderLastName: string,
    views: int,
    forwards: int,
    replies: int,
    isReply: bool,
    replyToMsgId: Option<int>,
    hasMedia: bool,
    mediaType: Option<string>,
    mediaFilePath: Option<string>,
    postAuthor: string)
  {
    function Text(): string {
      SampleText(textIndex)
    }
  }

  /** The media path a sample message points at. */
  function SamplePath(channel: string, id: int): string {
    "data/raw/media/" + channel + "_" + IntToString(id) + ".jpg"
  }

  /**
   * `generate_sample_message`. Python's `%` by a positive number is never negative, as
   * Dafny's is, so the bounds hold for every integer id, negative ones included.
   */
  function GenerateSampleMessage(id: int, channel: string, date: int): (m: SampleMessage)
    ensures m.id == id && m.date == date && m.postAuthor == channel
    ensures m.textIndex == id % 10
    ensures 1000000 <= m.senderId < 1000100
    ensures 0 <= m.views < 1000 && 0 <= m.forwards < 50 && 0 <= m.replies < 20
    ensures m.isReply <==> id % 5 == 0
    ensures m.isReply ==> m.replyToMsgId == Some(id - 1)
    ensures !m.isReply ==> m.replyToMsgId.None?
    ensures m.hasMedia <==> id % 3 == 0
    ensures m.mediaType.Some? <==> m.hasMedia
    ensures m.mediaFilePath.Some? <==> m.hasMedia
    ensures m.hasMedia ==> m.mediaType == Some("photo") && m.mediaFilePath == Some(SamplePath(channel, id))
  {
    SampleMessage(
      id,
      date,
      id % 10,
      1000000 + id % 100,
      "user_" + IntToString(id % 50),
      "User" + IntToString(id % 50),
      "Demo",
      (id * 15) % 1000,
      (id * 3) % 50,
      (id * 2) % 20,
      id % 5 == 0,
      if id % 5 == 0 then Some(id - 1) else None,
      id % 3 == 0,
      if id % 3 == 0 then Some("photo") else None,
      if id % 3 == 0 then Some(SamplePath(channel, id)) else None,
      channel)
  }

  /** The sample texts repeat with period ten. */
  lemma TextsRepeat(id: int, channel: string, date1: int, date2: int)
    ensures GenerateSampleMessage(id, channel, date1).Text() == GenerateSampleMessage(id + 10, channel, date2).Text()
  {
    assert (id + 10) % 10 == id % 10;
  }

  // ---------------------------------------------------------------------------
  // generate_sample_channel_data
  // ---------------------------------------------------------------------------

  const MinutesPerDay: int := 24 * 60

  /** The generated `channel_info`; `hash(channel)` is the parameter `h`. */
  datatype SampleChannelInfo = SampleChannelInfo(
    id: int,
    username: string,
    title: string,
    about: string,
    participantsCount: int,
    isBroadcast: bool,
    isMegagroup: bool,
    createdDate: int)

  datatype SampleChannelData = SampleChannelData(info: SampleChannelInfo, messages: seq<SampleMessage>)

  /** The display name derived from a channel: underscores to spaces, then title case. */
  function DisplayName(channel: string): string {
    Title(ReplaceChar(channel, '_', ' '))
  }

  function SampleChannelInfoOf(channel: string, date: int, h: int): (info: SampleChannelInfo)
    ensures 0 <= info.id < 1000000
    ensures 1000 <= info.participantsCount < 11000
    ensures info.username == channel
    ensures info.createdDate == date - 365 * MinutesPerDay
    ensures info.title == DisplayName(channel) + " Medical Center"
  {
    SampleChannelInfo(
      h % 1000000,
      channel,
      DisplayName(channel) + " Medical Center",
      "Official channel for " + DisplayName(channel) + " - Your trusted healthcare provider",
      h % 10000 + 1000,
      true,
      false,
      date - 365 * MinutesPerDay)
  }

  /** The date of the `i`-th generated message: `i % 24` hours and `(i * 15) % 60` minutes after the day's date. */
  function MessageDate(date: int, i: int): int {
    date + (i % 24) * 60 + (i * 15) % 60
  }

  /** `[g(0), ..., g(n - 1)]`, built by appending one element at a time. */
  function Tabulate<T>(g: nat -> T, n: nat): (r: seq<T>)
    ensures |r| == n
  {
    if n == 0 then [] else Tabulate(g, n - 1) + [g(n - 1)]
  }

  /** Element `k` of a tabulation is `g(k)`: later appends keep it. */
  lemma {:induction false} TabulateAt<T>(g: nat -> T, n: nat, k: nat)
    requires k < n
    ensures Tabulate(g, n)[k] == g(k)
  {
    if k < n - 1 {
      TabulateAt(g, n - 1, k);
      AppendKeeps(Tabulate(g, n - 1), g(n - 1), k);
    }
  }

  /** The message generated at position `i` of a channel file: id `i + 1`, dated by `MessageDate`. */
  function SampleMessageFor(channel: string, date: int): nat -> SampleMessage {
    i => GenerateSampleMessage(i + 1, channel, MessageDate(date, i))
  }

  /** The first `n` messages of a channel file. */
  function SampleMessagesOf(channel: string, date: int, n: nat): (r: seq<SampleMessage>)
    ensures |r| == n
  {
    Tabulate(SampleMessageFor(channel, date), n)
  }

  /** One more message appends the one generated for the next id. */
  lemma SampleStep(channel: string, date: int, i: nat)
    ensures SampleMessagesOf(channel, date, i + 1)
      == SampleMessagesOf(channel, date, i) + [GenerateSampleMessage(i + 1, channel, MessageDate(date, i))]
  {
  }

  /** `generate_sample_channel_data`: the channel info, then `num_messages` messages, appended one by one. */
  method GenerateSampleChannelData(channel: string, date: int, numMessages: int, h: int)
    returns (data: SampleChannelData)
    ensures data.info == SampleChannelInfoOf(channel, date, h)
    ensures data.messages == SampleMessagesOf(channel, date, if numMessages < 0 then 0 else numMessages)
  {
    var messages: seq<SampleMessage> := [];
    var n := if numMessages < 0 then 0 else numMessages;
    for i := 0 to n
      invariant messages == SampleMessagesOf(channel, date, i)
    {
      var msgDate := MessageDate(date, i);
      var message := GenerateSampleMessage(i + 1, channel, msgDate);
      SampleStep(channel, date, i);
      messages := messages + [message];
    }
    data := SampleChannelData(SampleChannelInfoOf(channel, date, h), messages);
  }

  /**
   * A channel file holds exactly `n` messages, the `k`-th with id `k + 1`, so the ids
   * run from 1 to `n` in increasing order; each message is the generated one for its id.
   */
  lemma SampleMessagesSpec(channel: string, date: int, n: nat)
    ensures |SampleMessagesOf(channel, date, n)| == n
    ensures forall k | 0 <= k < n :: SampleMessagesOf(channel, date, n)[k].id == k + 1
    ensures forall k | 0 <= k < n ::
      SampleMessagesOf(channel, date, n)[k] == GenerateSampleMessage(k + 1, channel, MessageDate(date, k))
  {
    SampleMessagesAre(channel, date, n);
  }

  /** Each message of a channel file is the generated one for its position. */
  lemma SampleMessagesAre(channel: string, date: int, n: nat)
    ensures forall k | 0 <= k < n ::
      SampleMessagesOf(channel, date, n)[k] == GenerateSampleMessage(k + 1, channel, MessageDate(date, k))
  {
    forall k | 0 <= k < n
      ensures SampleMessagesOf(channel, date, n)[k] == GenerateSampleMessage(k + 1, channel, MessageDate(date, k))
    {
      SampleMessageAt(channel, date, n, k);
    }
  }

  /** The `k`-th message of a file of `n` is the one appended at step `k`, and later appends keep it. */
  lemma SampleMessageAt(channel: string, date: int, n: nat, k: nat)
    requires k < n
    ensures SampleMessagesOf(channel, date, n)[k] == GenerateSampleMessage(k + 1, channel, MessageDate(date, k))
  {
    TabulateAt(SampleMessageFor(channel, date), n, k);
  }

  /** Every message of a file is dated within the first day after the file's date. */
  lemma MessageDateBounds(date: int, i: int)
    ensures date <= MessageDate(date, i) < date + MinutesPerDay
  {
  }

  // ---------------------------------------------------------------------------
  // create_sample_data
  // ---------------------------------------------------------------------------

  /** How many messages a channel's file holds on day offset `d`. */
  function MessagesForDay(d: nat): nat {
    20 + d * 5
  }

  /** One generated file: `data/raw/<date of day d>/<channel>.json`. */
  datatype SampleFile = SampleFile(dayOffset: nat, channel: string, data: SampleChannelData)

  /** Messages in all files of the first `days` days, for `c` channels. */
  function MessagesUpTo(days: nat, c: nat): nat {
    if days == 0 then 0 else MessagesUpTo(days - 1, c) + c * MessagesForDay(days - 1)
  }

  /** The running total in closed form: each channel gets `20 d + 5 d (d - 1) / 2` messages over `d` days. */
  lemma {:induction false} MessagesUpToClosedForm(days: nat, c: nat)
    ensures 2 * MessagesUpTo(days, c) == c * (40 * days + 5 * days * (days - 1))
  {
    if days > 0 {
      var e := days - 1;
      MessagesUpToClosedForm(e, c);
      assert 2 * MessagesUpTo(days, c) == 2 * MessagesUpTo(e, c) + 2 * c * (20 + e * 5);
      ClosedFormStep(e, c);
    }
  }

  /** The arithmetic of one more day in the closed form. */
  lemma ClosedFormStep(e: nat, c: nat)
    ensures c * (40 * e + 5 * e * (e - 1)) + 2 * c * (20 + e * 5) == c * (40 * (e + 1) + 5 * (e + 1) * e)
  {
    assert 40 * e + 5 * e * (e - 1) + 2 * (20 + e * 5) == 40 * (e + 1) + 5 * (e + 1) * e;
    assert c * (40 * e + 5 * e * (e - 1)) + c * (2 * (20 + e * 5)) == c * (40 * e + 5 * e * (e - 1) + 2 * (20 + e * 5));
  }

  /** The file generated for `channel` on day offset `d`, dated `date`. */
  function DayFile(channel: string, d: nat, date: int, hash: string -> int): SampleFile {
    SampleFile(d, channel,
      SampleChannelData(SampleChannelInfoOf(channel, date, hash(channel)), SampleMessagesOf(channel, date, MessagesForDay(d))))
  }

  /** The files of day offset `d`, dated `date`: one per channel, in order. */
  function DayFiles(channels: seq<string>, d: nat, date: int, hash: string -> int): (r: seq<SampleFile>)
    ensures |r| == |channels|
  {
    seq(|channels|, j requires 0 <= j < |channels| => DayFile(channels[j], d, date, hash))
  }

  /** The date of day offset `d`, counted back from `now`. */
  function DayDate(now: int, d: nat): int {
    now - d * MinutesPerDay
  }

  /** A file of day `d` for `channel`, holding that day's message count. */
  ghost predicate FileShaped(f: SampleFile, d: nat, channel: string) {
    && f.dayOffset == d
    && f.channel == channel
    && f.data.info.username == channel
    && |f.data.messages| == MessagesForDay(d)
  }

  /** The files of one day, one per channel in the given order, each with that day's message count. */
  ghost predicate DayShaped(day: seq<SampleFile>, d: nat, channels: seq<string>) {
    && |day| == |channels|
    && forall j | 0 <= j < |day| :: FileShaped(day[j], d, channels[j])
  }

  /** The generated files of a day are in shape. */
  lemma DayFilesShaped(channels: seq<string>, d: nat, date: int, hash: string -> int)
    ensures DayShaped(DayFiles(channels, d, date, hash), d, channels)
  {
    var day := DayFiles(channels, d, date, hash);
    forall j | 0 <= j < |day| ensures FileShaped(day[j], d, channels[j]) {
      var info := SampleChannelInfoOf(channels[j], date, hash(channels[j]));
      assert info.username == channels[j];
      assert |SampleMessagesOf(channels[j], date, MessagesForDay(d))| == MessagesForDay(d);
    }
  }

  /** The inner loop of `create_sample_data`: day `d`'s file for each channel, counted. */
  method CreateDayFiles(channels: seq<string>, d: nat, currentDate: int, hash: string -> int,
    totalFiles0: nat, totalMessages0: nat)
    returns (day: seq<SampleFile>, totalFiles: nat, totalMessages: nat)
    ensures day == DayFiles(channels, d, currentDate, hash)
    ensures totalFiles == totalFiles0 + |channels|
    ensures totalMessages == totalMessages0 + |channels| * MessagesForDay(d)
  {
    day, totalFiles, totalMessages := [], totalFiles0, totalMessages0;
    for j := 0 to |channels|
      invariant |day| == j
      invariant totalFiles == totalFiles0 + j
      invariant totalMessages == totalMessages0 + j * MessagesForDay(d)
      invariant day == DayFiles(channels[..j], d, currentDate, hash)
    {
      var file, count := GenerateDayFile(channels[j], d, currentDate, hash);
      DayFilesAppend(channels, j, d, currentDate, hash);
      day := day + [file];
      totalFiles := totalFiles + 1;
      totalMessages := totalMessages + count;
      MulStep(j, MessagesForDay(d));
    }
    assert channels[..|channels|] == channels;
  }

  /** The files for one more channel are the files so far and that channel's file. */
  lemma DayFilesAppend(channels: seq<string>, j: nat, d: nat, date: int, hash: string -> int)
    requires j < |channels|
    ensures DayFiles(channels[..j + 1], d, date, hash) == DayFiles(channels[..j], d, date, hash) + [DayFile(channels[j], d, date, hash)]
  {
    var a, b := DayFiles(channels[..j + 1], d, date, hash), DayFiles(channels[..j], d, date, hash);
    forall q | 0 <= q < j + 1 ensures a[q] == (b + [DayFile(channels[j], d, date, hash)])[q] {
      if q < j {
        assert channels[..j + 1][q] == channels[..j][q];
      }
    }
  }

  /** One step of the inner loop: generate the channel's file and read off its message count. */
  method GenerateDayFile(channel: string, d: nat, date: int, hash: string -> int) returns (file: SampleFile, count: nat)
    ensures file == DayFile(channel, d, date, hash)
    ensures count == |file.data.messages| == MessagesForDay(d)
  {
    var data := GenerateSampleChannelData(channel, date, 20 + d * 5, hash(channel));
    file := SampleFile(d, channel, data);
    count := |data.messages|;
  }

  lemma MulStep(j: nat, m: nat)
    ensures (j + 1) * m == j * m + m
  {
  }

  /**
   * `create_sample_data`: for each day offset, newest first, and each channel, generate
   * that channel's file for that day; count the files and the messages. The files are
   * returned grouped by day. `now` is the clock reading and `hash` stands for Python's
   * `hash` of a channel name.
   */
  method CreateSampleData(channels: seq<string>, daysBack: int, now: int, hash: string -> int)
    returns (files: seq<seq<SampleFile>>, totalFiles: nat, totalMessages: nat)
    ensures var days := if daysBack < 0 then 0 else daysBack;
      && files == SampleFiles(channels, days, now, hash)
      && totalFiles == days * |channels|
      && totalMessages == MessagesUpTo(days, |channels|)
  {
    files, totalFiles, totalMessages := [], 0, 0;
    var days := if daysBack < 0 then 0 else daysBack;
    for d := 0 to days
      invariant files == SampleFiles(channels, d, now, hash)
      invariant totalFiles == d * |channels|
      invariant totalMessages == MessagesUpTo(d, |channels|)
    {
      var currentDate := DayDate(now, d);
      var day;
      day, totalFiles, totalMessages := CreateDayFiles(channels, d, currentDate, hash, totalFiles, totalMessages);
      MulStep(d, |channels|);
      SampleFilesAppend(channels, d, now, hash);
      files := files + [day];
    }
  }

  /** The files of the first `days` day offsets, grouped by day. */
  function SampleFiles(channels: seq<string>, days: nat, now: int, hash: string -> int): (r: seq<seq<SampleFile>>)
    ensures |r| == days
  {
    seq(days, d requires 0 <= d < days => DayFiles(channels, d, DayDate(now, d), hash))
  }

  /** The files of one more day are the files so far and that day's files. */
  lemma SampleFilesAppend(channels: seq<string>, days: nat, now: int, hash: string -> int)
    ensures SampleFiles(channels, days + 1, now, hash)
      == SampleFiles(channels, days, now, hash) + [DayFiles(channels, days, DayDate(now, days), hash)]
  {
  }

  /** Every day of the generated data has one file per channel, each with that day's message count. */
  lemma SampleFilesShaped(channels: seq<string>, days: nat, now: int, hash: string -> int)
    ensures forall d | 0 <= d < days :: DayShaped(SampleFiles(channels, days, now, hash)[d], d, channels)
  {
    forall d | 0 <= d < days ensures DayShaped(SampleFiles(channels, days, now, hash)[d], d, channels) {
      DayFilesShaped(channels, d, DayDate(now, d), hash);
    }
  }

  // ---------------------------------------------------------------------------
  // What the loader makes of a generated file
  // ---------------------------------------------------------------------------

  /** A generated message after `json.dump` and `json.load`: the fields the loader reads. */
  function Exported(m: SampleMessage, iso: int -> string): Loader.ExportedMessage {
    Loader.ExportedMessage(m.id, iso(m.date), m.Text(), m.hasMedia, m.mediaType, m.mediaFilePath)
  }

  function ExportedAll(msgs: seq<SampleMessage>, iso: int -> string): (r: seq<Loader.ExportedMessage>)
    ensures |r| == |msgs|
    ensures forall k | 0 <= k < |msgs| :: r[k] == Exported(msgs[k], iso)
  {
    seq(|msgs|, k requires 0 <= k < |msgs| => Exported(msgs[k], iso))
  }

  /** A generated message has a media file in the loader's sense exactly when its id is a multiple of 3. */
  lemma SampleHasMediaFile(id: int, channel: string, date: int, iso: int -> string)
    ensures Loader.HasMediaFile(Exported(GenerateSampleMessage(id, channel, date), iso)) <==> id % 3 == 0
  {
    var m := GenerateSampleMessage(id, channel, date);
    if id % 3 == 0 {
      assert m.mediaFilePath == Some(SamplePath(channel, id));
      assert |SamplePath(channel, id)| > 0;
    }
  }

  /**
   * Loading a generated file of `n` messages yields a media record for the `k`-th
   * message exactly when its id `k + 1` is a multiple of 3, always with the fixed file size.
   */
  lemma LoadedSampleMedia(channel: string, date: int, n: nat, iso: int -> string, k: nat)
    requires k < n
    ensures var msgs := ExportedAll(SampleMessagesOf(channel, date, n), iso);
      && (Loader.HasMediaFile(msgs[k]) <==> (k + 1) % 3 == 0)
      && ((k + 1) % 3 == 0 ==>
            Loader.MediaRecordFor(channel, msgs[k]) in Loader.MediaOfMessages(channel, msgs)
            && Loader.MediaRecordFor(channel, msgs[k]).filePath == SamplePath(channel, k + 1)
            && Loader.MediaRecordFor(channel, msgs[k]).fileSize == 1024)
  {
    var msgs := ExportedAll(SampleMessagesOf(channel, date, n), iso);
    SampleMessagesAre(channel, date, n);
    SampleHasMediaFile(k + 1, channel, MessageDate(date, k), iso);
    Loader.MediaRule(channel, msgs);
  }
}
