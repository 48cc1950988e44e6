/**
 * The decisions the Telethon-based channel scraper makes for each message: which
 * media kinds it downloads, how it classifies a message's media, which extension and
 * file name a download gets, how a message becomes a `MessageData` record, and where
 * the newest-first iteration over a channel's history stops.
 *
 * The Telethon client is not modelled: a message is the value the iterator yields,
 * and whether a download succeeds is a parameter.
 */
module TelegramScraper {
  import opened Wrappers
  import opened Text

  // ---------------------------------------------------------------------------
  // Configuration
  // ---------------------------------------------------------------------------

  const DefaultMediaTypes: seq<string> := ["photo", "video", "document"]

  /** The parts of `ScrapingConfig` the scraping loop reads. */
  datatype ScrapingConfig = ScrapingConfig(
    maxMessages: int,
    daysBack: int,
    downloadMedia: bool,
    mediaTypes: seq<string>,
    mediaDir: string)

  /** `ScrapingConfig(...)` followed by `__post_init__`: a missing `media_types` becomes the three default kinds. */
  function MakeConfig(maxMessages: int, daysBack: int, downloadMedia: bool,
    mediaTypes: Option<seq<string>>, mediaDir: string): (c: ScrapingConfig)
    ensures mediaTypes.None? ==> c.mediaTypes == DefaultMediaTypes
    ensures mediaTypes.Some? ==> c.mediaTypes == mediaTypes.value
    ensures c.maxMessages == maxMessages && c.daysBack == daysBack
    ensures c.downloadMedia == downloadMedia && c.mediaDir == mediaDir
  {
    ScrapingConfig(maxMessages, daysBack, downloadMedia,
      match mediaTypes case None => DefaultMediaTypes case Some(ts) => ts, mediaDir)
  }

  // ---------------------------------------------------------------------------
  // Media classification
  // ---------------------------------------------------------------------------

  /**
   * A message's `media` attribute: absent, a photo, a video, a document (whose
   * `mime_type` attribute may be missing), or any other media class.
   */
  datatype Media = NoMedia | Photo | Video | Document(mimeType: Option<string>) | OtherMedia

  /** `media_type` in `extract_message_data`. */
  function MediaTypeOf(media: Media): (r: Option<string>)
    ensures r.None? <==> media.NoMedia?
    ensures r == Some("photo") <==> media.Photo?
    ensures r == Some("video") <==> media.Video?
    ensures r == Some("document") <==> media.Document?
    ensures r == Some("other") <==> media.OtherMedia?
  {
    match media
    case NoMedia => None
    case Photo => Some("photo")
    case Video => Some("video")
    case Document(_) => Some("document")
    case OtherMedia => Some("other")
  }

  /** `should_download_media`. */
  function ShouldDownloadMedia(config: ScrapingConfig, media: Media): bool {
    match media
    case NoMedia => false
    case Photo => "photo" in config.mediaTypes
    case Video => "video" in config.mediaTypes
    case Document(_) => "document" in config.mediaTypes
    case OtherMedia => false
  }

  /**
   * A message's media is downloaded exactly when it is present, is a photo, video or
   * document, and the name the record gives its kind is one of the configured kinds.
   */
  lemma DownloadRule(config: ScrapingConfig, media: Media)
    ensures ShouldDownloadMedia(config, media) <==>
      && MediaTypeOf(media).Some?
      && MediaTypeOf(media).value in DefaultMediaTypes
      && MediaTypeOf(media).value in config.mediaTypes
  {
  }

  /** With the default configuration every photo, video and document is downloaded, and nothing else. */
  lemma DefaultDownloadsAllKnownKinds(maxMessages: int, daysBack: int, downloadMedia: bool, mediaDir: string, media: Media)
    ensures ShouldDownloadMedia(MakeConfig(maxMessages, daysBack, downloadMedia, None, mediaDir), media)
      <==> media.Photo? || media.Video? || media.Document?
  {
  }

  /** The extension chosen in `download_media_file`. */
  function FileExtension(media: Media): (ext: string)
    ensures |ext| >= 4 && ext[0] == '.'
  {
    match media
    case Photo => ".jpg"
    case Video => ".mp4"
    case Document(mime) =>
      if mime.None? then ".unknown"
      else if Contains(mime.value, "image") then ".jpg"
      else if Contains(mime.value, "video") then ".mp4"
      else if Contains(mime.value, "audio") then ".mp3"
      else ".file"
    case _ => ".unknown"
  }

  /**
   * Photos are saved as `.jpg` and videos as `.mp4`; a document gets `.unknown` exactly
   * when it has no mime type, and otherwise the first of image, video, audio its mime
   * type mentions decides, with `.file` for none of them; any other media is `.unknown`.
   */
  lemma ExtensionRule(media: Media)
    ensures media.Photo? ==> FileExtension(media) == ".jpg"
    ensures media.Video? ==> FileExtension(media) == ".mp4"
    ensures media.OtherMedia? ==> FileExtension(media) == ".unknown"
    ensures media.Document? ==>
      (FileExtension(media) == ".unknown" <==> media.mimeType.None?)
    ensures media.Document? && media.mimeType.Some? ==>
      (FileExtension(media) == ".jpg" <==> Contains(media.mimeType.value, "image"))
    ensures media.Document? && media.mimeType.Some? ==>
      (FileExtension(media) == ".mp4" <==>
        !Contains(media.mimeType.value, "image") && Contains(media.mimeType.value, "video"))
    ensures media.Document? && media.mimeType.Some? ==>
      (FileExtension(media) == ".mp3" <==>
        !Contains(media.mimeType.value, "image") && !Contains(media.mimeType.value, "video")
        && Contains(media.mimeType.value, "audio"))
    ensures media.Document? && media.mimeType.Some? ==>
      (FileExtension(media) == ".file" <==>
        !Contains(media.mimeType.value, "image") && !Contains(media.mimeType.value, "video")
        && !Contains(media.mimeType.value, "audio"))
  {
  }

  /** `f"{channel}_{message.id}_{timestamp}{ext}"`, the timestamp already cut to whole seconds. */
  function MediaFileName(channel: string, id: int, timestamp: int, media: Media): string {
    channel + ("_" + (IntToString(id) + ("_" + (IntToString(timestamp) + FileExtension(media)))))
  }

  /** The path `download_media_file` returns: `<media_dir>/<channel>/<file name>`, or `None` without media. */
  function DownloadPath(config: ScrapingConfig, channel: string, id: int, timestamp: int, media: Media): (r: Option<string>)
    ensures r.None? <==> media.NoMedia?
  {
    if media.NoMedia? then None
    else Some(config.mediaDir + "/" + channel + "/" + MediaFileName(channel, id, timestamp, media))
  }

  /**
   * Two media files of one channel get the same name only when message id and timestamp
   * agree and the extensions do too: the id and the timestamp can be read back from the name.
   */
  lemma FileNameInjective(channel: string, id1: int, ts1: int, m1: Media, id2: int, ts2: int, m2: Media)
    requires MediaFileName(channel, id1, ts1, m1) == MediaFileName(channel, id2, ts2, m2)
    ensures id1 == id2 && ts1 == ts2 && FileExtension(m1) == FileExtension(m2)
  {
    NamePartsInjective(channel, id1, ts1, FileExtension(m1), id2, ts2, FileExtension(m2));
  }

  lemma NamePartsInjective(channel: string, id1: int, ts1: int, e1: string, id2: int, ts2: int, e2: string)
    requires e1 != [] && e1[0] == '.' && e2 != [] && e2[0] == '.'
    requires channel + ("_" + (IntToString(id1) + ("_" + (IntToString(ts1) + e1))))
      == channel + ("_" + (IntToString(id2) + ("_" + (IntToString(ts2) + e2))))
    ensures id1 == id2 && ts1 == ts2 && e1 == e2
  {
    var tail1, tail2 := IntToString(ts1) + e1, IntToString(ts2) + e2;
    var rest1, rest2 := IntToString(id1) + ("_" + tail1), IntToString(id2) + ("_" + tail2);
    DropPrefix(channel, "_" + rest1, "_" + rest2);
    DropPrefix("_", rest1, rest2);
    DecimalPrefix(id1, "_" + tail1, id2, "_" + tail2);
    DropPrefix("_", tail1, tail2);
    DecimalPrefix(ts1, e1, ts2, e2);
  }

  lemma DropPrefix(p: string, x: string, y: string)
    requires p + x == p + y
    ensures x == y
  {
    assert x == (p + x)[|p|..];
  }

  /** Characters `str(int)` produces: digits and a leading minus sign. */
  predicate IsDecimalChar(c: char) {
    IsDigit(c) || c == '-'
  }

  lemma IntToStringChars(n: int)
    ensures forall k | 0 <= k < |IntToString(n)| :: IsDecimalChar(IntToString(n)[k])
  {
    if n < 0 {
      var r := IntToString(n);
      forall k | 0 <= k < |r| ensures IsDecimalChar(r[k]) {
        if k > 0 {
          assert r[k] == NatToString(-n)[k - 1];
        }
      }
    }
  }

  /** A numeral that is followed by a non-numeral character in `a + x == b + y` is not longer than `b`. */
  lemma NumeralNotLonger(a: string, x: string, b: string, y: string)
    requires forall k | 0 <= k < |a| :: IsDecimalChar(a[k])
    requires y != [] && !IsDecimalChar(y[0])
    requires a + x == b + y
    ensures |a| <= |b|
  {
    assert !IsDecimalChar((b + y)[|b|]);
    assert forall k | 0 <= k < |a| :: IsDecimalChar((a + x)[k]) by {
      forall k | 0 <= k < |a| ensures IsDecimalChar((a + x)[k]) {
        assert (a + x)[k] == a[k];
      }
    }
  }

  /**
   * A numeral followed by a string starting with neither a digit nor `'-'` can be
   * split off uniquely: equal concatenations mean equal numerals and equal rests.
   */
  lemma DecimalPrefix(i: int, x: string, j: int, y: string)
    requires x != [] && y != [] && !IsDecimalChar(x[0]) && !IsDecimalChar(y[0])
    requires IntToString(i) + x == IntToString(j) + y
    ensures i == j && x == y
  {
    var a, b := IntToString(i), IntToString(j);
    IntToStringChars(i);
    IntToStringChars(j);
    NumeralNotLonger(a, x, b, y);
    NumeralNotLonger(b, y, a, x);
    assert a == (a + x)[..|a|] == (b + y)[..|b|] == b;
    assert x == (a + x)[|a|..] == (b + y)[|b|..] == y;
    IntToStringInjective(i, j);
  }

  // ---------------------------------------------------------------------------
  // extract_message_data
  // ---------------------------------------------------------------------------

  /** `message.sender`, when present. */
  datatype Sender = Sender(id: int, username: Option<string>, firstName: Option<string>, lastName: Option<string>)

  /** `message.replies`: absent, or a replies object whose `replies` attribute may be missing. */
  datatype Replies = NoReplies | RepliesObject(count: Option<int>)

  /** A message as Telethon's iterator yields it; `date` is its time in whole seconds. */
  datatype TelethonMessage = TelethonMessage(
    id: int,
    date: int,
    text: Option<string>,
    sender: Option<Sender>,
    views: Option<int>,
    forwards: Option<int>,
    replies: Replies,
    replyToMsgId: Option<int>,
    media: Media)

  /** `MessageData`, without `raw_data`. */
  datatype MessageData = MessageData(
    id: int,
    date: int,
    text: string,
    senderId: Option<int>,
    senderUsername: Option<string>,
    senderFirstName: Option<string>,
    senderLastName: Option<string>,
    views: Option<int>,
    forwards: Option<int>,
    replies: Option<int>,
    isReply: bool,
    replyToMsgId: Option<int>,
    hasMedia: bool,
    mediaType: Option<string>,
    mediaFilePath: Option<string>)

  /** `bool(message.reply_to_msg_id)`: set, and not the id 0. */
  predicate IntTruthy(o: Option<int>) {
    o.Some? && o.value != 0
  }

  function ExtractMessageData(m: TelethonMessage, mediaFilePath: Option<string>): MessageData {
    MessageData(
      m.id,
      m.date,
      match m.text case None => "" case Some(t) => t,
      match m.sender case None => None case Some(s) => Some(s.id),
      match m.sender case None => None case Some(s) => s.username,
      match m.sender case None => None case Some(s) => s.firstName,
      match m.sender case None => None case Some(s) => s.lastName,
      m.views,
      m.forwards,
      match m.replies case NoReplies => None case RepliesObject(c) => Some(c.GetOr(0)),
      IntTruthy(m.replyToMsgId),
      m.replyToMsgId,
      !m.media.NoMedia?,
      MediaTypeOf(m.media),
      mediaFilePath)
  }

  /**
   * The record agrees with the message: `has_media` exactly when media is present and
   * `media_type` set exactly then; `is_reply` exactly when the replied-to id is truthy;
   * `replies` is the replies object's count (0 when it has none) and `None` without one;
   * sender fields all `None` without a sender; the text is empty exactly when the
   * message has no text or an empty one.
   */
  lemma MessageDataRule(m: TelethonMessage, path: Option<string>)
    ensures ExtractMessageData(m, path).hasMedia <==> !m.media.NoMedia?
    ensures ExtractMessageData(m, path).mediaType.Some? <==> ExtractMessageData(m, path).hasMedia
    ensures ExtractMessageData(m, path).isReply <==> m.replyToMsgId.Some? && m.replyToMsgId.value != 0
    ensures ExtractMessageData(m, path).replyToMsgId == m.replyToMsgId
    ensures m.replies.NoReplies? <==> ExtractMessageData(m, path).replies.None?
    ensures m.replies.RepliesObject? ==>
      ExtractMessageData(m, path).replies == Some(if m.replies.count.Some? then m.replies.count.value else 0)
    ensures m.sender.None? ==>
      && ExtractMessageData(m, path).senderId.None?
      && ExtractMessageData(m, path).senderUsername.None?
      && ExtractMessageData(m, path).senderFirstName.None?
      && ExtractMessageData(m, path).senderLastName.None?
    ensures ExtractMessageData(m, path).text == "" <==> m.text.None? || m.text.value == ""
    ensures ExtractMessageData(m, path).mediaFilePath == path
  {
  }

  // ---------------------------------------------------------------------------
  // scrape_channel_messages
  // ---------------------------------------------------------------------------

  /**
   * Whether the loop downloads a message's media: downloads are on, the message has
   * media and its kind is configured, and the attempt succeeds, which `downloads` says
   * (a failed attempt is logged and yields no path).
   */
  predicate Downloaded(config: ScrapingConfig, m: TelethonMessage, downloads: TelethonMessage -> bool) {
    config.downloadMedia && !m.media.NoMedia? && ShouldDownloadMedia(config, m.media) && downloads(m)
  }

  /** The media file path the loop stores for a message. */
  function StoredPath(config: ScrapingConfig, channel: string, m: TelethonMessage,
    downloads: TelethonMessage -> bool): (r: Option<string>)
    ensures r.Some? <==> Downloaded(config, m, downloads)
  {
    if Downloaded(config, m, downloads) then DownloadPath(config, channel, m.id, m.date, m.media)
    else None
  }

  /** The messages `iter_messages(limit=max_messages)` yields from the newest-first history. */
  function Limited(history: seq<TelethonMessage>, limit: int): (r: seq<TelethonMessage>)
    ensures |r| <= |history| && r == history[..|r|]
    ensures limit >= 0 ==> |r| == if limit < |history| then limit else |history|
  {
    if limit <= 0 then [] else if limit < |history| then history[..limit] else history
  }

  /** The longest prefix of messages none of which is older than `startDate`. */
  function RecentPrefix(msgs: seq<TelethonMessage>, startDate: int): (r: seq<TelethonMessage>)
    ensures |r| <= |msgs| && r == msgs[..|r|]
    ensures forall k | 0 <= k < |r| :: r[k].date >= startDate
    ensures |r| < |msgs| ==> msgs[|r|].date < startDate
  {
    if msgs == [] || msgs[0].date < startDate then []
    else [msgs[0]] + RecentPrefix(msgs[1..], startDate)
  }

  /** The records built for a run of messages, in order. */
  function RecordsOf(config: ScrapingConfig, channel: string, msgs: seq<TelethonMessage>,
    downloads: TelethonMessage -> bool): seq<MessageData>
  {
    if msgs == [] then []
    else
      var last := msgs[|msgs| - 1];
      RecordsOf(config, channel, msgs[..|msgs| - 1], downloads)
        + [ExtractMessageData(last, StoredPath(config, channel, last, downloads))]
  }

  /** How many of the messages had their media downloaded. */
  function DownloadCount(config: ScrapingConfig, channel: string, msgs: seq<TelethonMessage>,
    downloads: TelethonMessage -> bool): nat
  {
    if msgs == [] then 0
    else
      var last := msgs[|msgs| - 1];
      DownloadCount(config, channel, msgs[..|msgs| - 1], downloads)
        + (if Downloaded(config, last, downloads) then 1 else 0)
  }

  /** The messages a scrape keeps: the limited history, up to the first message older than the start date. */
  function ScrapedWindow(config: ScrapingConfig, history: seq<TelethonMessage>, startDate: int): seq<TelethonMessage> {
    RecentPrefix(Limited(history, config.maxMessages), startDate)
  }

  /**
   * The loop of `scrape_channel_messages`: stop at the first message older than the start
   * date, otherwise download its media when due, build its record, append it, and count.
   */
  method ScrapeChannelMessages(config: ScrapingConfig, channel: string, history: seq<TelethonMessage>,
    startDate: int, downloads: TelethonMessage -> bool)
    returns (messages: seq<MessageData>, messagesScraped: nat, mediaDownloaded: nat)
    ensures messages == RecordsOf(config, channel, ScrapedWindow(config, history, startDate), downloads)
    ensures messagesScraped == |ScrapedWindow(config, history, startDate)|
    ensures mediaDownloaded == DownloadCount(config, channel, ScrapedWindow(config, history, startDate), downloads)
  {
    var yielded := Limited(history, config.maxMessages);
    ghost var window := RecentPrefix(yielded, startDate);
    messages, messagesScraped, mediaDownloaded := [], 0, 0;
    var i := 0;
    while i < |yielded|
      invariant i <= |window|
      invariant window[..i] == yielded[..i]
      invariant messages == RecordsOf(config, channel, yielded[..i], downloads)
      invariant messagesScraped == i
      invariant mediaDownloaded == DownloadCount(config, channel, yielded[..i], downloads)
    {
      var m := yielded[i];
      if m.date < startDate {
        WindowEnd(yielded, startDate, i);
        break;
      }
      WindowStep(yielded, startDate, i);
      ScrapeStep(config, channel, yielded, i, downloads);
      var path: Option<string> := None;
      if config.downloadMedia && !m.media.NoMedia? && ShouldDownloadMedia(config, m.media) {
        path := if downloads(m) then DownloadPath(config, channel, m.id, m.date, m.media) else None;
        if Truthy(path) {
          mediaDownloaded := mediaDownloaded + 1;
        }
      }
      assert path == StoredPath(config, channel, m, downloads);
      messages := messages + [ExtractMessageData(m, path)];
      messagesScraped := messagesScraped + 1;
      i := i + 1;
    }
    if i == |yielded| {
      assert window == yielded[..i];
    }
  }

  /** A message no older than the start date extends the kept window by one. */
  lemma WindowStep(msgs: seq<TelethonMessage>, startDate: int, i: nat)
    requires i < |msgs| && msgs[i].date >= startDate
    requires i <= |RecentPrefix(msgs, startDate)| && RecentPrefix(msgs, startDate)[..i] == msgs[..i]
    ensures i + 1 <= |RecentPrefix(msgs, startDate)| && RecentPrefix(msgs, startDate)[..i + 1] == msgs[..i + 1]
  {
    var w := RecentPrefix(msgs, startDate);
    assert |w| < |msgs| ==> msgs[|w|].date < startDate;
  }

  /** The first older message closes the window exactly where the loop stops. */
  lemma WindowEnd(msgs: seq<TelethonMessage>, startDate: int, i: nat)
    requires i < |msgs| && msgs[i].date < startDate
    requires i <= |RecentPrefix(msgs, startDate)| && RecentPrefix(msgs, startDate)[..i] == msgs[..i]
    ensures RecentPrefix(msgs, startDate) == msgs[..i]
  {
    var w := RecentPrefix(msgs, startDate);
    assert forall k | 0 <= k < |w| :: msgs[k].date >= startDate;
  }

  /** The records and the count over one more message. */
  lemma ScrapeStep(config: ScrapingConfig, channel: string, msgs: seq<TelethonMessage>, i: nat,
    downloads: TelethonMessage -> bool)
    requires i < |msgs|
    ensures RecordsOf(config, channel, msgs[..i + 1], downloads)
      == RecordsOf(config, channel, msgs[..i], downloads)
        + [ExtractMessageData(msgs[i], StoredPath(config, channel, msgs[i], downloads))]
    ensures DownloadCount(config, channel, msgs[..i + 1], downloads)
      == DownloadCount(config, channel, msgs[..i], downloads) + (if Downloaded(config, msgs[i], downloads) then 1 else 0)
  {
    PrefixOfPrefix(msgs, i);
  }

  /**
   * What a scrape keeps is a prefix of the history of at most `max_messages` messages,
   * none older than the start date, and it ends early only at a message older than it.
   */
  lemma WindowRule(config: ScrapingConfig, history: seq<TelethonMessage>, startDate: int)
    ensures var w := ScrapedWindow(config, history, startDate);
      && w == history[..|w|]
      && (config.maxMessages >= 0 ==> |w| <= config.maxMessages)
      && (forall k | 0 <= k < |w| :: w[k].date >= startDate)
      && (|w| < |Limited(history, config.maxMessages)| ==> history[|w|].date < startDate)
  {
  }

  /** One record per kept message, in order, each built from that message. */
  lemma {:induction false} RecordsSpec(config: ScrapingConfig, channel: string, msgs: seq<TelethonMessage>,
    downloads: TelethonMessage -> bool)
    ensures |RecordsOf(config, channel, msgs, downloads)| == |msgs|
    ensures forall k | 0 <= k < |msgs| :: RecordsOf(config, channel, msgs, downloads)[k].id == msgs[k].id
    ensures forall k | 0 <= k < |msgs| ::
      RecordsOf(config, channel, msgs, downloads)[k] == ExtractMessageData(msgs[k], StoredPath(config, channel, msgs[k], downloads))
  {
    if msgs != [] {
      var init := msgs[..|msgs| - 1];
      var last := msgs[|msgs| - 1];
      RecordsSpec(config, channel, init, downloads);
      var r := RecordsOf(config, channel, init, downloads);
      var e := ExtractMessageData(last, StoredPath(config, channel, last, downloads));
      assert RecordsOf(config, channel, msgs, downloads) == r + [e];
      forall k | 0 <= k < |msgs|
        ensures (r + [e])[k] == ExtractMessageData(msgs[k], StoredPath(config, channel, msgs[k], downloads))
      {
        if k < |init| {
          assert init[k] == msgs[k];
        }
      }
    }
  }

  /** The download counter never exceeds the messages, and stays 0 while downloads are off. */
  lemma {:induction false} DownloadCountBound(config: ScrapingConfig, channel: string, msgs: seq<TelethonMessage>,
    downloads: TelethonMessage -> bool)
    ensures DownloadCount(config, channel, msgs, downloads) <= |msgs|
    ensures !config.downloadMedia ==> DownloadCount(config, channel, msgs, downloads) == 0
  {
    if msgs != [] {
      DownloadCountBound(config, channel, msgs[..|msgs| - 1], downloads);
    }
  }

  /** The counter equals the number of messages exactly when every one of them had its media downloaded. */
  lemma {:induction false} DownloadCountAll(config: ScrapingConfig, channel: string, msgs: seq<TelethonMessage>,
    downloads: TelethonMessage -> bool)
    ensures DownloadCount(config, channel, msgs, downloads) == |msgs| <==>
      forall k | 0 <= k < |msgs| :: Downloaded(config, msgs[k], downloads)
  {
    if msgs != [] {
      var init := msgs[..|msgs| - 1];
      DownloadCountAll(config, channel, init, downloads);
      DownloadCountBound(config, channel, init, downloads);
      if forall k | 0 <= k < |msgs| :: Downloaded(config, msgs[k], downloads) {
        assert forall k | 0 <= k < |init| :: init[k] == msgs[k];
      }
      if DownloadCount(config, channel, msgs, downloads) == |msgs| {
        forall k | 0 <= k < |msgs| ensures Downloaded(config, msgs[k], downloads) {
          if k < |init| {
            assert init[k] == msgs[k];
          }
        }
      }
    }
  }
}
