/**
 * The record shaping of `TelegramDataCleaner.process_json_file`: how one exported
 * message becomes a message row and, when it carries media, a media-file row; and the
 * gate of `save_to_database` that decides whether a business-information row is added.
 *
 * JSON values appear as small datatypes with one constructor per shape the code
 * distinguishes (absent, falsy, a dictionary, another truthy value).
 */
module DataCleaningRecords {
  import opened Wrappers
  import opened Text
  import opened Scan
  import opened DataCleaning

  // ===========================================================================
  // Exported JSON, as far as the shaping looks at it
  // ===========================================================================

  /** One element of a message's `text` list. */
  datatype TextPart =
    | PartString(s: string)             // a plain string
    | PartEntity(text: Option<string>)  // a dictionary, with or without a string `text`
    | PartEntityNonString               // a dictionary whose `text` is not a string
    | PartOther                         // anything else; skipped

  /** The `text` entry of a message. */
  datatype TextField =
    | NoText                      // no `text` key
    | TextString(s: string)
    | TextList(parts: seq<TextPart>)
    | TextOther                   // a value that is neither a string nor a list

  /** The `from_id` entry; `str()` of it is stored. */
  datatype FromId = FromText(s: string) | FromNumber(n: int) | FromNull

  /** The fields a media dictionary may carry. */
  datatype MediaInfo = MediaInfo(
    fileSize: Option<int>, mimeType: Option<string>, width: Option<int>, height: Option<int>)

  /** The value under `photo`, `video` or `document`. */
  datatype MediaValue =
    | NoMedia                 // absent, or a falsy value: None, "", 0, an empty dictionary
    | MediaDict(info: MediaInfo)  // a non-empty dictionary
    | MediaScalar             // another truthy value, such as a file path

  /** The value under `replies`. */
  datatype RepliesValue =
    | NoReplies               // absent or falsy
    | RepliesDict(count: Option<int>)  // a non-empty dictionary, with or without a `replies` key
    | RepliesScalar           // another truthy value: `.get` on it raises

  /** One element of the export's `messages` list. */
  datatype RawMessage =
    | MessageObject(
        id: Option<int>,
        fromId: Option<FromId>,
        text: TextField,
        views: Option<int>,
        forwards: Option<int>,
        replies: RepliesValue,
        replyTo: Option<int>,
        photo: MediaValue,
        video: MediaValue,
        document: MediaValue)
    | NonObject               // not a dictionary: `.get` on it raises

  /** The top level of an exported channel file. */
  datatype RawChannel = RawChannel(
    name: Option<string>, id: Option<int>, about: Option<string>, participants: Option<int>,
    messages: seq<RawMessage>)

  predicate MediaTruthy(v: MediaValue) {
    !v.NoMedia?
  }

  // ===========================================================================
  // Rows
  // ===========================================================================

  datatype ChannelRow = ChannelRow(
    channelName: string, channelUrl: string, channelId: string, title: string,
    description: string, participantsCount: int)

  datatype MessageRow = MessageRow(
    messageId: int,
    senderId: string,
    messageText: string,
    views: int,
    forwards: int,
    replies: int,
    isReply: bool,
    replyToMsgId: Option<int>,
    hasMedia: bool,
    mediaType: Option<string>)

  datatype MediaRow = MediaRow(
    messageId: int,
    fileName: string,
    filePath: string,
    fileSize: int,
    fileType: Option<string>,
    mimeType: string,
    width: int,
    height: int)

  /** What one message contributes: a message row and possibly a media row. */
  datatype Shaped = Shaped(message: MessageRow, media: Option<MediaRow>)

  // ===========================================================================
  // Channel
  // ===========================================================================

  /** `channel_info`: the file's stem stands in for a missing `name`. */
  function ChannelRowOf(data: RawChannel, stem: string): (c: ChannelRow)
    ensures c.channelUrl == "https://t.me/" + c.channelName
    ensures data.name.Some? ==> c.channelName == data.name.value && c.title == data.name.value
    ensures data.name.None? ==> c.channelName == stem && c.title == ""
    ensures data.id.None? <==> c.channelId == ""
  {
    var name := data.name.GetOr(stem);
    ChannelRow(
      name,
      "https://t.me/" + name,
      if data.id.Some? then IntToString(data.id.value) else "",
      data.name.GetOr(""),
      data.about.GetOr(""),
      data.participants.GetOr(0))
  }

  // ===========================================================================
  // Text
  // ===========================================================================

  /** The strings a `text` list contributes: plain strings and the `text` of entities. */
  function PartsText(parts: seq<TextPart>): seq<string> {
    if parts == [] then []
    else
      var last := parts[|parts| - 1];
      PartsText(parts[..|parts| - 1]) + (
        match last
        case PartString(s) => [s]
        case PartEntity(t) => if t.Some? then [t.value] else []
        case PartEntityNonString => []
        case PartOther => [])
  }

  /**
   * The `' '`-join of `text_parts` raises: some entity's `text` is not a string. The
   * loop gathers that value like any other, so it is never a piece of the joined text.
   */
  predicate JoinRaises(t: TextField) {
    t.TextList? && exists k | 0 <= k < |t.parts| :: t.parts[k].PartEntityNonString?
  }

  /** The loop that gathers `text_parts`. */
  method FlattenTextEntities(parts: seq<TextPart>) returns (pieces: seq<string>)
    ensures pieces == PartsText(parts)
  {
    pieces := [];
    for i := 0 to |parts|
      invariant pieces == PartsText(parts[..i])
    {
      PrefixOfPrefix(parts, i);
      match parts[i]
      case PartString(s) =>
        pieces := pieces + [s];
      case PartEntity(t) =>
        if t.Some? {
          pieces := pieces + [t.value];
        }
      case PartEntityNonString =>
      case PartOther =>
    }
    assert parts[..|parts|] == parts;
  }

  /** Every kept piece is a plain string or an entity's text, in order; other parts add nothing. */
  lemma {:induction false} PartsTextBound(parts: seq<TextPart>)
    ensures |PartsText(parts)| <= |parts|
    ensures (forall k | 0 <= k < |parts| :: parts[k].PartString?) ==>
      PartsText(parts) == seq(|parts|, k requires 0 <= k < |parts| => parts[k].s)
  {
    if parts != [] {
      var init := parts[..|parts| - 1];
      PartsTextBound(init);
      if forall k | 0 <= k < |parts| :: parts[k].PartString? {
        assert forall k | 0 <= k < |init| :: init[k].PartString? by {
          forall k | 0 <= k < |init| ensures init[k].PartString? { assert init[k] == parts[k]; }
        }
      }
    }
  }

  /** `message_text`: the cleaned string, the cleaned `' '`-join of the parts, or `''`. */
  function MessageTextOf(t: TextField): string {
    match t
    case NoText => ""
    case TextString(s) => CleanText(Some(s))
    case TextList(parts) => CleanText(Some(Join(" ", PartsText(parts))))
    case TextOther => ""
  }

  /** The stored text is always cleaned text. */
  lemma MessageTextIsClean(t: TextField)
    ensures Trimmed(MessageTextOf(t)) && '\n' !in MessageTextOf(t) && AllClean(MessageTextOf(t))
  {
    match t
    case NoText =>
    case TextString(s) => CleanTextShape(Some(s));
    case TextList(parts) => CleanTextShape(Some(Join(" ", PartsText(parts))));
    case TextOther =>
  }

  // ===========================================================================
  // One message
  // ===========================================================================

  /** `str(msg.get('from_id', ''))`. */
  function SenderText(f: Option<FromId>): string {
    match f
    case None => ""
    case Some(FromText(s)) => s
    case Some(FromNumber(n)) => IntToString(n)
    case Some(FromNull) => "None"
  }

  /** `media_type`: the first truthy entry, photo before video before document. */
  function MediaTypeOf(m: RawMessage): Option<string>
    requires m.MessageObject?
  {
    if MediaTruthy(m.photo) then Some("photo")
    else if MediaTruthy(m.video) then Some("video")
    else if MediaTruthy(m.document) then Some("document")
    else None
  }

  /** The file-name suffix, under the same priority; `.file` for anything but photo and video. */
  function MediaSuffix(m: RawMessage): string
    requires m.MessageObject?
  {
    if MediaTruthy(m.photo) then ".jpg" else if MediaTruthy(m.video) then ".mp4" else ".file"
  }

  /** `msg.get('photo') or msg.get('video') or msg.get('document')`. */
  function MediaValueOf(m: RawMessage): MediaValue
    requires m.MessageObject?
  {
    if MediaTruthy(m.photo) then m.photo else if MediaTruthy(m.video) then m.video else m.document
  }

  /** The media row of a message that has media. */
  function MediaRowOf(channel: string, m: RawMessage): MediaRow
    requires m.MessageObject?
  {
    var id := m.id.GetOr(0);
    var fileName := channel + "_" + IntToString(id) + MediaSuffix(m);
    var v := MediaValueOf(m);
    MediaRow(
      id,
      fileName,
      "./data/raw/media/" + channel + "/" + fileName,
      if v.MediaDict? then v.info.fileSize.GetOr(0) else 0,
      MediaTypeOf(m),
      if v.MediaDict? then v.info.mimeType.GetOr("") else "",
      if v.MediaDict? then v.info.width.GetOr(0) else 0,
      if v.MediaDict? then v.info.height.GetOr(0) else 0)
  }

  /**
   * The per-message `try` completes: the message is a dictionary, its `replies` is not a
   * truthy non-dictionary, and the join of its `text` list does not raise.
   */
  predicate Kept(m: RawMessage) {
    m.MessageObject? && !m.replies.RepliesScalar? && !JoinRaises(m.text)
  }

  /**
   * The body of the per-message `try`: `None` when it raises, because the message is
   * not a dictionary (which the loop turns into abandoning the file), or its `replies` is
   * a truthy non-dictionary, or an entity of its `text` list has a non-string `text`
   * (the message is skipped).
   *
   * Otherwise the row holds the id, the sender, the cleaned text, the views and the
   * forwards of the message, with 0 or the empty string for missing keys; `media_type` is `None` exactly when `has_media` is false, and names the
   * first truthy entry, photo before video before document; a media row exists exactly
   * when `has_media` holds, with the same type and id, the file name `<channel>_<id>`
   * plus `.jpg`, `.mp4` or `.file` under the same priority, under
   * `./data/raw/media/<channel>/`; `is_reply` is the truthiness of
   * `reply_to_message_id`, and `replies` the count of a replies dictionary.
   */
  function ShapeMessage(channel: string, m: RawMessage): (r: Option<Shaped>)
    ensures r.None? <==> m.NonObject? || m.replies.RepliesScalar? || JoinRaises(m.text)
    ensures r.Some? ==>
      && r.value.message.messageId == m.id.GetOr(0)
      && r.value.message.senderId == SenderText(m.fromId)
      && r.value.message.messageText == MessageTextOf(m.text)
      && r.value.message.views == m.views.GetOr(0)
      && r.value.message.forwards == m.forwards.GetOr(0)
    ensures r.Some? ==>
      && (r.value.message.mediaType.None? <==> !r.value.message.hasMedia)
      && (r.value.message.mediaType == Some("photo") <==> MediaTruthy(m.photo))
      && (r.value.message.mediaType == Some("video") <==> !MediaTruthy(m.photo) && MediaTruthy(m.video))
      && (r.value.message.mediaType == Some("document") <==>
            !MediaTruthy(m.photo) && !MediaTruthy(m.video) && MediaTruthy(m.document))
      && (r.value.media.Some? <==> r.value.message.hasMedia)
    ensures r.Some? && r.value.media.Some? ==>
      var row := r.value.media.value;
      var suffix := if r.value.message.mediaType == Some("photo") then ".jpg"
                    else if r.value.message.mediaType == Some("video") then ".mp4"
                    else ".file";
      && row.fileType == r.value.message.mediaType
      && row.messageId == r.value.message.messageId
      && row.fileName == channel + "_" + IntToString(r.value.message.messageId) + suffix
      && row.filePath == "./data/raw/media/" + channel + "/" + row.fileName
      && (MediaValueOf(m).MediaScalar? ==> row.fileSize == 0 && row.mimeType == "" && row.width == 0 && row.height == 0)
      && (MediaValueOf(m).MediaDict? ==>
            var info := MediaValueOf(m).info;
            && row.fileSize == info.fileSize.GetOr(0) && row.mimeType == info.mimeType.GetOr("")
            && row.width == info.width.GetOr(0) && row.height == info.height.GetOr(0))
    ensures r.Some? ==>
      && (r.value.message.isReply <==> m.replyTo.Some? && m.replyTo.value != 0)
      && r.value.message.replyToMsgId == m.replyTo
      && (m.replies.NoReplies? ==> r.value.message.replies == 0)
      && (m.replies.RepliesDict? ==> r.value.message.replies == m.replies.count.GetOr(0))
  {
    if !Kept(m) then None
    else
      var hasMedia := MediaTruthy(m.photo) || MediaTruthy(m.video) || MediaTruthy(m.document);
      var row := MessageRow(
        m.id.GetOr(0),
        SenderText(m.fromId),
        MessageTextOf(m.text),
        m.views.GetOr(0),
        m.forwards.GetOr(0),
        if m.replies.RepliesDict? then m.replies.count.GetOr(0) else 0,
        m.replyTo.Some? && m.replyTo.value != 0,
        m.replyTo,
        hasMedia,
        MediaTypeOf(m));
      Some(Shaped(row, if hasMedia then Some(MediaRowOf(channel, m)) else None))
  }

  // ===========================================================================
  // The message loop
  // ===========================================================================

  /** The message rows of the messages that are not skipped, in order. */
  function MessagesOf(channel: string, msgs: seq<RawMessage>): seq<MessageRow> {
    if msgs == [] then []
    else
      var init := MessagesOf(channel, msgs[..|msgs| - 1]);
      match ShapeMessage(channel, msgs[|msgs| - 1])
      case None => init
      case Some(s) => init + [s.message]
  }

  /** The media rows, in order. */
  function MediaOf(channel: string, msgs: seq<RawMessage>): seq<MediaRow> {
    if msgs == [] then []
    else
      var init := MediaOf(channel, msgs[..|msgs| - 1]);
      match ShapeMessage(channel, msgs[|msgs| - 1])
      case Some(Shaped(_, Some(r))) => init + [r]
      case _ => init
  }

  /** No message is a non-dictionary, so the per-message handler never raises in turn. */
  predicate AllObjects(msgs: seq<RawMessage>) {
    forall k | 0 <= k < |msgs| :: msgs[k].MessageObject?
  }

  /**
   * What `process_json_file` returns. A non-object message makes the per-message
   * handler raise while it logs the message's id, so the outer handler returns an
   * empty channel and no rows (`channel` is `None`); otherwise the channel row and the
   * rows of the messages that are not skipped.
   */
  datatype Processed = Processed(channel: Option<ChannelRow>, messages: seq<MessageRow>, media: seq<MediaRow>)

  function ProcessedOf(data: RawChannel, stem: string): (r: Processed)
    ensures r.channel.None? <==> exists k | 0 <= k < |data.messages| :: data.messages[k].NonObject?
    ensures r.channel.None? ==> r.messages == [] && r.media == []
    ensures r.channel.Some? ==>
      && r.channel.value == ChannelRowOf(data, stem)
      && r.messages == MessagesOf(r.channel.value.channelName, data.messages)
      && r.media == MediaOf(r.channel.value.channelName, data.messages)
  {
    if AllObjects(data.messages) then
      var c := ChannelRowOf(data, stem);
      Processed(Some(c), MessagesOf(c.channelName, data.messages), MediaOf(c.channelName, data.messages))
    else Processed(None, [], [])
  }

  /** The rows over one more message: the rows so far plus what its shaping yields. */
  lemma ShapedStep(channel: string, msgs: seq<RawMessage>, i: nat, shaped: Option<Shaped>)
    requires i < |msgs| && shaped == ShapeMessage(channel, msgs[i])
    ensures shaped.None? ==>
      MessagesOf(channel, msgs[..i + 1]) == MessagesOf(channel, msgs[..i])
      && MediaOf(channel, msgs[..i + 1]) == MediaOf(channel, msgs[..i])
    ensures shaped.Some? ==>
      MessagesOf(channel, msgs[..i + 1]) == MessagesOf(channel, msgs[..i]) + [shaped.value.message]
      && MediaOf(channel, msgs[..i + 1])
         == MediaOf(channel, msgs[..i]) + (if shaped.value.media.Some? then [shaped.value.media.value] else [])
  {
    PrefixOfPrefix(msgs, i);
  }

  /**
   * The message loop of `process_json_file`: a message whose `try` raises is skipped,
   * unless it is not a dictionary, which abandons the whole file (`ok` is false).
   */
  method ProcessMessages(channel: string, msgs: seq<RawMessage>)
    returns (ok: bool, messages: seq<MessageRow>, media: seq<MediaRow>)
    ensures ok <==> AllObjects(msgs)
    ensures ok ==> messages == MessagesOf(channel, msgs) && media == MediaOf(channel, msgs)
    ensures !ok ==> messages == [] && media == []
  {
    messages, media := [], [];
    for i := 0 to |msgs|
      invariant forall k | 0 <= k < i :: msgs[k].MessageObject?
      invariant messages == MessagesOf(channel, msgs[..i])
      invariant media == MediaOf(channel, msgs[..i])
    {
      if msgs[i].NonObject? {
        return false, [], [];
      }
      var shaped := ShapeMessage(channel, msgs[i]);
      ShapedStep(channel, msgs, i, shaped);
      if shaped.None? {
        continue;
      }
      messages := messages + [shaped.value.message];
      if shaped.value.media.Some? {
        media := media + [shaped.value.media.value];
      }
    }
    assert msgs[..|msgs|] == msgs;
    ok := true;
  }

  /** `process_json_file` without the file reading. */
  method ProcessChannel(data: RawChannel, stem: string) returns (p: Processed)
    ensures p == ProcessedOf(data, stem)
  {
    var channel := ChannelRowOf(data, stem);
    var ok, messages, media := ProcessMessages(channel.channelName, data.messages);
    if ok {
      p := Processed(Some(channel), messages, media);
    } else {
      p := Processed(None, [], []);
    }
  }

  /** Some message survives the per-message `try`. */
  ghost predicate SomeMessageKept(msgs: seq<RawMessage>) {
    exists k | 0 <= k < |msgs| :: Kept(msgs[k])
  }

  /** The message rows are non-empty exactly when some message is kept. */
  lemma {:induction false} MessagesNonEmpty(channel: string, msgs: seq<RawMessage>)
    ensures MessagesOf(channel, msgs) != [] <==> SomeMessageKept(msgs)
  {
    if msgs != [] {
      var init := msgs[..|msgs| - 1];
      MessagesNonEmpty(channel, init);
      if SomeMessageKept(init) {
        var k :| 0 <= k < |init| && Kept(init[k]);
        assert msgs[k] == init[k];
      }
      if SomeMessageKept(msgs) {
        var k :| 0 <= k < |msgs| && Kept(msgs[k]);
        if k < |init| {
          assert init[k] == msgs[k];
        }
      }
    }
  }

  /**
   * The driver saves a file only when `channel_info and messages_data` holds, and counts
   * it as an error otherwise: that is when every message is a dictionary and at least
   * one of them is kept. One non-object message makes the whole file an error.
   */
  lemma FileSaved(data: RawChannel, stem: string)
    ensures (ProcessedOf(data, stem).channel.Some? && ProcessedOf(data, stem).messages != [])
      <==> AllObjects(data.messages) && SomeMessageKept(data.messages)
  {
    MessagesNonEmpty(ChannelRowOf(data, stem).channelName, data.messages);
  }

  function Ids(rows: seq<MessageRow>): seq<int> {
    if rows == [] then [] else Ids(rows[..|rows| - 1]) + [rows[|rows| - 1].messageId]
  }

  function MediaIds(rows: seq<MediaRow>): seq<int> {
    if rows == [] then [] else MediaIds(rows[..|rows| - 1]) + [rows[|rows| - 1].messageId]
  }

  lemma SubsequenceAppend(a: seq<int>, b: seq<int>, x: int)
    requires IsSubsequence(a, b)
    ensures IsSubsequence(a + [x], b + [x])
    decreases |b|
  {
    if b == [] {
      assert a == [];
      assert IsSubsequence([], [x][1..]);
    } else if a != [] && a[0] == b[0] && IsSubsequence(a[1..], b[1..]) {
      SubsequenceAppend(a[1..], b[1..], x);
      assert (a + [x])[1..] == a[1..] + [x];
      assert (b + [x])[1..] == b[1..] + [x];
    } else {
      SubsequenceAppend(a, b[1..], x);
      assert (b + [x])[1..] == b[1..] + [x];
    }
  }

  lemma SubsequenceExtend(a: seq<int>, b: seq<int>, x: int)
    requires IsSubsequence(a, b)
    ensures IsSubsequence(a, b + [x])
    decreases |b|
  {
    if b == [] {
      assert a == [];
      EmptyIsSubsequence([x]);
    } else if a != [] && a[0] == b[0] && IsSubsequence(a[1..], b[1..]) {
      SubsequenceExtend(a[1..], b[1..], x);
      assert (b + [x])[1..] == b[1..] + [x];
    } else {
      SubsequenceExtend(a, b[1..], x);
      assert (b + [x])[1..] == b[1..] + [x];
    }
  }

  /**
   * Media rows follow the message rows: there are never more of them, and their
   * message ids appear among the message rows' ids in the same order.
   */
  lemma {:induction false} MediaFollowMessages(channel: string, msgs: seq<RawMessage>)
    ensures |MediaOf(channel, msgs)| <= |MessagesOf(channel, msgs)| <= |msgs|
    ensures IsSubsequence(MediaIds(MediaOf(channel, msgs)), Ids(MessagesOf(channel, msgs)))
  {
    if msgs == [] {
      EmptyIsSubsequence<int>([]);
    } else {
      var init := msgs[..|msgs| - 1];
      MediaFollowMessages(channel, init);
      var a := MediaIds(MediaOf(channel, init));
      var b := Ids(MessagesOf(channel, init));
      match ShapeMessage(channel, msgs[|msgs| - 1])
      case None =>
      case Some(s) =>
        var rows := MessagesOf(channel, init) + [s.message];
        assert rows[..|rows| - 1] == MessagesOf(channel, init);
        assert Ids(rows) == b + [s.message.messageId];
        if s.media.Some? {
          var mrows := MediaOf(channel, init) + [s.media.value];
          assert mrows[..|mrows| - 1] == MediaOf(channel, init);
          assert MediaIds(mrows) == a + [s.media.value.messageId];
          SubsequenceAppend(a, b, s.message.messageId);
        } else {
          SubsequenceExtend(a, b, s.message.messageId);
        }
    }
  }

  /** Every message that is not skipped yields a row: the count is the number of such messages. */
  lemma {:induction false} MessageCount(channel: string, msgs: seq<RawMessage>)
    requires forall k | 0 <= k < |msgs| :: Kept(msgs[k])
    ensures |MessagesOf(channel, msgs)| == |msgs|
  {
    if msgs != [] {
      MessageCount(channel, msgs[..|msgs| - 1]);
    }
  }

  // ===========================================================================
  // save_to_database: the business-information gate
  // ===========================================================================

  /** The business row `save_to_database` adds for a message text, if any. */
  function BusinessRowFor(text: string): Option<BusinessExtraction> {
    if text == "" then None
    else
      var info := BusinessInfoOf(text);
      if Truthy(info.businessName) || Truthy(info.productName) || Truthy(info.price) || Truthy(info.contactInfo)
      then Some(info)
      else None
  }

  lemma JoinNonEmpty(parts: seq<string>)
    requires parts != [] && forall k | 0 <= k < |parts| :: parts[k] != ""
    ensures Join(", ", parts) != ""
  {
  }

  lemma JoinedMatchesTruthy(m: Matcher, text: string)
    ensures Truthy(JoinedMatches(m, text)) <==> JoinedMatches(m, text).Some?
  {
    var found := FindAll(m, text);
    if found != [] {
      SpansFromMatches(m, text, 0);
      forall k | 0 <= k < |found| ensures found[k] != "" {
        assert |found[k]| == Spans(m, text)[k].len;
      }
      JoinNonEmpty(found);
    }
  }

  /**
   * A business row is added exactly when the text is non-empty and one of the two names
   * is chosen, or the price or phone pattern matches somewhere: an address, opening
   * hours or delivery note alone does not qualify. The row holds the full extraction.
   */
  lemma BusinessRowIff(text: string)
    ensures BusinessRowFor(text).Some? <==>
      text != "" &&
      (NamesFor(text).business.Some? || NamesFor(text).product.Some?
       || !NoMatchIn(PriceAt, text, 0, |text|) || !NoMatchIn(PhoneAt, text, 0, |text|))
    ensures BusinessRowFor(text).Some? ==> BusinessRowFor(text).value == BusinessInfoOf(text)
  {
    if text != "" {
      NameHeuristic(text);
      PatternFields(text);
      JoinedMatchesTruthy(PriceAt, text);
      JoinedMatchesTruthy(PhoneAt, text);
    }
  }

  /**
   * The stored text is cleaned, so it has one line, and a business row never has both
   * a business name and a product name.
   */
  lemma BusinessRowHasOneName(t: TextField)
    ensures BusinessRowFor(MessageTextOf(t)).Some? ==>
      BusinessRowFor(MessageTextOf(t)).value.businessName.None?
      || BusinessRowFor(MessageTextOf(t)).value.productName.None?
  {
    MessageTextIsClean(t);
    OneLineOneName(MessageTextOf(t));
  }
}
