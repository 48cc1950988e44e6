# Telegram medical-business scraper: a Dafny model of its text rules

The repository scrapes Ethiopian medical-business channels on Telegram, cleans the
exported messages, pulls business details (phone numbers, prices, addresses, opening
hours, delivery notes, names) out of the text and loads the result into a database.
This project models the deterministic part of that pipeline. It covers:

- the text cleaner and the pattern-table extractor of the data-cleaning script,
  plus the way that script shapes one exported message into a message row and a
  media-file row (`data_cleaning.dfy`, `data_cleaning_records.dfy`);
- the second extractor of the scraper package, with its ordered price and contact
  patterns, its delivery-sentence rule, its media-type choice and its save gate
  (`scraper.dfy`);
- the demo loader's keyword-gated phone extractor and the way `load_json_files`
  gathers channels, messages, business records and media records (`loader.dfy`);
- the Telethon scraper's media rules, its message records and the stopping rule of
  its message loop (`telegram_scraper.dfy`);
- the sample-data generator of the scraper demo (`scraper_demo.dfy`).

Shared pieces:

- `text.dfy` holds the character classes, `strip`, `split`, `join`, `lower`,
  `title` and `str(int)`.
- `scan.dfy` holds leftmost scanning, the way `re.findall` and `re.search` walk a
  text for one fixed pattern.
- `wrappers.dfy` holds `Option`.

Each regular expression of the source is a hand-written matcher over `seq<char>`.
In most patterns here, the character classes that follow one another are disjoint,
so a matcher that takes each repetition greedily and never gives characters back
finds the same match as Python's engine. There are two exceptions:

- In the contact pattern `[+]?\d[\d\s\-\(\)]{8,}` of the scraper package, the
  digit overlaps the class after it. Nothing follows that class, so the greedy
  match is still Python's.
- The opening-hours matcher `DataCleaning.TimeAt` tries two hour digits and then
  one, as Python's engine does.

This argument is in comments, not proved.

Each loop of the source is a method proved equal to a recursive specification
function, and the properties are lemmas about those functions.

The clock, `hash()`, the Telethon client and the success of a download are all
parameters of the model.

`clean_text` is not idempotent. Line 97 of the cleaner collapses whitespace before
line 100 deletes disallowed characters, so a symbol between two spaces leaves a
double space, which only a second pass collapses:

- `DataCleaning.CleanTextNotIdempotent` exhibits such an input.
- `DataCleaning.CleanTwice` states exactly what a second pass does.

## Model

| member | source | states |
|---|---|---|
| DataCleaning.Collapse | scripts/data_cleaning.py:97 | collapsing whitespace keeps a text empty exactly when it was empty, and keeps whether its first and its last character are whitespace |
| DataCleaning.CollapseChars | scripts/data_cleaning.py:97 | after collapsing, every character is a plain space or a non-whitespace character of the input |
| DataCleaning.CollapseNoDoubleSpace | scripts/data_cleaning.py:97 | after collapsing, no two whitespace characters are adjacent |
| DataCleaning.DropDisallowedChars | scripts/data_cleaning.py:100 | after deletion, every character is on the allow-list (word character, whitespace, the block U+1200-U+137F, listed punctuation) and comes from the input |
| DataCleaning.DropDisallowedIsSubsequence | scripts/data_cleaning.py:100 | deletion only removes characters: the result is a subsequence of its input |
| DataCleaning.DropDisallowedKeepsAllowed | scripts/data_cleaning.py:100 | a text made only of allowed characters passes deletion unchanged |
| DataCleaning.SqueezeNewlines | scripts/data_cleaning.py:103 | squeezing newlines keeps the first character |
| DataCleaning.SqueezeNoDoubleNewline | scripts/data_cleaning.py:103 | after squeezing, no two newlines are adjacent |
| DataCleaning.SqueezeWithoutNewlines | scripts/data_cleaning.py:103 | a text without newlines passes the squeeze unchanged, so on collapsed text that step does nothing |
| DataCleaning.CleanText | scripts/data_cleaning.py:93-105 | `clean_text`; its contract is stated by `CleanTextShape` (empty for None or "", stripped, single-spaced, only allowed characters, a subsequence of the whitespace-collapsed input) and `CleanTwice` (a second pass only collapses the spaces the filter left) |
| DataCleaning.CleanTextShape | scripts/data_cleaning.py:93-105 | `clean_text` of None or "" is ""; otherwise the result has no leading or trailing whitespace and no newline, its only whitespace is the plain space, every character is allowed, and it is a subsequence of the whitespace-collapsed input |
| DataCleaning.CleanTwice | scripts/data_cleaning.py:97-100 | cleaning a cleaned text only collapses its doubled spaces again |
| DataCleaning.CleanTextNotIdempotent | scripts/data_cleaning.py:97-100 | "a € b" cleans to "a  b", and cleaning that once more gives "a b": `clean_text` is not idempotent |
| DataCleaning.CleanSpacedDisallowed | scripts/data_cleaning.py:97-105 | a disallowed symbol between two spaces, between two kept characters, leaves a double space behind |
| DataCleaning.CleanDoubleSpaced | scripts/data_cleaning.py:97-105 | a double space between two kept characters is cleaned down to one space |
| DataCleaning.DropAround | scripts/data_cleaning.py:100 | deleting one disallowed character between two allowed texts joins them |
| DataCleaning.SingleSpacedCollapse | scripts/data_cleaning.py:97 | a text whose whitespace is single plain spaces passes collapsing unchanged |
| DataCleaning.PhoneAt | scripts/data_cleaning.py:74 | a phone match is 13 characters ("+251", then 7 or 9, then eight digits) or 10 digits |
| DataCleaning.AmountAt | scripts/data_cleaning.py:75 | an amount starts and ends with a digit and holds only digits, '.' and ',' |
| DataCleaning.PriceAt | scripts/data_cleaning.py:75 | a price match starts with a currency word or a digit and contains a digit |
| DataCleaning.GazetteerAt | scripts/data_cleaning.py:76 | a match of a name list is one of its names, up to case |
| DataCleaning.TimeAt | scripts/data_cleaning.py:77 | a time match is at least four characters long and starts with one or two digits and a ':' |
| DataCleaning.FirstLines | scripts/data_cleaning.py:147-148 | the heuristic looks at one to three lines |
| DataCleaning.ExtractBusinessInfo | scripts/data_cleaning.py:107-156 | the extractor returns the all-None record for "" and otherwise the record of the specification function, which the lemmas below describe |
| DataCleaning.ChooseNames | scripts/data_cleaning.py:148-154 | the name loop computes the heuristic's fold over the first lines |
| DataCleaning.JoinedMatchesSpec | scripts/data_cleaning.py:123-125 | a field is None exactly when its pattern matches nowhere; otherwise it is the ", "-join of the leftmost non-overlapping matches, in text order |
| DataCleaning.PatternFields | scripts/data_cleaning.py:122-140 | contact, price, address and hours are each None exactly when their pattern has no match, and otherwise hold the ", "-join of all their matches |
| DataCleaning.DeliveryField | scripts/data_cleaning.py:142-144 | delivery is None or exactly "Delivery available", and set exactly when the delivery pattern occurs somewhere |
| DataCleaning.StripAll | scripts/data_cleaning.py:149 | the stripped lines are the lines, each stripped |
| DataCleaning.NameStepInvariant | scripts/data_cleaning.py:149-154 | one step of the heuristic keeps its invariant: names are stripped lines of length 6 to 99 taken from the lines seen, a business name has a letter, the two names differ, and a product name chosen before any business name has no letter |
| DataCleaning.NamesOfInvariant | scripts/data_cleaning.py:148-154 | the heuristic's result over any lines satisfies that invariant |
| DataCleaning.NameHeuristic | scripts/data_cleaning.py:146-154 | the chosen names are stripped lines of length 6 to 99 among the first three lines, a business name has a letter, and business and product names differ |
| DataCleaning.NamesIgnoreLaterLines | scripts/data_cleaning.py:148 | lines after the third never change the names |
| DataCleaning.OneLineOneName | scripts/data_cleaning.py:148-154 | a text without newlines gets at most one of the two names |
| DataCleaning.CleanedTextHasOneName | scripts/data_cleaning.py:194 | cleaned text is a single line, so the heuristic finds at most one name in it |
| DataCleaning.ProductBeforeBusiness | scripts/data_cleaning.py:150-154 | a first line without letters becomes the product name, and a second line with letters then becomes the business name |
| DataCleaningRecords.ChannelRowOf | scripts/data_cleaning.py:175-182 | the channel row takes its name from `name` or else the file stem; its URL is the t.me link of that name; its title is the name or ""; its id is "" exactly when the file has none |
| DataCleaningRecords.FlattenTextEntities | scripts/data_cleaning.py:197-202 | the entity loop collects the strings and the `text` of the dictionaries, in order |
| DataCleaningRecords.PartsTextBound | scripts/data_cleaning.py:197-202 | flattening keeps at most one piece per part, and a list of plain strings unchanged |
| DataCleaningRecords.MessageTextIsClean | scripts/data_cleaning.py:191-203 | a message's text, from a string or from entities, is stripped, has no newline and only allowed characters |
| DataCleaningRecords.ShapeMessage | scripts/data_cleaning.py:189-271 | the body of the per-message `try` raises exactly for a message that is not a dictionary, whose `replies` is a truthy non-dictionary, or whose `text` list holds a dictionary whose `text` is not a string (the `' '.join` fails); otherwise the row carries the message's id, sender, cleaned text, views and forwards (0 or the empty string when absent), `media_type` is None exactly without media and names the first truthy of photo, video, document; a media row exists exactly with media, with the same id and type, the file name `<channel>_<id>` and .jpg, .mp4 or .file under the same priority, and its path under `./data/raw/media/<channel>/`; its size, MIME type, width and height are those of a media dictionary (0 or the empty string for a missing key) and 0 or the empty string for a scalar media value; `is_reply` is the truthiness of the replied-to id; `replies` is the count of a replies dictionary |
| DataCleaningRecords.ProcessMessages | scripts/data_cleaning.py:188-271 | the message loop succeeds exactly when every message is a dictionary, and then yields the rows of the messages in order, skipping those whose `replies` is a truthy non-dictionary or whose `text` list holds a dictionary with a non-string `text`; otherwise it yields no rows, because the handler's own `msg.get` raises |
| DataCleaningRecords.ProcessedOf | scripts/data_cleaning.py:158-278 | `process_json_file` returns an empty channel and no rows exactly when some message is not a dictionary; otherwise the channel row, and the message and media rows over that channel's name |
| DataCleaningRecords.ProcessChannel | scripts/data_cleaning.py:158-278 | `process_json_file` without the file reading returns what `ProcessedOf` specifies |
| DataCleaningRecords.MediaFollowMessages | scripts/data_cleaning.py:240-267 | there are no more media rows than message rows, and the media rows' ids are a subsequence of the message rows' ids |
| DataCleaningRecords.MessageCount | scripts/data_cleaning.py:188-271 | when every message is kept (a dictionary without a truthy non-dictionary `replies` and without a non-string entity `text`), there is one row per message |
| DataCleaningRecords.MessagesNonEmpty | scripts/data_cleaning.py:188-271 | the message rows are non-empty exactly when some message is kept: a dictionary whose `replies` is not a truthy non-dictionary and whose `text` list has no dictionary with a non-string `text` |
| DataCleaningRecords.FileSaved | scripts/data_cleaning.py:456-469 | the driver saves a file (`channel_info and messages_data`) exactly when every message is a dictionary and some message is kept (its `replies` is not a truthy non-dictionary and no entity of its `text` list has a non-string `text`); otherwise it counts the file as an error, so one non-object message makes the whole file an error |
| DataCleaningRecords.JoinedMatchesTruthy | scripts/data_cleaning.py:124-125 | a joined pattern field is truthy exactly when it is set, since matches are never empty |
| DataCleaningRecords.BusinessRowIff | scripts/data_cleaning.py:374-377 | a business row is added exactly when the text is non-empty and it has a business name, a product name, a price match or a phone match; address, hours or delivery alone never qualify |
| DataCleaningRecords.BusinessRowHasOneName | scripts/data_cleaning.py:374-377 | a saved row for a cleaned message text never holds both a business and a product name |
| Scraper.AmountAt | src/telegram_scraper/scraper.py:146 | the price group starts with a digit and holds only digits, ',' and '.' |
| Scraper.PriceWithCurrency | src/telegram_scraper/scraper.py:146 | the first price pattern's group is an amount |
| Scraper.PriceLabelled | src/telegram_scraper/scraper.py:147 | the second price pattern's group is an amount |
| Scraper.PriceWithBirr | src/telegram_scraper/scraper.py:148 | the third price pattern's group is an amount |
| Scraper.ContactLabelled | src/telegram_scraper/scraper.py:159 | a labelled contact's group is at least nine characters |
| Scraper.ContactCountryCode | src/telegram_scraper/scraper.py:160 | a country-code contact's group is at least eleven characters |
| Scraper.ContactMobile | src/telegram_scraper/scraper.py:161 | a mobile contact is exactly "09" followed by eight digits |
| Scraper.FirstOf | src/telegram_scraper/scraper.py:151-155 | the ordered search finds nothing exactly when no pattern matches, and otherwise the group of the first pattern in list order that matches |
| Scraper.FirstKeyword | src/telegram_scraper/scraper.py:172-173 | the keyword used is the first in list order that occurs, case-insensitively, and none exactly when none occurs |
| Scraper.FirstSentence | src/telegram_scraper/scraper.py:176-177 | the sentence used is the first that names the keyword, and none exactly when none does |
| Scraper.FirstPatternGroup | src/telegram_scraper/scraper.py:151-155 | the pattern loop computes the ordered first-success search |
| Scraper.DeliveryOf | src/telegram_scraper/scraper.py:170-182 | the delivery value; stated by `DeliveryRule`: `None` exactly when no delivery keyword is mentioned, otherwise the stripped first '.'-separated segment of the text that mentions the first keyword, in list order, that the text mentions |
| Scraper.DeliverySentence | src/telegram_scraper/scraper.py:171-180 | the keyword and sentence loops compute the delivery specification |
| Scraper.InfoOf | src/telegram_scraper/scraper.py:127-182 | the extracted record; stated by `UnassignedKeys` (empty text gives all `None`; name, product, address and hours never set), `PriceRule`, `ContactRule` (first matching pattern in list order decides), `DeliveryRule` (the stripped first '.'-segment naming the first mentioned keyword) and `SaveGate` (a row is saved exactly when price, contact or delivery was found) |
| Scraper.ExtractBusinessInfo | src/telegram_scraper/scraper.py:127-182 | the extractor computes the specification record described by the rules below |
| Scraper.UnassignedKeys | src/telegram_scraper/scraper.py:131-142 | "" gives the all-None record; business name, product name, address and opening hours are never assigned |
| Scraper.PriceRule | src/telegram_scraper/scraper.py:145-155 | price is None exactly when no price pattern matches; otherwise it is the group of the first matching pattern in list order, and made only of digits, ',' and '.' |
| Scraper.ContactRule | src/telegram_scraper/scraper.py:158-168 | the same ordered first-success rule for contacts; a hit on the third pattern is exactly "09" and eight digits |
| Scraper.DeliveryRule | src/telegram_scraper/scraper.py:170-180 | delivery is None exactly when the text is empty or no keyword occurs; otherwise, for the first keyword in list order that the text mentions, it is the stripped first '.'-separated segment of the text that mentions that keyword, so it names the keyword and has no '.' |
| Scraper.KeywordSentence | src/telegram_scraper/scraper.py:175-178 | when a keyword occurs in the text, some sentence names it and that sentence, stripped, still names it |
| Scraper.OccurrenceInSentence | src/telegram_scraper/scraper.py:175-177 | a word without '.' that occurs in a text occurs in one of its '.'-separated sentences |
| Scraper.StripKeepsOccurrence | src/telegram_scraper/scraper.py:178 | stripping a sentence keeps every occurrence of a word without whitespace |
| Scraper.SaveGate | src/telegram_scraper/scraper.py:301 | a business row is saved exactly when a price, a contact or a delivery note was found |
| Scraper.MediaKindOf | src/telegram_scraper/scraper.py:80-104 | nothing is saved without media; a photo is an image .jpg and a video a video .mp4; a document with a MIME type is an image exactly when the type names "image" (.jpg exactly when it also names "jpeg", else .png), a video .mp4 exactly when it names "video" and not "image", otherwise a document .bin; an empty MIME type and other media stay "unknown" with no extension |
| Scraper.SavedFileName | src/telegram_scraper/scraper.py:106 | the file name starts with `<username>_` and ends with the extension |
| Loader.PhoneAt | load_data_to_sqlite.py:116 | a phone match lies within the text |
| Loader.PhoneAtShaped | load_data_to_sqlite.py:116 | every phone match is an optional '+', then "251", then exactly nine more digits, ending in a digit, with no two separators ('-' or whitespace) in a row |
| Loader.FoundPhoneShaped | load_data_to_sqlite.py:116-117 | every phone that `findall` returns has that shape |
| Loader.ServiceTypeOf | load_data_to_sqlite.py:120-128 | the service type is pharmacy, emergency, vaccination, checkup or general_medical, the first in that order whose keyword occurs in the lowercased text |
| Loader.BusinessNameOf | load_data_to_sqlite.py:130 | the business name is as long as the channel name and has no '_' |
| Loader.BusinessRecordsOf | load_data_to_sqlite.py:108-143 | the records of one message; stated by `BusinessRecordsRule` (none without a medical keyword, otherwise one record per phone match in `findall` order with the channel, id, derived name, service type and default location), `NoRecordsIff` and `RecordedPhonesShaped` |
| Loader.ExtractBusinessInfo | load_data_to_sqlite.py:108-143 | the extractor computes the record list of the specification below |
| Loader.RecordsForPhones | load_data_to_sqlite.py:132-141 | the record loop builds one record per phone, in order |
| Loader.RecordsForSpec | load_data_to_sqlite.py:132-141 | record k carries phone k, the channel, the message id, the shared business name, the service type and "Addis Ababa" |
| Loader.BusinessRecordsRule | load_data_to_sqlite.py:113-141 | without a medical keyword there are no records; with one there is exactly one record per phone match, in `findall` order, with the given channel and id, the same business name and service type, and the location "Addis Ababa" |
| Loader.NoRecordsIff | load_data_to_sqlite.py:113-117 | there are no records exactly when no medical keyword occurs or no phone matches |
| Loader.RecordedPhonesShaped | load_data_to_sqlite.py:116-137 | every recorded phone number has the phone shape |
| Loader.CollectMessages | load_data_to_sqlite.py:170-190 | the message loop appends each message's row, business records and media record to the lists |
| Loader.FileStep | load_data_to_sqlite.py:157-195 | what one file adds: an unreadable file nothing, a readable one claims its channel unless known, then its messages' rows, business and media records, plus what a raising message queued before it raised; stated through `CollectedOf`'s lemmas |
| Loader.CollectedOf | load_data_to_sqlite.py:145-196 | the collections of all files in order; stated by `ChannelsDomain` (a channel is known exactly when a readable file exports it), `FirstFileWins` (the first such file's channel info is kept), `CollectedMessageCount` (one row per queued message), `CollectedMessages` and `CollectedBusiness` (the message rows and business records are exactly those the files queue) and `CollectedMediaShape` |
| Loader.LoadJsonFiles | load_data_to_sqlite.py:145-196 | the file loop computes the collections of the specification: an unreadable file adds nothing, and a file that raises later keeps its channel and everything queued before the failure |
| Loader.ChannelsDomain | load_data_to_sqlite.py:162-167 | a username is among the channels exactly when some file has a readable `channel_info` with it, even one that raises later |
| Loader.FirstFileWins | load_data_to_sqlite.py:162-167 | the first file with a readable `channel_info` for a channel supplies its stored info, whether or not it raises later; later files for it do not overwrite it |
| Loader.MessageRowsSpec | load_data_to_sqlite.py:170-173 | there is one message row per message, in order, tagged with the channel |
| Loader.MediaRule | load_data_to_sqlite.py:181-190 | a media record exists for a message exactly when `has_media` and `media_file_path` are both truthy, always with the channel and the file size 1024 |
| Loader.CollectedMessages | load_data_to_sqlite.py:157-195 | a message row is collected exactly when some readable file queues it: it carries that file's channel and one of the messages processed in full, or the message that raised after its row was queued (line 173) |
| Loader.CollectedBusiness | load_data_to_sqlite.py:157-195 | a business record is collected exactly when some readable file queues it: it is a record of a message that file processed in full, or of the message that raised after its records were queued (line 179); nothing queued is lost and nothing else appears |
| Loader.CollectedMediaShape | load_data_to_sqlite.py:181-190 | every collected media record, from any file, has file size 1024 and a non-empty path |
| Loader.CollectedMessageCount | load_data_to_sqlite.py:157-195 | the number of collected message rows is, over the files, the messages processed in full plus one for each file whose failing message was already queued |
| TelegramScraper.MakeConfig | scripts/telegram_scraper.py:67-69 | a missing `media_types` becomes photo, video and document; a given list is kept |
| TelegramScraper.MediaTypeOf | scripts/telegram_scraper.py:286-298 | `media_type` is None exactly without media, and otherwise photo, video, document or other by the media class |
| TelegramScraper.ShouldDownloadMedia | scripts/telegram_scraper.py:414-434 | whether media is downloaded; stated by `DownloadRule` (exactly when present, of a known kind, and that kind is configured) and `DefaultDownloadsAllKnownKinds` |
| TelegramScraper.DownloadRule | scripts/telegram_scraper.py:414-434 | media is downloaded exactly when it is present, its kind is photo, video or document, and that kind is configured |
| TelegramScraper.DefaultDownloadsAllKnownKinds | scripts/telegram_scraper.py:67-69 | with the default kinds, exactly photos, videos and documents are downloaded |
| TelegramScraper.FileExtension | scripts/telegram_scraper.py:229-244 | every extension starts with '.' and has at least four characters |
| TelegramScraper.ExtensionRule | scripts/telegram_scraper.py:229-244 | a photo gets .jpg and a video .mp4; a document is .unknown exactly without a MIME type, and otherwise .jpg, .mp4, .mp3 or .file by the first of "image", "video", "audio" its MIME type contains; other media keep .unknown |
| TelegramScraper.DownloadPath | scripts/telegram_scraper.py:220-254 | a path is produced exactly when the message has media |
| TelegramScraper.MediaFileName | scripts/telegram_scraper.py:247 | the media file name; stated by `FileNameInjective` (id and timestamp are recoverable from the name within a channel) and `ExtensionRule` (the extension by media kind and mime type) |
| TelegramScraper.FileNameInjective | scripts/telegram_scraper.py:247 | two downloads of one channel with the same file name have the same id, timestamp and extension |
| TelegramScraper.ExtractMessageData | scripts/telegram_scraper.py:260-329 | the message record; stated by `MessageDataRule`: has_media and media_type exactly with media, is_reply exactly for a truthy replied-to id, replies count or `None`, sender fields `None` without a sender, empty text exactly for missing or empty text |
| TelegramScraper.MessageDataRule | scripts/telegram_scraper.py:271-329 | `has_media` holds exactly with media and `media_type` is set exactly then; `is_reply` is the truthiness of the replied-to id, which is kept; `replies` is None exactly without a replies object and otherwise its count (0 when absent); no sender means no sender fields; the text is "" exactly without text; the media path is the one given |
| TelegramScraper.StoredPath | scripts/telegram_scraper.py:374-382 | a message gets a media path exactly when downloads are on, it has media of a configured kind and the download succeeds |
| TelegramScraper.Limited | scripts/telegram_scraper.py:363-368 | the iterator yields a prefix of the history, of length `max_messages` when the history is longer |
| TelegramScraper.RecentPrefix | scripts/telegram_scraper.py:370-372 | the kept messages are a prefix, none older than the start date, and the message after them, if any, is older |
| TelegramScraper.ScrapeChannelMessages | scripts/telegram_scraper.py:359-402 | the loop returns the records of the messages up to the first one older than the start date, the number of them, and the number of successful downloads among them |
| TelegramScraper.WindowRule | scripts/telegram_scraper.py:363-372 | the scraped messages are a prefix of the history, at most `max_messages` long, none older than the start date, and they stop only at an older message or at the limit |
| TelegramScraper.RecordsSpec | scripts/telegram_scraper.py:384-386 | records are appended one per message, in iteration order, each built from its message and stored path |
| TelegramScraper.DownloadCountBound | scripts/telegram_scraper.py:376-382 | there are no more downloads than messages, and none when downloads are off |
| TelegramScraper.DownloadCountAll | scripts/telegram_scraper.py:376-382 | every message counts as a download exactly when every message's media was downloaded |
| ScraperDemo.GenerateSampleMessage | run_scraper_demo.py:45-82 | for any integer id: the text is entry `id % 10` of the list of sample texts; the sender id is in [1000000, 1000100); views are in [0, 1000), forwards in [0, 50) and replies in [0, 20); `is_reply` exactly when `id % 5 == 0`, and then the replied-to id is `id - 1`, else None; `has_media` exactly when `id % 3 == 0`, and exactly then the type is "photo" and the path `data/raw/media/<channel>_<id>.jpg` |
| ScraperDemo.TextsRepeat | run_scraper_demo.py:63 | the sample texts repeat with period ten |
| ScraperDemo.SampleChannelInfoOf | run_scraper_demo.py:86-97 | the channel id is in [0, 1000000), the participant count in [1000, 11000), the title is the channel's display name plus " Medical Center", and the creation date 365 days back |
| ScraperDemo.GenerateSampleChannelData | run_scraper_demo.py:84-107 | the channel data holds the channel info and the first `num_messages` messages, or none when it is negative |
| ScraperDemo.SampleMessagesSpec | run_scraper_demo.py:102-105 | a channel file holds exactly `n` messages, with ids 1 to `n` in increasing order, each generated from its id |
| ScraperDemo.MessageDateBounds | run_scraper_demo.py:103 | every message of a file is dated within one day of the file's date |
| ScraperDemo.MessagesUpToClosedForm | run_scraper_demo.py:116-139 | over `d` days each channel gets 20·d + 5·d·(d−1)/2 messages in total |
| ScraperDemo.CreateDayFiles | run_scraper_demo.py:126-139 | one day's loop writes one file per channel, in order, and adds the number of channels to the file count and 20 + 5·d messages per channel to the message count |
| ScraperDemo.DayFilesShaped | run_scraper_demo.py:126-130 | each file of day `d` belongs to its channel and holds 20 + 5·d messages |
| ScraperDemo.CreateSampleData | run_scraper_demo.py:109-145 | `create_sample_data` writes the files of every day back, counts days × channels files, and counts, for each channel, 20 + 5·d messages on each day offset d |
| ScraperDemo.SampleFilesShaped | run_scraper_demo.py:116-130 | every day's files are in that shape |
| ScraperDemo.SampleHasMediaFile | run_scraper_demo.py:73-75 | a generated message is one the loader keeps a media record for exactly when its id is a multiple of 3 |
| ScraperDemo.LoadedSampleMedia | run_scraper_demo.py:73-75 | loading a generated file keeps a media record for message k exactly when k + 1 is a multiple of 3, with the sample path and the file size 1024 |

## Left out

- Telethon calls, `asyncio` sleeps, `FloodWaitError` handling, `get_channel_info`, media downloads, logging and all JSON, CSV and database reads and writes. A download's success is the parameter `downloads`, and the files a loader reads are a list of values.
- Per-message exceptions in the Telethon scraper's loop, which log and continue, are not modelled; each message is handled by the normal path.
- TelegramScraper.ScrapeChannelMessages: the model assumes that a message's date and the start date can be compared. Telethon gives `message.date` as a timezone-aware UTC datetime, while the start date at scripts/telegram_scraper.py:350-351 comes from the naive `datetime.utcnow()`. In Python that comparison at line 371 raises `TypeError` for every message, and lines 400-402 log it and continue, so the script as written keeps no message at all. The model keeps the messages the date window would select if both dates were naive UTC, which is evidently the intent.
- In the data-cleaning script, a message that raises is modelled only where the shapes the code reads make it raise: a truthy non-dictionary `replies`, or a dictionary in the `text` list whose `text` is not a string, skips the message, and a message that is not a dictionary makes the handler raise too, which discards the whole file. A top-level value that is not an object, or `messages` that is not a list, is not modelled; those files end in the same empty result.
- Loader.LoadJsonFiles: where a file raises is given by the file value (`ChannelOnly`, or the `Ending` of an `Export`), not derived from the keys its messages lack. The row queued for a failing message whose text is missing carries the text as given.
- Python's `hash()` (randomised per process), `datetime.utcnow()`, `isoformat`, `strftime`, `strptime` and `fromisoformat` are left out. Dates are integers (seconds in the scraper, minutes in the demo), and the hash, the clock and ISO formatting are parameters. The date parsing at scripts/data_cleaning.py:205-213 and `extracted_at` at load_data_to_sqlite.py:140 are left out.
- The regular-expression engine itself is not modelled: each fixed pattern is a hand-written matcher. The claim that greedy matching without backtracking equals Python's match holds by the disjointness argument in the comments and is not proved.
- Unicode: `\d` is the ASCII digits, case mapping (`lower`, `title`, `re.IGNORECASE`) covers ASCII letters only, and letters and word characters outside ASCII are only the assigned Ethiopic syllables (U+1200-U+135A less its 21 unassigned code points, as of Unicode 15) and the Ethiopic digits and numbers (U+1369-U+137C). Digits and letters of other scripts are not classified.
- `raw_data` and its `json.dumps` in the loader, `media_info.duration` (a float) in the data-cleaning media row, and `file_size` from `os.path.getsize` in the scraper package's `save_media_file` are left out.
- `save_to_database` of both the scraper package and the data-cleaning script are modelled only by their gates: channel upsert, duplicate-message skipping, flushes and commits are database behaviour.
- `Path` joining (`Path(media_dir) / channel / filename`) is modelled as joining with '/'; path normalisation is not modelled.
- TelegramScraper.Limited: a `max_messages` of zero or less yields no message. The `limit=None` (unbounded) case of Telethon cannot arise from the integer configuration and is not modelled.
- TelegramScraper.ScrapeChannelMessages: the start date is a parameter. The subtraction of `days_back` days from `utcnow()` is not modelled.
- The scraper package's own `scrape_channel_messages` and `scrape_all_channels` (src/telegram_scraper/scraper.py:184-240, 318 on) are Telethon and database orchestration around the modelled extractor.
- Scraper.SavedFileName: the `strftime` formatting of the timestamp is a parameter, so no injectivity is stated for these names.
- Loader.BusinessNameOf: states length and the absence of '_' only. Its `title()` is modelled for ASCII letters, and the title-casing itself is not restated as a property.
- Scraper.ContactLabelled and Scraper.ContactCountryCode: state only the minimum length of the captured group; its characters (digits, whitespace, '-', '(' and ')') are not stated.
- `create_media_samples` and the rest of the demo script write directories and files and are left out.
