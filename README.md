# Contribution tracker core, in Dafny

This project models the core of a contribution-tracking app. The app reads payment
notifications that arrive by SMS or e-mail and turns them into contribution records. It keeps
those records and an activity log, and it reports statistics over a monitoring window.

It has four parts:

- **The payment-message parser** (`message_parser.dfy`, built on `patterns.dfy` and `text.dfy`).
  - `parsePaymentMessage` tries the service profiles zelle, venmo, cashapp and mpesa in that
    order. The first profile whose amount, sender and memo patterns all match produces the
    record. Otherwise a generic fallback is tried. If that also fails, the result is `null`.
  - `extractMemberIdFromMemo` returns the capture of the first of six member-id patterns that
    matches.
  - `validateParsedMessage` checks a parsed record.
- **How the patterns are modelled.** Each regular expression the parser uses is written out
  by hand as an anchored scanner in `patterns.dfy`. It follows JavaScript's matching rules:
  - the leftmost match wins;
  - quantifiers are greedy, and backtracking is worked out per pattern;
  - `/i` folds ASCII case.

  `s.match(re)[1]` is `Patterns.Capture`. The worked examples in `parser_examples.dfy` run the
  mock notification bodies of the SMS and e-mail readers through the parser. They also run an
  M-Pesa style SMS, a short SMS whose parse fails validation, a `Ref:` memo, a message without
  a digit and a comma-grouped amount.
- **The contribution store** (`contribution_service.dfy`). It adds, patches, deletes and clears
  records, and it filters them by status and by an inclusive date window.
- **The log store** (`log_service.dfy`). It appends entries with a cap of 1000 and has the same
  two filters. It also has the CSV export, which doubles the quotes of the message column.
- **The monitoring session** (`monitoring_service.dfy`). It holds a start time, an end time and
  an active flag, plus the statistics counted over the stored contributions.

Representations:

- Stored lists are `seq` fields of classes, and the storage operations are methods that
  reassign them.
- A `parseFloat` amount is `Option<real>`, where `None` stands for NaN.
- Clock readings are `int`. Generated ids and the current time are parameters.

## Model

| member | source | states |
|---|---|---|
| Patterns.DollarAmountAt | utils/messageParser.ts:13 | `\$?([\d,]+\.?\d*)` matches at a position exactly when a digit or comma is there, or a '$' followed by one. Group 1 starts there, or one past the '$'. It is a numeral the greedy quantifiers cannot extend. |
| Patterns.CodeAmountAt | utils/messageParser.ts:28 | `ksh\s*([\d,]+\.?\d*)` matches exactly when the code stands there, ignoring case, and a digit or comma follows the blanks after it. Group 1 starts right after those blanks and is a numeral that cannot be extended. |
| Patterns.NameAfterAt | utils/messageParser.ts:14 | `from\s+([A-Za-z\s]+)` matches exactly when "from" and at least one blank stand there and then a letter follows the blanks, or two or more blanks were skipped. Group 1 starts on that letter, or on the last blank when no letter follows. It runs to the end of the letter-and-blank run. |
| Patterns.LabelDigitsAt | utils/messageParser.ts:15 | `memo:\s*(?:member\s*id\s*)?(\d+)` and its siblings match exactly when the marker stands there and a digit stands where the optional qualifier leaves off. Group 1 starts there and runs to the end of the digit run. |
| Patterns.QualifiedDigits | utils/messageParser.ts:20 | `(?:q1\s*q2\s*)?(\d+)` from a position matches exactly when a digit stands at `QualifiedStart`. Group 1 starts there and runs to the end of the digit run. |
| Patterns.QualifiedStart | utils/messageParser.ts:20 | The digits start just past the qualifier words and their blanks when those words are there and a digit follows them. Otherwise the optional group is skipped and the digits start at the position itself. |
| Patterns.WordsEndShape | utils/messageParser.ts:75-79 | A match of the words starts with the first word, and the greedy `\s*` after the last word leaves no blank behind. |
| Patterns.AnyLabelDigitsAt | utils/messageParser.ts:53 | The generic memo pattern (one of the labels id, member, account, note or memo, a colon, blanks, `(\d+)`) fails exactly when no label with its colon matches there. Otherwise some label and colon stand there, and group 1 starts where the blanks after the colon end and runs to the end of the digit run. |
| Patterns.LooseLabelDigitsAt | utils/messageParser.ts:75-79 | `member\s*id\s*:?\s*(\d+)` and the other label patterns of the memo extractor match exactly when the words match and a digit follows the optional colon and its blanks. Group 1 starts on that digit and runs to the end of the digit run. |
| Patterns.BareDigitsAt | utils/messageParser.ts:80 | `(\d{6,})` matches exactly where six digits start, and captures the whole digit run from there. |
| Patterns.MatchAt | utils/messageParser.ts:13-30 | One pattern at one position: group 1 starts no earlier than the match and is a capture of the pattern's class that the greedy quantifiers cannot extend. |
| Patterns.CaptureUnique | utils/messageParser.ts:13-30 | Where group 1 starts decides where it ends: two captures of one pattern with the same start are the same span. |
| Patterns.NumeralSpanIsFrom | utils/messageParser.ts:13 | A numeral the quantifiers cannot extend is exactly the one the greedy scan reads from its start. |
| Patterns.Search | utils/messageParser.ts:36-38 | The leftmost match: it is a match, no earlier position matches, and `None` means no position matches. |
| Patterns.Capture | utils/messageParser.ts:36-38 | `s.match(re)?.[1]`: `None` exactly when no position matches; otherwise the text fits the pattern's capture class. |
| Patterns.CaptureAt | utils/messageParser.ts:36-38 | A match at `q` with none before it is the one `match` reports. |
| Patterns.NoDigitNoCapture | utils/messageParser.ts:74-81 | A pattern whose group 1 is a digit run captures nothing in a text without digits. |
| Patterns.MatchAtLocal | utils/messageParser.ts:13-30 | Every pattern is local: matching at `p` in a string is matching at `p - d` in its suffix from `d`, shifted by `d`. |
| Text.Trim | utils/messageParser.ts:42 | `trim()` leaves no blank at either end. |
| Text.TrimIsSlice | utils/messageParser.ts:42 | `trim()` removes only blanks, and only at the ends: the result is a slice of the input. |
| Text.TrimKeepsClass | utils/messageParser.ts:42 | Trimming a string of letters and blanks leaves letters and blanks. |
| Text.StripCommas | utils/messageParser.ts:43 | `replace(/,/g, '')` leaves no comma, keeps every other character, and adds none. |
| Text.StripCommasAppend | utils/messageParser.ts:43 | Removing commas distributes over concatenation. |
| Text.ParseFloat | utils/messageParser.ts:43 | `parseFloat` of digits with at most one '.' is NaN exactly when the text starts with neither a digit nor a '.' followed by a digit. Otherwise it is non-negative. |
| Text.ParseFloatDecimal | utils/messageParser.ts:43 | `parseFloat("d.f")` is the exact decimal with integer digits `d` and fraction digits `f`. It is NaN only when both are empty. |
| Text.ParseFloatWhole | utils/messageParser.ts:43 | `parseFloat` of a digit string is the whole number it spells. The empty string gives NaN. |
| Text.TrimEmptyIffBlank | utils/messageParser.ts:100 | `trim()` gives the empty string exactly when the text is all blanks. |
| MessageParser.AmountOf | utils/messageParser.ts:43 | The amount of a numeral capture is NaN or non-negative. |
| MessageParser.AmountOfWhole | utils/messageParser.ts:43 | An amount without a '.' is the whole number its digits spell once the commas are removed. With no digit it is NaN. |
| MessageParser.AmountOfDecimal | utils/messageParser.ts:43 | An amount `a.b` is the decimal with the comma-free digits of `a` before the point and `b` after it. With no digit on either side it is NaN. |
| MessageParser.ParserRulesWellShaped | utils/messageParser.ts:11-32 | Every profile, and the fallback at lines 51-53, pairs an amount pattern that captures numerals with the "from" sender pattern and a memo pattern that captures digits. |
| MessageParser.ApplyRules | utils/messageParser.ts:40-46 | A profile yields a record exactly when its three patterns match. The record's date is the clock reading. |
| MessageParser.FirstProfile | utils/messageParser.ts:35-48 | The loop yields nothing exactly when no profile matches fully. Otherwise it yields what some profile's rules give. |
| MessageParser.ParsePaymentMessage | utils/messageParser.ts:8-69 | The date of a parsed record is the clock reading at parse time. |
| MessageParser.FirstProfileWins | utils/messageParser.ts:35-48 | The first profile that matches fully decides the loop's result. |
| MessageParser.ParseTakesFirstProfile | utils/messageParser.ts:11-48 | Profiles are tried as zelle, venmo, cashapp, mpesa, and the first full match gives the result. |
| MessageParser.ParseFallsBack | utils/messageParser.ts:50-64 | The fallback is used when no profile matches. The result is `null` exactly when no profile and not the fallback match. |
| MessageParser.ParseIgnoresSourceAndClock | utils/messageParser.ts:8-64 | `source` is never read. Two calls agree on everything but the date. |
| MessageParser.ParsedFields | utils/messageParser.ts:40-47 | On success the sender is the trimmed "from" capture, so it holds letters and inner blanks only and may be empty. The member id is a non-empty digit string. The amount is NaN or non-negative. The date is the clock reading. |
| MessageParser.AmountNaNIffNoDigit | utils/messageParser.ts:43 | An amount capture reads as NaN exactly when it holds no digit, as with a comma-only capture. |
| MessageParser.FirstCapture | utils/messageParser.ts:83-90 | The loop over the memo patterns gives `null` exactly when none matches. Otherwise it gives the capture of one that does. |
| MessageParser.ExtractMemberIdFromMemo | utils/messageParser.ts:71-95 | `null` exactly when none of the six patterns matches. Otherwise the id is a non-empty digit string. |
| MessageParser.FirstCaptureWins | utils/messageParser.ts:83-88 | The first pattern in the list that matches decides the result. |
| MessageParser.ExtractTakesFirstPattern | utils/messageParser.ts:74-88 | The member-id patterns are tried in their priority order. |
| MessageParser.SixDigitsGiveMemberId | utils/messageParser.ts:80 | Six consecutive digits anywhere in a memo guarantee a member id. |
| MessageParser.NoDigitNoMemberId | utils/messageParser.ts:74-90 | A memo without a digit has no member id. |
| MessageParser.NoDigitNoParse | utils/messageParser.ts:15-64 | A message without a digit does not parse. |
| MessageParser.ValidatedParse | utils/messageParser.ts:97-112 | On a parser result, validation holds exactly when the sender is non-empty, the amount is neither 0 nor NaN, and the member id has at least five characters. |
| MessageParser.ValidateParsedMessage | utils/messageParser.ts:97-117 | Validation holds exactly when the sender holds a non-blank character, the amount is a number above 0, and the member id has at least five characters. |
| ParserExamples.ZelleExample | services/smsService.ts:98 | The Zelle body parses as ("Jane Doe", 25, "918245"). |
| ParserExamples.VenmoNotZelle | utils/messageParser.ts:15 | The Venmo body has no "memo:", so the zelle profile does not match it. |
| ParserExamples.VenmoExample | services/smsService.ts:103 | The Venmo body parses as ("John Smith", 30, "784293"). |
| ParserExamples.CashAppNotZelle | utils/messageParser.ts:15 | The Cash App body has no "memo:", so the zelle profile does not match it. |
| ParserExamples.CashAppNotVenmo | utils/messageParser.ts:20 | In the Cash App body "Note:" is followed by "Account No", not by digits or "member id", so the venmo profile does not match it. |
| ParserExamples.CashAppExample | services/emailService.ts:87 | The Cash App body parses as ("Mike Brown", 15, "673892"). |
| ParserExamples.RefMemoExample | utils/messageParser.ts:79 | "Ref: 12345" gives member id "12345". |
| ParserExamples.ThanksExample | utils/messageParser.ts:64 | A message without a digit gives `null`. |
| ParserExamples.CommaAmountExample | utils/messageParser.ts:13 | The amount pattern captures "1,240.50" from "$1,240.50", and that capture reads as 1240.5 (line 43). |
| ParserExamples.FallbackExample | services/emailService.ts:81 | No profile matches the mock e-mail "Hi! You received $20.00 from Sarah Johnson for Member ID: 892374", so the fallback parses it. The result is sender "Sarah Johnson for Member ID", because the name run stops only at the colon, with amount 20 and member id "892374". |
| ParserExamples.ShortIdExample | utils/messageParser.ts:97-117 | "$5 from Al. Memo: 12" parses by the zelle profile to ("Al", 5, "12"), and validation rejects that record because the member id is shorter than five characters. |
| ParserExamples.MpesaExample | utils/messageParser.ts:27-31 | "Ksh 1,500 from Mary. Account: 204518" fails the three dollar profiles and parses by the mpesa profile to ("Mary", 1500, "204518"). |
| ContributionService.Stamped | services/contributionService.ts:31-35 | A new record carries every supplied field, plus the generated id and timestamp. |
| ContributionService.Overlay | services/contributionService.ts:51 | `{ ...c, ...updates }` with no updates is `c`. An update without an id keeps the id, and one without a timestamp keeps the timestamp. |
| ContributionService.OverlayLaws | services/contributionService.ts:51 | Two successive updates of a record are one update by the merged patch, where the later patch wins field by field. Applying a patch twice is applying it once. |
| ContributionService.FindIndex | services/contributionService.ts:48 | `findIndex` gives the first position holding the id, or -1 exactly when none does. |
| ContributionService.FindAfterAdd | services/contributionService.ts:48 | After an add, an update finds the earlier record with that id, or the new record when the id was absent. |
| ContributionService.WithoutId | services/contributionService.ts:63 | Deleting keeps exactly the records whose id differs, and an absent id changes nothing. |
| ContributionService.WithoutIdAppend | services/contributionService.ts:63 | Appending a record and then deleting an id keeps the appended record exactly when its id differs. |
| ContributionService.DeleteAfterAdd | services/contributionService.ts:63 | Deleting an id removes what adding a record with it added, and leaves nothing for an update to find. |
| ContributionService.ContributionsByStatus | services/contributionService.ts:84-92 | The result holds exactly the stored records with that status. |
| ContributionService.ContributionsByDateRange | services/contributionService.ts:71-82 | The result holds exactly the records whose timestamp is within the window, both ends included. An inverted window gives nothing. |
| ContributionService.FiltersAfterAdd | services/contributionService.ts:71-92 | Both filters keep stored order: a record added last comes last in each filter it passes. |
| ContributionService.StatusPartition | services/contributionService.ts:10 | Every record has exactly one of the three statuses. |
| ContributionService.ContributionStore.AddContribution | services/contributionService.ts:28-43 | The new record is appended after the earlier ones, which are unchanged. |
| ContributionService.ContributionStore.UpdateContribution | services/contributionService.ts:45-58 | Only the first record with the id is overlaid with the updates. The length and every other record are unchanged, and an absent id changes nothing. |
| ContributionService.ContributionStore.DeleteContribution | services/contributionService.ts:60-69 | Every record with the id goes, and the rest keep their order. |
| ContributionService.ContributionStore.ClearAllContributions | services/contributionService.ts:94-101 | The list reads back empty. |
| LogService.Logged | services/logService.ts:31-35 | A new entry carries every supplied field, plus the generated id and timestamp. |
| LogService.KeepLast | services/logService.ts:40-42 | The splice keeps exactly the last `max` elements of a list over the cap. A list within the cap is untouched. |
| LogService.AddLogCases | services/logService.ts:37-42 | The new entry is always kept, and kept last. Below the cap it is simply appended. At the cap the oldest entry makes room. A list already over the cap is cut back to its last 999 entries before the new one. |
| LogService.LogsByStatus | services/logService.ts:64-72 | The result holds exactly the entries with that status. |
| LogService.LogsByDateRange | services/logService.ts:51-62 | The result holds exactly the entries logged within the window, both ends included. |
| LogService.LogFiltersAfterAdd | services/logService.ts:51-72 | Both filters keep stored order: an entry appended last comes last in each filter it passes. |
| LogService.Join | services/logService.ts:114 | `join` of no parts is empty, and of one part is that part. Otherwise its length is the parts' lengths plus one separator between each pair of neighbours. |
| LogService.JoinEnds | services/logService.ts:99-114 | `join` starts with the first part and ends with the last. |
| LogService.DoubleQuotes | services/logService.ts:109 | `replace(/"/g, '""')` adds one character per double quote and leaves a message without quotes unchanged. |
| LogService.UndoubleDoubled | services/logService.ts:109 | Un-doubling the quotes of `replace(/"/g, '""')` gives back the text. |
| LogService.QuoteField | services/logService.ts:109 | The Message column starts and ends with a double quote. |
| LogService.MessageRoundTrip | services/logService.ts:109 | Reading the quoted Message column back gives the original message. |
| LogService.RowFields | services/logService.ts:102-110 | A row has one column per header. |
| LogService.CsvRow | services/logService.ts:102-111 | A row starts with the entry's timestamp and ends with its quoted message. |
| LogService.RowMessageReadsBack | services/logService.ts:109-111 | The quoted message at the end of a row reads back as the message. |
| LogService.CsvRows | services/logService.ts:98-112 | The header row comes first, then one row per entry in input order. |
| LogService.ConvertToCsv | services/logService.ts:97-115 | The export is the header row and one row per entry, joined with newlines, so it starts with the header row. |
| LogService.HeaderRowText | services/logService.ts:98-99 | The header row is "Timestamp,Sender,Amount,Member ID,Source,Status,Message". |
| LogService.LogStore.AddLog | services/logService.ts:28-49 | The stored list becomes the last 1000 entries of the old list plus the new entry. The new entry is last, and at most 1000 entries remain. |
| LogService.LogStore.ClearLogs | services/logService.ts:74-81 | The list reads back empty. |
| MonitoringService.StatsOf | services/monitoringService.ts:62-72 | The SMS and e-mail counts add up to the number counted. The success and failure counts are the sizes of the status filters, and pending records are in neither. |
| MonitoringService.UnloadableGivesNoStats | services/monitoringService.ts:73-80 | A list that cannot be loaded reads as empty, and every count is zero. |
| MonitoringService.StatsAfterAdd | services/monitoringService.ts:62-65 | One more record adds one to its source's count and one to its status's count. |
| MonitoringService.Monitor.constructor | services/monitoringService.ts:13-15 | A new session has no times and is inactive, so an active session always has both times. |
| MonitoringService.Monitor.StartMonitoring | services/monitoringService.ts:17-32 | The window is stored and the session is active. From then on only records stored within the window count. |
| MonitoringService.Monitor.StopMonitoring | services/monitoringService.ts:34-47 | The session is inactive, and `getMonitoringTimeRange` still returns the window it had. From then on every stored record counts. |
| MonitoringService.Monitor.IsMonitoringActive | services/monitoringService.ts:84-86 | An active session has a full time range. An inactive one counts every stored record. |
| MonitoringService.Monitor.GetMonitoringTimeRange | services/monitoringService.ts:88-93 | While the session is active the range has both ends, and the statistics count exactly the records stored within it. |
| MonitoringService.Monitor.GetStats | services/monitoringService.ts:49-72 | All records count unless the session is active with both times set. In that case only records stored within the inclusive window count, and an inverted window counts nothing. |

## Left out

- Persistence: AsyncStorage, `JSON.stringify` and `JSON.parse` are not modelled. A stored list is a class field, and a save followed by a load returns the same list.
- Load failures: a failed load (a missing entry or unparsable JSON) reads as the empty list, as `getAllContributions` and `getAllLogs` return it. Write failures, which the source logs and rethrows, are not modelled.
- Concurrency: `async`/`await` and the read-modify-write races between overlapping calls are not modelled. Each operation is one atomic step.
- `console` output is not modelled. `exportLogs` is left out because it only logs the CSV text.
- Sub-services: the calls that start and stop the SMS and e-mail watchers inside `startMonitoring` and `stopMonitoring` are not modelled, and neither is the exception one of them could raise after the fields were set. The watchers are not part of this model.
- Clock and ids: `Date.now()`, `new Date()` and ISO-8601 parsing are replaced by integer clock readings. Ids and the current time are parameters. `MonitoringService.Monitor.GetStats` receives the loaded contribution list as a parameter.
- Floating point: IEEE rounding is not modelled. An amount is an exact decimal, and NaN is `None`.
- `LogService.CsvRow`: `toString()` of an amount and the ISO text of a timestamp are function parameters of the CSV functions (`show`, `iso`), because the model has no floating-point rendering.
- Character set: `\s`, `trim()` and `/i` are restricted to ASCII. Unicode blanks and case folding are not modelled.
- `MessageParser.ParsePaymentMessage`: the `try`/`catch` that turns a fault into `null` has no counterpart, because no operation of the model can fail.
- Patterns.MatchAt: its own contract says only that group 1 starts no earlier than the match and is a capture of the pattern's class. Where the capture starts is stated by each scanner's contract (`DollarAmountAt` to `BareDigitsAt`), and `CaptureUnique` makes the capture a function of its start.
- ContributionService.Overlay: a field of `Partial<Contribution>` that is present but `undefined` would erase the stored value. The model only distinguishes absent from present.
- `LogService.ConvertToCsv`: the optional `parseError` field is not a CSV column, as in the source.
- Other columns: columns other than Message are emitted without quoting, as in the source. A comma or a newline inside a sender name therefore breaks the column layout. The model states no round trip for those columns.
