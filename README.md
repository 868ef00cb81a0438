# wbp2 messaging bot: a verified model

This project models the decision logic of wbp2. wbp2 is a messaging bot for WhatsApp with an HTTP control panel. Its server, `app.js`, does these things:

- sends single messages;
- runs broadcast campaigns over a recipient list;
- schedules follow-up messages that a periodic tick fires;
- cancels a recipient's follow-ups when the recipient's reply contains a stop keyword;
- keeps a registry of client sessions per device, with a QR code and a status text for each;
- manages a license list.

The router `routers/sar.js` keeps a list of auto-reply keywords. It answers a message with the response of the first keyword the message contains.

The model is split into one module per part of the system:

| module | models |
|---|---|
| `Text` | the JavaScript string built-ins the handlers use: `replace(/\D/g,'')`, `toLowerCase`, `trim`, `split`, `includes`, `endsWith`, decimal `parseInt` |
| `Phone` | `normalizePhone` and the chat id `<number>@c.us` |
| `Spintax` | `parseSpintax`: one pass of `\{([^{}]+)\}`, with the random pick given as a sequence of choices |
| `FollowUps` | delay parsing, stop-keyword parsing, whole-word matching (`\b…\b`), the tick and the stop handler, and the class `FollowUpQueue` over the queue |
| `Campaign` | recipient parsing, `{N}` substitution, the broadcast loop (the function `Run` and the methods `Broadcast`, `Deliver`, `Turn` and `Visit`), the broadcast log, and `/send-message` |
| `Devices` | `initClient`, the four client events, and the `/qr/:id`, `/status/:id` and `/devices` lookups (class `DeviceRegistry`) |
| `Licenses` | check, add (with key generation) and delete of licenses (class `LicenseList`) |
| `AutoReply` | the keyword list of `routers/sar.js`: add, delete by loosely equal id, first-match reply (class `KeywordStore`) |

Randomness, the clock and the outcome of every send are inputs.

- A broadcast takes one `Draw` per recipient: the fallback-name pick, the spintax choices, whether the send succeeded and the `sent_at` time.
- The broadcast's single `now` is a parameter. All follow-ups of one broadcast are timed from it.
- The tick takes one choice sequence per queue position.

Two behaviours of the code that a reader might not expect:

- The `ready` event leaves the stored QR code in place (app.js:83-86).
- `/status/:id` creates a client before it answers, so it never answers "Tidak Diketahui" (app.js:169-171).

## Model

| member | source | states |
|---|---|---|
| Text.Digits | app.js:106 | the result holds only the digits 0-9 and is no longer than the input |
| Text.DigitsAppend | app.js:106 | the digits of a concatenation are the digits of each part, in order |
| Text.DigitsOfDigits | app.js:106 | a string of digits is its own digit string |
| Text.DigitsOfNonDigits | app.js:106 | a string without digits yields the empty string |
| Text.DigitChar | app.js:127 | a number below ten is written as the digit character of that value |
| Text.Decimal | app.js:126 | the decimal numeral is a non-empty string of digits |
| Text.DecimalRoundTrip | app.js:196 | reading back the decimal numeral of n gives n |
| Text.Lower | app.js:224 | lower-casing keeps the length and maps each character on its own |
| Text.LowerIsLower | app.js:224 | a lower-cased string holds no upper-case letter |
| Text.LowerFixedPoint | app.js:224 | lower-casing leaves a string unchanged exactly when it has no upper-case letter |
| Text.TrimStart | app.js:224 | the result is a suffix of the input, everything cut off before it is whitespace, and it does not start with whitespace |
| Text.TrimEnd | app.js:224 | the result is a prefix of the input, everything cut off after it is whitespace, and it does not end with whitespace |
| Text.Trim | app.js:224 | the result is the slice of the input left after cutting whitespace off the front and then the back; what is cut is whitespace, and the result neither starts nor ends with whitespace |
| Text.TrimIdentity | app.js:224 | trimming a trimmed string changes nothing |
| Text.LowerKeepsTrimmed | app.js:224 | lower-casing a trimmed string keeps it trimmed |
| Text.Split | app.js:234 | split yields at least one piece, at least two when the separator occurs, no piece holds the separator and no piece is longer than the input |
| Text.JoinSplit | app.js:234 | joining the pieces with the separator gives the string back |
| Text.SplitNoSeparator | app.js:234 | a string without the separator splits into itself alone |
| Text.SplitAtFirst | app.js:234 | the first piece ends at the first separator |
| Text.IncludesEmpty | routers/sar.js:50 | every string includes the empty string |
| Phone.Normalize | app.js:105-108 | the normalised number holds only digits and never starts with 0 |
| Phone.NormalizeDigits | app.js:105-108 | digits that start with 0 become 62 followed by the rest; any other digit string is kept as it is |
| Phone.TrunkAndCountryCodeAgree | app.js:105-108 | "0812…" and "+62 812…" normalise to the same number |
| Phone.NormalizeIdempotent | app.js:105-108 | normalising twice is the same as normalising once |
| Phone.ChatId | app.js:250 | the chat id of a phone: its normalised number with `@c.us` appended (`ChatIdShape` and `ChatIdNormalizes` state its properties) |
| Phone.ChatIdShape | app.js:250 | the chat id is the normalised number followed by `@c.us` |
| Phone.ChatIdNormalizes | app.js:347 | a chat id normalises back to its number, so the stop handler finds entries stored under it |
| Spintax.GroupEnd | app.js:110 | the pattern matches only at an opening brace closed by a brace with at least one non-brace character in between |
| Spintax.NextBrace | app.js:110 | the scan stops at the first brace at or after the start, or at the end of the text |
| Spintax.GroupEndWhen | app.js:110 | every such brace group is matched |
| Spintax.Choose | app.js:111-112 | the pick is one of the alternatives |
| Spintax.ExpandFrom | app.js:109-113 | the scan resumed at i yields no more characters than remain after i |
| Spintax.Expand | app.js:109-113 | the expanded text is never longer than the template, since each group becomes one of its own alternatives |
| Spintax.ExpandOptional | app.js:110 | a missing text expands to "" |
| Spintax.ExpandFromNoGroup | app.js:109-113 | text without a group is copied unchanged, whatever the choices |
| Spintax.ExpandNoGroup | app.js:109-113 | text without a group is returned unchanged |
| Spintax.ExpandEmpty | app.js:109-113 | "" expands to "" |
| Spintax.ExpandNoOpeningBrace | app.js:109-113 | text without `{` is returned unchanged |
| Spintax.ExpandSingleGroup | app.js:109-113 | `{g}` becomes one of the alternatives of g |
| Spintax.ExpandTwoAlternatives | app.js:109-113 | the group with alternatives a and b becomes "a" or "b" |
| Spintax.ExpandEmptyBraces | app.js:110 | `{}` stays literal |
| Spintax.ExpandOuterBraces | app.js:109-113 | the pass is single: `{{g}}` becomes `{` + a pick of g + `}` |
| Spintax.ExpandNestedAt | app.js:109-113 | an inner group inside literal outer braces is replaced and the outer braces are kept |
| FollowUps.UnitMs | app.js:196 | s, m, h and d are the only units, each worth at least 1000 ms |
| FollowUps.Scale | app.js:196 | the scaled count exists exactly for a known unit and is at least 1000 times the count |
| FollowUps.ScaleByUnit | app.js:196 | scaling a count multiplies it by the unit's milliseconds, and fails exactly for an unknown unit |
| FollowUps.ParseDelay | app.js:194-196 | a delay parses exactly when it is one or more digits followed by one of the units s, m, h, d |
| FollowUps.ParseDelayRoundTrip | app.js:194-196 | the delay "<n><unit>" parses to n times the unit's milliseconds |
| FollowUps.ParseDelayTenSeconds | app.js:194-196 | "10s" is 10000 ms |
| FollowUps.ParseDelayRejects | app.js:194-195 | a delay that is not digits followed by a unit is rejected |
| FollowUps.ParseStops | app.js:192 | one keyword per comma-separated piece, each trimmed, lower-case and free of commas |
| FollowUps.StopWordClean | app.js:192 | a trimmed, lower-cased piece holds no comma, no upper-case letter and no outer whitespace |
| FollowUps.TrimKeepsOut | app.js:192 | trimming adds no character |
| FollowUps.ParseStopsDefault | app.js:183 | the default "" yields the single empty keyword |
| FollowUps.Scheduled | app.js:193-199 | a list of rules schedules at most one entry per rule |
| FollowUps.ScheduledShape | app.js:193-199 | each scheduled entry is for the recipient, carries the stop keywords, and is due a parsed delay after the one `now`; no rule adds more than one entry |
| FollowUps.ScheduledAppend | app.js:193-199 | rules are scheduled one after another, in order |
| FollowUps.Pending | app.js:326-334 | a tick keeps no more entries than the queue holds |
| FollowUps.Due | app.js:327-331 | every entry is either due or pending, so the two counts add up to the queue's length |
| FollowUps.Fired | app.js:327-331 | a tick sends exactly one message per due entry |
| FollowUps.PendingExact | app.js:326-334 | after a tick the queue holds exactly the entries with a time after now |
| FollowUps.PendingAppend | app.js:326-334 | the tick keeps the kept entries in their original order |
| FollowUps.TickPartition | app.js:326-334 | every entry is either kept or fired, never both (as multisets) |
| FollowUps.FiredAreDue | app.js:327-331 | one send per due entry, to that entry's phone, in queue order |
| FollowUps.DueSubset | app.js:327 | fired entries come from the queue |
| FollowUps.PendingTwice | app.js:324-336 | a second tick at a time no later than the first does nothing, and ticking at an earlier then a later time equals the later tick alone |
| FollowUps.TenSecondFollowUp | app.js:194-197 | a "10s" follow-up is queued at T+10000, still pending at T+9999, and fired with its expanded message at T+10001 |
| FollowUps.MatchWordFrom | app.js:350 | the scan from i succeeds exactly when the keyword occurs at some j >= i with a word boundary on both sides |
| FollowUps.MatchesWord | app.js:350 | `\bkw\b` tests true exactly when the keyword occurs with a word boundary on both sides |
| FollowUps.EmptyKeywordMatches | app.js:350 | the empty keyword matches exactly the texts that hold a word character |
| FollowUps.FirstWordChar | app.js:350 | every word character has a word start at or before it |
| FollowUps.ForSender | app.js:347 | selects exactly the entries whose normalised phone is the sender's |
| FollowUps.FindStop | app.js:349-351 | finds an entry with a matching keyword, or reports that none has one |
| FollowUps.StopRequested | app.js:341-351 | whether an inbound message stops the sender's follow-ups; `StopRequestedExactly` states when |
| FollowUps.StopRequestedExactly | app.js:341-353 | a stop is triggered exactly when the sender is not a group and some entry of the sender has a keyword that matches the trimmed, lower-cased reply |
| FollowUps.DefaultStopsOnAnyWord | app.js:350 | with the default stop keywords, any reply holding a word character stops the follow-ups |
| FollowUps.WithoutSender | app.js:368 | a stop never adds entries |
| FollowUps.WithoutSenderExact | app.js:368 | a stop removes exactly the sender's entries |
| FollowUps.WithoutSenderAppend | app.js:368 | a stop keeps the other entries in their order |
| FollowUps.WithoutSenderAbsent | app.js:368 | a queue with no entry for the sender is unchanged |
| FollowUps.StopSilencesSender | app.js:368 | after a stop, no tick sends to that sender |
| FollowUps.FollowUpQueue.constructor | app.js:38 | the queue starts as the loaded list |
| FollowUps.FollowUpQueue.Enqueue | app.js:193-199 | appends exactly the scheduled entries of the rules, timed from `now` |
| FollowUps.FollowUpQueue.Tick | app.js:324-336 | the queue becomes the pending entries, and every due entry is sent with its spintax expanded at fire time |
| FollowUps.FollowUpQueue.OnInbound | app.js:340-376 | groups and non-matching replies change nothing; a matching reply posts a lead update with "Follow up" and removes all of the sender's entries |
| Campaign.ParseItem | app.js:228-243 | an item fails to parse only when it is `null`; the raw phone is always digits |
| Campaign.ParseNumberAndName | app.js:233-236 | "num:rest" yields the digits of num and, as the name, the trimmed text between the first colon and any second one |
| Campaign.ParseObject | app.js:240-242 | an object with a phone yields the phone's digits and its trimmed name, or no name when the name is missing or empty; an object without a phone yields an empty recipient, which is then skipped |
| Campaign.ParseBareNumber | app.js:237-239 | a string without ':' yields its digits and no name |
| Campaign.FinalName | app.js:251 | the explicit name when there is one, otherwise a name from the fallback pool |
| Campaign.ReplaceName | app.js:252 | `replace(/\{N\}/gi, name)`: every `{N}` or `{n}`, scanned left to right, becomes the name (`ReplaceNameNoBrace` and `ReplaceNameEitherCase` state its properties) |
| Campaign.ReplaceNameNoBrace | app.js:252 | text without `{` holds no placeholder |
| Campaign.ReplaceNameEitherCase | app.js:252 | `{N}` and `{n}` are both replaced by the name |
| Campaign.GreetingText | app.js:252 | "Hi {N}" with a name substituted reads "Hi " + name |
| Campaign.Render | app.js:252-253 | the text sent to a recipient: the name substituted first, then the spintax expanded (`GreetingRecord` states an instance) |
| Campaign.ValidRequest | app.js:220-221 | a broadcast needs a non-empty `numbers` array and a non-empty message |
| Campaign.DispatchFor | app.js:260-278 | the send a broadcast makes for one recipient (`DispatchForms` states its cases) |
| Campaign.DispatchForms | app.js:260-278 | media is sent only when a media URL is given, as a caption exactly when the method is "caption", otherwise text then media; the text goes to the recipient in every form |
| Campaign.DelayMs | app.js:223 | there is a pause exactly when pacing is on, the value is positive and the unit is known |
| Campaign.OutcomeOf | app.js:245-301 | a turn crashes exactly on a `null` item, and an attempted send succeeds exactly when the oracle says so |
| Campaign.Step | app.js:245-305 | one turn applied to the progress: a crash stops the loop, a skip changes nothing, an attempt appends its send and its follow-ups (none unless the send succeeded), a pause when pacing is on, and its record on success |
| Campaign.Run | app.js:228-308 | the progress after the first k items, stopping at the first crash; the `Run…` lemmas below state its properties |
| Campaign.LogFor | app.js:280-286 | a log record exists only for a recipient with digits whose send succeeded |
| Campaign.RunCrashesOnlyOnNull | app.js:240-243 | the loop aborts exactly when some item read so far is `null` |
| Campaign.RunStaysCrashed | app.js:314-317 | after an abort nothing further happens |
| Campaign.RunPacing | app.js:245-307 | one pause per attempted send when pacing is on, none for skipped items, none at all otherwise |
| Campaign.RunLogsPerDelivery | app.js:259-305 | one log record per successful send; a failed send is caught and adds none |
| Campaign.RunLogsFromItems | app.js:280-286 | every log record comes from an item whose send succeeded |
| Campaign.RunFollowUps | app.js:288-301 | every follow-up added belongs to a logged recipient, carries the request's stop keywords and is timed from the one `now` |
| Campaign.GreetingRecord | app.js:250-253 | the template "Hi {N}" sent to a named recipient reads "Hi " + name |
| Campaign.GreetingExample | app.js:228-308 | a list of "num:name" and an entry without digits leaves exactly one log record |
| Campaign.AliceExample | app.js:228-308 | ["6281111111111:Alice", "invalid!!"] logs only "Hi Alice" |
| Campaign.BroadcastLog.constructor | app.js:39 | the log starts as the loaded list |
| Campaign.BroadcastLog.Append | app.js:280 | appends one record |
| Campaign.Visit | app.js:228-305 | one item's turn: a crash, a skip, or an attempt whose log record and follow-ups are appended only on success |
| Campaign.Broadcast | app.js:210-318 | an invalid request is rejected with nothing changed; otherwise the log and queue receive exactly what the loop specification describes, and a crash answers with an error |
| Campaign.Deliver | app.js:228-308 | the loop appends exactly the logs and follow-ups of all turns, stopping at the first crash |
| Campaign.Turn | app.js:228-308 | one turn of the loop takes the stores from the progress after i items to the progress after i + 1 |
| Campaign.SendMessage | app.js:181-207 | missing data changes nothing; otherwise the expanded text is sent to the chat id, and follow-ups are queued only after a successful send |
| Devices.Label | app.js:75-94 | every status text starts with a mark followed by a space |
| Devices.LabelMark | app.js:84 | the green mark appears exactly on the connected status |
| Devices.LabelInjective | app.js:75-94 | different statuses give different texts |
| Devices.LabelNotUnknown | app.js:171 | no status text is the "Tidak Diketahui" fallback |
| Devices.StatusAfter | app.js:77-96 | from any status: `qr` awaits a scan, `auth_failure` fails authentication, `disconnected` disconnects, and `ready` connects under the push name, or under the device id when the push name is missing or empty |
| Devices.IndexIds | app.js:176 | keeps only ids that are array indices |
| Devices.OtherIds | app.js:176 | keeps only ids that are not array indices |
| Devices.PartitionIds | app.js:176 | index ids and other ids together are the ids, as multisets |
| Devices.Insert | app.js:176 | inserting adds exactly the one id, and the result starts with the new id or the old first id |
| Devices.InsertAscending | app.js:176 | inserting into an ascending sequence keeps it ascending |
| Devices.SortIndices | app.js:176 | the sorted ids are a permutation of the ids, in ascending numeric order |
| Devices.KeyOrder | app.js:176 | `Object.keys` lists every device exactly once: the result is a permutation of the creation order |
| Devices.KeyOrderLayout | app.js:176 | the array-index ids come first, in ascending numeric order, then the other ids in creation order |
| Devices.KeyOrderNoIndex | app.js:176 | without array-index ids, the keys come in creation order |
| Devices.KeyOrderExample | app.js:176 | devices created as "default", "2", "1" are listed as "1", "2", "default" |
| Devices.DeviceRegistry.constructor | app.js:102-103 | the default device starts as loading |
| Devices.DeviceRegistry.InitClient | app.js:67-75 | a known device is unchanged; a new device is registered as loading |
| Devices.DeviceRegistry.OnEvent | app.js:77-96 | an event sets that device's status; only `qr` writes the QR code |
| Devices.DeviceRegistry.QrLookup | app.js:146-152 | gives the QR code exactly when a non-empty one is stored, changing nothing; otherwise registers the device as an unknown one is registered, with the QR store unchanged |
| Devices.DeviceRegistry.StatusLookup | app.js:166-172 | a known device changes nothing; an unknown one is appended to the clients as loading, with the QR store unchanged; the answer is the device's status text, never the fallback |
| Devices.DeviceRegistry.DeviceList | app.js:175-178 | lists every registered device with its status text, in the order `Object.keys` gives the ids |
| Devices.InitTwice | app.js:68 | creating a client twice leaves the clients, statuses and QR codes as creating it once does |
| Devices.QrThenReady | app.js:77-86 | after a QR and then `ready`, the device is connected and the QR is still served |
| Licenses.Find | app.js:118 | the first license matching both key and e-mail, or none |
| Licenses.Check | app.js:116-120 | a check is valid exactly when some license matches both key and e-mail |
| Licenses.CheckFindsLicense | app.js:116-120 | with unique keys, a stored license checks valid with its own master flag |
| Licenses.CheckUnknownKey | app.js:118-119 | a key that is not stored never checks valid |
| Licenses.MakeKey | app.js:125-128 | a generated key starts with "WBP-" and ends with a capital letter and a digit from 0 to 8 |
| Licenses.MakeKeyNumberWidth | app.js:126 | the number part always has five digits |
| Licenses.DecimalLength | app.js:126 | numbers from 10000 to 99999 have five decimal digits |
| Licenses.FindKey | app.js:137 | the first license with the key, or none |
| Licenses.RemoveAt | app.js:140 | splicing removes exactly that one license (as multisets) |
| Licenses.RemoveAtKeys | app.js:137-140 | removing a license keeps keys unique and leaves no license with that key |
| Licenses.AppendFreshKey | app.js:129-131 | appending a license with a fresh key keeps keys unique |
| Licenses.LicenseList.constructor | app.js:37 | the list starts as the loaded one |
| Licenses.LicenseList.Add | app.js:122-134 | a missing e-mail is refused; a duplicate generated key is refused; otherwise the new license is appended with master set from `parseInt`; keys stay unique |
| Licenses.LicenseList.Delete | app.js:135-143 | an unknown key is not found; a master license is not deleted; otherwise exactly the first license with the key is removed; keys stay unique |
| Licenses.AddedChecks | app.js:116-134 | an added license checks valid with its own master flag |
| Licenses.DeletedNoLongerChecks | app.js:116-143 | after a delete under unique keys, the key no longer checks valid with any e-mail |
| Licenses.DeleteKeepsMasters | app.js:139-140 | a master license survives every delete |
| AutoReply.FirstMatch | routers/sar.js:50 | the first keyword whose lower-cased text occurs in the lower-cased message, or none when no keyword does |
| AutoReply.FirstMatchUnique | routers/sar.js:50 | two messages that every keyword treats alike pick the same keyword |
| AutoReply.MatchIgnoresCase | routers/sar.js:50 | lower-casing the message does not change the match |
| AutoReply.EmptyKeywordMatches | routers/sar.js:50 | an empty keyword matches every message |
| AutoReply.FirstMatchAppend | routers/sar.js:50 | an appended keyword is picked only when no earlier keyword matches |
| AutoReply.CheckMessage | routers/sar.js:46-62 | no reply exactly when no keyword matches; otherwise the sender gets the response of the first matching keyword, and the result reports whether the send succeeded |
| AutoReply.ToNumber | routers/sar.js:40 | `Number(param)` for the forms modelled; `ToNumberDigits` states the digit case |
| AutoReply.LooseEquals | routers/sar.js:40 | `k.id != id` is false exactly when the parameter reads as the record's id |
| AutoReply.ToNumberDigits | routers/sar.js:40 | a digit string parameter reads as its decimal value |
| AutoReply.LooseEqualsDecimal | routers/sar.js:40 | a parameter written as the decimal of n loosely equals exactly the id n |
| AutoReply.Without | routers/sar.js:40 | the filter keeps exactly the records whose id does not loosely equal the parameter |
| AutoReply.WithoutAppend | routers/sar.js:40 | the filter keeps the remaining records in their order |
| AutoReply.WithoutAbsent | routers/sar.js:37-44 | deleting an id no record has leaves the list unchanged |
| AutoReply.KeywordStore.constructor | routers/sar.js:9-14 | a store that does not exist yet reads as the empty list |
| AutoReply.KeywordStore.Add | routers/sar.js:25-35 | a missing keyword or response is refused with the list unchanged; otherwise one record with id `now` is appended |
| AutoReply.KeywordStore.Delete | routers/sar.js:37-44 | the list becomes the filtered list |
| AutoReply.AddedKeywordAnswers | routers/sar.js:29-50 | an added keyword matches every message containing it, and when no earlier keyword matches, the sender is answered with its response |

## Left out

- I/O and persistence. The following are left out: reading the JSON stores (`safeLoad`, `loadKeywords`), writing them (`save*`, `saveKeywords`), and console logging. Each store is an in-memory sequence. The constructors take the loaded list, and an absent store loads as the empty list.
- The HTTP layer. Express routing, CORS, the JSON-parse error middleware and status codes are not modelled. Handler results are datatypes.
- HTTP responses are not modelled. This covers `/api/all-licenses` and `GET /keywords`, which only return the stored list unchanged.
- `percobaan.js` is not part of this model. It performs only I/O.
- The messaging library is not modelled: the client objects, `sendMessage`, `MessageMedia`, the media download and the lead POST. Each send is a success-or-failure input.
  - The media download is folded into the broadcast's per-recipient `delivered` flag, since a failed download is caught like a failed send.
  - The lead POST's outcome is ignored by the source. The model only returns its body.
- The per-device client objects are not modelled. Sends go through one abstract sender, as the module-level client does in the source. The registry keeps only device ids.
- QR image rendering is not modelled, and neither is its error answer.
- Async interleaving and timers are not modelled: the 5-second interval, the pacing `setTimeout` (modelled as a count of pauses), and the `await` inside the stop handler. Each handler is one atomic step.
- The tick's sends are not awaited in the source. The tick returns the messages it hands to the sender.
- Full regular-expression semantics are not modelled. Stop keywords are matched as literal text between ASCII word boundaries. Keywords with regular-expression metacharacters, and `$` patterns in the `{N}` replacement string, are treated literally.
- Lower-casing covers only ASCII letters. `trim` uses the ECMAScript whitespace set.
- JavaScript loose typing is not modelled. Request fields are strings, optional strings or sequences as the handlers expect them. Non-string `phone`/`name` values are taken in their `String()` form. A non-object `req.body` is not modelled. `numbers` and `follow_ups` model only "is an array" or "is not one".
- `delay_value` is a natural number. Negative or fractional values and floating-point products are not modelled.
- Campaign.ParseItem: a non-string `phone` or `name` in an object item is taken in its `String()` form.
- Licenses.LicenseList.Add: `parseInt(is_master)` is given as its result (None for NaN), not computed from the field's text.
- Licenses.MakeKey: the random fragment `Math.random().toString(36).substr(2,5).toUpperCase()` is given as a string. Its length of five is not enforced.
- AutoReply.ToNumber: reads only an optionally signed decimal digit string after trimming (and "" as 0). The other forms `Number()` accepts, such as "5.0", "1e3", "0x1F" and "Infinity", are read as NaN here, so a delete with such a parameter removes nothing in the model.
- AutoReply.CheckMessage: a non-string `message`, which throws in the source, is not modelled.
- FollowUps.FindStop: its contract says only that the found entry has a matching keyword, not that it is the first such entry. Only whether an entry is found decides what the handler does.
- InitClient, QrLookup, StatusLookup: the stores are plain JavaScript objects, so an id that names an inherited property (such as "toString", "constructor" or "__proto__") behaves differently in the source: `initClient` does not create its client, `/status` answers the inherited value, and `/qr` fails on it. The model treats every id as an ordinary key.
- Keyword ids are the creation time `Date.now()`, given as a parameter. Ids stored as strings in the file are not modelled.
