# Server-status bot: a Dafny model

This project models the core of a Telegram bot that keeps "server status" messages current. The bot's
users ask it to post a status message in a chat with `/sendstatus`; the bot records the
`(chat_id, message_id)` pair in a JSON registry file. A background loop polls the server. Whenever the
fetched data changes, it re-renders the status text and edits every tracked message. Failed edits are
read by their error text:

- "message is not modified" is ignored;
- a flood-control error raises the polling interval to the requested `retry after N` seconds;
- any other error stops tracking that message.

The model has six modules, one file each:

- `Wrappers`: an `Option` type.
- `PyText`: the Python string built-ins the code relies on. These are `lower()`, the substring test
  `in`, `rstrip`, the cut position of `split('.')` (the first '.'), `str(int)` and `int(digits)`.
  The substring test is tied to "occurs at some index". `str` and `int` are tied to each other both
  ways: `int(str(n)) == n`, and every canonical numeral is `str` of its value. `lower()` is proved
  idempotent and to leave lower-case text alone. `rstrip` and the cut position are pinned down by
  their own contracts.
- `Storage`: the message registry, a class `MessageStorage` whose field stands for the backing file.
  Its `Load`, `Save`, `AddMessage` and `RemoveMessage` methods are each proved against a function
  (`Loaded`, `Saved`, `AfterAdd`, `AfterRemove`). Lemmas about those functions state idempotence,
  append order, removal of every match, and the failure cases.
- `Formatter`: the pure renderer, `calculate_round_time` and `create_status_message`. The elapsed
  text is proved against an independent reader that recovers the number of minutes it shows.
- `EditErrors`: the classification of a failed edit's error text, including the
  `retry after (\d+)` search.
- `Bot`: the `StatusBot` class with its fields `last_status_hash` and `update_interval`. It holds:
  - the reconciliation cycle `UpdateStatusMessages`, which is proved to compute the pure function
    `Cycle`;
  - the per-message reaction;
  - the admin gate of `/sendstatus`;
  - lemmas about a cycle and about any sequence of cycles.

Inputs from outside the core are parameters:

- the fetched snapshot, an `Option` of a JSON object;
- the fingerprint function standing for `hash(str(data))`, a constant of the bot for the life of the
  process;
- the clock, in microseconds since the epoch;
- the Moscow-time formatter;
- the date parser;
- the result of every edit call, and whether each registry read and write succeeds;
- for `/sendstatus`, the member status `get_chat_member` returns (or its failure), whether
  `send_chat_action` succeeds, the message id the status post returns (or its failure), and whether
  the confirmation reply is sent.

Edit results and I/O outcomes are numbered by the position of the tracked entry the call concerns.

Two details of the code shape the model:

- `save` opens the file with mode `"w"`, which truncates it in place, and then writes the JSON. A
  failure while writing therefore leaves a torn file (`TornWrite`), which every load reads as `[]`
  until the next successful save. A failure to open leaves the file as it was (`OpenFailed`).
- The cycle computes the fingerprint first, and renders the text only when the fingerprint has
  changed.

## Model

| member | source | states |
|---|---|---|
| PyText.Lower | bot/bot.py:125 | `lower()` keeps the length and lower-cases each character on its own |
| PyText.ContainsIff | bot/bot.py:129 | Python's `pat in s` holds exactly when `pat` occurs in `s` at some index |
| PyText.AbsentCharNotSubstring | bot/bot.py:129-134 | a pattern with a character the text lacks does not occur in it |
| PyText.LeadingDigits | bot/bot.py:136 | the greedy `\d+`: a prefix made of digits, followed by a non-digit or by the end |
| PyText.IndexOf | bot/formatter.py:22-23 | the first position of the character |
| PyText.RStrip | bot/formatter.py:19 | `rstrip('Z')` is a prefix with no trailing `Z`, and only `Z`s were removed |
| PyText.LowerOfLowercase | bot/bot.py:125 | `lower()` leaves a text without upper-case letters as it is |
| PyText.LowerIdempotent | bot/bot.py:125 | lowering twice is lowering once |
| PyText.Contains | bot/bot.py:129 | Python's `pat in s`, by scanning the start positions of `s` |
| PyText.DigitsValue | bot/bot.py:138 | `int(digits)`: the decimal value of a digit string, most significant digit first |
| PyText.NatToString | bot/formatter.py:54-55 | `str(n)` is a canonical numeral: digits only, "0" for zero, and no leading zero otherwise |
| PyText.CanonicalIsPrinted | bot/formatter.py:54-55 | every canonical numeral is `str` of its own value, so each number has exactly one spelling |
| PyText.NatToStringRoundTrip | bot/formatter.py:54-55 | `int(str(n)) == n` |
| PyText.IntToString | bot/formatter.py:70 | `str(i)` for any integer: a '-' before the digits of a negative value |
| PyText.IntToStringRoundTrip | bot/formatter.py:63-70 | `str(i)` starts with '-' exactly for negative `i`; the rest is a canonical numeral (no leading zero, and never "0" after '-') that reads back to the absolute value |
| EditErrors.SearchRetry | bot/bot.py:136 | `re.search` from position `k`: the leftmost match of `retry after \d` at or after `k`, or none at all |
| EditErrors.RetryAfter | bot/bot.py:136-138 | a delay exists exactly when the pattern matches; it is the value of the digit run after the first match |
| EditErrors.Classify | bot/bot.py:125-145 | "not modified" exactly when that phrase occurs in the lowered text; otherwise a rate limit exactly when "flood control" or "retry after" occurs, carrying `RetryAfter`; otherwise fatal |
| EditErrors.RetryValueMeansFlood | bot/bot.py:129-142 | a text that carries `retry after N` is "not modified" or a rate limit with delay `N`, and never fatal |
| EditErrors.FloodExample | bot/bot.py:134-141 | "Retry after 45" in any letter case is a rate limit asking for 45 seconds |
| EditErrors.FatalWithoutLetters | bot/bot.py:129-145 | a lowered text without 'm', 'l' and 'y' matches none of the phrases and is fatal |
| EditErrors.FatalExample | bot/bot.py:144-145 | "Bad Request: chat not found" is fatal |
| EditErrors.NotModifiedExample | bot/bot.py:128-131 | "Bad Request: message is not modified" is the unchanged-content case |
| Storage.Loaded | bot/storage.py:9-16 | `load` yields the file's list, or `[]` when the read or the parse fails |
| Storage.Saved | bot/storage.py:19-25 | `save` stores the list, or leaves the file alone when the open fails, or leaves a torn file when the write fails; it never raises |
| Storage.Without | bot/storage.py:45 | the filtered list is no longer, and holds exactly the entries other than the pair |
| Storage.WithoutAbsent | bot/storage.py:45 | filtering out a pair that is not there gives the same list |
| Storage.WithoutAppend | bot/storage.py:45 | filtering works piece by piece, so the kept entries keep their order |
| Storage.WithoutCounts | bot/storage.py:45 | no copy of the pair is left, and every other pair keeps its number of occurrences |
| Storage.AddIdempotent | bot/storage.py:33-38 | adding a pair already loaded leaves the file as it was, with no save |
| Storage.AddTwiceStoresOnce | bot/storage.py:28-38 | adding a pair twice to an empty registry stores it once |
| Storage.AddAppends | bot/storage.py:34-38 | a new pair is appended after all earlier entries |
| Storage.AddAfterFailedLoad | bot/storage.py:30-38 | when the read fails inside `add_message`, the file becomes exactly `[pair]` |
| Storage.RemoveAfterFailedLoad | bot/storage.py:44-46 | when the read fails inside `remove_message`, the registry is saved empty |
| Storage.RemoveKeepsOthers | bot/storage.py:44-46 | removal stores the filtered list: the pair is gone, and every other pair keeps its count and order |
| Storage.RemoveAbsentIsNoOp | bot/storage.py:44-46 | removing an absent pair stores what was loaded |
| Storage.AddThenRemove | bot/storage.py:28-47 | with successful I/O, adding a new pair and then removing it restores the registry |
| Storage.AddThenRemoveAbsent | bot/storage.py:28-47 | with successful I/O, after adding and then removing any pair, the file is intact and lacks the pair |
| Storage.AfterAdd | bot/storage.py:28-39 | a pair already loaded leaves the file alone; a new pair with a successful save is tracked afterwards, one entry more than was loaded; a failed save leaves the file as it was or torn |
| Storage.AfterRemove | bot/storage.py:42-47 | with a successful save the file holds exactly the loaded entries other than the pair; a failed open leaves it alone, a failed write leaves it torn |
| Storage.MessageStorage.Load | bot/storage.py:9-16 | returns `Loaded(file, outcome)`: the stored list, or `[]` on any failure |
| Storage.MessageStorage.Save | bot/storage.py:19-25 | the file becomes `Saved(old file, list, outcome)` |
| Storage.MessageStorage.AddMessage | bot/storage.py:28-39 | the file becomes `AfterAdd(old file, pair, io)` |
| Storage.MessageStorage.RemoveMessage | bot/storage.py:42-47 | the file becomes `AfterRemove(old file, pair, io)` |
| Formatter.FieldText | bot/formatter.py:76-79 | `data.get(key, default)` shows the stored value's `str()`, or the default when the key is missing |
| Formatter.FracDigits | bot/formatter.py:25 | exactly six characters: the fraction's first six, padded with '0' |
| Formatter.Normalise | bot/formatter.py:19-26 | after stripping trailing `Z`s: fails exactly when there are two or more dots; with no dot the text is kept; with one dot the fraction after it is cut or padded to six digits |
| Formatter.Falsy | bot/formatter.py:14 | Python's `not v` for a JSON value: `None`, `False`, the integer zero and the empty string are falsy; any other value (a float, a list, an object) carries its truthiness with it |
| Formatter.NoData | bot/formatter.py:65 | `not data` for the fetched snapshot: no snapshot, or an empty object |
| Formatter.PyStr | bot/formatter.py:76-79 | the `str()` an f-string applies to a JSON value |
| Formatter.Elapsed | bot/formatter.py:46-55 | the text is "0 мин" exactly when the difference is negative |
| Formatter.ReadOnlyPrintedTexts | bot/formatter.py:46-55 | every text the reader accepts is "0 мин" or the elapsed text of exactly the minutes it reads, so "0ч 90мин" or "05мин" are refused |
| Formatter.ElapsedRoundTrip | bot/formatter.py:44-55 | the elapsed text reads back as the whole minutes since the start, or as 0 for a start in the future |
| Formatter.ElapsedNinetyMinutes | bot/formatter.py:49-55 | 5400 seconds read "1ч 30мин" |
| Formatter.ElapsedIsNotFixedText | bot/formatter.py:46-55 | no elapsed text equals the lobby text or the error text |
| Formatter.RoundTime | bot/formatter.py:12-58 | lobby exactly for a falsy start; error for a non-string start, and for a string start exactly when normalising or parsing fails; otherwise the elapsed text from the parsed wall-clock instant, ignoring any offset |
| Formatter.TruncSeconds | bot/formatter.py:63 | `int(timestamp())`: the whole seconds, truncated toward zero on both sides of the epoch |
| Formatter.Footer | bot/formatter.py:81-82 | the update-time line and the `[Обновление: <seconds>]` stamp |
| Formatter.StatusBody | bot/formatter.py:73-80 | the five field lines and a blank line |
| Formatter.CreateStatusMessage | bot/formatter.py:60-83 | starts with the connection-error text exactly when the data is missing or empty; always ends with the update-time footer |
| Formatter.StatusShowsFields | bot/formatter.py:73-80 | with data present, the message holds one line per field, each showing the supplied value or its default |
| Formatter.MessageLines | bot/formatter.py:73-83 | with data present, the message is exactly the five field lines, a blank line and the footer |
| Formatter.TenPlayersOnDelta | bot/formatter.py:76-77 | a snapshot with 10 players on map "Delta" shows both values |
| Bot.ReactionOf | bot/bot.py:115-125 | a successful edit needs no reaction; a failed one is classified by its error text |
| Bot.EditCalls | bot/bot.py:111-122 | one edit per loaded entry, in order, addressed to that entry's pair and carrying the rendered text |
| Bot.Step | bot/bot.py:124-145 | a reaction never lowers the interval, and changes the file only for a fatal error |
| Bot.StepInterval | bot/bot.py:133-142 | the interval after a reaction is `max(old, N)` when the error asked for `N`, and unchanged otherwise |
| Bot.StepFile | bot/bot.py:144-145 | the file after a reaction has the pair removed for a fatal error, and is untouched otherwise |
| Bot.Propagate | bot/bot.py:111-145 | the walk over the loaded list never lowers the interval |
| Bot.Cycle | bot/bot.py:92-147 | a cycle never lowers the interval |
| Bot.UnchangedFingerprintDoesNothing | bot/bot.py:97-102 | an unchanged fingerprint ends the cycle with no load, no edit and no change of state |
| Bot.ChangedFingerprintEditsEveryEntry | bot/bot.py:104-122 | a new fingerprint is recorded and the registry is loaded; the rendered text then goes in one edit per loaded entry, in registry order |
| Bot.EmptyRegistryOnlyRecordsFingerprint | bot/bot.py:104-109 | with nothing tracked, the new fingerprint is still recorded, and neither an edit nor any other change happens |
| Bot.RepeatedFingerprintSkipsSecondCycle | bot/bot.py:98-104 | of two cycles over data with the same fingerprint, the second does nothing |
| Bot.SameSnapshotSkipsSecondCycle | bot/bot.py:97-104 | of two cycles fetching the same snapshot, the second loads nothing, edits nothing and changes nothing |
| Bot.EditedChangesNothing | bot/bot.py:115-123 | a successful edit changes neither the registry nor the interval |
| Bot.NotModifiedChangesNothing | bot/bot.py:128-131 | a "message is not modified" error changes nothing, even when it also names a rate limit |
| Bot.FloodKeepsEntry | bot/bot.py:133-142 | a rate-limit error never removes the entry; the interval becomes `max(old, N)` for `retry after N`, and stays otherwise |
| Bot.OtherErrorRemovesPair | bot/bot.py:144-145 | any other error removes exactly the failing pair and keeps the interval |
| Bot.RetryAfterFortyFive | bot/bot.py:134-141 | an error asking for 45 seconds, not marked "not modified", moves the default interval of 30 up to 45 and keeps the entry |
| Bot.ChatNotFoundRemovesPair | bot/bot.py:144-145 | "chat not found" removes the pair |
| Bot.IntervalIsLargestDelay | bot/bot.py:111-142 | after the walk, the interval is at least every requested delay, and it equals either the starting value or one of those delays |
| Bot.Keep | bot/bot.py:145 | the entries of a list whose pairs are outside a given set |
| Bot.WithoutIsKeep | bot/storage.py:45 | the filter of `remove_message` is `Keep` with the single pair, so the two filters are one concept |
| Bot.FatalPairs | bot/bot.py:144-145 | a pair is in the set exactly when some position holds it and that position's edit failed fatally |
| Bot.WalkRemovesExactlyFatal | bot/bot.py:111-145 | with successful removal I/O, the walk removes exactly the pairs whose edit failed fatally, and keeps the others in order |
| Bot.NoFatalKeepsFile | bot/bot.py:111-142 | with no fatal error, the registry file is untouched, whatever the I/O outcomes |
| Bot.CycleRemovesExactlyFatal | bot/bot.py:92-147 | a cycle over an intact registry with successful I/O leaves exactly the entries whose pairs had no fatal edit |
| Bot.Run | bot/bot.py:149-161 | the update loop: one cycle per round, under one fingerprint function |
| Bot.IntervalNeverDecreases | bot/bot.py:149-161 | over any sequence of cycles, the interval never falls below its value at the start |
| Bot.SteadyFrom | bot/bot.py:97-102 | once a fingerprint is recorded, any number of rounds whose fetches all have that fingerprint leave the state unchanged |
| Bot.SteadyFingerprintChangesNothingAfterFirstCycle | bot/bot.py:149-161 | while every later fetch has the fingerprint of the first, the state after all the rounds is the state after the first cycle |
| Bot.IsAdmin | bot/bot.py:80-90 | private chats pass; elsewhere the member status must be "administrator" or "creator", and a failed lookup refuses |
| Bot.MayStart | bot/bot.py:53 | the test at the head of `/sendstatus`, which consults `is_admin` only outside private chats |
| Bot.GateIsAdmin | bot/bot.py:80-90 | private chats pass; elsewhere the gate passes exactly for status "administrator" or "creator"; a failed lookup refuses |
| Bot.StatusBot.constructor | bot/bot.py:15-20 | no fingerprint recorded yet, the interval starts at `UPDATE_INTERVAL`, and the storage and fingerprint function are the given ones |
| Bot.StatusBot.UpdateStatusMessages | bot/bot.py:92-147 | the new fields, the file, the loaded list and the edits made are those `Cycle` gives; the interval stays at least `UPDATE_INTERVAL` |
| Bot.StatusBot.EditAll | bot/bot.py:111-145 | the loop makes the edits `EditCalls` lists and reaches the state `Propagate` gives |
| Bot.StatusBot.HandleEditResult | bot/bot.py:124-145 | the fields and the file change as `Step` says for the classified outcome |
| Bot.StatusBot.SendStatus | bot/bot.py:50-78 | refused outside the gate, with nothing posted or stored; a failed typing indicator ends the handler with nothing posted, nothing stored and no reply; otherwise the rendered status is posted, and `posted` holds it exactly when the post succeeded; a failed post gives the error reply and stores nothing; a sent message is registered with `add_message`, and a failed confirmation after that still produces the error reply |

## Left out

- The network. The status fetch of `bot/api.py` returns `None` on any failure, so its result is the `Option` parameter `fetched`. The results of the chat-client calls `edit_message_text`, `get_chat_member`, `send_chat_action` and the status post and confirmation of `/sendstatus` are parameters too. `bot/api.py` is not part of this model.
- A failure of the admin-only refusal or of the error reply itself, in `/sendstatus`. It would escape the handler; the model takes these two replies as sent.
- Configuration from the environment. `UPDATE_INTERVAL` is the constant 30, the configuration default.
- Process plumbing: `asyncio`, the dispatcher wiring, `set_bot_commands`, `start`, `stop` and `main`.
- The reply texts of `/start` and `/status`.
- Logging and printing.
- `status_update_loop`'s sleep and cancellation. The loop is modelled only as a sequence of cycles, `Bot.Run`.
- Concurrency between command handlers and the update loop. Each operation is atomic and runs in sequence.
- The fingerprint is an abstract function of the fetched data. Equal fingerprints are not taken to mean equal data.
- `format_time`, with its Moscow time zone, is an opaque parameter.
- `strptime` and `fromisoformat` are one abstract parse returning an `Option`; their grammar is left out.
- A single instant stands for the three clock reads of `create_status_message`.
- JSON encoding and decoding.
- The key order of a fetched object. A snapshot is a map, so two fetches with the same keys and values in a different order are one value here, while `str(data)`, and so the fingerprint, depends on that order. The cycle and loop lemmas are therefore stated on equal fingerprints.
- Bot.SameSnapshotSkipsSecondCycle: "the same snapshot" is equality of maps; in the code the second cycle is skipped only when the keys also come in the same order, since `str(data)` lists them in document order. `Bot.RepeatedFingerprintSkipsSecondCycle` states the fact on equal fingerprints.
- Registry entries without a `chat_id` or a `message_id` key, and a registry file whose JSON is not a list. Such a file is modelled only as an intact list or as `Unreadable`. In the code, a falsy non-list value (`null`, `false`, `0`, `""`, `{}`) takes the `not messages` exit of a cycle like an empty list. That holds only for a cycle. In `add_message`, `null`, `0` and `false` make the `any(...)` scan raise, and `{}` and `""` make `messages.append` raise. A truthy non-list value makes the cycle's loop or `add_message` raise too. The cycle catches that in its outer handler. In `/sendstatus` the status post stays in the chat, nothing is stored, and the error reply is sent.
- A snapshot whose top-level JSON is not an object. A falsy one (`null`, `false`, `0`, `""`, `[]`) renders the connection-error text like `None`. A truthy one makes `data.get` raise; in a cycle that happens after the fingerprint is recorded, and the cycle's handler catches it; in `/sendstatus` it escapes the handler before anything is posted. A snapshot here is always a JSON object or `None`.
- PyText.Lower: lower-cases ASCII letters only; Python's `lower()` also maps other letters, and can change the length of the text.
- EditErrors.RetryAfter: `\d` covers the ASCII digits only; Python also matches other Unicode digits. A digit run longer than 4300 digits is not modelled either: on it CPython's `int()` raises (its limit on converting strings to integers), the exception escapes the error handler of bot/bot.py:124 to the outer one of bot/bot.py:146, and the cycle stops there with the interval unchanged and the later entries neither edited nor removed. The model reads the full value, so `Bot.Step`, `Bot.Propagate` and `Bot.ChangedFingerprintEditsEveryEntry` describe such a cycle as carrying on.
- Formatter.ElapsedRoundTrip: integer microseconds stand in for the float `total_seconds()`, so float rounding is not modelled.
