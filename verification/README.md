# gpt-backrooms turn orchestrator, in Dafny

The server of gpt-backrooms runs an unattended conversation between a fixed
rotation of OpenAI "personas". Each viewer connection holds a turn number and
a transcript. Each `start` or `next` trigger runs `nextTurn`, which does five
things in order:

1. It reads the usage ledger and refuses the turn when the day's count has reached `DAILY_LIMIT` (20).
2. It picks the persona `MODELS[turn % MODELS.length]`.
3. It sends that persona's system prompt, followed by the whole transcript, to the provider.
4. It charges the ledger one call before that request.
5. On success it records and shows the trimmed reply and advances the turn. On failure it shows an error notice and writes the ledger back to the count it read at entry.

The ledger is a single `{count, date}` file shared by all connections. Reading
it resets the count to zero when the stored date is not today, and reading a
file that is missing or unreadable gives `{0, today}`.

The project has six modules:

- `JsText` (jstext.dfy) holds `String.prototype.trim` and the decimal rendering of an integer in a template literal.
- `Ledger` (ledger.dfy) holds the usage record and `getApiUsage` as the pure function `ReadUsage` of the stored record and today's date. It also holds the file itself as the class `UsageFile`, whose `Update` is `updateApiUsage`.
- `Rotation` (rotation.dfy) holds the persona list and `PersonaFor`.
- `Turn` (turn.dfy) is the specification. `Step` is one `nextTurn` as a function of the connection state, the file and the turn's inputs. `Run` is a sequence of such turns on one connection. What the server promises for one connection is proved here as lemmas.
- `Sessions` (sessions.dfy) is the whole server: every open connection and the one shared file. Connections open and fire triggers in any interleaving, one event at a time. The shared daily budget is proved here for all connections together.
- `Orchestrator` (orchestrator.dfy) holds the class `Connection`. Its fields are the closure variables `turn` and `history`, plus `outbox`, the events emitted on the socket, and a reference to the shared `UsageFile`. Its constructor sends the status notice. Its `NextTurn` updates these fields in place and is proved equal to `Step`. The `start` and `next` handlers both call `NextTurn`.

The outside world enters as inputs:

- "Today" is a `Date` parameter.
- The completion provider is a function parameter from a model id and a message list to `Success(text)` or `Failure`.
- Each of the two ledger writes takes a `WriteOutcome` that says how it ended, and the server swallows every failure. `Landed` means the record reached the file. `Refused` means the open failed and the file is as it was. `Torn` means the file was opened with flag `'w'`, and so emptied, but not completely written; it then reads as `{0, today}`.

## Model

| member | source | states |
|---|---|---|
| `Ledger.ReadUsage` | gpt-backrooms/server.js:28-46 | The record read always carries today's date. A stored record of today is returned as it is. Any non-zero count comes from the stored record of today, so a record of another day, a missing file or an unreadable file all read as `{0, today}`. Reading has no way to fail or to change the file. |
| `Ledger.AfterWrite` | gpt-backrooms/server.js:49-56 | The file after `updateApiUsage`, one case per `WriteOutcome`. It has no contract of its own. `ReadAfterWrite` and `TornWriteResetsCount` state what each outcome reads back as. |
| `Ledger.ReadAfterWrite` | gpt-backrooms/server.js:49-52 | After a write of `count` lands, reading on the same day gives exactly `{count, today}`, whatever the file held before. |
| `Ledger.TornWriteResetsCount` | gpt-backrooms/server.js:31-52 | A write that empties the file and then fails loses the count: the file reads as `{0, day}` on every day. |
| `Ledger.CappedReadsWithinLimit` | gpt-backrooms/server.js:24 | If the stored count is at most `DAILY_LIMIT`, the count read on any day is at most `DAILY_LIMIT`. |
| `Ledger.UsageFile.Update` | gpt-backrooms/server.js:49-56 | A write that lands replaces the whole record with `{count, today}`. A write whose open fails leaves the file unchanged. A write that fails after the open leaves the file unreadable. |
| `Ledger.UsageFile.constructor` | gpt-backrooms/server.js:25 | The file starts with the given content, which may be absent. |
| `Rotation.PersonaFor` | gpt-backrooms/server.js:74 | The persona for any turn number is a member of `MODELS`. Indexing by `turn % MODELS.length` is always in bounds. |
| `Rotation.RotationIsCyclic` | gpt-backrooms/server.js:18-22 | The persona repeats after `MODELS.length` turns. |
| `Rotation.NoPersonaTwiceInARow` | gpt-backrooms/server.js:18-22 | Two consecutive turns go to different personas. |
| `Rotation.EveryPersonaWithinARound` | gpt-backrooms/server.js:18-22 | Every persona gets a turn within any `MODELS.length` consecutive turns. |
| `JsText.Trim` | gpt-backrooms/server.js:89 | `String.prototype.trim`, with no contract of its own. `TrimmedEnds` and `TrimIsSlice` together determine its result. |
| `JsText.TrimmedEnds` | gpt-backrooms/server.js:89 | A trimmed reply neither starts nor ends with JavaScript white space or a line terminator. |
| `JsText.TrimIsSlice` | gpt-backrooms/server.js:89 | A trimmed reply is a contiguous slice of the raw reply. Everything removed before and after the slice is white space. |
| `JsText.TrimIdempotent` | gpt-backrooms/server.js:89 | Trimming a second time changes nothing. |
| `JsText.TrimKeepsInner` | gpt-backrooms/server.js:89 | A reply that neither starts nor ends with white space is kept unchanged. |
| `JsText.NatDigits` | gpt-backrooms/server.js:112 | The numeral is non-empty and made only of digits. It has no leading zero: zero is the single digit `0`. |
| `JsText.Decimal` | gpt-backrooms/server.js:112 | The rendered count starts with `-` exactly when it is negative. What follows the sign is a numeral whose value is the magnitude of the count. It has no leading zero, so zero renders as `0`. |
| `JsText.DigitsRoundTrip` | gpt-backrooms/server.js:112 | Reading the digits of a number back gives the same number. |
| `Turn.StatusNotice` | gpt-backrooms/server.js:110-113 | The status notice is a `System` notice, so it is never taken for a reply. Its text is `API calls today: `, the count as `Decimal` renders it, then `/20`. |
| `Turn.Context` | gpt-backrooms/server.js:75-78 | The persona's system message followed by the whole transcript, with no contract of its own. `ContextReplaysHistory` states what it adds. |
| `Turn.ContextReplaysHistory` | gpt-backrooms/server.js:75-78 | Over a transcript of replies, the persona's prompt is the only `system` message sent to the provider. |
| `Turn.Opened` | gpt-backrooms/server.js:58-60 | The state of a new connection, with no contract of its own. `OpenedIsCoherent` and the constructor of `Connection` state its properties. |
| `Turn.Step` | gpt-backrooms/server.js:62-103 | `nextTurn`, with no contract of its own. Its three outcomes are stated by `StepAtLimit`, `StepSucceeds` and `StepFails`, and its invariants by `StepEmitsOne`, `StepKeepsCap` and `StepKeepsCoherent`. |
| `Turn.StepEmitsOne` | gpt-backrooms/server.js:62-103 | Every turn emits exactly one event and keeps everything emitted before it. The transcript only grows. The turn number advances by one exactly when the transcript gains one entry, and otherwise stays. |
| `Turn.StepAtLimit` | gpt-backrooms/server.js:64-72 | When the count read is at or above `DAILY_LIMIT`, the turn emits the `System` limit notice. `turn`, `history` and the file are all unchanged. |
| `Turn.StepAtLimitIgnoresProvider` | gpt-backrooms/server.js:66-72 | At the limit the provider is not asked: any other provider gives the same result. |
| `Turn.StepAsksOnlyContext` | gpt-backrooms/server.js:74-87 | Below the limit, the turn depends on the provider only through its answer for the current persona's model and the context. |
| `Turn.StepSucceeds` | gpt-backrooms/server.js:80-92 | On success the transcript gains exactly one `assistant` message with the trimmed reply. `turn` goes up by one. The one event emitted has the persona's name as speaker and the trimmed reply as text. The file holds the entry count plus one for today if the charge landed. It is unchanged if the open failed and unreadable if the write was torn. |
| `Turn.StepFails` | gpt-backrooms/server.js:93-102 | On failure `turn` and `history` are unchanged and exactly one `Error` notice is emitted. A landed rollback writes the file back to the snapshot read at entry: a restore, not a decrement. A torn rollback leaves it unreadable. A refused rollback leaves whatever the charge left: one more than the entry count, the old file, or an unreadable file. |
| `Turn.StepKeepsCap` | gpt-backrooms/server.js:66-101 | A turn on any connection and any day keeps the stored count at or below `DAILY_LIMIT`. The count is raised only from a value below the limit. |
| `Turn.StepKeepsDayCap` | gpt-backrooms/server.js:64-101 | The count read for the turn's day stays at or below `DAILY_LIMIT`. |
| `Turn.OpenedIsCoherent` | gpt-backrooms/server.js:58-60 | A new connection satisfies the connection invariant. |
| `Turn.NoticeKeepsCoherent` | gpt-backrooms/server.js:67-70 | Emitting a `System` or `Error` notice keeps the connection invariant. |
| `Turn.ReplyKeepsCoherent` | gpt-backrooms/server.js:89-92 | Recording and showing the current persona's reply keeps the connection invariant. |
| `Turn.StepKeepsCoherent` | gpt-backrooms/server.js:74-92 | Every turn keeps the connection invariant. The invariant has three parts. `turn` equals the transcript length. The transcript holds only `assistant` messages. The k-th non-notice message shown to the viewer is transcript entry k, spoken by persona `k % MODELS.length`. |
| `Turn.RunKeepsCap` | gpt-backrooms/server.js:62-103 | Over any sequence of turns, the stored count never exceeds `DAILY_LIMIT`. |
| `Turn.RunKeepsCoherent` | gpt-backrooms/server.js:62-103 | Over any sequence of turns, the connection invariant holds. |
| `Turn.RunChargesEachReply` | gpt-backrooms/server.js:80-101 | Take one day on which every write lands. The transcript only grows. The count for that day grows by exactly the number of replies added, so failed calls are refunded. |
| `Turn.RunKeepsDayCap` | gpt-backrooms/server.js:64-101 | On one day, the count read stays at or below `DAILY_LIMIT` over any sequence of turns. |
| `Turn.DailyReplyBudget` | gpt-backrooms/server.js:24 | On one day on which every write lands, a connection adds at most `DAILY_LIMIT - c` replies, where `c` is the count at the start. |
| `Turn.UnreadableLedgerStaysUnread` | gpt-backrooms/server.js:40-55 | Suppose the file is unreadable and no write ever lands, whether refused or torn. Then it stays unreadable over any sequence of turns, whatever the provider answers. So the count reads as 0 on every turn and the limit never engages. |
| `Turn.UnwritableLedgerNeverLimits` | gpt-backrooms/server.js:40-55 | Under the same storage failures, and with a provider that always answers, every trigger adds exactly one reply. |
| `Turn.LastCallsOfTheDay` | gpt-backrooms/server.js:62-103 | With two calls left, the first two personas answer and take the count to the limit. The third trigger gets the limit notice and changes nothing else. |
| `Sessions.Serve` | gpt-backrooms/server.js:58-113 | One server event, with no contract of its own. A new connection is added as `Opened`. A trigger runs `Step` on its own connection against the one shared file. The lemmas below state its properties. |
| `Sessions.TotalRepliesUpdate` | gpt-backrooms/server.js:89-90 | A turn on one connection changes the total number of replies over all connections by the change in that connection's transcript. |
| `Sessions.ServeKeepsCap` | gpt-backrooms/server.js:25 | Over any interleaving of connections opening and taking turns, on any days, the shared stored count never exceeds `DAILY_LIMIT`. |
| `Sessions.TriggerKeepsOtherSessions` | gpt-backrooms/server.js:58-62 | A trigger on one connection leaves every other connection's turn, transcript and events exactly as they were: each closure has its own state. |
| `Sessions.ConnectKeepsSessions` | gpt-backrooms/server.js:58-60 | A new connection adds one session, with turn 0 and an empty transcript. It leaves the open sessions and the file as they were. |
| `Sessions.ServeKeepsCoherent` | gpt-backrooms/server.js:58-113 | Over any interleaving, every connection keeps the connection invariant. |
| `Sessions.ServeChargesEachReply` | gpt-backrooms/server.js:62-103 | One server event on a day when its writes land charges the shared file exactly the number of replies it adds, over all connections. Opening a connection charges nothing. |
| `Sessions.ServeAllChargesEachReply` | gpt-backrooms/server.js:62-103 | Take one day on which every write lands. Over any interleaving, the shared count grows by exactly the number of replies added over all connections together. |
| `Sessions.ServeKeepsDayCap` | gpt-backrooms/server.js:64-101 | On one day, the shared count read for that day stays within `DAILY_LIMIT` over any interleaving. |
| `Sessions.ServerDailyReplyBudget` | gpt-backrooms/server.js:24-25 | The global daily budget. On one day on which every write lands, all connections together add at most `DAILY_LIMIT - c` replies, where `c` is the count at the start. This holds however many viewers connect and however their triggers interleave. |
| `Orchestrator.Connection.constructor` | gpt-backrooms/server.js:108-113 | A new connection has `turn` 0 and an empty transcript. It has emitted one `System` status notice, `API calls today: <count>/20`, with the count read for today. It satisfies the connection invariant. |
| `Orchestrator.Connection.NextTurn` | gpt-backrooms/server.js:62-103 | The in-place update of `turn`, `history`, the emitted events and the shared file is exactly `Step` of the old state. It keeps the connection invariant and keeps the stored count within the limit. The invariant reads only the connection's own fields, so a turn on one connection keeps every other connection's invariant. |

## Left out

- Express, HTTP, socket.io and `server.listen` are left out, and so is the browser page in `public/script.js`. Emitting a `bot-message` appends to `Connection.outbox`. The `start` and `next` handlers are both `NextTurn`.
- The OpenAI client is a provider function parameter. A network error, a non-success status, and a missing or null `content` are all `Failure`.
- File I/O, JSON parsing and `Date().toISOString()` are left out. The file content is an `Option<UsageRecord>`. `None` means a missing, unreadable or unparsable file, including one emptied by a torn write. A torn write that leaves a strict prefix of the JSON text is also `None`, since no strict prefix of a JSON object parses. A parsed record whose `count` is not an integer is not modelled.
- Logging through `console.error` is left out.
- Orchestrator.Connection.NextTurn uses one `today` for the read and both writes. The server takes the date afresh at each write, so a day change during the provider request is not modelled.
- Overlapping `nextTurn` calls are not modelled: `Sessions` interleaves whole events, one at a time. This leaves out two things. One is the lost update on the shared file when two turns await the provider at once. The other is two turns that can both pass the limit check.
- Disconnects are not modelled, because the server has no handler for them. A closed connection simply fires no further triggers, and `Sessions` allows any sequence of events.
- JsText.Decimal renders every integer in plain digits. JavaScript switches to exponent notation at 10^21, which is not modelled.
- The rotation is the repository's fixed three-persona list, and `DAILY_LIMIT` is fixed at 20. The limit notice hard-codes "20 calls" exactly as the server does.
