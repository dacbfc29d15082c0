# OWUIdiscordBot core, modelled in Dafny

The bot relays chat commands to an OpenWebUI-style chat-completion API. It
keeps per-user conversation histories and personas and process-wide usage
statistics, and splits long replies into chat-sized chunks. This project
models that core from `bot.py`:

- **Text** (`text.dfy`): `"".join`, Python's `str.splitlines(keepends=True)`
  with its full set of line boundaries (`\n`, `\r`, `\r\n`, `\v`, `\f`,
  `\x1c`-`\x1e`, `\x85`, `\u2028`, `\u2029`), and the decimal rendering of a
  status code in an f-string.
- **Chunker** (`chunker.dfy`): `split_message`, an imperative method with the
  source's loop. It is proved equal to a specification function. That function
  is proved to be the unique greedy packing of the text's lines.
- **Usage** (`usage.dfy`): `stats_data` as a class and `update_stats` as a
  method on it. A pure `Record` function specifies it, and lemmas cover runs
  of requests and the mean speed.
- **Gateway** (`gateway.dfy`): the outcome logic of `send_request_to_model`.
  The HTTP exchange is an input value (`Exchange`). The model decides the
  returned string and whether `update_stats` runs.
- **Sessions** (`sessions.dfy`): `user_sessions` and `user_personas` as
  maps in a `Bot` class, and the commands `ask`, `summarize`, `setpersona`,
  `reset` and `stats` as methods.

Model-specific choices:

- The network reply is a parameter of `Ask`/`Summarize`/`SendRequest`. The
  model covers every status, every outcome of reading and decoding the body,
  and a failed POST. JSON values of unexpected types are excluded (see
  "Left out").
- Missing JSON keys are `Option` fields. `.get(key, default)` is `GetOr`.
- Token counts and durations are `nat`; speed samples and the mean are `real`.
- `split_message`'s `max_length` is an unbounded `int`, as in Python. The
  commands always use the default 2000 (`Chunker.DefaultMaxLength`).

Behaviour of the code worth noting:

- For a non-200 answer, the returned string is `⚠️ API error: HTTP <status>`
  only. The response body is logged (bot.py:131-133) but not included. If
  reading that body raises, the exception reply is returned instead
  (bot.py:131, 134-136), so `Exchange` carries the reading of the body as a
  `BodyText` that may be `Unreadable`.
- `update_stats` runs (bot.py:127) before the content is extracted
  (bot.py:129). A 200 answer whose `choices` list is empty therefore records
  usage, then raises IndexError, and returns
  `❌ Exception occurred: list index out of range`.
- A first line longer than the limit produces an empty first chunk `""`
  (bot.py:64-65). An oversized line always forms a chunk of its own
  (`Chunker.OversizedFirstLine` works one case through).
- That empty first chunk is still handed to `ctx.send` (bot.py:167-168). The
  chat service refuses an empty message, as it refuses one over 2000
  characters, so in practice the send loop stops there and `ask_error`
  answers instead; the full reply is already in the history by then.

## Model

| member | source | states |
|---|---|---|
| Text.SplitLines | bot.py:58 | the lines concatenate back to the text exactly, and none is empty |
| Text.SplitLinesAreWholeLines | bot.py:58 | every line is whole: no line boundary occurs before its terminator (`\r\n` counts as one); every line but the last ends with a terminator |
| Text.SplitLinesKeepCrLf | bot.py:58 | a `\r\n` is never split across two lines: no line ends with `\r` while the next starts with `\n` |
| Text.DecimalRoundTrip | bot.py:133 | reading the decimal rendering of a status code back gives the code |
| Text.DecimalInjective | bot.py:133 | distinct status codes are rendered differently |
| Chunker.Chunks | bot.py:57-69 | the value `split_message` returns, defined without a loop: the lines packed greedily (`PackLines`), an empty final `current` dropped; its properties are the Chunker lemmas below |
| Chunker.SplitMessage | bot.py:57-69 | the loop returns exactly `Chunks(text, max)`; the chunks concatenate back to the text; empty text gives no chunks; the last chunk is never empty; only the first chunk can be empty |
| Chunker.PackLinesInvariant | bot.py:59-66 | after any prefix of lines, the closed chunks plus `current` form a greedy packing of that prefix |
| Chunker.GroupsAreGreedy | bot.py:61-68 | the chunks are runs of consecutive whole lines, in order; a chunk over the limit is a single line; the first chunk is empty exactly when the first line alone exceeds the limit; no chunk could have taken the first line of the next one |
| Chunker.GreedyPackingUnique | bot.py:61-68 | there is only one packing with those greedy properties |
| Chunker.ChunksAreTheGreedyPacking | bot.py:57-69 | a grouping of the lines is a greedy packing if and only if it is the one whose concatenations are the returned chunks |
| Chunker.ChunkProperties | bot.py:57-69 | at the chunk level: concatenation gives the text; no chunks exactly for empty text; last chunk non-empty; later chunks non-empty; the first chunk is `""` if and only if the first line exceeds the limit; an oversized non-empty chunk is one of the text's lines |
| Chunker.OversizedFirstLine | bot.py:62-68 | for `"abcd\nx"` and limit 3 the chunks are `""`, `"abcd\n"`, `"x"` |
| Usage.Record | bot.py:92-100 | the totals after one `update_stats`: one more request, each count added in with absent keys as 0, a speed sample appended only when `response_token/s` is present; `RecordGrows` and `RecordAllFromZero` state its properties |
| Usage.Mean | bot.py:214 | `sum(xs) / len(xs)` when there are samples, else 0; `MeanBounds` states its properties |
| Usage.UsageStats.constructor | bot.py:47-54 | all counters start at 0 and the speed list starts empty |
| Usage.UsageStats.UpdateStats | bot.py:92-100 | `total_requests` grows by exactly 1; each token and duration total grows by its usage value, or by 0 if the key is absent; a speed sample is appended exactly when `response_token/s` is present; nothing else changes |
| Usage.RecordGrows | bot.py:92-100 | one record never lowers a counter or drops a sample, and counts exactly one request |
| Usage.RecordAllGrows | bot.py:92-100 | over any run of requests the counters never decrease, earlier samples are kept, and the request count rises by the run's length |
| Usage.RecordAllFromZero | bot.py:92-100 | after N records from the initial state: requests is N, each total is the sum of that field over the responses (absent keys count 0), and the samples are exactly the reported speeds, in order |
| Usage.MeanBounds | bot.py:214 | the mean speed is 0 with no samples; otherwise it lies between any lower and upper bound of the samples |
| Gateway.ReplyOf | bot.py:129 | the `choices` / `message` / `content` extraction with its defaults, and the IndexError reply for an empty `choices`; `OkOutcome` states its cases |
| Gateway.Interpret | bot.py:119-136 | the reply and the recorded usage for every exchange: transport failure, non-200 with a readable or unreadable body, 200 with an undecodable or decoded body; `RecordsIffDecodedOk`, `NonOkOutcome`, `OkOutcome` and `FailureOutcome` state its cases |
| Gateway.ApiErrorReadBack | bot.py:133 | the status code can be read back from the API-error reply |
| Gateway.ExceptionIsNotApiError | bot.py:133-136 | no exception reply parses as an API-error reply |
| Gateway.RecordsIffDecodedOk | bot.py:121-136 | usage is recorded if and only if the answer has status 200 and a decodable JSON body |
| Gateway.NonOkOutcome | bot.py:130-133 | a non-200 answer whose body can be read returns the API-error reply for its status and records nothing; the reply does not depend on the body text or its JSON |
| Gateway.OkOutcome | bot.py:121-129 | a decoded 200 answer records its usage (`{}` when absent) once; it returns the first choice's content, `No response received.` when `choices` is missing or the first choice has no `message` or its message no `content`, or the IndexError exception reply when `choices` is empty |
| Gateway.FailureOutcome | bot.py:119-136 | an exception before `update_stats` (transport error, unreadable non-200 body, undecodable 200 body) records nothing and returns the exception reply with the error text, which never parses as an API-error reply; no other exchange raises before `update_stats` (bot.py:127) |
| Gateway.SendRequest | bot.py:102-136 | sends `{model, messages}`; returns the interpreted reply; updates the stats exactly by `Record` when usage was recorded and leaves them unchanged otherwise |
| Sessions.StartingHistory | bot.py:149-157 | the history `ask` starts from: the stored one, else a new one seeded with the persona as a system message when one is set; `AskUpdatesOnlyItsUser` and `PersonaIsolation` state its cases |
| Sessions.AfterAsk | bot.py:159-165 | the sessions map after `ask`: that user's starting history plus the user and the assistant message; `AskUpdatesOnlyItsUser`, `AskAddsMessages` and `ConsecutiveAsks` state its properties |
| Sessions.TotalMessages | bot.py:213 | the sum of the history lengths over all users; `TotalMessagesRemove` shows the order of summing does not matter |
| Sessions.TotalMessagesRemove | bot.py:213 | the total message count can be computed by taking out any one history first, so it does not depend on iteration order |
| Sessions.AskUpdatesOnlyItsUser | bot.py:149-165 | `ask` changes only its user's history; a new history starts with the persona as a system message if and only if a persona is set; an existing history is extended by the user message and then the assistant message, in that order |
| Sessions.AskAddsMessages | bot.py:149-165 | each `ask` adds two messages to the total, or three when it seeds a new history with a persona |
| Sessions.ResetRemovesMessages | bot.py:200 | `reset` removes exactly that user's messages from the total, and removes nothing when the user has no history |
| Sessions.ResetThenAsk | bot.py:149-160 | after `reset`, the next history has only the current persona (if any) and the new exchange; earlier messages never return |
| Sessions.PersonaIsolation | bot.py:153-157 | setting one user's persona never changes how another user's history is seeded, and never rewrites an existing history |
| Sessions.ConsecutiveAsks | bot.py:149-165 | a second `ask` sends the first request's user and assistant messages followed by the new user message, in order |
| Sessions.ReplyChunks | bot.py:167-168 | the pieces sent back to the channel are exactly the greedy chunks of the reply at the default limit 2000 |
| Sessions.Bot.constructor | bot.py:45-54 | the bot starts with no sessions, no personas and zeroed statistics |
| Sessions.Bot.Ask | bot.py:146-168 | sends the starting history plus the user message to model `discord`; stores that history plus the user and assistant messages, where the assistant content is the gateway's reply, error strings included; leaves personas unchanged; updates the stats as the gateway does; returns that reply's chunks |
| Sessions.Bot.Summarize | bot.py:180-189 | sends a single user message to model `summarizer`; leaves histories and personas unchanged; returns the reply's chunks |
| Sessions.Bot.SetPersona | bot.py:192-195 | overwrites only that user's persona and leaves every history unchanged |
| Sessions.Bot.Reset | bot.py:198-201 | removes only that user's history (a no-op without one) and leaves personas unchanged |
| Sessions.Bot.Stats | bot.py:210-214 | reports the number of histories, the number of personas, the total message count, the usage totals and the mean speed (0 with no samples) |

## Left out

- Discord client setup, event and command registration, `ctx.send`/`ctx.typing`, `on_ready` and `bot.run` (bot.py:40-43, 138-140, 247): external library glue. The chunks a command would send are returned instead.
- Failure of `ctx.typing()` (bot.py:162): it is entered after bot.py:160 has stored the user message. If it raises (a chat-service HTTP error), the source keeps the user message with no assistant reply and makes no request. The model assumes it succeeds.
- The `@cooldown` rate limits on `ask` and `summarize` (bot.py:145, 179): the chat library enforces them.
- `ask_error` (bot.py:170-176): the bot's own handler for errors the command raises. It replies with a cooldown notice, or with `⚠️ Something went wrong.` for any other error (bot.py:174-176). For the inputs modelled here those errors come from the chat library, which is outside the model, so the handler is not modelled. A `null` or non-string `content` would also reach it, through an AttributeError in `split_message` (bot.py:167); such JSON values are excluded (see the JSON line below).
- The HTTP session, POST, headers, body reading and JSON decoding (bot.py:108-122, 131): the exchange is an input value. The model does not capture the bearer token, the endpoint URL or the absence of a timeout.
- Environment loading, logging setup, `log_debug`, `log_request_summary` and the `debug` command (bot.py:9-38, 71-90, 203-207): configuration and logging side effects.
- Gateway.Interpret: `log_request_summary` (bot.py:84, called at bot.py:126 before `update_stats`) divides `total_duration` by the float `1e9`, which raises OverflowError for a duration too large for a float (about 2**1024 ns). The source then returns the exception reply and records nothing; the model records the usage, because durations are unbounded integers and floats are not modelled.
- Formatting in `stats` (bot.py:215-230): `time.strftime` of the duration and the two-decimal speed are not modelled. `Bot.Stats` returns the raw values. Speeds are exact reals, not floats.
- The confirmation texts of `setpersona` and `reset` and the static `commands` help text (bot.py:195, 201, 232-244).
- Interleaving of commands at the `await`s in `ask` (bot.py:162, entering `ctx.typing()`, and bot.py:163, the request): a concurrency race. Each `Ask` is modelled as atomic. In the source a second `ask` from the same user, or a `reset` (which has no cooldown), can run while the first `ask` waits; bot.py:165 then writes the first `ask`'s list back, which restores a history that `reset` removed. Sessions.ResetThenAsk and the other session lemmas hold for commands that run one after another.
- Python list aliasing in `ask` (the stored and the sent list are one object): histories are values. The user message is in the map during the call, and the final map is what the source leaves.
- JSON values of unexpected types are not modelled: a non-number usage field (which makes `update_stats` raise part-way), `null` content, or non-object `usage`/`choices` entries. Usage counts are `nat` or absent; content is a string or absent.
- Gateway.FailureOutcome: the text of an exception raised by the transport, the body reader or the JSON decoder comes from libraries outside the model, so it is an input string.
- Sessions.TotalMessagesRemove: Python sums the histories in the dictionary's insertion order. The model sums a map in an arbitrary order and proves the order does not matter.
