# ChatSummary in Dafny

A model of the `ChatSummary` chat-bot plugin (`main.py`). The plugin records every text
message per conversation. When a message contains one of the configured commands, it reads a
message count from the text and starts a summarization task for that conversation, unless one
is already running. In that case it sends a deflection instead. The task renders the trailing
records as a `name (HH:MM:SS): content` transcript and asks the Dify service to summarize it.
It posts the answer under a banner and records the time. On every exit it clears the
conversation's in-flight marker.

Modules, one per component of the plugin:

- `Wrappers` (`wrappers.dfy`): `Option` and a string-carrying `Result`.
- `Digits` (`digits.dfy`): the count parser `_extract_num_messages`, and `str()` of a
  non-negative integer, which the parser inverts.
- `Trigger` (`trigger.dfy`): the substring test `cmd in content` and the `any(...)` over the
  configured commands.
- `Transcript` (`transcript.dfy`): message records, the tail slice `history[-n:]`, the
  nickname loop, line rendering, and `"\n".join` with its inverse `split("\n")`.
- `Dify` (`dify.dfy`): the string `_get_summary_from_dify` returns for each kind of reply.
- `ChatSummary` (`chat_summary.dfy`): class `Plugin`, holding the three maps of the plugin
  (`chatHistory`, `summaryTasks`, `lastSummaryTime`). It has the handler and the
  summarization task as methods. Two further fields log what the host delivered (`outbox`)
  and which requests the task attempted to send to the service (`queries`).

The outside world is a parameter. The `Host` record holds the nickname lookup, the time
formatting, the service's reply and whether each send was delivered:

- The nickname lookup is a map. A missing key stands for a `get_nickname` call that raised.
- Time formatting is a function `int -> Result<string>`. `Err` stands for
  `datetime.fromtimestamp(...).strftime(...)` raising, which is handled by the outer `except`
  at main.py:166-175.
- The service's reply is a `Dify.Reply`: a client exception, or a status, a body, and the
  body decoded as JSON.
- Whether each send reached the conversation is a flag. A failed send is logged and
  swallowed by the source, so the model simply does not add it to `outbox`.
- The clock (`datetime.now()`) is the parameter `now` of `RunSummaryTask`.

`Plugin.Valid()` is the invariant that a conversation with a task in flight has a non-empty
history. The handler appends the triggering message before it registers a task, and histories
never shrink. So, for a task started by the handler, the "not enough history" branch at
main.py:122 is never taken (last ensures of `RunSummaryTask`).

Four behaviours of the code are easy to misread, and the model follows the code in each:

- After a *delivered* "not enough history" notice, the code does not return (main.py:122-130).
  The notice at main.py:124 says there is not enough history to summarize. Yet the code falls
  through, queries the service with an empty transcript and posts the answer under the banner
  (`EmptyHistoryStillQueries`). This path cannot be reached from the handler, as shown above.
- A non-200 reply is not an exception. `_get_summary_from_dify` returns the error text built at
  main.py:213. The task posts that text under the summary banner at main.py:155
  (`ServerErrorDeliveredAsSummary`) and then sets `last_summary_time` at main.py:163. The
  ensures on `last_summary_time` of `RunSummaryTask` state this for every answered exit,
  error texts included.
- Reading `self.chat_history[chat_id]` at main.py:132 stores an empty list for a missing
  conversation, because the map is a `defaultdict`. `RunSummaryTask` models that too.
- The `except ValueError` at main.py:233 is reachable. It is reached when the first run of
  digits is longer than the 4300 digits that Python 3.11's `int()` accepts by default; the
  source needs 3.11 or later because it uses `tomllib`. `ExtractNumMessages` then returns
  None, and the handler uses the default count.

## Model

| member | source | states |
|---|---|---|
| `Digits.ExtractNumMessages` | main.py:218-235 | None when the text has no ASCII digit; for the first maximal run of digits `text[i..j]`, the value of that run, or None when the run is longer than `int()` accepts |
| `Digits.RequestedCount` | main.py:253-255 | the count the handler uses: the value of the first digit run, and the configured default when the text has no digit or the run is refused |
| `Digits.FirstRunUnique` | main.py:229 | a text has exactly one first maximal digit run: the one `re.search(r'(\d+)')` finds |
| `Digits.FirstRunExists` | main.py:229-230 | every text that contains a digit has a first maximal digit run, so the search matches |
| `Digits.DecimalString` | main.py:213 | `str()` of a non-negative integer is a non-empty digit string with no leading zero, except for 0 itself |
| `Digits.DigitsValue` | main.py:231 | `int()` of a digit run; `DecimalRoundTrip` proves it inverts `str()`, and `ExtractNumMessages` applies it to the first run |
| `Digits.DecimalRoundTrip` | main.py:231 | `int()` of `str(n)` is `n` |
| `Digits.ExtractEmbedded` | main.py:228-231 | a number written between a digit-free prefix and a suffix that does not start with a digit is what the parser returns |
| `Digits.ExtractExamples` | main.py:228-235 | "总结100条" gives 100; "总结" gives None, so the default is used |
| `Digits.ExtractFirstRunExample` | main.py:229-231 | "a007b12" gives 7: the first run only, with leading zeros ignored |
| `Trigger.Contains` | main.py:251 | `pat in s` holds exactly when `pat` occurs in `s` at some index; the empty pattern occurs everywhere |
| `Trigger.AnyCommandIn` | main.py:251 | the summarization path is taken exactly when some configured command occurs in the content |
| `Trigger.CommandEmbeddedTriggers` | main.py:251 | any content with a configured command embedded in it triggers |
| `Trigger.DegenerateCommandLists` | main.py:251 | with no commands nothing triggers; an empty command triggers on every message |
| `Transcript.Tail` | main.py:132 | `history[-n:]`; its length and order are proved in `TailSpec` |
| `Transcript.TailSpec` | main.py:132 | `history[-n:]` is a suffix of the history, in the original order: for `n >= 1` the last `min(n, len)` records; for `n = 0` the whole history; for a negative `n` all but the first `-n` |
| `Transcript.Senders` | main.py:135 | the set comprehension over the selected records; `SendersSpec` proves what it holds |
| `Transcript.SendersSpec` | main.py:135 | the set of wxids holds the sender of every selected record, and nothing else |
| `Transcript.BuildNicknames` | main.py:136-143 | the loop yields one entry per sender: the nickname the host reported, or the wxid itself when the lookup failed |
| `Transcript.RenderLines` | main.py:146-149 | the list comprehension of transcript lines; `RenderLinesSpec` proves its result |
| `Transcript.Render` | main.py:146-149 | the lines joined with newlines, or the exception; `TranscriptLines` proves what the transcript splits into |
| `Transcript.JoinLines` | main.py:146 | `"\n".join`; `JoinSplit` and `SplitJoin` prove it is inverted by splitting at newlines |
| `Transcript.RenderLinesSpec` | main.py:146-149 | rendering succeeds exactly when every timestamp formats; then one `name (time): content` line per record, in order, with the name from `nicknames.get(wxid, wxid)`; otherwise the exception of the first record whose timestamp could not be formatted takes the place of the whole list |
| `Transcript.JoinSplit` | main.py:146 | splitting the joined transcript at newlines and joining again gives it back |
| `Transcript.SplitJoin` | main.py:146 | newline-free lines joined with `"\n"` split back into exactly those lines |
| `Transcript.DisplayNameIsResolved` | main.py:135-147 | every sender has an entry in the nickname table, so the `.get` fallback never fires and the name is the nickname or the wxid |
| `Transcript.TranscriptLines` | main.py:132-149 | for newline-free records, the transcript has exactly one line per selected record, in order, each naming its sender by nickname or wxid |
| `Transcript.LastTwoOfThreeExample` | main.py:132-149 | from three records and a request for two, the transcript holds the second and third, in that order, under their nicknames |
| `Transcript.LineExample` | main.py:147 | the line format is the name, the time in parentheses, a colon, a space and the content |
| `Dify.SummaryFromReply` | main.py:204-216 | the string returned for each kind of reply; `SummaryFromReplyCases` proves the three cases |
| `Dify.SummaryFromReplyCases` | main.py:204-216 | status 200 with a JSON object gives its `answer`, or "" when it is absent; any other status gives a text containing the status and the body; a client exception or an undecodable 200 body gives the retry notice |
| `Dify.ServerErrorExample` | main.py:210-213 | a 500 reply with body "server error" gives the API error prefix followed by "500 - server error", a text containing both "500" and "server error" |
| `ChatSummary.Outcome` | main.py:119-175 | the exit `_summarize_chat` takes; `AnsweredIff`, `AnsweredTranscript` and `EmptyHistoryStillQueries` characterize it, and `RunSummaryTask` is proved to take it |
| `ChatSummary.ComposeSummary` | main.py:122-152 | the values the task computes are those of `Outcome`: the early exit exactly when the history is empty and the notice was not delivered, otherwise the transcript of the trailing records, with one lookup per sender, and the service's reply |
| `ChatSummary.Plugin.constructor` | main.py:76-108 | the plugin starts with the given configuration and with empty history, no tasks in flight and no summary times |
| `ChatSummary.Plugin.HandleTextMessage` | main.py:237-272 | disabled: nothing changes; enabled: the message is appended to its own conversation's history and every other history is unchanged; without a command nothing else happens; with a command the deflection is sent and the tasks are unchanged if one is in flight, and otherwise exactly that conversation gets a marker with the requested count, over a non-empty history |
| `ChatSummary.Plugin.RunSummaryTask` | main.py:110-178 | the exit is `Outcome` of the history, count and host; the marker is removed and no other marker changes; the summary time is written only after a delivered summary; the messages delivered and the query attempted match the exit; it is run with the count stored in the conversation's marker, when there is one; a task that was registered never takes the empty-history branch |
| `ChatSummary.Plugin.Deliver` | main.py:122-178 | the effects for a given exit: the marker is removed; the notice is delivered for an empty history; the history is stored unless the task stopped early; the time is written only after a delivered summary; the outbox and query log grow by exactly what the exit sends |
| `ChatSummary.Plugin.Conclude` | main.py:154-178 | the summary or the error notice is delivered when the send succeeds; the time is recorded only after a delivered summary; `finally` removes exactly this conversation's marker |
| `ChatSummary.EmptyHistoryStillQueries` | main.py:122-152 | after a delivered "not enough history" notice the task still queries the service with an empty transcript |
| `ChatSummary.AnsweredIff` | main.py:122-152 | a task reaches the service exactly when it gets past the history check and every selected timestamp formats |
| `ChatSummary.AnsweredTranscript` | main.py:132-152 | the query of an answered task over newline-free records has one line per record for the last `min(n, len)` records, in order, each with its formatted time |
| `ChatSummary.SuffixTranscriptLines` | main.py:132-149 | the transcript of the last `k` newline-free records splits into `k` lines, the record at position `j` giving line `j - (len - k)` |
| `ChatSummary.ServerErrorDeliveredAsSummary` | main.py:152-155 | a 500 reply is delivered as one banner-prefixed report that contains "500" and "server error" |
| `ChatSummary.ReplyDeliveredAsReport` | main.py:154-158 | a delivered answer whose summary is the text of a 500 reply is one report: the banner followed by that text |
| `ChatSummary.BackToBackCommands` | main.py:257-272 | two commands in a row for one conversation: the first starts a task; the second is deflected, creates no second marker, and sends only the deflection |
| `ChatSummary.GuardIsReusable` | main.py:176-178 | once a task has ended, by any exit, the next command for the conversation starts a new task |

## Left out

- The HTTP request itself (main.py:191-204) is not modelled: the aiohttp session, the POST,
  the proxy, the headers and the JSON payload. The service's reply is an input. The query
  log records the `user` field and the transcript, but not the fixed prompt that the source
  puts in front of the transcript.
- `close()` (main.py:275-291) is not modelled: asyncio task creation, cancellation and the
  session shutdown are concurrency and lifecycle. So is a `CancelledError` ending a task
  early. A task is modelled as one atomic `RunSummaryTask` call, so the interleaving of
  other messages with a task's awaits is not captured.
- Configuration loading (main.py:78-103) is not modelled. `enable`, `commands` and
  `default_num_messages` are constructor parameters; `enable` is already false when the
  configuration file is missing or the Dify settings are incomplete.
- The host calls are not modelled. `send_text_message` is reduced to a delivered or failed
  flag, whether it fails with `AttributeError` or with another exception. `get_nickname` is
  reduced to a partial map.
- Time formatting (main.py:147) depends on the clock and the time zone. It is a function
  parameter of the task.
- Logging is not modelled. Neither is the wording of the prompt constants (main.py:27-74):
  the deflection is the notice `InProgress`.
- `Digits.ExtractNumMessages`: reads only ASCII digits `'0'..'9'`. Python's `\d` also
  matches other Unicode decimal digits.
- The integer string limit is fixed at the interpreter's default of 4300 digits. The limit is
  configurable in Python, for example with `PYTHONINTMAXSTRDIGITS`.
- `Dify.SummaryFromReply`: an `answer` that is present but not a string is not modelled.
  With JSON `null`, for example, the source would post "None".
- `summary_wait_time` (main.py:86) and `REPEAT_SUMMARY_PROMPT` are loaded or declared but
  never used. No cooldown is modelled.
- A message dict without the expected keys, which raises `KeyError` in the handler, is not
  modelled: messages are typed records.
