# A Dafny model of the twitch-chatgpt chat bot core

The bot relays chat commands such as `!gpt hello` to an OpenAI model and says the answer back in the
channel. This project models three parts of it.

- **The conversation window** (`openai_operations.js`, module `OpenAI`, class `OpenAIOperations`).
  It is a list of role/content turns seeded with one system turn. Each call pushes the user turn and
  then removes the turns at indices 1 and 2 when the window holds more than `2 * historyLength + 1`
  turns. It then asks the provider on the endpoint the model name selects and appends the answer.
  A provider failure returns a fixed apology instead.
- **The message handler** (`index.js`, module `Bot`, class `ChatBot`):
  - channel-name normalisation and parsing of the comma-separated settings;
  - the registry of one window per normalised channel name;
  - the single cooldown timestamp shared by every channel;
  - the channel-points branch and the command branch;
  - the payload built from the message;
  - delivery of long replies in chunks of `/.{1,399}/g`, one second apart.

  The handler is specified by the function `Handle`. `ChatBot.OnMessage` is proved to compute it.
- **The message log** (`memory_manager.js`, module `Memory`, class `MemoryManager`):
  - the normalised channel name and database path;
  - a handle opened lazily;
  - an insert with the next `AUTOINCREMENT` id;
  - the query for the latest rows, returned oldest first.

  The SQLite table is a sequence of rows in insertion order.

The JavaScript string built-ins these rely on are in module `Text`, over `seq<char>`: `trim`,
ASCII `toLowerCase`, `startsWith`, `split` on one character, `slice`, `indexOf` and `replace` of
one character. Module `Util` holds `Option`, `Reverse` and `Concat`.

The provider is an oracle. It is a total function from the request the bot sends to a
`ProviderReply`: either `Failure` (the call throws) or `Reply(candidates)`. The candidates are the
text fields the code probes with `||`, in that order; a missing field is the empty string. The
clock is the `now` field of each `Event`. The context file of a channel is the function
`contextFor`. The rows already in a channel's database file are the `stored` constructor parameter.

Behaviour worth knowing:

- **Cooldown scope.** The cooldown timestamp is one value for all channels (`CooldownIsGlobal`).
- **Cooldown is decided once.** It is computed when the message arrives. A highlighted message that
  passes it updates the timestamp and then also goes through the command branch with the cooldown
  decided at arrival. A highlighted command therefore consults the provider twice.
- **No continuation loop.** There is exactly one provider call per request. There is no truncation
  status and no cap on the number of chunks.
- **Window bound.** The trim runs after the user turn is pushed and before the answer is appended.
  So the window holds at most `2h + 2` turns after a call (`CallBounded`, `HandleKeepsWindow`,
  and the class invariant `OpenAIOperations.Valid`). With `h = 0` the trim evicts the user turn just pushed
  (`ZeroHistoryEvictsUserTurn`).
- **The trim removes positions, not pairs.** `splice(1, 2)` removes the turns at indices 1 and 2,
  whatever their roles. After a failed call leaves a user turn without an answer, later trims can
  keep an assistant turn whose user turn is gone (`FailedCallMisalignsPairs`).
- **Chunks drop line terminators.** The regular expression `.` does not match line terminators.
  The chunks of a long reply therefore concatenate to the reply with its line terminators removed
  (`Deliveries`, `LongReplyReassembles`). Each line is chunked on its own, greedily
  (`ChunksAtTerminator`, `ChunksGreedy`), so a short line makes a short chunk.
- **Payload.** With `SEND_USERNAME` on, the user turn is `Message from user <name>: <text>`
  (`ShortExchange`).
- **Message log not called.** `onMessage` never calls the message log, so no per-user memory is
  merged into the conversation.

## Model

| member | source | states |
|---|---|---|
| Util.Reverse | memory_manager.js:58 | the reversed rows have the same length and hold, at index i, the row at index n-1-i |
| Text.TrimStartStrips | index.js:46 | dropping leading white space leaves the suffix that starts at the first non-space, with only white space removed |
| Text.TrimEndStrips | index.js:46 | dropping trailing white space leaves the prefix that ends at the last non-space, with only white space removed |
| Text.TrimStrips | index.js:46 | `trim` yields a string with no white space at either end, and it is a slice of the input with only white space around it |
| Text.TrimOfTrimmed | index.js:137 | trimming a string without white space at its ends leaves it unchanged |
| Text.TrimAfterSpaces | index.js:137 | `trim` of white space followed by a trimmed text is exactly that text |
| Text.ToLower | index.js:46 | lower-casing keeps the length and maps each character through ASCII `toLowerCase` |
| Text.ToLowerIdempotent | index.js:46 | lower-casing twice is lower-casing once |
| Text.ToLowerKeepsTrimmed | index.js:46 | lower-casing a trimmed string leaves it trimmed |
| Text.Drop | index.js:137 | `slice(start)` has length n-start (0 past the end), and the prefix plus the result is the input |
| Text.Split | index.js:67 | `split` on one character gives at least one part and no part contains the separator |
| Text.JoinSplit | index.js:67-68 | joining the parts of a split with the separator gives the input back |
| Text.SplitCount | index.js:67-68 | a split has exactly one more part than the input has separators |
| Text.SplitJoin | index.js:67-68 | splitting the join of separator-free parts gives the parts back |
| Text.IndexOf | memory_manager.js:9 | `indexOf` is -1 exactly when the character is absent, else the index of its first occurrence |
| Text.RemoveFirst | memory_manager.js:9 | `replace` of one character removes its first occurrence and nothing else, and leaves a string without it unchanged |
| OpenAI.EndpointExamples | openai_operations.js:39-43 | gpt-3.5-turbo and gpt-4 use chat completions; gpt-4o-mini, gpt-5 and gpt-4.1-nano use the responses endpoint |
| OpenAI.FirstNonEmpty | openai_operations.js:84-86 | the `||` chain yields the first non-empty candidate, the fixed notice when all are empty, and never the empty string |
| OpenAI.TrimHistory | openai_operations.js:12-22 | within the bound the window is unchanged; over it the system turn stays first and entries 1 and 2 are removed, the rest kept in order |
| OpenAI.CallRequest | openai_operations.js:39-82 | the responses endpoint is sent only the new text; chat completions is sent the window after the push and trim |
| OpenAI.CallOutcome | openai_operations.js:84-99 | on success one assistant turn with the non-empty answer is appended after the trimmed window; on failure the apology is returned and the trimmed window kept |
| OpenAI.UserTurnSurvivesTrim | openai_operations.js:30-31 | with at least one pair kept, the user turn just pushed is the last turn after the trim |
| OpenAI.ZeroHistoryEvictsUserTurn | openai_operations.js:16-20 | with a history length of 0 the trim evicts the user turn just pushed |
| OpenAI.CallKeepsFirstTurn | openai_operations.js:20 | no call removes or changes the system turn |
| OpenAI.CallBounded | openai_operations.js:16-20 | a window of at most 2h+2 turns holds at most 2h+1 after the trim and at most 2h+2 after the call |
| OpenAI.OpenAIOperations.constructor | openai_operations.js:5-10 | the window starts as exactly the system turn holding the context, with the given model and history length |
| OpenAI.OpenAIOperations.CheckHistoryLength | openai_operations.js:12-22 | the new window is the trim of the old one |
| OpenAI.FailedCallMisalignsPairs | openai_operations.js:16-20 | with one pair kept, a failed call and two answered calls leave the system turn, the second answer without its question, the third question and its answer |
| OpenAI.OpenAIOperations.MakeOpenAICall | openai_operations.js:27-100 | the answer and the new window are those of `Call` on the old window; the system turn is kept and the window stays within 2h+2 turns |
| OpenAI.OpenAIOperations.MakeOpenAICallCompletion | openai_operations.js:105-128 | the completion model is sent the prompt alone; the answer is never empty, and is the apology on failure |
| Bot.DropHash | index.js:46 | the result is the input or the input minus one leading '#', and it is shorter exactly when the input starts with '#' |
| Bot.NormChannelIsNormal | index.js:45-47 | a normalised name is no longer than the raw one, has no white space at its ends and is lower-case |
| Bot.NormChannelIdempotentIff | index.js:45-47 | normalising again changes a normalised name exactly when it still starts with '#' |
| Bot.NormChannelNotIdempotent | index.js:45-47 | "#  #x" normalises to "#x", which normalises to "x" |
| Bot.ParsedName | index.js:67 | a trimmed and lower-cased comma-free field is a well-formed command name |
| Bot.ParseCommandNames | index.js:67 | there is one name per comma-separated field, each without commas, trimmed and lower-case |
| Bot.ParseChannels | index.js:68 | there is one channel per comma-separated field, each without commas and trimmed |
| Bot.ParseCommandNamesJoin | index.js:67 | parsing the comma-join of well-formed command names gives the names back |
| Bot.ParseChannelsJoin | index.js:68 | parsing the comma-join of trimmed comma-free channels gives the channels back |
| Bot.ParseCommandNamesOfJoin | index.js:67 | for any comma-free fields, name i of their comma-join is field i trimmed and lower-cased (every setting is such a join, by `JoinSplit`) |
| Bot.ParseChannelsOfJoin | index.js:68 | for any comma-free fields, channel i of their comma-join is field i trimmed (every setting is such a join, by `JoinSplit`) |
| Bot.DefaultChannels | index.js:32 | the default channel setting parses to the two channels oSetinhas and jones88 |
| Bot.FindCommand | index.js:129 | `find` yields the index of the first name the message starts with, or none when no name matches |
| Bot.MatchedCommand | index.js:129-130 | an acted-on command is non-empty and a prefix of the lower-cased message |
| Bot.MatchedCommandIsFirst | index.js:129 | the acted-on command is the first configured name that prefixes the lower-cased message |
| Bot.MatchedCommandNone | index.js:129-130 | no command is acted on exactly when no name matches, or when the first match is the empty name |
| Bot.LoweredPrefix | index.js:129 | a lower-case prefix of the message is also a prefix of the lower-cased message |
| Bot.LeadingEmptyNameMatchesNothing | index.js:129-130 | a name list that starts with the empty name silences every command |
| Bot.PayloadRecoversText | index.js:137-140 | command, white space and a trimmed text yield exactly that text, prefixed by the sender when usernames are sent |
| Bot.RunLength | index.js:144 | the greedy `.{1,n}` run is at most n long, has no line terminator, and stops only at n, at the end or at a line terminator |
| Bot.Chunks | index.js:144 | every chunk holds 1 to n characters and no line terminator; the chunks concatenate to the input without its line terminators |
| Bot.ChunksFront | index.js:144 | on a text without line terminators the first chunk is its first min(n, length) characters |
| Bot.RunLengthStopsAtTerminator | index.js:144 | a run never crosses a line terminator: text after one does not change the run before it |
| Bot.ChunksRunFront | index.js:144 | a text that opens with a run has that run as its first chunk |
| Bot.ChunksRunBeforeTerminator | index.js:144 | a run followed by a line terminator is the first chunk of the whole text |
| Bot.ChunksAtTerminator | index.js:144 | the chunks of a text split at a line terminator are the chunks of the part before it followed by those of the part after it |
| Bot.ChunksOfShortLine | index.js:144 | a line of 1 to n characters without line terminators is one chunk |
| Bot.ChunksOfTwoLines | index.js:144 | two short lines joined by a line terminator give exactly two chunks, one per line |
| Bot.ChunksGreedy | index.js:144 | on a text without line terminators every chunk but the last has exactly n characters, and the chunk count is the least that holds the text |
| Bot.Deliveries | index.js:143-150 | a reply that fits is said once without delay; a longer one is said as exactly the chunks of `/.{1,399}/g`, chunk i after 1000*i ms, each of 1 to 399 characters |
| Bot.LongReplyReassembles | index.js:143-147 | a long reply without line breaks is said in the least number of chunks, at least two, all but the last of 399 characters, that concatenate to it |
| Bot.HandleInvariants | index.js:110-161 | the bot's own messages change nothing; the timestamp moves only to the arrival of a message that passed the cooldown; while cooling down the window is untouched and at most the notice is said; every say goes to the message's channel |
| Bot.NonCommandIgnored | index.js:129-130 | a message that is neither highlighted nor a command changes nothing and says nothing |
| Bot.CommandRejected | index.js:131-134 | a command during the cooldown gets exactly the cooldown notice and changes nothing |
| Bot.CommandAccepted | index.js:135-150 | an accepted command sets the timestamp to its arrival, calls the provider with the payload and delivers the answer |
| Bot.CooldownIsGlobal | index.js:113-135 | after a command is accepted in one channel, a command in any channel within the cooldown is turned away |
| Bot.CallKeepsWindow | openai_operations.js:16-20 | one call keeps the window within 2h+2 turns with its first turn unchanged |
| Bot.HandleKeepsWindow | index.js:119-142 | handling any message keeps the channel's window within 2h+2 turns with the system turn first, even with two provider calls |
| Bot.ShortExchangeCommand | index.js:129 | "!gpt hello" is matched by the command !gpt |
| Bot.ShortExchangePayload | index.js:137-140 | "!gpt hello" from alice becomes "Message from user alice: hello" |
| Bot.ShortExchangeCall | openai_operations.js:27-91 | a fresh window and a provider answering "hi" yield the request with the system and user turns, the answer "hi" and three turns |
| Bot.ShortExchange | index.js:110-150 | "!gpt hello" from alice after the cooldown is answered with one say of "hi", and the window gains the user and assistant turns |
| Bot.NewRegistry | index.js:77-83 | the keys are the normalised names; each value is a fresh, distinct window seeded with that name's context and the bot's settings |
| Bot.ChatBot.constructor | index.js:67-83 | the settings are parsed, the timestamp is 0, and each configured channel's normalised name has its own fresh window |
| Bot.ChatBot.LookupRoutes | index.js:116-117 | a channel that normalises like a configured channel reaches that window; any other channel gets the first configured channel's window |
| Bot.ChatBot.LookupFromChat | index.js:116-117 | a configured channel named with a leading '#' finds its own window |
| Bot.ChatBot.HighlightBranch | index.js:119-127 | the channel-points branch computes `AfterHighlight`: a highlighted message is answered in full and the timestamp set |
| Bot.ChatBot.CommandBranch | index.js:129-150 | the command branch computes `AfterCommand`: nothing, the cooldown notice, or the delivered answer |
| Bot.ChatBot.OnMessage | index.js:110-161 | the says, the new timestamp and the channel's window are those `Handle` gives; other channels' windows are unchanged |
| Memory.NextId | memory_manager.js:30 | the next id exceeds every id in the table and is 1 or one more than an existing id |
| Memory.NextIdAfterLast | memory_manager.js:30 | in a table with increasing ids the next id is the last id plus one |
| Memory.AppendKeepsIdsIncreasing | memory_manager.js:43-46 | inserting a row with the next id keeps the ids increasing |
| Memory.NewestFirstIsOrderedQuery | memory_manager.js:53-56 | the query returns min(limit, rows) rows, all rows when the limit is negative, with ids strictly decreasing; every row left out is older than every row returned |
| Memory.ReversedQueryIsLatestRows | memory_manager.js:53-58 | reversing the newest-first result gives the last rows of the table, oldest first |
| Memory.LatestAfterSave | memory_manager.js:41-58 | after a message is saved, a query with a non-zero limit ends with that message |
| Memory.ChannelNameDropsHash | memory_manager.js:9 | "#Ab" becomes "ab" |
| Memory.ChannelNameFirstHashOnly | memory_manager.js:9 | only the first '#' is removed, even when it is not leading: "a#b#" becomes "ab#" |
| Memory.MemoryManager.constructor | memory_manager.js:8-12 | the channel name is lower-cased with its first '#' removed, the path is memory/<name>.db, and the handle is closed |
| Memory.MemoryManager.Init | memory_manager.js:14-38 | the handle is open and the rows are unchanged |
| Memory.MemoryManager.SaveMessage | memory_manager.js:41-48 | the handle is open; exactly one row with the next id is appended, and the earlier rows are unchanged |
| Memory.MemoryManager.GetRecentMessages | memory_manager.js:51-59 | the handle is open and the table unchanged; the result is the last `Count(rows, limit)` rows, oldest first, with a default limit of 10 |

## Left out

- Express, the websocket route, text-to-speech, the keep-alive job and the Twitch connection are
  not modelled. They are I/O around the handler.
- The OpenAI SDK parameters are not modelled: temperature, token limits and penalties do not
  affect the bot's logic.
- The `response.output` fallback in the `||` chain is not modelled. It can yield a non-string array
  that is then pushed as content. The candidates are the string fields only.
- The cooldown notice's text is not modelled: the wait time uses `toFixed(1)` and string
  arithmetic. `SayCooldown(channel)` stands for the notice.
- `setTimeout` is modelled as the delay of each `Say`, not as real timing. A delay of 0 is the
  direct `say`.
- A reply longer than 399 characters made only of line terminators makes `match` return `null`.
  The code then throws, after the timestamp and window were updated; the model says nothing in that
  case.
- `loadContextFor` reads files. The context of each channel is the parameter `contextFor`.
- Settings come from environment variables. They are passed already typed: `HISTORY_LENGTH` as a
  `nat`, the flags as `bool`, the cooldown as an `int`. String coercion is not modelled.
- Elapsed time in the code is a floating-point number of seconds. The model compares integer
  milliseconds, `now - last < 1000 * cooldown`. Rounding is not modelled.
- `Text.ToLower`: only ASCII letters are lower-cased. Unicode case mapping and UTF-16 code units
  are not modelled.
- Concurrency between handlers across `await` points is not modelled. Each message is handled to
  completion.
- `MemoryManager`: `path.resolve` (working directory, normalisation) is not modelled, and neither
  are the SQLite engine, the timestamp column, the `mkdir` of the folder or console output. Two
  managers sharing one file are not modelled either: the rows present at creation are a
  parameter.
- `Bot.MatchedCommand`: its own contract states only the match direction. The first-match and
  no-match characterisations are the lemmas `MatchedCommandIsFirst` and `MatchedCommandNone`.
- `Bot.NewRegistry`: the normalised names are computed before the registry loop, not inside it.
  The resulting map is the same.
