# Simplest ChatGPT Telegram bot — in-memory state layer, in Dafny

This project models the part of the bot that keeps state between messages and
decides what to send back:

- **the conversation history** (`chat_history`): a map from chat id to the list
  of messages exchanged so far. It is created lazily and grows by the user's
  text and then the stripped completion. `/new` and `/stop` reset it;
- **the reply pipeline** for a plain text message (`generate_response`). It runs
  the access check, the history update and the prompt built from the last five
  entries joined by newlines. Then it calls the completion backend, strips the
  completion and sends it in parts of at most 4096 characters;
- **the per-user preferences** (`user_preferences`): a record of five generation
  settings. Each user gets the process defaults on first access, and
  `/settings <key> <value>` updates one field;
- **the access gate** (`is_allowed_user`), which decides from the contents of
  the allow-list file;
- **the configuration** read at start-up, including the `STOP == "null"` rule;
- **the help text** chosen by `/help [command]`;
- **the older single-file variant** (`telegram_bot.py`). It has its own history,
  no access check, a fixed request and no chunking.

Modules, one per source file or helper:

| module | file | models |
|---|---|---|
| `Wrappers` | wrappers.dfy | `Option`, `Result` (Python's `None` and raised exceptions) |
| `Text` | text.dfy | Python's `str.strip()` (with the exact `str.isspace()` set) and `str.join()` |
| `Chunking` | chunking.dfy | the 4096-character slicing of a reply |
| `History` | history.dfy | the history store type, the `[-5:]` window and the prompt |
| `Utils` | utils.dfy | configuration, preference records, access gate, the `State` class |
| `ChatgptInteraction` | chatgpt_interaction.dfy | `generate_response` |
| `Commands` | commands.dfy | `/new`, `/stop`, `/settings`, `/help` |
| `TelegramBot` | telegram_bot.dfy | the variant's `generate_response`, `generate_text`, `/new`, `/stop` |

The handlers work on a `State` object. It holds `chatHistory` and
`userPreferences`, the two module-level dictionaries, plus the configuration
(the older variant's handlers work on its own `LegacyState`, which holds its history).
The reply handlers (`GenerateResponse` in both variants) are methods that
change it (`modifies`) and return the messages they send as an ordered sequence,
`replies: seq<string>`. The `/new`, `/stop` and `/settings` handlers are
methods that change it and return their one `reply`. `/help` touches no
state and is the function `HelpText` of its arguments. Everything outside the
process is a parameter:

- the backend is a function from the request to the first choice's text or
  the error raised;
- reading the allow-list file gives an `AllowListFile` value;
- `int()` and `float()` on a string are parser functions returning the value
  or the exception text;
- number formatting in the `/settings` listing is a pair of functions.

Behaviour of the code worth noting:

- an empty completion is split into zero parts, so nothing is sent;
- `/stop` tests whether the chat has a history entry at all (even an empty one),
  and it does not create an entry for a chat that has none;
- a backend failure escapes the handler: no apology is sent, and the user's
  text stays in the history;
- the request carries only `max_tokens`, `temperature`, `n` and `stop`. `top_p`
  and the two penalties are stored but never sent;
- a missing or unreadable allow-list file, or any line that is not an integer
  (a blank line included), denies everybody;
- `/settings` with a key but no value fails on `args[1]` and replies with the
  `IndexError` text, even when the key is unknown.

## Model

| member | source | states |
|---|---|---|
| `Text.StripLeftSuffix` | chatgpt_interaction.py:27 | Leading-whitespace removal drops only whitespace and keeps a suffix of the input that is empty or starts with a non-space |
| `Text.StripRightPrefix` | chatgpt_interaction.py:27 | Trailing-whitespace removal drops only whitespace and keeps a prefix of the input that is empty or ends with a non-space |
| `Text.StripEdges` | chatgpt_interaction.py:27 | A stripped string is the input's middle s[i:j], with only whitespace before i and after j, and neither starts nor ends with whitespace |
| `Text.StripIdempotent` | chatgpt_interaction.py:27 | Stripping twice is the same as stripping once |
| `Text.StripAllSpace` | utils.py:54 | A line strips to the empty string exactly when it is whitespace only (a blank line) |
| `Text.AllSpaceStripsEmpty` | utils.py:54 | A line of whitespace only strips to the empty string |
| `Text.JoinSnoc` | chatgpt_interaction.py:18 | Joining one more entry appends the separator and that entry |
| `Text.JoinEndsWithLast` | chatgpt_interaction.py:18 | A newline-joined prompt ends with its last entry |
| `Text.JoinLength` | chatgpt_interaction.py:18 | The joined prompt's length is the entries' total length plus one separator between each two |
| `Chunking.ChunkConcat` | chatgpt_interaction.py:34-35 | Concatenating the parts in order gives back the stripped message |
| `Chunking.ChunkSizes` | chatgpt_interaction.py:34-35 | Every part is non-empty and at most 4096 long; every part but the last is exactly 4096 long |
| `Chunking.ChunkCount` | chatgpt_interaction.py:34-35 | There are ceil(len/4096) parts; an empty message has none, so nothing is sent |
| `Chunking.ChunkAt` | chatgpt_interaction.py:35 | Part k is exactly Python's slice message[k*4096 : k*4096 + 4096], which starts inside the message |
| `History.WindowIsLastEntries` | chatgpt_interaction.py:18 | The window is the last min(5, len) history entries, oldest first |
| `History.WindowSlides` | chatgpt_interaction.py:16-18 | After an append the new entry ends the window and, once five entries are there, the oldest drops out |
| `History.PromptEndsWithLatest` | telegram_bot.py:55 | The prompt built right after appending a message ends with that message |
| `Utils.NormalizeStop` | utils.py:32-34 | A STOP value of "null" or no value becomes None; any other value is kept |
| `Utils.LoadConfig` | utils.py:25-38 | Each setting is its parsed variable or its default (2048, 1, 0.5, 1.0, 0.0, 0.0); loading fails exactly when a set variable does not parse |
| `Utils.DefaultConfig` | utils.py:30-38 | With nothing set: max_tokens 2048, n 1, stop None, temperature 0.5, top_p 1.0, both penalties 0.0 |
| `Utils.ParseIdsSpec` | utils.py:54 | Parsing the lines fails exactly when some stripped line does not parse; otherwise it yields one id per line, in order |
| `Utils.EmptyListAllowsAll` | utils.py:56-58 | An empty allow-list lets every user in |
| `Utils.AllowedIffListed` | utils.py:61 | With a non-empty list whose lines all parse, a user is let in iff some line parses to their id |
| `Utils.MissingFileDeniesAll` | utils.py:63-69 | A missing or unreadable file lets nobody in |
| `Utils.BadLineDeniesAll` | utils.py:54 | One line that does not parse lets nobody in |
| `Utils.BlankLineDeniesAll` | utils.py:67-69 | A blank line lets nobody in, given that int("") fails |
| `Utils.State.constructor` | utils.py:27 | The stores start empty |
| `Utils.State.Preferences` | utils.py:42 | Returns the stored record, or inserts and returns the defaults for an unseen user; a seen user's store is unchanged |
| `ChatgptInteraction.GenerateResponse` | chatgpt_interaction.py:4-45 | Denied user: one fixed reply, no state change. Allowed user: the record is created if needed; the text is appended to a history that is first created if absent; the request carries the prompt over the new history, the user's max_tokens and temperature and the global n and stop; on success the parts of the stripped completion are sent in order and the history becomes old + [text, stripped]; on failure nothing is sent and the history is old + [text]; other chats are unchanged |
| `Commands.NewConversation` | commands.py:28-32 | The chat's history becomes empty whatever it was; other chats are unchanged |
| `Commands.StopConversation` | commands.py:35-41 | A chat with an entry (even an empty one) is reset, with the "deleted" reply; a chat without one is not created, with the "no context" reply |
| `Commands.KeyOf` | commands.py:51-62 | A recognised key maps to the field of that name; an unknown key names no field |
| `Commands.KeyRoundTrip` | commands.py:51-60 | Each of the five field names is recognised as its own field |
| `Commands.WithField` | commands.py:51-60 | Setting a field gives it the new value and leaves the other four fields unchanged |
| `Commands.ParseValueTyped` | commands.py:52-60 | max_tokens values are parsed as int and the other fields' values as float |
| `Commands.SettingsCommand` | commands.py:43-84 | No args: lists the user's record, creating it if needed. One arg: IndexError reply, no change. Unknown key: invalid-key reply, no change. Unparsable value: error reply, no change, no record created. Otherwise: exactly that field of that user's record is set, with no range check, and the reply is "Updated key to value." |
| `Commands.HelpText` | commands.py:87-113 | /new, /stop, /image, /settings and /help map to their fixed texts; any other argument maps to the not-recognised text; no argument gives the full list |
| `TelegramBot.LegacyState.constructor` | telegram_bot.py:19 | The variant's history starts empty |
| `TelegramBot.GenerateText` | telegram_bot.py:53-65 | Fails exactly when the fixed request (prompt, max_tokens 60, n 1, stop None, temperature 0.5) fails; otherwise it is the stripped completion, which has no whitespace at either end |
| `TelegramBot.GenerateResponse` | telegram_bot.py:27-35 | The text is appended to a history that is first created if absent. On success the one response is sent and the history grows by exactly [text, response]. On failure nothing is sent and only the text stays appended |
| `TelegramBot.NewConversation` | telegram_bot.py:38-41 | The chat's history becomes empty whatever it was |
| `TelegramBot.StopConversation` | telegram_bot.py:44-50 | Resets and replies "deleted" only when the chat has an entry; otherwise replies "no context" and creates none |

## Left out

- Telegram transport: polling, handler registration and the `Update` and `context`
  objects are not modelled. A reply is an element of the returned sequence. A send
  that fails part-way (a network error, or the platform refusing an empty or an
  over-long message in the older variant) is not modelled.
- The OpenAI call is a function parameter. The model id is passed through as the
  `engine`. The service itself, `n > 1` and an empty `choices` list are not
  modelled; that last one raises like any other backend error.
- Python's `int()` and `float()` grammars are not modelled. They are parser
  parameters that return the value or the exception text. Floats are `real`.
- Number formatting in the `/settings` listing (Python's `str` of an int and of a
  float) is a pair of function parameters.
- Environment and file I/O: `load_dotenv`, logging, bot construction and the
  reading of `private/allowed_users.txt` are left out. The environment is a map.
  The file is an `AllowListFile` value: its lines, "not found", or another read error.
- `Utils.LoadConfig`: a variable that does not parse stops the Python module at
  import time. The model returns that error instead.
- The `start` handlers (commands.py:13-26, telegram_bot.py:22-24) and the
  variant's `help_command` (telegram_bot.py:68-71) only send fixed text. The
  newer `start` also fails on the undefined `buttons`.
- The `TelegramClient` connection and channel join at import time
  (commands.py:5-11) are foreign network calls.
- dalle_interaction.py is not part of this model: the image request is an HTTP
  call plus JSON extraction.
- Concurrency: the bot handles one update at a time, so the model has none.
