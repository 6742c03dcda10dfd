# Telegram assistant bot: formatting, chunking and per-user model selection

This project models the core of `telegram_bot.py`, a chat bot that passes a
user's question to a completion API and sends the answer back. The model
covers the parts of the bot that hold logic of their own:

- **Markdown down-conversion** (`format_for_telegram`). It rewrites `**` as
  `*` and then ``` as `. Both steps use Python's `str.replace`: matches are
  found leftmost first and never overlap. Module `Markdown`.
- **Chunking** (`send_long_message`). It splits the formatted answer at
  `\n` and packs the lines greedily into chunks of at most `maxLen`
  characters, each line followed by `\n`. A line that cannot share a chunk
  goes out alone, even when that chunk is oversized. The loop over the
  lines is the method `PackLines`, which `SendLongMessage` calls after
  formatting and splitting. It is proved against `IsGreedyChunking`. That
  predicate is a specification of the packing, and it is shown to have
  exactly one solution. Module `Chunker`.
- **Per-user model selection** (`start`, `model_command`,
  `button_callback`, `answer_question`). It covers:
  - the `MODELS` catalog;
  - the `o1-mini` default;
  - the `model:<id>` button data and how it is parsed with
    `split(":")[1]`;
  - the message list, which gets the system instruction only for `gpt`
    models;
  - the choice between chunked answer and error notice.

  `context.user_data` is the class `Session.UserData`. Module `Session`.
- **Python string built-ins** (`str.split`, `str.startswith`) as the code
  above uses them. Module `Text`.

Nothing is sent over a network. A handler returns the texts it would send,
and the completion API's reply is an input to `AnswerQuestion`.

Two behaviours of the code are modelled as written:

- **Selection is not validated.** `button_callback` stores whatever follows
  `model:` without checking it against `MODELS` (telegram_bot.py:82-84). An
  unknown identifier is kept, and every later display-name lookup for that
  user raises `KeyError`. The model therefore has no "selection is in the
  catalog" invariant.
- **Oversized chunks start at the limit itself.** The fit test counts the
  `\n` (telegram_bot.py:50, 55), so a line of exactly `maxLen` characters
  already makes a chunk of `maxLen + 1` characters. The model states this
  rule: a chunk over the limit holds a single line.

## Model

| member | source | states |
|---|---|---|
| Text.StartsWith | telegram_bot.py:82 | `str.startswith`: true exactly when the text is the prefix followed by some rest |
| Text.Split | telegram_bot.py:46 | `str.split` with a one-character separator returns at least one piece, and no piece contains the separator |
| Text.JoinSplit | telegram_bot.py:46 | joining the pieces of a split with the separator gives back the original text |
| Text.SplitJoin | telegram_bot.py:46 | splitting a join of separator-free pieces gives back the pieces, empty ones included |
| Text.SplitFirstField | telegram_bot.py:83 | the first piece of a split is the longest prefix without the separator |
| Markdown.ReplaceAll | telegram_bot.py:35-37 | `str.replace` with a non-empty pattern; a replacement no longer than the pattern never makes the text longer |
| Markdown.FormatForTelegram | telegram_bot.py:32-38 | the conversion never makes a text longer |
| Markdown.FormatKeepsOtherCharacters | telegram_bot.py:32-38 | once `*` and ` are deleted, input and output are the same text: only marker characters are touched and everything else keeps its order |
| Markdown.ReplaceAllAbsent | telegram_bot.py:35-37 | a text that does not contain the pattern is returned unchanged |
| Markdown.FormatFixedPoint | telegram_bot.py:32-38 | a text with no `**` and no ``` is a fixed point, so the conversion is idempotent on such output |
| Markdown.FormatWithoutMarkers | telegram_bot.py:32-38 | a text with no `*` and no ` is left unchanged |
| Markdown.ReplaceAllPair | telegram_bot.py:35-37 | two occurrences of the pattern, between stretches without its first character, are both replaced, and the stretches are copied unchanged |
| Markdown.FormatBoldAndCode | telegram_bot.py:34-37 | `**bold**`, plain text and a ```code``` span come out as `*bold*`, the same text and `code` |
| Markdown.FormatNotIdempotent | telegram_bot.py:35 | the replacement is textual: `***` becomes `**`, which a second pass changes again |
| Chunker.SplitLines | telegram_bot.py:46 | `text.split('\n')` gives at least one line, and no line holds `\n`. That joining the lines with `\n` gives the text back is `Text.JoinSplit` |
| Chunker.SendLongMessage | telegram_bot.py:40-58 | chunks the formatted text in the way `IsGreedyChunking` specifies. The chunks concatenate to the formatted text plus one `\n`. There is at least one chunk, and each ends in `\n`. Each chunk is within `maxLen` or holds a single line |
| Chunker.PackLines | telegram_bot.py:47-58 | the chunks sent, one after the other, are exactly the lines, each followed by `\n`, and they form a greedy packing of the lines as `IsGreedyChunking` defines it. Each line is added while the buffer, the line and its `\n` fit in `maxLen`; otherwise a non-empty buffer is sent first. The last buffer is sent at the end |
| Chunker.GreedyChunkingShape | telegram_bot.py:45-58 | any greedy packing of the lines of a text has the round-trip, non-empty, newline-terminated and bound-or-single-line properties |
| Chunker.GreedyChunkingUnique | telegram_bot.py:49-55 | the greedy packing of a line sequence is unique, so the specification fixes the chunks completely |
| Chunker.FirstGroupNotShorter | telegram_bot.py:49-55 | no packing can close its first chunk earlier than another packing does: a line that fits is always added |
| Chunker.ChunkingOneLineEach | telegram_bot.py:49-55 | if no two neighbouring lines fit together, every line is sent as its own chunk |
| Chunker.ChunkingOfSingleLine | telegram_bot.py:49-58 | a single line is sent as one chunk, followed by `\n` |
| Chunker.ChunkingOfEmptyText | telegram_bot.py:43-58 | an empty answer is sent as exactly one chunk, `"\n"` |
| Chunker.ChunkingOfFullLines | telegram_bot.py:46-58 | three one-character lines such as `"a\nb\nc"` pass the conversion unchanged, and with limit 3 they are sent as `"a\n"`, `"b\n"`, `"c\n"`, since each line fills the budget |
| Chunker.ChunkingOfLongLine | telegram_bot.py:43-55 | a text without `\n` whose converted form is longer than the limit allows is sent whole, as one oversized chunk of the converted text plus `\n`, and is not truncated or wrapped |
| Session.Lookup | telegram_bot.py:22-27 | `MODELS[id]` finds a name exactly when `id` is a catalog key, and the name found is the one stored under it |
| Session.DisplayName | telegram_bot.py:85 | `MODELS[id]` gives a name exactly for catalog identifiers, and the name is the one the catalog lists for `id` |
| Session.CatalogWellFormed | telegram_bot.py:22-27 | the catalog's identifiers are distinct and contain no `:`, and the default `o1-mini` is listed as "O1 Mini" |
| Session.ModelCommand | telegram_bot.py:68-75 | gives one button per catalog entry in catalog order, labelled with the display name and carrying `model:<id>`. Each button's data parses back to its own identifier |
| Session.ParseSelection | telegram_bot.py:82-83 | data selects a model exactly when it starts with `model:`. What it selects is the text after the prefix up to the next `:` |
| Session.SelectionRoundTrip | telegram_bot.py:72 | `model:<id>` parses back to `id` exactly when `id` contains no `:` |
| Session.BuildMessages | telegram_bot.py:98-105 | the list has one or two entries and ends with the user's question. Any earlier entry is the system instruction, and there is one exactly when the model identifier starts with `gpt` |
| Session.SystemInstructionByModel | telegram_bot.py:98-105 | `gpt-4o` gets the system instruction before the question, while the default `o1-mini` gets the question alone |
| Session.Greeting | telegram_bot.py:65 | the `/start` reply shows the model's name in bold at a fixed position, and its length is fixed by the name's length |
| Session.Confirmation | telegram_bot.py:85 | the selection reply shows the new model's name in bold after "Model changed to " |
| Session.ErrorNotice | telegram_bot.py:116-120 | the failure notice shows the current model's name in bold after the fixed explanation |
| Session.RepliesNameTheModel | telegram_bot.py:65 | each of the three replies identifies the model: different names give different texts |
| Session.NamedReply | telegram_bot.py:85 | a reply is produced exactly when the identifier is in the catalog, and it is built from that identifier's display name |
| Session.UserData.constructor | telegram_bot.py:62 | a new user has no stored selection |
| Session.UserData.EnsureModel | telegram_bot.py:62-63 | a stored selection is kept and a missing one becomes `o1-mini`; it returns the selection now stored |
| Session.UserData.Start | telegram_bot.py:60-66 | sets the default if needed and greets with the display name. A new user is greeted with "O1 Mini" |
| Session.UserData.ButtonCallback | telegram_bot.py:77-86 | data starting with `model:` stores the parsed identifier unchecked and confirms it by display name, with no reply if the name lookup fails. Other data changes nothing |
| Session.UserData.AnswerQuestion | telegram_bot.py:88-121 | sets the default if needed and asks with the stored model and `BuildMessages`. On success it sends exactly the greedy chunking of the formatted answer. On failure it sends one notice naming the model, or nothing if the lookup fails. It never sends both |

## Left out

- Chat transport is not modelled: `reply_text`, `edit_message_text`, `query.answer`, the keyboard markup objects, `Application`, handler registration and `run_polling`. Each handler returns the texts it would send, as values.
- The completion client is not modelled. Its reply is the `Completion` parameter of `AnswerQuestion`. Any exception while the answer is obtained becomes `Failed`, including network and API errors and a missing `choices[0].message.content`.
- Logging, `.env` loading, environment configuration, `error_handler` and `main` are left out: they are process glue without logic.
- `async` scheduling is left out. Handlers for one user are taken to run one at a time.
- Session.UserData.AnswerQuestion treats the transport as infallible. If sending a chunk raised an exception in the source, the `except` branch would send the error notice after part of the answer had already gone out.
- Session.UserData.ButtonCallback stores the identifier and then models the `KeyError` of the display-name lookup as "no reply". In the source the exception escapes the handler after the identifier was stored.
- Session.UserData.AnswerQuestion and Session.UserData.Start model a `KeyError` in the display-name lookup as "no reply". In the source the exception escapes the handler and reaches the error handler.
- Markdown.ReplaceAll requires a non-empty pattern. Python's replacement of an empty pattern, which inserts between characters, is not modelled, because the source only replaces `**` and ```.
- Chunker.SendLongMessage takes the limit as the parameter `maxLen`. The bot uses `MaxMessageLength` (4096). Lengths count characters, as Python's `len` does.
