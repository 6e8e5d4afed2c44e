# Music downloader bot: a verified model of its conversation core

The bot in `telegram_bot.py` talks to each user through four handlers.

- `/start` sends a greeting.
- `/music` asks for a song name.
- The next text message is searched on YouTube (through yt-dlp) and answered with a numbered list of results.
- The message after that picks a number; the song is downloaded, sent as audio, and the messages of the exchange are deleted.

What the bot remembers between messages lives in the per-user dictionary `context.user_data`. Which of its seven keys are present decides what the next message means.

This project models in Dafny:

- the three pure helpers:
  - `clean_filename`: four rewrites of a song title into a file name;
  - `format_duration`: seconds shown as `m:ss`;
  - the loop in `handle_message` that builds the numbered list;
- the `user_data` state machine driven by `start`, `search_music`, `handle_message` and `handle_selection`.

Modules:

- `Decimal` (`decimal.dfy`): `str()` of a natural number, `int()` of a string of ASCII digits, and zero padding as in the format `02d`.
- `Lines` (`lines.dfy`): `"\n".join` and `str.split` for one separator character.
- `Filenames` (`filenames.dfy`): `clean_filename`, each of its rewrites, and the `os.path.join` of the downloads directory with `<clean title>.mp3`.
- `Durations` (`durations.dfy`): `format_duration`.
- `ResultList` (`result_list.dfy`): the lines of the result list and the reply text. The `for` loop of the source is the method `FormatOptions`.
- `Session` (`session.dfy`): the model of `user_data` and the chat effects.
  - `user_data` is a `map<Key, Value>` over the seven keys the handlers use.
  - Chat effects are replies, deletions, audio sent, search, download and file removal.
  - Each handler's net effect is a pure function of the state before it (`StartStep`, `SearchMusicStep`, `HandleMessageStep`, `QueryStep`, `SelectionStep`, `DownloadStep`).
  - `WellFormed` is the shape every reachable `user_data` has, and each step preserves it.
- `Handlers` (`handlers.dfy`): the handlers as imperative methods of a class `Conversation`.
  - The class holds the mutable `userData` map, an append-only effect log, and the id the next bot message will get.
  - Each method assigns `user_data` keys in the order of the source. The four `del` statements that end a delivery (telegram_bot.py:118-121) are one map subtraction in `Deliver`. Each method is proved to have exactly the net effect the `Session` function describes.
  - `ChooseSecondOfFive` runs a whole conversation through the methods and proves its outcome.

Outside collaborators become parameters:

- The outcome of the yt-dlp search is a `Result<seq<Song>, string>`.
- The outcome of the download is an `Outcome<string>`.
- The downloads directory is a string.
- The ids of the messages the bot sends come from a counter.
- These calls are recorded as an `Effect`, in the order the source makes them: `reply_text`, `reply_audio`, `delete_message` and `Message.delete` on Telegram, `extract_info` and `download` on yt-dlp, and `os.remove`. Opening the file for `reply_audio` (telegram_bot.py:107) and constructing `YoutubeDL` (telegram_bot.py:55, :100) are not logged.

Behaviour of the code worth knowing, all of it modelled as written:

- A failed search reports the error and returns. `waiting_for_query` stays set, together with `query_message_id`, whose prompt has already been deleted (telegram_bot.py:59-61). The next text message is therefore taken as a new query.
- The selection is checked against the fixed bound 5, not against the length of the list (telegram_bot.py:83). A number past the end of a shorter list raises `IndexError` at telegram_bot.py:84 before anything is sent. The model's exit is `Raised("IndexError")`, with no effects and `user_data` unchanged.
- A failed download reports the error and returns before any key is deleted and before `os.remove` (telegram_bot.py:103-105). The selection stays pending, and no `RemoveFile` effect is logged.
- `query_message_id` is never deleted by any handler, so it survives a completed selection. `ChooseSecondOfFive` shows it.
- The numbered list shows every entry the search returns. The model does not assume there are at most five.

## Model

| member | source | states |
|---|---|---|
| Decimal.NatToDecimal | telegram_bot.py:21-23 | `str(n)` is a non-empty string of digits without a leading zero (just "0" for zero), one digit below 10 and two below 100 |
| Decimal.DecimalRoundTrip | telegram_bot.py:83-84 | `int(str(n)) == n`: the number printed in front of a song reads back as that number |
| Decimal.ZeroPadShape | telegram_bot.py:23 | padding to a width gives length max(len, width), the original digits at the end, only '0's before them, and digits throughout |
| Decimal.ZeroPadZeros | telegram_bot.py:23 | padding puts exactly `width - len` zeros in front of the digits when they are shorter than the width, and none otherwise |
| Decimal.ZeroPadValue | telegram_bot.py:23 | zero padding does not change the number the digits denote |
| Lines.SplitJoin | telegram_bot.py:70 | splitting `"\n".join(parts)` at line breaks gives the parts back when no part holds a line break |
| Filenames.DeleteForbiddenMeaning | telegram_bot.py:14 | the first substitution leaves none of the nine characters of its class, is the identity on text without them, keeps every character no rewrite targets in order, and adds no character |
| Filenames.DeleteForbiddenAppend | telegram_bot.py:14 | deleting the runs of the first class distributes over concatenation, so together with `DeleteForbiddenMeaning` on one character it keeps exactly the other characters, in order |
| Filenames.SeparatorsToSpacesMeaning | telegram_bot.py:15 | the second substitution keeps the length and maps each of ` -+=,./` to ' ' and every other character to itself |
| Filenames.CollapseWhitespaceSpacing | telegram_bot.py:16 | after `re.sub(r'\s+', ' ', ...)` the text is empty iff the input was, starts with ' ' iff the input started with whitespace, and has ' ' as its only whitespace, never twice in a row |
| Filenames.CollapseWhitespaceKeepsSignificant | telegram_bot.py:16 | collapsing whitespace keeps every character that none of the rewrites targets, in order |
| Filenames.CollapseWhitespaceAddsOnlySpaces | telegram_bot.py:16 | collapsing whitespace adds no character other than ' ' |
| Filenames.CollapseWhitespaceWords | telegram_bot.py:16 | `re.sub(r'\s+', ' ', t)` is the words of `t.split()` joined by single spaces, plus one space in front when `t` starts with whitespace and one behind when it ends with whitespace after a word: every run of whitespace becomes exactly one space, in place |
| Filenames.StripPadded | telegram_bot.py:17 | `strip` removes one space on either side of text that has no whitespace at its ends, and nothing else |
| Filenames.DropLeadingWhitespaceMeaning | telegram_bot.py:17 | `lstrip` removes exactly the maximal whitespace prefix: the result is a suffix, does not start with whitespace, and everything removed was whitespace |
| Filenames.DropTrailingWhitespaceMeaning | telegram_bot.py:17 | `rstrip` removes exactly the maximal whitespace suffix |
| Filenames.StripMakesClean | telegram_bot.py:17 | `strip` of a text whose only whitespace is single spaces yields a clean name |
| Filenames.CleanFilenameIsClean | telegram_bot.py:13-17 | the output of `clean_filename` has none of the characters the first two patterns target except ' ', no whitespace except ' ', no two adjacent whitespace characters, and no whitespace at either end |
| Filenames.CleanFilenameFixesClean | telegram_bot.py:13-17 | a name that is already clean passes through `clean_filename` unchanged |
| Filenames.CleanFilenameFixpoints | telegram_bot.py:13-17 | `clean_filename(t) == t` exactly when `t` is clean |
| Filenames.CleanFilenameIdempotent | telegram_bot.py:13-17 | `clean_filename(clean_filename(s)) == clean_filename(s)` |
| Filenames.CleanFilenameKeepsSignificant | telegram_bot.py:13-17 | `clean_filename` keeps every character that none of its rewrites targets, in the original order |
| Filenames.CleanFilenameWords | telegram_bot.py:13-17 | `clean_filename(s)` is `" ".join(t.split())` of the text `t` the first two substitutions leave: each run of separators and whitespace between kept characters becomes exactly one space |
| Filenames.CleanFilenameSample | telegram_bot.py:13-17 | `clean_filename("a: -b") == "a b"`: the colon is deleted and the separator and the space around it become one space |
| Filenames.AudioFileNameHasNoSeparator | telegram_bot.py:91-92 | `f"{clean_filename(title)}.mp3"` holds neither '/' nor '\\' |
| Filenames.DownloadPathInDirectory | telegram_bot.py:91-92 | the download path is the directory, with '/' added when missing, followed by the file name, so every title lands directly inside the downloads directory |
| Durations.FormatDurationLayout | telegram_bot.py:19-23 | `format_duration(d)` is minutes in digits without a leading zero, ':', and exactly two digits |
| Durations.FormatDurationValue | telegram_bot.py:19-23 | read back, the two numbers satisfy minutes * 60 + seconds == d with seconds < 60 |
| Durations.DurationHasNoNewline | telegram_bot.py:19-23 | a formatted duration never holds a line break |
| Durations.FormatDurationExample125 | telegram_bot.py:19-23 | 125 seconds are shown as "2:05" |
| Durations.FormatDurationExample59 | telegram_bot.py:19-23 | 59 seconds are shown as "0:59" |
| Durations.FormatDurationExample0 | telegram_bot.py:19-23 | 0 seconds are shown as "0:00" |
| ResultList.UploaderText | telegram_bot.py:67 | the uploader is "Unknown" when the key is absent and the stored name otherwise |
| ResultList.DurationText | telegram_bot.py:66 | the duration text is "N/A" exactly when the key is absent, `format_duration` of the value otherwise, and never holds a line break |
| ResultList.OptionLineShape | telegram_bot.py:68 | line number n starts with `str(n) + ". "`, has text after it, and holds no line break unless the title or uploader brings one |
| ResultList.FormatOptions | telegram_bot.py:63-68 | the loop over `enumerate(songs)` builds one line per song, line i showing song i under number i + 1 |
| ResultList.ReplyTextLines | telegram_bot.py:63-70 | the reply, read line by line, is the header and then one line per song in song order (one empty line for no songs), provided no title or uploader holds a line break |
| Session.ParseSelection | telegram_bot.py:83 | a text is accepted only as a number from 1 to 5 |
| Session.SelectionTexts | telegram_bot.py:83 | the accepted texts are exactly one digit from 1 to 5, possibly after leading zeros ("2", "02"), and that digit is the choice |
| Session.ListedNumberSelects | telegram_bot.py:83 | typing the number shown in front of song i selects song i when i <= 5, and is refused when i > 5 |
| Session.StartStep | telegram_bot.py:125-133 | `start` deletes the command, sends the greeting, and sets only `start_message_id`, to the greeting's id |
| Session.SearchMusicStep | telegram_bot.py:25-36 | `search_music` deletes the command and the greeting if there is one, removes `start_message_id`, sets `waiting_for_query` and `query_message_id` to the prompt's id, and leaves every other key, a pending selection included, untouched |
| Session.AwaitSelection | telegram_bot.py:73-77 | the end of a successful query sets the four selection keys to the songs, the list's id and the query's id, removes `waiting_for_query`, and changes nothing else |
| Session.QueryStep | telegram_bot.py:39-77 | empty text: one prompt and no change. Otherwise the prompt is deleted and the search runs. On failure: the error is reported and `user_data` is unchanged. On success: the list is sent and the state becomes `AwaitSelection` |
| Session.SelectionStep | telegram_bot.py:80-123 | refused text: exactly one range prompt and no change. A number past the list: `IndexError`, nothing done. Otherwise the chosen song is downloaded to the path built from its cleaned title |
| Session.DownloadStep | telegram_bot.py:84-121 | notice and download first. A failed download: the error reply and no change. A successful one: audio sent, file removed, then the list, query, notice and selection messages deleted in that order, and exactly the four selection keys removed |
| Session.DownloadSucceeds | telegram_bot.py:84-121 | a successful download as one list of eight effects ending with the four selection keys removed |
| Session.ClearSelectionKeepsWellFormed | telegram_bot.py:118-121 | removing the four selection keys together keeps `user_data` well formed |
| Session.HandleMessageStep | telegram_bot.py:38-79 | `waiting_for_query` takes priority over `waiting_for_selection`; with neither key present nothing happens; every outcome keeps `user_data` well formed |
| Session.QueryFindsFive | telegram_bot.py:38-77 | a query that finds five songs deletes the prompt, sends the list, and leaves `query_message_id` plus the four selection keys |
| Session.TwoIsSecond | telegram_bot.py:83 | the text "2" selects the second song |
| Session.ChosenSongSent | telegram_bot.py:80-121 | with a selection pending, a listed number and a successful download send that song and clear the selection |
| Session.SecondOfFiveChosen | telegram_bot.py:80-121 | choosing "2" from that list sends the second song, deletes list, query, notice and choice, and leaves only `query_message_id` |
| Handlers.Conversation.Start | telegram_bot.py:125-133 | the imperative `start` has exactly the net effect of `StartStep` and keeps `user_data` well formed |
| Handlers.Conversation.SearchMusic | telegram_bot.py:25-36 | the imperative `search_music` (conditional delete and `del`, then two assignments) has exactly the net effect of `SearchMusicStep` |
| Handlers.Conversation.HandleMessage | telegram_bot.py:38-79 | the imperative `handle_message` has exactly the net effect of `HandleMessageStep`, exit included |
| Handlers.Conversation.HandleQuery | telegram_bot.py:39-77 | the `waiting_for_query` branch has exactly the net effect of `QueryStep` |
| Handlers.Conversation.ListResults | telegram_bot.py:63-77 | the list is built by the loop and sent, and the four assignments and the `del` leave `user_data` as `AwaitSelection` says |
| Handlers.Conversation.HandleSelection | telegram_bot.py:80-123 | the imperative `handle_selection` has exactly the net effect of `SelectionStep`, exit included |
| Handlers.Conversation.DownloadSong | telegram_bot.py:84-121 | notice, download, then the error reply or the delivery: exactly the net effect of `DownloadStep` |
| Handlers.Conversation.Deliver | telegram_bot.py:107-121 | after a successful download: audio, file removal and the four deletions in order, then exactly the four selection keys removed |
| Handlers.ChooseSecondOfFive | telegram_bot.py:25-133 | `/start`, `/music`, a query finding five songs and the choice "2", run through the handlers: sixteen effects in order, both messages return normally, and only `query_message_id` is left in `user_data` |

## Left out

- Telegram transport: `reply_text`, `delete_message`, `reply_audio` and message deletion are entries in the effect log. Their failures (for example deleting a message that is already gone) and the exceptions they would raise are not modelled.
- yt-dlp: `extract_info` and `download` are parameters giving success with a list of entries, or failure with the message of the exception. The search options and the shape of `info_dict` beyond `entries` are not modelled.
- Filesystem and process setup: `os.makedirs`, `open` of the downloaded file, and the computation of `DOWNLOADS_DIR` from the home directory are not modelled (the directory is a parameter). `os.remove` is the `RemoveFile` effect.
- `main`, the handler registration and `run_polling` are not modelled. `handle_message` receives the text of a plain text message as a string.
- async scheduling: each handler runs start to finish. Two updates for the same user handled concurrently are not modelled.
- Durations.FormatDuration: takes a natural number of seconds. The `int()` truncation of a float duration and negative durations are not modelled. A `duration` key present with the value `None`, which makes `format_duration` raise, is not modelled either.
- ResultList.UploaderText: an `uploader` key present with the value `None` (shown as "None") is not distinguished from a string.
- Every search entry is assumed to have `title` and `url`. The `KeyError` a missing one would raise is not modelled.
- Session.ParseSelection: `str.isdigit` also accepts non-ASCII digits such as "²", for which `int()` then raises `ValueError`. The model accepts ASCII digits only.
- Filenames.IsWhitespace: the whitespace class is the set of characters for which `str.isspace` holds. Python's regular-expression engine itself is not modelled.
- Filenames.JoinPath: `os.path.join` is modelled for POSIX paths only.
- Handlers.Conversation.Deliver: the four `del` statements of telegram_bot.py:118-121 are one map subtraction of the four keys. The intermediate states between them are not modelled.
