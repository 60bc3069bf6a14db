# Leech bot: a Dafny model of the `/leech` handler

The bot is a Telegram bot. On `/leech <link>` it downloads a torrent into a
shared working directory (`./downloads`). It then sorts the downloaded files
into those above the Bot API's 2 GiB upload limit and the rest. It names the
skipped files in a reply, uploads the others one by one, and reports on a
status message. It always resets the working directory at the end.

The model has four modules:

- `Wrappers` holds `Option` and `Outcome`. `Outcome` is a returned value or a raised exception.
- `Strings` holds the Python string operations the handler uses:
  - the `in` substring test;
  - `os.path.basename`;
  - `"\n".join`, together with its inverse `split("\n")`.
- `Bot` holds:
  - the data model;
  - the size test and the partition of the downloaded files;
  - `get_mention`;
  - the group gate;
  - the handler itself.

  The handler is an imperative method, `LeechHandler`. It builds the ordered
  trace of the effects it has on the outside world: replies, edits of the
  status message, document uploads and directory resets. Everything a
  collaborator decides is an input `Env`:
  - the bot's username;
  - what the download returned or raised;
  - which uploads raise;
  - which chat call, if any, raises into the outer `except`.

  The method is proved to produce exactly `HandlerTrace(m, env)`, a
  specification function. `HandlerTrace` is the plan of the `try` block
  (`Planned`), cut at the chat call that raises, then followed by the
  unexpected-error reply. The `finally` reset comes last on every path.
- `BotProperties` holds what the handler promises, as lemmas about
  `HandlerTrace` and about the partition.

Chat texts are values of the datatype `Text`. `Render` gives the exact string
sent for each one. For example, the skipped-files notice renders as its header
followed by the base names, joined by newlines.

Two places where the code differs from what one might expect. The model
follows the code in both.

- The last status edit is always "✅ Done!", even when some uploads failed.
  Per-file failures show only as separate replies.
- On three early exits, the `try` block resets the directory itself and
  then the `finally` clause resets it again. The early exits are: a failed
  download, a download without files, and all files too large. The
  directory is therefore reset twice on those paths and once elsewhere. A
  chat call that raises before such an exit cuts off its explicit reset.

## Model

| member | source | states |
|---|---|---|
| Bot.IsFileTooLarge | bot.py:45-46 | definition (no contract): a file is too large exactly when its size is strictly above 2 GiB (bot.py:14); the boundary is proved in `SizeBoundary` |
| Bot.TooLarge | bot.py:87 | every file in the skipped list is above the limit, and the list is no longer than the download |
| Bot.ToUpload | bot.py:88 | every file in the upload list is within the limit, and the list is no longer than the download |
| Bot.GetMention | bot.py:48-54 | raises exactly when some entity is a mention and the text is absent; returns true exactly when there are entities, one of them is a mention, and the text contains the username |
| Bot.ScanEntities | bot.py:50-54 | the loop over the entities: raises exactly when a mention exists and there is no text; true exactly when a mention exists and the text contains the username |
| Bot.IsGroupChat | bot.py:62 | definition (no contract): the chat type is "group" or "supergroup" |
| Bot.Addresses | bot.py:64 | definition (no contract): the text is present and non-empty, and it contains "@" followed by the bot's username or starts with "/leech" |
| Bot.Addressed | bot.py:62-65 | definition (no contract): the handler goes past its gate when the chat is not a group or the text addresses the bot; `IgnoredInGroup` states the consequence |
| Bot.Render | bot.py:68-111 | definition (no contract): the exact string of each reply and status edit, at bot.py:68, 72, 77, 83, 92, 95, 99, 105, 108 and 111; `SkippedNoticeLists` states what the notice says |
| Bot.Planned | bot.py:60-108 | definition (no contract): the effects of the `try` block when no chat call raises; `Bot.Transfer` is proved to produce it, and the lemmas below state its properties |
| Bot.HandlerTrace | bot.py:59-113 | definition (no contract): the plan, cut before the chat call that raises and followed by the unexpected-error reply, then the final reset; `Bot.LeechHandler` is proved to produce it |
| Bot.Call | bot.py:109-111 | a reply or status edit either raises, when the fault is set for it, so that the trace is the fault-free plan cut just before that call; or it appends its effect and the fault stays pending |
| Bot.GiveUp | bot.py:76-80 | an early exit: the status edit, then a reset; the result is the plan, or the plan cut at the faulty call (also used for lines 82-85 and 94-97) |
| Bot.UploadOne | bot.py:102-106 | one pass of the upload loop: the send attempt, then the failure reply if the send raised; or the plan cut at the faulty call |
| Bot.UploadLoop | bot.py:101-106 | after the loop the trace is the old trace followed by every file's step, in the order of the upload list; or the plan cut at the faulty call |
| Bot.Deliver | bot.py:87-97 | the skipped-files notice, sent only if some file is too large, followed by the rest of the plan |
| Bot.Dispatch | bot.py:94-97 | with nothing to upload: the "all too large" edit and a reset; otherwise the upload phase |
| Bot.UploadPhase | bot.py:99-108 | the "Uploading" edit, the upload loop, then the "Done" edit |
| Bot.Transfer | bot.py:60-108 | the `try` block yields exactly its plan, or, when a chat call raises, that plan cut just before the call |
| Bot.LeechHandler | bot.py:59-113 | the whole handler produces exactly `HandlerTrace`: the plan, cut and followed by the unexpected-error reply if a chat call raised, then the final reset |
| Strings.Contains | bot.py:52 | Python's `in` on strings; it holds only when the needle is no longer than the text |
| Strings.ContainsAt | bot.py:52 | the substring test holds exactly when the needle starts at some position of the text |
| Strings.Basename | bot.py:91 | the base name contains no '/', is a suffix of the path, and is preceded by a '/' whenever it is shorter than the path |
| Strings.JoinLines | bot.py:91 | `"\n".join`: the result holds at least one character per separator, starts with the first line, and has a newline right after the first line when there are two or more |
| Strings.SplitJoinLines | bot.py:91 | splitting a newline-joined list of newline-free names at its newlines gives the names back |
| BotProperties.SizeBoundary | bot.py:45-46 | a file of exactly 2 GiB is not too large; one byte more is |
| BotProperties.PartitionIsExact | bot.py:87-88 | the two lists together hold every downloaded file exactly as often as it was downloaded |
| BotProperties.PartitionKeepsOrder | bot.py:87-88 | each list is a subsequence of the download, in download order |
| BotProperties.TooLargeAppend | bot.py:87 | the skipped list of a concatenation is the skipped lists of its parts, in turn |
| BotProperties.ToUploadAppend | bot.py:88 | the upload list of a concatenation is the upload lists of its parts, in turn |
| BotProperties.NothingTooLarge | bot.py:87-88 | when every file fits, nothing is skipped and everything is uploaded |
| BotProperties.NothingToUploadMeansAllSkipped | bot.py:87-88 | when the upload list is empty, the skipped list is the whole download |
| BotProperties.UploadEffectsSendInOrder | bot.py:101-103 | the upload loop attempts exactly the files of the upload list, in order, and never resets the directory |
| BotProperties.PlannedCleanups | bot.py:74-97 | the `try` block resets the directory once on the three early-failure exits and never otherwise |
| BotProperties.CleanupOnEveryPath | bot.py:74-113 | every trace ends with a reset; it holds exactly two resets on an early-failure exit (bot.py:79, 84, 96) where no chat call raised, and exactly one otherwise, because a raising chat call always cuts off the explicit reset |
| BotProperties.UsageError | bot.py:67-69 | with fewer than two command tokens the trace is the usage reply and the reset, or the unexpected-error reply if that reply raised; the download and uploads play no part |
| BotProperties.IgnoredInGroup | bot.py:62-65 | in a group, a message without text, or whose text neither names the bot nor starts with the command, gets only the final reset |
| BotProperties.DownloadFailure | bot.py:74-80 | a failed download gives the "Downloading" reply, the failure edit carrying the error, and two resets |
| BotProperties.NoFilesFound | bot.py:82-85 | a download without files gives the "Downloading" reply, the "no files" edit, and two resets |
| BotProperties.SkippedNoticeIffTooLarge | bot.py:90-92 | the skipped-files notice appears exactly when some file is too large; it is then the first effect after the "Downloading" reply and names the skipped paths in order |
| BotProperties.SkippedNoticeLists | bot.py:91-92 | the notice text is its header followed by the base names, one per line, in order |
| BotProperties.AllTooLargeTrace | bot.py:94-97 | when every file is too large the trace is the "Downloading" reply, the notice naming all the files, the "all too large" edit and two resets, with no upload attempt |
| BotProperties.PlanWhenUploading | bot.py:90-108 | when something can be uploaded, the plan is the "Downloading" reply, the notice if any, the "Uploading" edit, the upload loop and the "Done" edit |
| BotProperties.PlannedSends | bot.py:99-108 | without a fault the `try` block attempts exactly the upload list and ends with the "Done" edit |
| BotProperties.UploadsInOrder | bot.py:101-108 | the attempts in any trace are a prefix of the upload list; without a fault they are all of it, and "Done" comes just before the final reset |
| BotProperties.FailedUploadIsReported | bot.py:101-106 | each file's attempt comes right after the effects of the files before it; it is followed by the failure reply naming the file and the error exactly when the send raised, and otherwise by the next file's attempt or the end of the loop |
| BotProperties.UploadLoopGoesOn | bot.py:101-106 | after a file's attempt and its failure reply, if any, the next file's attempt follows |
| BotProperties.FaultCutsTrace | bot.py:109-111 | a raising chat call leaves a prefix of the fault-free trace holding exactly that many chat calls, then the unexpected-error reply and the reset; a fault past the last chat call changes nothing |
| BotProperties.SecondOfThreeFails | bot.py:99-113 | three small files whose second send fails: all three are attempted in order, only the second is reported, and the status ends with "Done" |
| BotProperties.OneOversizedFile | bot.py:87-97 | a single 3 GiB file is named in the notice, nothing is sent, and the status says all files are too large |

## Left out

- Configuration and startup (bot.py:9-25, 123-124): the environment variables, the check that they are set, creating the download directory, logging, and the client's event loop.
- `download_torrent` (bot.py:29-36): the torrent library and the directory walk are not modelled. Their result is an input. It is either the list of files, in walk order with their sizes, or a raised error.
- `cleanup_folder` (bot.py:38-43): modelled as a single `Cleanup` effect. Its own failures are caught and only logged, so they never reach the handler.
- Logging calls (bot.py:78, 106, 110) have no effect on the chat and are not modelled.
- `is_file_too_large` reads the size from the file system. The model takes each file's size as part of the download's result, so sizes are assumed not to change between the two list comprehensions. A `getsize` that raises is not modelled.
- `app.get_me()` (bot.py:63) is taken to return the bot's username. Its own failure is not modelled.
- A failure of the unexpected-error reply in the `except` clause (bot.py:111) is not modelled.
- Exception texts are opaque strings supplied by the environment.
- Only the ordering of awaited calls is modelled, not the asynchronous scheduling.
- `start_handler` (bot.py:115-118) is not modelled. It only sends a fixed greeting.
- `get_mention` is modelled, but the handler never calls it.
- Chat types and entity types are compared to the strings "group", "supergroup" and "mention", as the code writes them. The client library's own types for these values are not modelled.
- Bot.TooLarge: the contract states only the size bound and that every member is too large. That the list holds all such files, in order, is stated by `PartitionIsExact` and `PartitionKeepsOrder`.
- Bot.ToUpload: as for `TooLarge`, the completeness and order of the list are stated by `PartitionIsExact` and `PartitionKeepsOrder`.
