# Telegram renamer bot: submission state machine and transfer queue

A Dafny model of the logic in `bot.py` of the Telegram-Renamers-Bot, once
the Pyrogram client calls are taken away. A user sends a 1–4 GiB document,
video or audio file; the bot opens a per-user session in `user_data`; the
user presses Rename or Skip, optionally types a new name and a caption (or
`/skipcaption`), and the finished request becomes a `(msg, new_name,
caption)` job on an `asyncio.Queue`. Worker tasks take jobs off the queue,
download and re-upload the file under its final name with its caption,
and draw a 20-segment progress bar while doing so.

Modules, one per component of the bot:

- `Model` (`model.dfy`): messages, attachments, sessions and jobs.
- `Admission` (`admission.dfy`): the 1 GiB to 4 GiB size check.
- `Progress` (`progress.dfy`): the progress bar, in exact integer arithmetic.
- `Sessions` (`sessions.dfy`): the five handlers, each a pure transition
  from `(sessions, queue)` to the next `(sessions, queue)` plus the reply or
  button-message edit it sends. Also the session stages, and the end-to-end
  flows from a file to a queued job.
- `Worker` (`worker.dfy`): one worker turn. It takes the head job, derives
  the final name and caption, and produces an outcome. The transfer result
  is an input chosen by the client library: delivered, rate-limited for
  some seconds, or raised an error.
- `Pipeline` (`pipeline.dfy`): events and worker turns interleaved in any
  order. It keeps a ledger of queued and consumed jobs, and proves that
  consumption is FIFO with no loss and no duplication.

The model follows the code as written:

- Skip is honoured at any stage of a live session.
- `/skipcaption` is honoured as soon as a session exists.
- Text from a user who chose Rename overwrites the stored name each time,
  because the rename flag is never cleared.
- Pressing Rename again keeps a stored name.
- A rate-limited job is consumed and never retried.
- A message without an attachment fails in the worker with Python's
  `AttributeError` text, before any transfer is tried.
- A progress call with `total = 0` is the division error. The model gives
  `None` there.
- A progress call with `current > total` draws more than 20 filled
  segments, because `int(percent // 5)` then exceeds 20. No empty
  segments follow them, because Python's `"░" * n` is empty for negative `n`.

## Model

| member | source | states |
|---|---|---|
| Model.MediaOf | bot.py:41 | the attachment used is the document if present, else the video, else the audio; none exactly when the message has none of the three |
| Admission.Admit | bot.py:91-95 | a size is eligible iff 1·2^30 ≤ size ≤ 4·2^30; every other size is rejected with the reply "File must be 1GB–4GB" |
| Admission.BoundsAreInclusive | bot.py:93 | both bounds are accepted, their outer neighbours and 0 are rejected |
| Progress.Repeat | bot.py:30 | Python's string repetition: exactly max(n, 0) copies of the character, empty for a non-positive count |
| Progress.Bar | bot.py:27-30 | the bar exists iff total > 0; it has max(20, filled) symbols; position i is filled iff i < filled, and empty otherwise |
| Progress.Filled | bot.py:28-29 | the fill count k is floor(percent / 5) of the exact percentage 100·current/total: 5·k·total ≤ 100·current < 5·(k+1)·total |
| Progress.FilledUnique | bot.py:29 | any k with k·total ≤ 20·current < (k+1)·total is the fill count |
| Progress.FilledMilestones | bot.py:28-30 | 0 bytes give 0 filled segments, total bytes give 20, exactly half gives 10 |
| Progress.FilledMonotone | bot.py:28-29 | more bytes transferred never draw fewer filled segments |
| Progress.BarWithinRange | bot.py:28-30 | for current ≤ total the bar is exactly 20 symbols and at most full |
| Sessions.OnMedia | bot.py:89-103 | a file without any attachment is ignored; a rejected size changes nothing and replies with the rejection; an accepted file makes the sender's session a fresh one holding only the message; other users' sessions and the queue are untouched |
| Sessions.OnCallback | bot.py:105-119 | without a session, or with data other than "rename"/"skip", nothing changes; "rename" sets only the rename flag; "skip" appends `(msg, None, "")` and removes the session, leaving every other entry intact |
| Sessions.OnNameText | bot.py:121-127 | only a user whose rename flag is set is affected; their text becomes the stored name, the flag stays set and the queue is untouched |
| Sessions.OnSkipCaption | bot.py:129-140 | any live session is completed with `(msg, stored name or None, "")` at the back of the queue and removed; no session means no change |
| Sessions.OnCaptionText | bot.py:142-154 | a session holding a name is completed with `(msg, name, text)` at the back of the queue and removed; otherwise nothing changes |
| Sessions.Handle | bot.py:89-154 | any event changes at most its actor's session, and either leaves the queue unchanged or appends exactly one job carrying that session's message while removing the session |
| Sessions.NoSessionNoEffect | bot.py:109-110 | for a user with no session, a button press, a name, a caption or `/skipcaption` leaves sessions and queue unchanged and sends no reply |
| Sessions.RejectedFileChangesNothing | bot.py:93-95 | a file outside the size range leaves the session table and the queue as they were |
| Sessions.HandleKeepsCoherent | bot.py:113-126 | a stored name only ever exists alongside a raised rename flag, and every handler preserves that |
| Sessions.StageNeverRegresses | bot.py:105-154 | apart from a new file, no event moves a surviving session back from awaiting-caption to awaiting-name to collected |
| Sessions.SkipFlow | bot.py:102-119 | file then Skip queues `(msg, None, "")` and leaves no session for the user |
| Sessions.RenameThenSkipCaptionFlow | bot.py:102-140 | file, Rename, name x, `/skipcaption` queues `(msg, x, "")` and leaves no session |
| Sessions.RenameThenCaptionFlow | bot.py:102-154 | file, Rename, name x, caption y queues `(msg, x, y)` and leaves no session |
| Sessions.EarlySkipCaptionFlow | bot.py:129-140 | `/skipcaption` right after the file, before any button, queues `(msg, None, "")` |
| Sessions.LastNameWins | bot.py:125-126 | a second text while renaming replaces the first name; the session and queue otherwise stay as they were |
| Worker.OriginalName | bot.py:42 | the attachment's own name when present and non-empty, else "file.bin"; never empty |
| Worker.FinalName | bot.py:41-43 | the final name is the new name if non-empty, else the attachment's name if non-empty, else "file.bin"; it exists iff the message has an attachment and is never empty |
| Worker.UploadCaption | bot.py:59 | the caption uploaded equals the job's caption, the empty string included |
| Worker.Execute | bot.py:40-70 | the upload uses the final name and the job's caption; the outcome is success iff the transfer was delivered; it is a flood wait of the same duration iff the transfer was rate-limited; otherwise it is an error reply "Error: …" with the raised text, or with the missing-attachment text when no name could be derived |
| Worker.WorkerStep | bot.py:36-72 | a turn on an empty queue takes nothing; otherwise it consumes exactly the head job and leaves the rest of the queue, one shorter |
| Worker.NeverRequeued | bot.py:38-72 | on every outcome the consumed job followed by the remaining queue is the queue before the turn: nothing is put back |
| Pipeline.Initial | bot.py:22-23 | the start state has no sessions, an empty queue, and a balanced ledger |
| Pipeline.Step | bot.py:22-154 | one input appends at most one job to the enqueued log and at most one record to the consumed log, and rewrites neither |
| Pipeline.StepKeepsLedger | bot.py:36-154 | after any event or worker turn, the queued jobs equal the consumed jobs followed by the waiting queue |
| Pipeline.StepKeepsCoherent | bot.py:105-154 | no event or worker turn breaks session coherence |
| Pipeline.RunKeepsInvariants | bot.py:36-154 | any interleaving of events and worker turns keeps the ledger balanced and every session coherent |
| Pipeline.RunOnlyAppends | bot.py:22-72 | over any run, the enqueued and consumed logs only grow at the back |
| Pipeline.FifoFromStart | bot.py:22-72 | from start-up, the k-th consumed job is the k-th queued job, none is consumed twice or skipped, and the waiting queue is exactly the unconsumed suffix |
| Pipeline.TurnsDrainQueue | bot.py:36-72 | every waiting job is eventually consumed: one worker turn per waiting job, whatever each transfer result, empties the queue, consumes job k as the k-th new record, and leaves the sessions and the enqueued log unchanged |
| Pipeline.FailureDoesNotBlock | bot.py:67-72 | after any transfer result, flood wait and error included, the next turn takes the job queued behind |

## Left out

- Pyrogram client calls (`reply_text`, `edit_text`, `download`, `reply_document`, `app.start`) are network I/O. The handlers' texts are modelled as notices. In the worker, the status texts "Downloading...", "Uploading..." and "Completed" (bot.py:46, bot.py:54, bot.py:64) are not modelled separately: they are absorbed into the `Transfer` input and the `Success` outcome. Inside the handlers they are assumed to succeed. In the source, `edit_text`/`reply_text` run before `user_data.pop`. If that call raised, the job would already be queued while the session stays live. This is not modelled.
- Handler dispatch: the handlers at bot.py:121, bot.py:129 and bot.py:142 all match text messages. Which of them the client library runs for a given message is library behaviour, so each is a separate event. The same holds for the `~filters.command(["skipcaption"])` filter of `caption_input`.
- Handler atomicity: each handler is taken to run to completion with no other handler running in between. In the source, the completion handlers await `edit_text`/`reply_text` between `queue.put` and `user_data.pop` (bot.py:117-119, bot.py:134-140, bot.py:148-154). If the client library ran two updates from the same user concurrently, for example a double-tapped Skip, both could pass the session check. The file would then be queued twice and the second `pop` would raise `KeyError`. The model cannot produce that interleaving.
- Concurrency: the three worker tasks (bot.py:25, bot.py:157-158), the blocking `queue.get` (modelled as no step on an empty queue), `task_done`, and the length of the flood-wait sleep. Each worker turn is one atomic step. The model does not state the bound of three jobs in flight.
- An exception raised by the error reply at bot.py:70 would end that worker task. Each turn assumes the reply is delivered.
- Filesystem: `os.makedirs`, the download path built with `os.path.join`, the thumbnail existence check, `os.remove`, and `set_thumb`.
- Environment configuration (bot.py:9-12), `/start`, and the read-only admin report (bot.py:78-87).
- The floating-point `percent` and its `.1f` text (bot.py:28, bot.py:32). The fill count is the exact integer floor(20·current/total). `Progress.Filled` relates it to the exact percentage, not to IEEE double rounding.
- `message.from_user` being absent, and a `file_size` that is not an integer. Every message has a sender and every attachment has a size.
