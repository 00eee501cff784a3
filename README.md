# ADMIN-BOT broadcast core, modelled in Dafny

ADMIN-BOT is a Telegram bot. Anyone who sends `/start` is registered in a
`users` table. Operators on a fixed allow-list can open an admin panel. The
panel shows the user count, exports the user ids as a text file, and
broadcasts one message to every registered user after a preview and an
explicit confirmation.

This project models that core in `main.py`:

- **Recipient directory** (`directory.dfy`). The `users` table is the class
  `RecipientDirectory`. It holds a sequence of rows with pairwise distinct
  ids. `AddUser` is insert-or-ignore, `GetStats` is `COUNT(*)` and
  `GetAllUsers` is the `SELECT id` snapshot.
- **Compose/confirm workflow** (`session.dfy`, `bot.dfy`). `FsmStorage`
  keeps each user's context: a phase (`Idle`, `AwaitingContent`,
  `AwaitingConfirmation`) and an optional draft `(msg_id, chat_id)`. The
  handlers change it only through `SetState`, `UpdateData` and `Clear`. The
  class `AdminBot` has one method per handler and two routing methods.
  Routing follows the handlers' registration order. A handler without a
  state filter matches in every state.
- **Pure workflow model** (`bot.dfy`). `Next` gives the sender's context
  after one update. The lemmas prove allow-list gating, each transition, and
  the invariant of every reachable context.
- **Fan-out loop** (`broadcast.dfy`). `RunBroadcast` is the loop with its
  `success` and `blocked` counters. Delivery is an oracle from recipient id
  to success or failure. The pause after each success is a `Pause` event in
  the returned trace.
- **Pure helpers**. Action parsing `call.data.split("_")[1]` and the
  allow-list are in `access.dfy` and `text.dfy`. The export file text
  `"{id}\n"` per id is in `export.dfy`.

Four behaviours of `main.py` are worth knowing, and the model keeps each
one as written:

- A failed snapshot read raises and is not reported as an aborted job
  (main.py:177). The exception ends the confirm handler, so there is no
  report and no delivery, and the context is not cleared (`Raised`).
- The confirm handler has no allow-list test (main.py:165-167). Any data
  other than `cancel_send` confirms. `NonAdminStaysFresh` proves that a
  non-operator's context never leaves Idle, so no non-operator ever
  reaches this handler.
- The pause follows only a successful copy (main.py:188-190). A failed copy
  is followed at once by the next attempt.
- The context is cleared after the whole fan-out (main.py:203), not when
  it starts.

## Model

| member | source | states |
|---|---|---|
| Text.Split | main.py:113 | Python's `str.split` on one character: at least one piece, and no piece contains the separator |
| Text.JoinSplit | main.py:113 | joining the pieces of a split with the separator gives back the original data |
| Text.SplitJoin | main.py:113 | splitting a join of separator-free pieces gives back those pieces |
| Text.SplitAtSep | main.py:113 | the first separator ends the first piece, and the rest is split on its own |
| Text.IntToDecimalRoundTrip | main.py:134 | the decimal text `str(id)` reads back as the same id and contains no newline |
| Access.ActionAfterPrefix | main.py:113 | for data starting with `admin_`, `split("_")[1]` exists (no IndexError) and is the text up to the next underscore |
| Access.ActionOfButton | main.py:113 | an action word without underscores is recovered from `admin_<action>`, with or without further `_`-suffixes |
| Access.ButtonAction | main.py:92-94 | the panel's `admin_broadcast`, `admin_export` and `admin_refresh` buttons parse to `broadcast`, `export` and `refresh` |
| Access.ConfirmButtonsNotAdmin | main.py:157-158 | `confirm_send` and `cancel_send` do not start with `admin_`, so they never reach the admin-panel handler |
| Directory.InsertOrIgnore | main.py:40-43 | after an insert the id is present; a known id leaves the table unchanged, including the first row's name fields; a new id adds exactly one row; ids stay distinct; a second insert of the same id changes nothing |
| Directory.RegisterAllIds | main.py:40-42 | after a run of registrations, the table's ids are the earlier ids plus the registered ones, and they stay distinct |
| Directory.RegisterAllCount | main.py:50-52 | N registrations into an empty table, k of them repeating an earlier id, leave N - k rows |
| Directory.DistinctCard | main.py:29 | with the primary key, the row count equals the number of distinct ids |
| Directory.DistinctOnce | main.py:29 | with the primary key, each present id occurs exactly once in the id list |
| Directory.RecipientDirectory.constructor | main.py:25-35 | `CREATE TABLE IF NOT EXISTS` keeps the rows the database file already holds (none for a new file), with their ids distinct |
| Directory.RecipientDirectory.AddUser | main.py:37-46 | a failed connection (outside the `try`) raises and changes nothing; once connected, insert-or-ignore, and a failed insert is swallowed and changes nothing; on success the registered ids gain exactly the user's id |
| Directory.RecipientDirectory.GetStats | main.py:48-52 | the count is the number of distinct registered ids; `None` when the read raises |
| Directory.RecipientDirectory.GetAllUsers | main.py:54-57 | the snapshot lists every registered id exactly once and nothing else, and its length is the count; `None` when the read raises |
| Export.ExportLines | main.py:133-134 | the file splits at newlines into one piece per id, each piece the id's decimal text, then the empty piece after the last newline |
| Export.ParseDecimalLines | main.py:134 | reading the lines `str(id)` back gives the ids in order |
| Export.ExportRoundTrip | main.py:130-134 | reading the export file back gives exactly the snapshot, and the file has one newline per id |
| Export.ExportNewlines | main.py:133-134 | the file has exactly one newline per listed id |
| Export.ExportTextAppend | main.py:133-134 | writing one more id appends exactly its line to the file |
| Export.WriteUsersFile | main.py:132-134 | the write loop produces exactly the export text of the snapshot |
| Session.FsmStorage.constructor | main.py:21 | the dispatcher starts with no contexts |
| Session.FsmStorage.SetState | main.py:141 | `set_state` changes only the user's phase and keeps its draft and all other contexts |
| Session.FsmStorage.UpdateData | main.py:153 | `update_data` replaces only the user's draft and keeps its phase and all other contexts |
| Session.FsmStorage.Clear | main.py:169 | `clear` resets only the user's context to no phase and no draft |
| Session.FsmStorage.GetDraft | main.py:173-175 | reads the stored draft; a user never seen has none |
| Broadcast.AttemptExtends | main.py:186-192 | one loop iteration adds its id to the attempted ids, adds it to the receivers only on success, and adds one pause only on success |
| Broadcast.TraceObservations | main.py:185-192 | every snapshot id is attempted exactly once, in snapshot order, whatever fails; exactly the accepted ids receive a copy; there are as many pauses as sent copies |
| Broadcast.SentPlusFailed | main.py:182-192 | each snapshot id is counted once, as sent or as failed, so sent + failed = snapshot size |
| Broadcast.AttemptKeepsShape | main.py:186-192 | one more iteration keeps the trace's shape: only the draft is copied, and pauses follow successful copies only |
| Broadcast.TraceShape | main.py:186-192 | every copy is of the draft `(msg_id, chat_id)`; a pause comes right after each successful copy and nowhere else |
| Broadcast.RunBroadcast | main.py:182-192 | the loop's trace and counters match the fan-out specification: `success + blocked == len(users)`, `success` = accepted ids, pauses = `success`, and each pause follows a successful copy of the draft |
| Broadcast.MiddleFailureIsolated | main.py:185-192 | ids [1,2,3] with only 2 failing: 1 and 3 receive the draft, sent = 2, failed = 1, and no pause follows the failed copy |
| Text.StartsWith | main.py:107 | Python's `s.startswith(prefix)`, the filter that routes a button press to the admin-panel handler |
| Broadcast.Attempt | main.py:186-192 | one loop iteration: a copy of the draft to one recipient, then a pause only if the copy raised nothing (its effect: `AttemptExtends`) |
| Access.IsAdmin | main.py:16 | the allow-list of three fixed ids; it is tested at main.py:102, 110 and 149 (see `NonAdminGated`, `CmdAdmin`, `AdminCallbacks`, `ProcessBroadcastContent`) |
| Access.ActionOf | main.py:113 | `split("_")[1]` exists exactly when the data holds an underscore (otherwise IndexError), and the action holds no underscore |
| Directory.Inserted | main.py:41 | INSERT OR IGNORE on the rows: a known id drops the new row, a new id is appended (its properties: `InsertOrIgnore`) |
| Export.ExportLine | main.py:134 | the line `f"{id}\n"` written for one id |
| Export.ExportText | main.py:133-134 | the whole file: the lines of the ids in snapshot order (read back by `ExportRoundTrip`) |
| Text.IntToDecimal | main.py:134 | Python's `str(i)`: an optional minus sign and the decimal digits without leading zeros (read back by `IntToDecimalRoundTrip`) |
| Broadcast.Trace | main.py:185-192 | the fan-out specification: for each snapshot id in order, one copy of the draft, then a pause if it was accepted (its properties: `TraceObservations`, `TraceShape`) |
| Broadcast.Delivered | main.py:185-190 | the snapshot ids the oracle accepts, in order (the `success` count, by `RunBroadcast`) |
| Broadcast.Failed | main.py:191-192 | the snapshot ids the oracle rejects, in order (the `blocked` count; `SentPlusFailed`) |
| Bot.AfterAdminCallback | main.py:107-142 | only an operator's `broadcast` action moves the sender's context, to AwaitingContent, keeping its data |
| Bot.AfterContent | main.py:146-163 | an operator's message becomes the draft with AwaitingConfirmation; a non-operator's changes nothing |
| Bot.AfterConfirm | main.py:165-203 | `cancel_send` clears; other data clears after the fan-out unless the draft lookup or the snapshot read raises first |
| Bot.Next | main.py:65-203 | the sender's context after one update, routed in the order the handlers are registered (its invariant: `NextKeepsContextOk`) |
| Bot.Run | main.py:65-203 | the sender's context after a run of updates (its properties: `RunKeepsContextOk`, `NonAdminStaysFresh`) |
| Bot.NonAdminGated | main.py:108-111 | a non-operator's `admin_*` button, or a content message (main.py:149-150), leaves the sender's phase and draft unchanged |
| Bot.BroadcastButtonStartsCompose | main.py:139-142 | an operator's `admin_broadcast` sets AwaitingContent from any phase and keeps the old draft |
| Bot.ContentCaptured | main.py:146-163 | an operator's message in AwaitingContent stores `(msg_id, chat_id)` and moves to AwaitingConfirmation |
| Bot.CancelClears | main.py:165-170 | in AwaitingConfirmation, `cancel_send` clears phase and draft, with or without a draft and even when the database is down |
| Bot.ConfirmClears | main.py:172-203 | in AwaitingConfirmation, other non-`admin_` data with a draft and a readable snapshot sends and then clears |
| Bot.ConfirmHandlerUngated | main.py:165-170 | as written, the confirm handler clears a waiting context even for a sender not on the allow-list |
| Bot.NextKeepsContextOk | main.py:107-203 | every update keeps the invariant: only operators leave Idle, and AwaitingConfirmation always has a draft |
| Bot.RunKeepsContextOk | main.py:173-175 | from a fresh context, every run of updates keeps the invariant, so `data['msg_id']` never raises KeyError |
| Bot.NonAdminStaysFresh | main.py:165-167 | a non-operator's context stays fresh whatever it sends, so the unchecked confirm handler is never reached by one |
| Bot.AdminBot.constructor | main.py:206-209 | start-up keeps the persisted users table and starts with no contexts |
| Bot.AdminBot.CmdStart | main.py:65-76 | `/start` registers the sender and answers with the welcome; a failed insert still gets the welcome, a failed connection raises before it |
| Bot.AdminBot.CmdAdmin | main.py:99-103 | operators get the panel with the number of registered users, or the exception when the count fails; anyone else gets no answer |
| Bot.AdminBot.AdminCallbacks | main.py:107-142 | non-operators change nothing and get no answer; for operators, `refresh` gives the count, `export` gives the export text of the snapshot, `broadcast` sets AwaitingContent, other actions do nothing; only the sender's context can change |
| Bot.AdminBot.ProcessBroadcastContent | main.py:146-163 | an operator's message becomes the draft and is previewed, with AwaitingConfirmation set; a non-operator's message changes nothing |
| Bot.AdminBot.ConfirmBroadcastSend | main.py:165-203 | `cancel_send` clears with zero deliveries; otherwise, with a draft and a readable snapshot, the fan-out runs over the current ids, reports total, sent and failed, and clears; a missing draft or a failed read raises and leaves the context as it was; while confirmation is awaited the draft is always there, so a readable snapshot always gives a report (no KeyError) |
| Bot.AdminBot.HandleMessage | main.py:65-147 | routes `/start`, `/admin` and other messages in registration order; `/start` gets the welcome unless its connection fails; content is taken only in AwaitingContent; the sender's context follows `Next`, and no other context changes |
| Bot.AdminBot.HandleCallback | main.py:107-166 | routes `admin_*` data to the admin handler in any phase, and other data to the confirm handler only in AwaitingConfirmation; the sender's context follows `Next`; deliveries happen only from AwaitingConfirmation, and there a readable snapshot always gives a report |

## Left out

- Telegram I/O is not modelled: message texts, Markdown, keyboards, `copy_to` previews, `edit_text`, `send_message`, `answer_document`, deleting the status message, and the polling runner. The model assumes every operator-facing call succeeds. In the source, an exception from one of them ends the handler early, for example before `set_state`.
- The "Already Updated!" fallback of the refresh edit is presentation only. The refresh is modelled as answering with the count.
- The database engine is not modelled: SQL text, commits, the error log line, and the `joined_date` timestamp. Each operation takes the storage outcome as input. For `add_user` there are two inputs, because a failed connection raises and a failed insert is swallowed. For the reads one input `dbUp` is enough, because either failure raises.
- The snapshot order is the order of insertion. `SELECT id` has no `ORDER BY`, and with `id INTEGER PRIMARY KEY` SQLite in practice returns ids in ascending order. This matters for `GetAllUsers`, the export answer of `AdminCallbacks`, `ConfirmBroadcastSend` and `HandleCallback`, which fix the snapshot to `IdsOf(directory.rows)`. The fan-out lemmas (`TraceObservations`, `SentPlusFailed`, `TraceShape`, `RunBroadcast`) and the export lemmas (`ExportRoundTrip`, `WriteUsersFile`) hold for every order.
- `asyncio.sleep(0.05)` is not a duration here. It is a `Pause` event, and the model counts pauses instead of time.
- Concurrency is not modelled: overlapping confirmations while a fan-out runs, and registrations during a snapshot. Each handler runs to completion before the next update.
- The file `users_list.txt` is not written, sent or removed. Only its contents are modelled.
- Delivery is an oracle from recipient id to success or failure. Failure reasons are not told apart, and every exception counts as `blocked`.
- The context key is the sender's id. aiogram keys contexts by chat and user, and the two coincide in a private chat with the bot.
- Command recognition (`CommandStart`, `Command("admin")`) is not modelled. Each message comes with its kind already decided.
- Bot.AdminBot.HandleCallback: the responses to `admin_*` data from an operator are stated in `AdminCallbacks`, not repeated here.
