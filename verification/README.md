# A verified model of the Matrix–Feishu bridge

A Dafny model of the bridge's delivery protocol and of the small stateful algorithms around it, with proofs of what
they guarantee over whole runs. `dafny verify dfyconfig.toml` checks all of it.

## What is modelled

**The delivery protocol.** `MessageTable` is the mapping table with its UNIQUE columns and AUTOINCREMENT ids.
`Bridge` gives the message handlers of both directions as functions: mapping table before, the outside world's
answers for one run, mapping table after, effects in order, Ok or Err. `Service` has the same handlers as a class
that works step by step over its fields, each method proved to do what the function says, and `EventTasks` the queued
tasks and replays around them. `Protocol` puts them into
a state machine: events are dispatched, queued per chat, run under the chat's lock, and end as processed events or
dead letters; dead letters are replayed outside the lock; Matrix events come in between. A handler run is two steps,
so runs can overlap: at its start it looks its message up, at its end it acts. `Handlers` says what each handler does in
terms of which ids are linked: when each effect happens, under which name, which rows come and go, when the answer is Ok.
`Ledger`, `Outcomes`, `Runs`, `Delivery`, `Guarantees`, `Forwarding`, `Tasks`, `Keys`, `Marks`, `Replays`, `Returns`,
`Overlaps` and `Liveness` hold the theorems about runs. `Puppet` is the test by which the bridge knows its own messages
when Matrix sends them back.

The main results are about every run of that machine:

* *Conservation.* Whatever the world answers, the deliveries of a Feishu message are its deleted rows, plus the rows
  that could not be inserted, plus one if it is mapped now (`Runs.LedgerOfEveryRun`).
* *At most once.* In a run where the store works, ids are fresh and replays keep apart from other runs for their
  message, no row is ever lost, so a message is delivered at most once between two deletions of its mapping and never
  while mapped (`Guarantees.AtMostOnce`). Keeping apart is exactly what a replay's start needs
  (`Delivery.ReplayStartQuiet`), and a run from the start shows what happens without (`Overlaps.ReplayAndTaskDeliverTwice`).
  A Matrix event is forwarded at most once for good (`Guarantees.MatrixForwardedOnce`), and while its row lives even if
  it could not be marked (`Forwarding.MatrixForwardedOnceByHash`).
* *No echo.* Into Matrix the bridge only puts messages whose return it ignores, rows or not
  (`Guarantees.MatrixEchoIsSilent`). What it puts into Feishu is protected by its row: in a good run nothing is made in
  Matrix from a recorded message, at any time, until its row is deleted (`Returns.LinkedEchoIsSilent`,
  `Guarantees.FeishuEchoIsSilent`). A redaction that returns after the row of its event was deleted recalls nothing, ever
  (`Guarantees.RetractedForGood`); a recall that returns after its message lost its row redacts nothing until the
  message is delivered anew (`Returns.LateRecallIsSilent`).
* *Nothing lost.* The accepted events are, as a multiset, those waiting, running, done, recorded as dead letters, or
  dropped because the dead letter could not be written, and each list holds exactly the events whose handlers answered so
  (`Runs.AcceptedEventsConserved`, `Marks.EndedByOutcome`); a recorded event is itself the payload of a letter, unless the
  same event, by type and id, was recorded again (`Keys.RecordedEventInALetter`); a replay in a recovered world delivers it
  (`Tasks.ReplayRecovers`). Messages do arrive (`Liveness.AcceptedMessageArrives`), are filed under the room of their chat
  and forgotten with it (`Liveness.DisbandedMessageForgotten`). A Matrix event that failed gets through when it comes again
  (`Marks.FailedEventGetsThrough`).
* *Marks tell the truth.* A Feishu event is answered as a duplicate iff an earlier task of its id ended with Ok and its mark
  was written (`Marks.AnswersOfEveryRun`); a Matrix event is marked iff an attempt at it was answered with Ok
  (`Marks.MatrixMarkedIffDone`).
* *Replayed is final* if replays of one letter do not overlap (`Replays.ReplayedIsFinal`), and what a replayed letter
  holds was handled if no other event is recorded under its key while it is being replayed
  (`Replays.ReplayedMeansHandled`, and `Overlaps.ReplayedWithoutBeingHandled` without).

**The algorithms.** `DeadLetters` and `DeadLetterFacts` (the dead-letter store, replays, batches, clean-up),
`Reassembly` (fragments of long-connection payloads), `QueueGauge` (the lock-free running maximum under relaxed
memory), `RateLimiter`, `TtlCache`, `RoomStore` (table with LRU cache) and `SyncSlots` (each a fast form against a
simple one), `RichText`, `Kdl`, `LabelEscape` and `Retry`. Where the code changes fields step by step, so does a class
here; the properties are then proved of the functions the methods are tied to.

## Where the code falls short

Each of these is proved, with the exact condition:

* A bridge recognises all its puppets iff its domain has no `:` (so no port) and no trailing blank, its username
  template has only one placeholder, and the registration's `sender_localpart` is not blank
  (`Puppet.EveryPuppetRecognised`): a blank one returns before puppets are looked at, and a second placeholder is filled
  in when a name is made but taken literally when it is recognised, so the template `{{.}}-{{.}}` makes the puppet `u-u`
  and misses it. Otherwise echoes of long-named puppets pass as strangers' messages.
* README.md:558 says that failed Feishu event tasks can be replayed. The event type `message` is accepted and
  dead-lettered, but no replay knows it (`Tasks.ReplayableIffNotLegacy`).
* Disbanding a chat forgets its messages iff there are at most 2000 (`Outcomes.DisbandClearsRoom`).
* A replay looks at the letter's status before it runs and marks it afterwards without looking again. A failed replay
  that overlaps a successful one turns the replayed letter into a failed one (`Overlaps.OverlappingReplaysReopen`); a
  replay that ends on a replayed letter does so iff it failed and its mark is written (`Replays.ReplayFinishReopensIff`).
* A recall or redaction whose row cannot be deleted only logs that, and its echo retracts the message again
  (`Guarantees.RecallBouncesIff`, `Guarantees.RedactionBouncesIff`).
* A Feishu message without a row has no protection against its echo: degrade notices, texts for Matrix events without an
  id, and further attachments. A good run shows a notice coming back into Matrix (`Returns.NoticeEchoIsDelivered`).
* A message whose row a redaction has deleted is delivered anew when its receive event comes late, and its late recall
  then redacts the new Matrix event (`Returns.LateRecallRetractsAnew`).
* A task that records another event under a letter's key while the letter is being replayed leaves the letter replayed
  with a payload nobody handled (`Overlaps.ReplayedWithoutBeingHandled`).
* A dry-run clean-up lists the newest rows and filters them by age; the clean-up takes the oldest. They agree iff no
  old row lies beyond the listing (`DeadLetterFacts.DryRunExact`).
* A deleted or changed room mapping is answered as before iff its row is cached under the key asked for
  (`RoomStore.DeleteAnswersIff`, `RoomStore.UpdateAnswersIff`).
* Overwriting a key in a full TTL cache evicts another entry without need (`TtlCache.FullStaysFull`).
* A repeated configuration key whose first value is an array cannot be told from one longer array
  (`Kdl.RepeatedKeyIff`, `Kdl.RepeatIsLonger`); positional arguments of a node with children are dropped (`Kdl.ArgumentsDropped`),
  and those of a dashed node with properties (`Kdl.LeafFields`).
* Retry sleeps never shrink iff the base is at most 8 s: the first sleep is not capped (`Retry.SleepsGrowIff`).

## Model

| member | source | states |
|---|---|---|
| Puppet.RecogniserExact | src/bridge/event_processor.rs:983-1008 | a trimmed sender is taken for a puppet iff it is '@', prefix, non-empty user id, suffix, ':' and the domain up to ASCII case |
| Puppet.OwnPuppetRecognised | src/config/mod.rs:389-391 | the id the bridge formats for a user is recognised again, iff the formatted name fits the template and the domain has no ':' and no trailing blank; with one placeholder every non-empty user id fits, with several none does unless it ends in '}' |
| Puppet.EveryPuppetRecognised | src/bridge/event_processor.rs:958-981 | exactly which of the installations that pass the configuration check know every one of their puppets |
| Puppet.LongPuppetMissed | src/bridge/event_processor.rs:966-969 | any other installation has a puppet that passes for a stranger |
| Puppet.BotRecognised | src/bridge/event_processor.rs:965-968 | the bot's own messages are always recognised |
| Text.TrimEmptyIffBlank | src/bridge/feishu_bridge.rs:874-874 | a text counts as empty iff it is blank throughout |
| MessageTable.Insert | src/database/mod.rs:207-219 | a row enters iff the store works and neither id is mapped yet, and the table stays one-to-one in both id columns |
| MessageTable.NewestOfRoomCount | src/database/sqlite_stores.rs:531-552 | a room listing has all rows of the room up to the limit |
| MessageTable.NewestOfRoomExact | src/database/sqlite_stores.rs:531-552 | a room listing has a row iff it belongs to the room and fewer rows of the room than the limit are newer |
| MessageTable.InsertMaps | src/database/sqlite_stores.rs:480-497 | an insert maps its own two ids and no others |
| MessageTable.DeleteUnmaps | src/database/sqlite_stores.rs:518-529 | a deletion unmaps the two ids of its row and no others |
| Service.FeishuBridge.CreateMessageMapping | src/database/sqlite_stores.rs:480-497 | the new row, or the old table and a lost row when the store or a UNIQUE column refuses |
| Service.FeishuBridge.DeleteMessageMapping | src/database/sqlite_stores.rs:518-529 | the row is gone, or nothing changed when the store fails |
| Service.FeishuBridge.ForwardFeishuAttachmentsToMatrix | src/bridge/feishu_bridge.rs:1852-1888 | one Matrix event per attachment that could be sent, in order, the first of them carrying the reply |
| Service.FeishuBridge.SendToMatrix | src/bridge/feishu_bridge.rs:873-934 | text first, then attachments; nothing is sent when the text fails |
| Service.FeishuBridge.HandleFeishuMessage | src/bridge/feishu_bridge.rs:655-980 | duplicate check, room, sender, reply target, sends and mapping, in this order: table, effects and answer are those of the protocol, on every path |
| Service.FeishuBridge.HandleFeishuMessageRecalled | src/bridge/feishu_bridge.rs:982-1036 | an unmapped message is left alone; otherwise the event is redacted and the row deleted even if the redaction failed |
| Service.FeishuBridge.DeleteMessageMappings | src/bridge/feishu_bridge.rs:1309-1325 | the deletion loop skips failing rows and goes on |
| Service.FeishuBridge.HandleFeishuChatDisbanded | src/bridge/feishu_bridge.rs:1281-1357 | the newest 2000 rows of the room go, then its mapping, then a notice; an error of the mapping's deletion comes after the rows are gone |
| Service.FeishuBridge.SendOutboundMessage | src/bridge/matrix_to_feishu_dispatcher.rs:38-86 | one Feishu message for the text, as a reply if its target is mapped; an error means nothing was sent |
| Service.FeishuBridge.ForwardAttachmentsToFeishu | src/bridge/matrix_to_feishu_dispatcher.rs:124-145 | one Feishu message per attachment that could be sent, in order |
| Service.FeishuBridge.SendAndRecord | src/bridge/event_processor.rs:322-421 | text and attachments, then a row for the first of them |
| Service.FeishuBridge.HandleMessageEvent | src/bridge/event_processor.rs:199-421 | the bridge's own senders first, then policies, content hash, edit or send: table, effects and answer are those of the protocol |
| Service.FeishuBridge.HandleRedactionEvent | src/bridge/event_processor.rs:775-834 | recall in Feishu, then unmap; a failed recall keeps the row and is an error |
| Service.FeishuBridge.ProcessEvent | src/bridge/event_processor.rs:92-197 | a processed event does nothing, an id is marked only after its handler succeeded, and a failed mark is an error |
| EventTasks.FeishuService.Handle | src/bridge/feishu_bridge.rs:440-528 | every kind of event goes to its own handler, for tasks and replays alike |
| EventTasks.FeishuService.RunTask | src/feishu/service.rs:638-696 | a failed task becomes a dead letter and marks nothing, a successful one marks its event and writes no letter |
| EventTasks.FeishuService.ReplayDeadLetter | src/bridge/feishu_bridge.rs:397-438 | a replay runs the letter's event through the handlers exactly once, or not at all if it is replayed or unknown, and marks the letter by the outcome |
| Ledger.DeliverBalanced | src/bridge/feishu_bridge.rs:873-979 | a delivery counts one new mapping or one lost row for its own message, nothing for any other |
| Ledger.RecalledBalanced | src/bridge/feishu_bridge.rs:982-1036 | a recall counts exactly the mapping it deletes |
| Ledger.DisbandedBalanced | src/bridge/feishu_bridge.rs:1281-1357 | a disbanded chat counts exactly the mappings it deletes |
| Ledger.SendOutBalanced | src/bridge/event_processor.rs:322-421 | a forwarded event counts one new mapping or one lost row for its first Feishu message |
| Ledger.RedactionBalanced | src/bridge/event_processor.rs:775-834 | a redaction counts exactly the mapping it deletes |
| Outcomes.ErrorsSendNothing | src/bridge/feishu_bridge.rs:655-979 | a handler run that returns an error has put no message anywhere and mapped nothing |
| Outcomes.DisbandClearsRoom | src/bridge/feishu_bridge.rs:1309-1325 | a disbanded room's messages are all forgotten iff there are at most 2000 |
| Outcomes.CompleteSenders | src/bridge/feishu_bridge.rs:688-855 | whatever a run puts into Matrix is sent by the bot or the mapped user |
| Outcomes.CompleteRows | src/bridge/feishu_bridge.rs:938-963 | a Feishu-side run maps at most its own message, to the first event it created, in the room resolved for its chat |
| Outcomes.MatrixRows | src/bridge/event_processor.rs:378-404 | a Matrix-side run maps at most its own event, from a foreign sender, to the first message it created, with its room and content hash, and puts only the bot's answers to commands into Matrix |
| Handlers.SentInOrder | src/bridge/matrix_to_feishu_dispatcher.rs:124-145 | the sends of a list that succeeded are all reported, once each and in order |
| Handlers.DeliverySends | src/bridge/feishu_bridge.rs:688-934 | a delivery is its text, then its attachments, all sent by the mapped user iff he can join, else by the bot; the first of them is a reply to exactly the event its parent is linked to |
| Handlers.DeliveryRecord | src/bridge/feishu_bridge.rs:936-963 | a delivery is filed under the room resolved for its chat, linked to its first event, or its row is lost and the table stays |
| Handlers.AnswerOfRun | src/bridge/feishu_bridge.rs:655-980 | exactly which reads and sends decide whether a run of any Feishu event answers Ok |
| Handlers.RedactionsOfRun | src/bridge/feishu_bridge.rs:993-1019 | a run redacts an event iff it is a recall of the message linked to it and reading and redacting work; no run edits or recalls |
| Handlers.NoticesOfRun | src/bridge/feishu_bridge.rs:1327-1354 | a notice appears iff a known chat changed or was disbanded, the room's write worked and so did the send |
| Handlers.RowsForgotten | src/bridge/feishu_bridge.rs:1007-1033 | a run forgets a row iff its message is recalled, redacted or not, or it belongs to the disbanded room with fewer than 2000 newer rows |
| Handlers.EditsOfEvent | src/bridge/matrix_to_feishu_dispatcher.rs:97-119 | a Feishu message is edited iff a stranger's new edit targets the event linked to it, edits are on, and reading and updating work |
| Handlers.RecallsOfEvent | src/bridge/event_processor.rs:775-820 | a Feishu message is recalled iff a redaction targets the event linked to it, redactions are on, and reading and recalling work |
| Handlers.RowsRedacted | src/bridge/event_processor.rs:799-831 | a row goes iff its event is redacted, its message was recalled, and the store works |
| Handlers.AnswerOfEvent | src/bridge/event_processor.rs:199-421 | exactly when a Matrix event of any kind is answered with Ok: a refused edit or recall is an error |
| Handlers.ForwardSends | src/bridge/matrix_to_feishu_dispatcher.rs:38-86 | a forwarded message is its text, then its attachments; the text is a reply to exactly the message its target is linked to |
| Handlers.ForwardRecord | src/bridge/event_processor.rs:378-404 | a forwarded event is filed under its room and content hash, linked to its first message, or its row is lost |
| Handlers.FailureNotice | src/bridge/event_processor.rs:354-376 | a text that does not go out is an error without degradation, else at most an unmapped notice |
| Handlers.AnswersToCommands | src/bridge/event_processor.rs:199-288 | the Matrix side puts into Matrix only the bot's answer to a stranger's command that was carried out |
| Handlers.NotForwarded | src/bridge/event_processor.rs:296-319 | own messages, repeated content, edits and events not to be forwarded put nothing new into Feishu and are not mapped |
| Handlers.ProcessExact | src/bridge/event_processor.rs:105-197 | a handler acts on new events only, an error never marks, and Ok means the event stands marked |
| Runs.NextSound | src/database/mod.rs:207-219 | every step keeps the table one-to-one and the ledger of deliveries balanced |
| Runs.HistoryGrows | src/bridge/feishu_bridge.rs:872-980 | what was done is never undone in the record |
| Runs.LedgerOfEveryRun | src/bridge/feishu_bridge.rs:671-686 | in every run, deliveries are deletions plus lost rows plus one if mapped |
| Runs.AtMostOnceBetweenDeletions | src/bridge/feishu_bridge.rs:671-686 | between two points without deletion or lost row, a message is delivered once if it got mapped, else not at all |
| Runs.AcceptedEventsConserved | src/feishu/service.rs:450-468 | as multisets of events, accepted is open plus succeeded plus recorded plus dropped, every open task has the event accepted under its number, and a chat runs one task at a time |
| Runs.TasksOfAChatInTurn | src/feishu/service.rs:450-468 | in every run two running tasks never are about one chat, whatever kinds of events they are for |
| Delivery.StepRow | src/bridge/feishu_bridge.rs:938-963 | every row a step adds comes from a run delivering its message, or from an unprocessed foreign Matrix event, with the room and hash of that run |
| Delivery.ReplayStartQuiet | src/bridge/feishu_bridge.rs:419-422 | starting a replay keeps deliveries apart iff no other run is delivering the message |
| Delivery.NextQuiet | src/feishu/service.rs:450-468 | chat locks and replays that keep apart leave at most one run per message, and only for unmapped messages |
| Guarantees.SendersOwnInRuns | src/bridge/feishu_bridge.rs:688-855 | in every run the bridge recognises the sender of everything it put into Matrix |
| Guarantees.MatrixEchoIsSilent | src/bridge/event_processor.rs:199-210 | the return of any message the bridge sent to Matrix causes nothing, mapped or not |
| Guarantees.FeishuEchoIsSilent | src/bridge/feishu_bridge.rs:671-686 | in a good run, from any point where a message is mapped until that mapping is deleted, nothing is put into Matrix for it, however often it arrives or is replayed |
| Guarantees.RecallBouncesIff | src/bridge/feishu_bridge.rs:1007-1033 | the redaction a recall causes recalls the message again iff the recall could not delete its row and redactions are bridged and work |
| Guarantees.RedactionBouncesIff | src/bridge/event_processor.rs:799-831 | the recall a redaction causes redacts again iff the redaction could not delete its row and the lookup and the redaction work |
| Guarantees.RetractedForGood | src/bridge/event_processor.rs:799-831 | in good runs a retracted Matrix event is never mapped again, so late redactions recall nothing |
| Guarantees.InvariantInRuns | src/bridge/feishu_bridge.rs:655-980 | in good runs no row is ever lost, no two runs deliver one message, and mapped events are processed or the bridge's own |
| Guarantees.AtMostOnce | src/bridge/feishu_bridge.rs:671-686 | in good runs a message is delivered at most once between two deletions of its mapping, and never while mapped |
| Guarantees.MatrixForwardedOnce | src/bridge/event_processor.rs:105-117 | if the marks of processed events are written, no Matrix event is ever forwarded twice, even if its row could not be stored |
| Forwarding.MatrixForwardedOnceByHash | src/bridge/event_processor.rs:296-312 | even if marks fail, an event is forwarded at most once while its own row lives and no row is lost, because of the content hash |
| Guarantees.OverlappingRunsDeliverTwice | src/bridge/feishu_bridge.rs:419-422 | two runs that both found a message unmapped deliver it twice in any order |
| Tasks.DuplicateOnlyAfterSuccess | src/feishu/service.rs:592-603 | an event is answered as a duplicate only after a task with its id returned Ok |
| Marks.MarkedIffDone | src/feishu/service.rs:676-696 | in every run a Feishu event stands marked iff a task of its id ended with Ok and its mark was written |
| Marks.MatrixMarkedIffDone | src/bridge/event_processor.rs:105-197 | in every run a Matrix event stands marked iff some attempt at it was answered with Ok, so failed ones stay unmarked |
| Marks.DuplicateAfterSuccess | src/feishu/service.rs:592-603 | once a task of an event ended with Ok and its mark was written, the event is always a duplicate and changes nothing |
| Marks.AnswersOfEveryRun | src/feishu/service.rs:592-696 | in every run, exactly when an event is an error, a duplicate, accepted or ignored; only an accepted one changes anything, and is queued |
| Marks.EndedByOutcome | src/feishu/service.rs:638-696 | in every run the successes, dead letters and dropped events are exactly those of tasks whose handlers and stores answered so |
| Marks.FailedEventGetsThrough | src/bridge/event_processor.rs:105-197 | however often and why ever a Matrix event failed, in a working world it is forwarded complete and in order, mapped and marked |
| Marks.EditsOfStep | src/bridge/event_processor.rs:314-319 | no step of the machine edits a Feishu message but a stranger's new edit of the event linked to it |
| Keys.KeyExact | src/feishu/service.rs:630-636 | two accepted events share a dead-letter key iff they are of one type and go by one id, that of the message or chat standing in for a missing one |
| Keys.RecordedEventInALetter | src/database/sqlite_stores.rs:607-634 | until a clean-up every recorded event is itself the payload of a letter, unless the same event, by type and id, was recorded after it |
| Tasks.RecordedEventsKept | src/database/sqlite_stores.rs:607-634 | until a clean-up every recorded event has one letter under its key, with the payload recorded last |
| Tasks.ReplayableIffNotLegacy | src/bridge/feishu_bridge.rs:440-528 | a type can be replayed iff it is accepted and not the legacy "message" |
| Tasks.UninterruptedRun | src/bridge/feishu_bridge.rs:655-686 | a run that nothing interrupts is the handler |
| Tasks.ReplayRecovers | src/bridge/feishu_bridge.rs:397-438 | a replay in a recovered world delivers and maps the message and marks its letter |
| Tasks.ReplayFailureKeepsLetter | src/bridge/feishu_bridge.rs:430-437 | a replay that fails again leaves its letter ready for the next one and, for a message, no other trace |
| Tasks.ReplayedLetterRests | src/bridge/feishu_bridge.rs:407-414 | a replayed letter is not run again |
| Tasks.UnsupportedLetterFails | src/bridge/feishu_bridge.rs:419-437 | a replay of a letter whose type no replay knows marks it failed and does nothing else |
| Replays.ReplayFinishReopensIff | src/bridge/feishu_bridge.rs:423-437 | a replay that ends on a replayed letter reopens it iff it failed and its mark is written |
| Replays.ReplayedIsFinal | src/bridge/feishu_bridge.rs:407-414 | in every run whose replays of one letter do not overlap, a replayed letter stays as it is until its key is recorded anew or it is cleaned up |
| Replays.OkAnswersHold | src/web/provisioning.rs:607-618 | so a replay answered with Ok, alone or in a batch, still holds at the end of the run |
| Replays.ReplayedMeansHandled | src/bridge/feishu_bridge.rs:419-430 | the payload of a replayed letter was itself handled with success by a replay, if no task records another event under the key while the letter is being replayed |
| Overlaps.OverlappingReplaysReopen | src/bridge/feishu_bridge.rs:397-438 | a good run from the start in which an overlapping failed replay turns a replayed letter into a failed one |
| Overlaps.ReplayAndTaskDeliverTwice | src/bridge/feishu_bridge.rs:419-422 | a run from the start that meets every assumption but at the start of one replay, and delivers one message twice |
| Overlaps.ReplayedWithoutBeingHandled | src/bridge/feishu_bridge.rs:419-430 | a run from the start in which a letter ends replayed with a payload that no replay of it handled |
| Returns.LinkedEchoIsSilent | src/bridge/feishu_bridge.rs:671-686 | in a good run nothing is made in Matrix from a Feishu message the bridge made and recorded, as long as no row of it is deleted |
| Returns.NoticeEchoIsDelivered | src/bridge/event_processor.rs:482-511 | a good run from the start in which a degrade notice, never recorded, comes back into Matrix |
| Returns.LateRecallIsSilent | src/bridge/feishu_bridge.rs:993-1005 | in every run, from a point where a message is unmapped its recall does nothing as long as the message is not delivered anew |
| Returns.LateRecallRetractsAnew | src/bridge/feishu_bridge.rs:993-1033 | a good run from the start in which a redacted message is delivered anew and its late recall redacts the new event |
| Liveness.AcceptedMessageArrives | src/feishu/service.rs:638-696 | from every reachable state with a free chat, an accepted message gets into Matrix complete and in order, filed under its room and marked |
| Liveness.DisbandedMessageForgotten | src/bridge/feishu_bridge.rs:1309-1325 | from every reachable state, a delivered message is unmapped by the next disbanding of its room, if the room has at most 2000 |
| Liveness.GoodRunDelivers | src/feishu/service.rs:638-696 | runs that meet all assumptions exist under every configuration, and deliver once |
| DeadLetters.Store.CreateDeadLetter | src/database/sqlite_stores.rs:607-634 | a new row, or the key's row reopened with payload, error, status and time replaced and its replay count kept |
| DeadLetters.Store.MarkDeadLetterReplayed | src/database/sqlite_stores.rs:702-720 | the row with this id is replayed once more, whatever its status; no other row changes |
| DeadLetters.Store.MarkDeadLetterFailed | src/database/sqlite_stores.rs:722-740 | the row with this id is failed, even if it was replayed; no other row changes |
| DeadLetters.Store.ReplayDeadLetter | src/bridge/feishu_bridge.rs:397-438 | whatever others do before the status is read and while the handler runs, the answer and the store afterwards; the mark does not look at the status again |
| DeadLetters.Store.ReplayDeadLetters | src/web/provisioning.rs:607-618 | requested is replayed plus failed, and the failures are the ids whose replay failed, in order |
| DeadLetters.Store.Candidates | src/database/sqlite_stores.rs:754-768 | one pass over the rows picks the matching ones with the lowest ids, at most as many as the limit |
| DeadLetters.Store.DeleteByIds | src/database/sqlite_stores.rs:773-776 | the rows with these ids are gone and the others keep their order |
| DeadLetterFacts.UpsertRow | src/database/sqlite_stores.rs:607-634 | keys and ids stay unique, and no row but the key's own changes |
| DeadLetterFacts.MarkRow | src/database/sqlite_stores.rs:702-740 | a mark changes its own row only, whatever that row's status is |
| DeadLetterFacts.CleanupRow | src/database/sqlite_stores.rs:742-780 | a clean-up removes exactly the listed ids and keeps the order |
| DeadLetterFacts.CleanupExact | src/database/sqlite_stores.rs:742-780 | a clean-up deletes only rows with the status last touched before the time, as many as the limit allows, and none before an older one |
| DeadLetterFacts.RunValid | src/database/mod.rs:229-242 | in every run keys and ids are unique and ids are never reused |
| DeadLetterFacts.ReplayedUntilReopened | src/database/sqlite_stores.rs:607-740 | exactly which store operations end the state replayed: its key recorded anew, a failed mark of it, a clean-up of it |
| DeadLetterFacts.ReplayCountIsExact | src/database/sqlite_stores.rs:702-720 | over every run of records, marks and clean-ups in any order a row's replay count grows by exactly its successful marks |
| DeadLetterFacts.StatusesPartition | src/database/sqlite_stores.rs:636-654 | pending plus failed plus replayed is the total |
| DeadLetterFacts.ReplayOkMeansReplayed | src/bridge/feishu_bridge.rs:407-430 | with others at work between check and mark, an Ok leaves the row replayed unless it was cleaned up meanwhile |
| DeadLetterFacts.BatchKeepsItsWord | src/web/provisioning.rs:607-618 | with others at work before and during every replay of the batch, an id counted as replayed is so at its end, if from then on they leave the row alone |
| DeadLetterFacts.DryRunExact | src/web/provisioning.rs:682-694 | a dry run announces exactly what the clean-up deletes iff no old row lies beyond its listing |
| Reassembly.LongConnectionPayloadReassembler.CleanupExpired | src/feishu/service.rs:1851-1855 | exactly the entries older than the time to live are gone |
| Reassembly.LongConnectionPayloadReassembler.Push | src/feishu/service.rs:1810-1849 | expired entries go first, a changed sum starts over, the fragment fills its slot, and a full entry is merged and forgotten |
| Reassembly.LongConnectionPayloadReassembler.Receive | src/feishu/service.rs:486-514 | a frame without a sum above one is its own payload and leaves the entries alone |
| Reassembly.RunAgrees | src/feishu/service.rs:1810-1855 | after every run the entry of an id holds what the id's own fragments left open, as if there were no others |
| Reassembly.AnswerExact | src/feishu/service.rs:1834-1848 | a push is answered iff it fills the last missing slot of its group |
| Reassembly.OtherIdsDoNotMatter | src/feishu/service.rs:1817-1829 | the answer to a push depends on the fragments of its own id only |
| Reassembly.MergedIsPayload | src/feishu/service.rs:1839-1848 | fragments of one split, in any order and repeated, only ever yield the payload itself |
| Reassembly.AppearsWhenComplete | src/feishu/service.rs:1832-1837 | the payload appears exactly at the push that shows the last slot within the lifetime of the first |
| Reassembly.FragmentsAccounted | src/feishu/service.rs:1817-1855 | slots of merged payloads plus slots filled now never exceed the fragments pushed, and every entry has a gap |
| QueueGauge.GaugeExact | src/web/metrics.rs:98-121 | in every interleaving the depth is the number of live guards and the maximum the historical peak, never more, and equal when no begin is under way |
| QueueGauge.MaximumNeverFalls | src/web/metrics.rs:98-113 | no interleaving lowers the maximum |
| QueueGauge.CompareLoopEnds | src/web/metrics.rs:101-111 | each failed compare-exchange brings the value seen strictly closer, so a call tries at most as often as its depth |
| QueueGauge.Metrics.BeginQueueTask | src/web/metrics.rs:98-113 | with rivals raising it and stale but newer values read, the maximum ends as the largest value offered, after at most as many attempts as the depth |
| QueueGauge.Metrics.EndQueueTask | src/web/metrics.rs:115-121 | with rivals changing the depth, spurious failures and stale reads, exactly one is taken off what the others left, without saturating and within a bounded number of attempts |
| LabelEscape.EscapeIsSinglePass | src/web/metrics.rs:350-355 | three chained replacements equal one escape per character |
| LabelEscape.LabelRoundTrip | src/web/metrics.rs:350-355 | a reader of the page gets back every label value, and the text after its closing quote |
| LabelEscape.EscapeInjective | src/web/metrics.rs:350-355 | different values never share a label |
| RateLimiter.RoomRateLimiter.Allow | src/bridge/event_processor.rs:1079-1105 | stamps beyond the window are popped and the call recorded iff fewer than the limit remain; zero limit or window passes all |
| RateLimiter.AllowCounts | src/bridge/event_processor.rs:1079-1105 | a call passes iff fewer than the limit were accepted in the closed window that ends with it |
| RateLimiter.NoWindowOverfull | src/bridge/event_processor.rs:1091-1105 | every closed interval of window length in every run holds at most the limit per room |
| RateLimiter.RoomsIndependent | src/bridge/event_processor.rs:1085-1089 | a room is limited as if it were the only one |
| TtlCache.TtlCache.Get | src/util/mod.rs:102-111 | a live value, or a miss that forgets the key |
| TtlCache.TtlCache.RemoveOldestEntry | src/util/mod.rs:131-144 | an entry that expires first is gone |
| TtlCache.TtlCache.Insert | src/util/mod.rs:113-125 | the new entry, after evicting a first-to-expire entry from a full cache |
| TtlCache.TtlCache.Invalidate | src/util/mod.rs:127-129 | the key is gone |
| TtlCache.HitIsLatest | src/util/mod.rs:102-125 | a lookup hits iff the key's latest insert is young, not invalidated and not evicted since, and yields its value |
| TtlCache.SizeBounded | src/util/mod.rs:113-117 | the cache never exceeds its bound |
| TtlCache.LiveEntryLost | src/util/mod.rs:131-144 | a live entry is evicted only from a cache full of live entries, as the first to expire |
| TtlCache.FullStaysFull | src/util/mod.rs:113-125 | when an insert evicts without need |
| RoomStore.SqliteStores.GetRoomByMatrixId | src/database/sqlite_stores.rs:143-170 | the cached row, else the table's, which is then cached |
| RoomStore.SqliteStores.GetRoomByFeishuId | src/database/sqlite_stores.rs:172-199 | likewise by chat |
| RoomStore.SqliteStores.CreateRoomMapping | src/database/sqlite_stores.rs:201-215 | a row under the next id iff both keys are free; the cache is not touched |
| RoomStore.SqliteStores.UpdateRoomMapping | src/database/sqlite_stores.rs:217-231 | the row under that id, its name kept if none is given; the cache is not touched |
| RoomStore.SqliteStores.DeleteRoomMapping | src/database/sqlite_stores.rs:233-244 | the row is gone; the cache is not touched |
| RoomStore.CreateExact | src/database/sqlite_stores.rs:201-215 | a row enters under the next id iff the store works and neither key is taken, and all others stay |
| RoomStore.UpdateExact | src/database/sqlite_stores.rs:217-231 | exactly which update rewrites its row, and that an absent name leaves the stored one |
| RoomStore.CachedLookupExact | src/database/sqlite_stores.rs:143-215 | over every run of lookups and creates, evictions included, a lookup answers as the table would |
| RoomStore.DeleteCoherentIff | src/database/sqlite_stores.rs:233-244 | a deletion leaves the cache truthful iff the row is not cached |
| RoomStore.DeleteAnswersIff | src/database/sqlite_stores.rs:143-244 | asked by a key after a deletion, the store answers as the table iff the deleted row is not cached under that key |
| RoomStore.UpdateCoherentIff | src/database/sqlite_stores.rs:217-231 | an update, of keys too, leaves the cache truthful iff the row is not cached or nothing changes |
| RoomStore.UpdateAnswersIff | src/database/sqlite_stores.rs:143-231 | asked by any key after an update, of keys too, the store answers as the table iff the row is not cached under that key as an old one of it |
| RoomStore.StaleButOwn | src/database/sqlite_stores.rs:143-244 | over every run a lookup returns only a row once held under its key, and deleting by its id never hits a row with other keys |
| SyncSlots.UserSync.ReserveUserSyncSlot | src/bridge/feishu_bridge.rs:530-538 | a slot is granted and stamped iff the user has no stamp or one at least the interval old |
| SyncSlots.UserSync.PruneStamps | src/bridge/feishu_bridge.rs:644-650 | exactly the stamps beyond the retention are gone |
| SyncSlots.PruningIsInvisible | src/bridge/feishu_bridge.rs:644-650 | a reservation is answered as on a map that is never pruned |
| SyncSlots.InvisibleIffKeptLongEnough | src/bridge/user.rs:46-51 | pruning never changes an answer in any run iff the retention covers the refresh interval |
| SyncSlots.RetentionCovers | src/bridge/feishu_bridge.rs:622-644 | the bridge's retention does so for every interval it can be configured with |
| SyncSlots.SlotsApart | src/bridge/feishu_bridge.rs:530-538 | two slots granted to a user are at least the interval apart |
| RichText.CreateFeishuRichText | src/formatter/matrix_to_feishu.rs:72-110 | per word a mention, a link or a text, each followed by a blank; a blank text becomes one item |
| RichText.ExtractTextFromPostContent | src/feishu/service.rs:1932-1988 | the parts of every item of every row and locale in order, else the plain text of the message |
| RichText.RowsDoNotMatter | src/feishu/service.rs:1932-1988 | the text of a post is that of all its items in one row, however they are spread over rows and locales |
| RichText.PartOfBareItems | src/feishu/service.rs:1932-1988 | what stands in for the missing text of a link, a mention or an image, and which items yield nothing |
| RichText.PostRoundTrip | src/formatter/matrix_to_feishu.rs:72-110 | the words come back in order, leading '@' runs collapsed and links followed by their copy |
| RichText.PostKeepsWords | src/feishu/service.rs:1932-1988 | exactly which texts keep their words |
| Kdl.NodesToJson | src/config/kdl_support.rs:15-37 | the values of sibling nodes accumulate under their names from first to last |
| Kdl.NodeToJson | src/config/kdl_support.rs:39-112 | dashed children make an array, others an object with inline properties over it, and the mutual recursion ends on the size of the tree |
| Kdl.DashNodeToJson | src/config/kdl_support.rs:115-156 | an array element: children before properties before arguments |
| Kdl.KeyHoldsItsNodes | src/config/kdl_support.rs:18-34 | each key holds its own nodes' values gathered in order, and exists iff it has a node |
| Kdl.RepeatedKeyIff | src/config/kdl_support.rs:18-34 | a repeated key holds the array of its nodes' values iff the first of them is not an array |
| Kdl.RepeatIsLonger | src/config/kdl_support.rs:23-30 | a node of several arguments followed by one more under its name gives the JSON of a single longer node |
| Kdl.OrderIsFree | src/config/kdl_support.rs:15-156 | reordering siblings of different names, anywhere in the tree, leaves the JSON unchanged |
| Kdl.MovePastOthers | src/config/kdl_support.rs:15-37 | so moving a node past others does |
| Kdl.ArgumentsDropped | src/config/kdl_support.rs:46-75 | what a node with children loses |
| Kdl.ScalarsKept | src/config/kdl_support.rs:158-171 | scalars keep their kind and value, and a float that is not finite becomes null |
| Kdl.ListFormsAgreeIff | src/config/kdl_support.rs:39-112 | a list written as arguments and as dashed children is the same array in the same order, unless it has one value |
| Kdl.InlinePropertiesWin | src/config/kdl_support.rs:63-137 | inline properties win over children of the same name, the last of them over the others |
| Kdl.LeafFields | src/config/kdl_support.rs:77-156 | what each key of a node without children holds, arguments gathered under "_", and that a dashed one loses them |
| Retry.ExecuteJson | src/feishu/client.rs:658-742 | at most one send more than the retries, each resend after a rate-limited or transient answer, no early surrender, the last answer decides, and the k-th sleep in closed form |
| Retry.ResentIff | src/feishu/client.rs:860-880 | an answer is worth a resend iff its status is 429 or 5xx, or it is readable and its code or words speak of a rate limit in any case; code 0 alone is accepted |
| Retry.SleepDoubles | src/feishu/client.rs:902-905 | the recurrence of the backoff is min(base times 2 to the k, 8000) |
| Retry.TotalSleep | src/feishu/client.rs:902-905 | r sleeps take at most the base plus 8000 ms for each but the first |
| Retry.SleepsGrowIff | src/feishu/client.rs:751-756 | the sleeps never shrink iff the base is at most 8000 ms |

## Assumptions of the run theorems

* `Guarantees.GoodRun` collects them: the identity knows its puppets, Feishu users are mapped to these puppets with
  non-empty ids, both servers name messages afresh and echo the bridge's messages under their own sender, Feishu keeps
  a message in its chat, Matrix ids do not start with `feishu:`, the store accepts the rows of deliveries and of
  processed events, and replays keep apart from other runs for their message. Recalls, deletions, lookups and sends
  may still fail. `Runs` and `Tasks` need none of this, or only what their lemmas state.
* The bridge is not restarted: queued tasks live in memory only, so a restart drops accepted events that are waiting or
  running.
* A Feishu handler run reads at its start and acts at its end; both are atomic. A Matrix event is processed in one step.
* Time is an integer that does not decrease from one operation to the next.

## Left out

- HTTP, websocket, protobuf, JSON text, SQL, hashing and encryption: their answers are inputs of the model, hashes and fresh ids are plain strings.
- Interleavings inside a handler run beyond check-then-act, and Matrix events processed concurrently with each other.
- Service.FeishuBridge.SelectSender: user synchronisation and joining are one answer each; profile data and portals are not modelled.
- Service.FeishuBridge.HandleMessageEvent: what a command does, blocked types, rate limit, room lookup and text conversion are one given plan; `RateLimiter`, `RoomStore` and `RichText` treat three of them on their own.
- Service.FeishuBridge.HandleFeishuMessage: the room is a given answer; creating a fallback portal and the backfilled chat name are not modelled.
- Outcomes.CompleteRows: only the first message of an event is mapped, as in the code, so echoes of further attachments are outside the Feishu-side echo theorems, like those of every Feishu message without a row.
- Service.FeishuBridge.HandleFeishuChatChange: member and chat-update events are one case with at most a notice; their profile and portal updates are not modelled.
- Invites, member and reaction events of Matrix: processed and marked without effect on mappings.
- `cleanup_old_events` (src/database/sqlite_stores.rs:588-603), which forgets processed events: nothing calls it.
- DeadLetters.Store.ReplayDeadLetter: the handler's own effects are in `Protocol`; here it is one answer. Columns that no decision reads (source, chat, creation and replay times) are dropped.
- Reassembly.LongConnectionPayloadReassembler.Push: one clock reading per push.
- QueueGauge.GaugeExact: wrap-around of the counters at the machine's word is not modelled.
- EventTasks.FeishuService.ReplayDeadLetter: nobody else is at work during the call; overlapping replays and tasks are in `Protocol`, `Replays` and `DeadLetters.Store.ReplayDeadLetter`.
- RateLimiter.AllowCounts: calls whose stamps arrive out of order, possible because the stamp is taken before the lock, are excluded.
- RoomStore.CachedLookupExact: a lookup that misses reads the table and fills the cache in one step. The user cache works the same way and is not modelled; timestamps are dropped.
- Retry.ExecuteJson: the attempt counter's 32-bit overflow at a retry limit of 2^32 - 1 is not modelled.
- Kdl.NodesToJson: the KDL parser and the final deserialisation are foreign; floats are reals, with a case for the non-finite ones.
- Card messages, HTML, Markdown, mention and emoticon conversions, MIME sniffing, command parsing, help text, provisioning approval, presence, logging and the remaining metrics: lookups and replace chains that would only add easy members.
