# Durable messaging, modelled and proved

This project models the durable mailbox protocol of the messenger end to end and proves what its
parts promise each other. It is organised by component, one module per file.

* **Server.** `MessageTables` holds the rows and queries, `ServerTransactions` the services as
  transactions that take locks, read and commit in separate steps and interleave freely.
  `ServerInvariants` is what every step keeps, `ServerTheorems` what every run promises,
  `ServerLocks` why the named locks cannot deadlock, `ServerStore` the same transitions as methods
  that change tables in place. `Backfill` is the migration that introduces chat numbers; what it
  leaves is where every run of the server starts, so all results hold of migrated databases;
  `MigratedOrder` says when mailboxes then follow their chats.
  `ServerAnswers` is what the server says of its rows, and why it stays true. `Base64` is the payload
  check, with Base64 as in sections 3.5 and 4 of RFC 4648.
* **Client inbox.** `InboxStore` is the durable store and its transactions, `InboxAgreement` when a
  store agrees with the server, `InboxPaging` the paging loop. `SyncMachine` joins the server, one
  store, any number of tabs, live events, lost answers, failed transactions and new identities into
  one step machine in which every await is a point where others may step in; `SyncInvariants`,
  `SyncSteps`, `SyncRuns` and `SyncTheorems` prove its invariant and what follows from it.
* **Outgoing path.** `OutgoingMachine`, `OutgoingInvariants` and `OutgoingRuns` do the same for
  sending: writing ahead, looking up before a replay, replacing a rejected command, late answers.
  The server is the one above, not an abstraction of it. `OutgoingStore` and `DeliveryMetadata` add
  acceptance and delivery metadata.
* **Local database.** `History` is the indexing of records and the paging of the local history.
  `LocalRuns` joins the server and the whole local database: pages, sends, acceptances, receipts,
  metadata and new identities in any order, each given what the server said at some time. It proves
  that indexes stay current and places never change, and with that the walk over the history of a
  database in full use; `DeliveryRuns` carries the results on delivery metadata over to these runs.
* **Display.** `MessageState` and `MessageMerge` are the display merge, `ChatRetention` the chat store's bounded memory, `SessionLifecycle` the session store.
* **Reading and sessions.** `ReadStates`, `ReadCursors` and `Coverage` are read positions,
  `RefreshTokens` the refresh-token families under concurrent transactions, `AuthTables` the same
  transactions as methods that change tables in place, `RealtimeSocket` the request correlation over a socket.

Identifiers are natural numbers, ordered as the services order theirs; times and sequence numbers are
unbounded integers; payloads are sequences of bytes. A state machine is a pure `Next` function over
events; an event that cannot happen in a state leaves it unchanged, so a theorem about all event
sequences is a theorem about all runs. Fields that record the past (what was first stored, typed,
issued or promised) are never read by a step.

Four results say where the code falls short of what one might expect, or why a check never fires:

* `mergeSentMetadata` consults only one earlier copy of an envelope. A delivery the acceptance has
  heard of is lost again when metadata that has not heard of it is stored and an old copy is fetched
  once more: `DeliveryMetadata.FetchedMetadataCanRevert` is such a run, and
  `DeliveryMetadata.MetadataKeepsIff` the exact condition under which a merge keeps a delivery.
* Mailboxes follow the order of chat numbers, except perhaps among messages that were all sent before
  there were chat numbers: `Backfill.OldOrderMayDiffer` is such a database. The exact condition is
  that the mailboxes followed time and identifier of their messages before the migration
  (`MigratedOrder.MailboxesFollowChats`; for one pair `ServerTheorems.MailboxOrderIsChatOrder`).
* The existence check of a read advance is implied by its range check
  (`ServerTheorems.PositionCheckImplied`), and the service's own invariant errors never occur
  (`ServerTheorems.NoInvariantErrors`).
* A live event that had to page in missing rows first never meets the gap error afterwards
  (`SyncTheorems.IngestFindsNoGap`).

## Model

| member | source | states |
|---|---|---|
| Base64.DecodeEncode | backend/app/messages/service.py:278-288 | decoding an encoding gives the bytes back, for every byte sequence |
| Base64.EncodeInjective | backend/app/messages/service.py:284-287 | two payloads with one encoding are one payload |
| Base64.ValidatesExactlyEncodings | backend/app/messages/service.py:269-288 | an envelope is accepted with bytes b exactly when it has the plaintext protocol and type, is the canonical encoding of b, and b fits the size limit |
| MessageTables.AcknowledgeEvolves | backend/app/messages/repository.py:21-53 | an acknowledgement keeps identity, first receipt time and first purge time of every row, and never brings a payload back |
| MessageTables.PurgeEvolves | backend/app/messages/repository.py:158-192 | so does a purge |
| MessageTables.MailboxEvolves | backend/app/messages/repository.py:194-214 | when rows only grow and evolve in place, so does every mailbox taken on its own |
| MessageTables.FindByClient | backend/app/messages/repository.py:67-83 | finds a message of the device with that client id if there is one, and nothing otherwise |
| ServerStore.AcceptsExactly | backend/app/messages/service.py:182-195 | a request is accepted exactly when its envelopes go to different devices and each is valid, and supplies each device with what its envelope decodes to |
| ServerStore.CheckEnvelopes | backend/app/messages/service.py:182-195 | the loop over the envelopes refuses or collects exactly what the specification does, first fault first |
| ServerStore.MessageStore.CreateEnvelopes | backend/app/messages/service.py:239-266 | one envelope per locked mailbox, each with that mailbox's next number, which the mailbox keeps |
| ServerStore.MessageStore.StoreMessage | backend/app/messages/service.py:150-166 | storing a message changes the tables exactly as the commit of a send does |
| ServerStore.MessageStore.Acknowledge | backend/app/messages/repository.py:21-53 | the row update in place equals the specified transition |
| ServerStore.MessageStore.PurgeExpired | backend/app/messages/repository.py:158-192 | the purge in place equals the specified transition, and returns how many rows it erased |
| ServerStore.MessageStore.AdvanceRead | backend/app/chats/read_service.py:34-57 | the position only moves forward within the chat, and the answer is the stored position |
| ServerInvariants.ApplyKeeps | backend/app/messages/service.py:116-180 | every step of every transaction keeps numbering, mailbox order, idempotence keys, payload states, lock exclusion and the currency of what was read under locks |
| ServerInvariants.RunKeeps | backend/app/messages/service.py:116-180 | the same for every run |
| ServerTheorems.StartInv | backend/alembic/versions/20260923_0008_chat_read_cursors.py:13-36 | what the migration leaves meets the invariant, so every run over it does |
| ServerTheorems.NewInstallationStarts | backend/alembic/versions/20260923_0008_chat_read_cursors.py:13-36 | a database without messages is such a start, over any users, chats and devices |
| ServerInvariants.CommitSendKeeps | backend/app/messages/service.py:150-178 | the commit of a send keeps all of it, including for transactions still open |
| ServerInvariants.CommitReadKeeps | backend/app/chats/read_service.py:34-60 | the commit of a read advance keeps all of it |
| ServerInvariants.CommitLoginKeeps | backend/app/auth/service.py:83-175 | a login that adds a device keeps all of it, because it holds the user exclusively |
| ServerInvariants.CommitRevokeKeeps | backend/app/auth/service.py:308-337 | so does a revocation |
| ServerTheorems.ChatNumbersExact | backend/app/messages/service.py:135-161 | in every reachable state a chat's numbers are exactly 1..last_message_seq, each used once |
| ServerTheorems.MailboxNumbersExact | backend/app/messages/service.py:239-266 | in every reachable state a mailbox's numbers are exactly 1..last_seq, each used once |
| ServerTheorems.MailboxOrderIsChatOrder | backend/app/messages/service.py:135-180 | two messages of one chat stand in a mailbox in the order of their chat numbers exactly when, in case both were sent before there were chat numbers, they stand in it in the order of time and identifier; any other two always do |
| ServerTheorems.SendsAreIdempotent | backend/app/messages/service.py:122-177 | per sender device and client id at most one message exists, and every successful call returns it whatever else it contained |
| ServerTheorems.LosersChangeNothing | backend/app/messages/service.py:140-177 | a send that is refused, rolled back or loses a race leaves every table and counter as it was |
| ServerTheorems.NoInvariantErrors | backend/app/messages/service.py:209-236 | neither an invariant error nor an unexplained constraint failure ever occurs |
| ServerTheorems.CommitRoutes | backend/app/messages/service.py:197-266 | at its commit a message gets exactly one envelope per active device of both members except the sender's, with the payload supplied for it, and at least one at the peer |
| ServerTheorems.RoutingIsComplete | backend/app/messages/service.py:197-266 | this routing is what every later state still shows, however devices come and go |
| ServerTheorems.StepGrows | backend/app/messages/repository.py:21-53 | a step appends rows and lets them evolve; contents recorded at commit stay |
| ServerTheorems.ErasureHasAReason | backend/app/messages/repository.py:28-44 | a payload is erased only by a receipt or after expiry, and until then is what was sent |
| ServerTheorems.PositionsAdvance | backend/app/chats/read_service.py:45-57 | stored read positions never go back and never pass the chat's counter |
| ServerTheorems.AnswersAreStored | backend/app/chats/read_service.py:34-57 | in every reachable state the position a read advance was told is at least what it asked for and at most what is stored for its user, so it stays stored for ever |
| ServerTheorems.CommitAnswers | backend/app/chats/read_service.py:34-57 | at its commit the answer is the position then stored, the larger of the one asked for and the one stored before, and a refusal stores nothing |
| ServerTheorems.PositionCheckImplied | backend/app/chats/read_service.py:37-42 | under the chat lock every position in range belongs to a message |
| ServerLocks.WantsAboveHeld | backend/app/messages/service.py:135-151 | a transaction only ever waits for a lock above all it holds: chat, then users, then mailboxes, each by identifier |
| ServerLocks.WaitingClimbs | backend/app/messages/repository.py:55-65 | whoever waits for another transaction wants a smaller lock than any the other may wait for |
| ServerLocks.NoDeadlock | backend/app/messages/service.py:203-236 | the wait-for graph of any number of sends, read advances, logins and revocations has no cycle |
| ServerLocks.SomeoneCanProceed | backend/app/auth/service.py:127-137 | while transactions are open, one of them is not blocked |
| Backfill.Database.Upgrade | backend/alembic/versions/20260923_0008_chat_read_cursors.py:16-35 | the three updates number every message within its chat, give every chat its highest number and every envelope the user of its device |
| Backfill.BackfillEstablishesNumbering | backend/alembic/versions/20260923_0008_chat_read_cursors.py:16-27 | however the rows are listed, afterwards each chat is numbered 1, 2, ... up to its counter, each number once, the invariant every later commit keeps |
| Backfill.BackfillNumbersExactly | backend/alembic/versions/20260923_0008_chat_read_cursors.py:16-27 | a number belongs to a message of the chat exactly when it lies between 1 and the counter, and to one only, also in chats with one message or none |
| Backfill.NumbersFollowTime | backend/alembic/versions/20260923_0008_chat_read_cursors.py:17-19 | one message of a chat has a smaller number than another exactly when it is earlier in time, or in identifier at the same time |
| Backfill.BackfillFollowsTime | backend/alembic/versions/20260923_0008_chat_read_cursors.py:16-27 | the same for the numbers the upgraded tables hold |
| Backfill.UpgradeEstablishesTables | backend/alembic/versions/20260923_0008_chat_read_cursors.py:13-36 | from tables as the earlier schema has them the migration establishes numbering, mailboxes, keys, payload states and accounts alike |
| Backfill.OldOrderMayDiffer | backend/alembic/versions/20260923_0008_chat_read_cursors.py:17-19 | a concrete database in which the numbers so given go against the order of a mailbox |
| MigratedOrder.MailboxesFollowChats | backend/alembic/versions/20260923_0008_chat_read_cursors.py:16-27 | in every run over a migrated database all mailboxes follow the numbers of their chats exactly when before the migration all followed the time and identifier of their messages |
| ServerAnswers.AnswersStayTrue | backend/app/messages/repository.py:21-53 | what the server once said of an envelope, a delivery or a sent message is true in every later state |
| ServerAnswers.AnswersAreTrue | backend/app/messages/responses.py:44-65 | the answer about a stored message names it and lists each of its envelopes once, and a published receipt is a row of the table |
| ServerAnswers.ServedIsRow | backend/app/messages/responses.py:76-95 | a served mailbox envelope, however old, names its row with all immutable fields |
| InboxStore.CheckPage | client/packages/client-core/src/messaging/syncManager.ts:146-157 | the loop accepts exactly the gapless pages of the device, and a page that promises more moves the cursor |
| InboxStore.DurableInbox.Commit | client/web/src/shared/platform/durableInbox.ts:287-317 | one transaction merges every envelope, moves the cursor and reports what changed, or changes nothing |
| InboxStore.ChangesCover | client/web/src/shared/platform/durableInbox.ts:295-315 | the returned changes cover every stored row a page touched, and a row not returned is as before |
| InboxStore.DurableInbox.Write | client/web/src/shared/platform/durableInbox.ts:176-189 | a new identity replaces the store if the observed generation is still there |
| InboxAgreement.MergeIsCopy | client/web/src/shared/platform/durableInbox.ts:300-312 | merging an older or newer copy of a row gives a copy of it, and a stored payload or chat number is never lost |
| InboxAgreement.CommitKeepsAgreement | client/web/src/shared/platform/durableInbox.ts:287-317 | committing consecutive rows from at or below the cursor keeps the store exactly the rows up to its new cursor |
| InboxAgreement.ServedPageIsValid | backend/app/messages/service.py:308-335 | every page the server can serve passes the client's check, holds fresh copies of the next rows, and without more to come reaches the end of the mailbox |
| InboxPaging.PageMailbox | client/packages/client-core/src/messaging/syncManager.ts:89-102 | against a still mailbox the loop ends with the whole mailbox stored after exactly Pages(n, limit) requests; on a changed generation nothing is written |
| InboxPaging.PagesIsCeiling | client/packages/client-core/src/messaging/syncManager.ts:89-102 | that number is max(1, ceil(n / limit)) |
| SyncInvariants.GrowthKeeps | client/packages/client-core/src/messaging/syncManager.ts:49-133 | a step that only grows server and store keeps every other tab's half-finished operation valid |
| SyncRuns.NextKeeps | client/packages/client-core/src/messaging/syncManager.ts:22-169 | every event keeps server, store, tabs, live events, acknowledgements and promises in order, and only grows them |
| SyncRuns.BackfillCommitKeeps | client/packages/client-core/src/messaging/syncManager.ts:71-87 | a backfill page that straddles the cursor opens no gap, and what it covers is numbered |
| SyncRuns.AckCommitKeeps | client/packages/client-core/src/messaging/syncManager.ts:104-133 | storing a receipt keeps the content, also when its transaction fails |
| SyncRuns.PageArrivedKeeps | client/packages/client-core/src/messaging/syncManager.ts:89-102 | committing a page keeps all of it, also when it is stale or fails |
| SyncRuns.ServeAckKeeps | client/packages/client-core/src/messaging/syncManager.ts:104-141 | the receipt the server returns is the row the store acknowledged |
| SyncRuns.HistoryKeeps | client/packages/client-core/src/messaging/syncManager.ts:22-169 | the same for every run |
| SyncTheorems.FreshStart | client/packages/client-core/src/messaging/syncManager.ts:22-30 | a new installation is a starting point of these runs, whatever the server already holds |
| SyncTheorems.StoreMirrorsServer | client/packages/client-core/src/messaging/syncManager.ts:36-102 | in every run the store holds exactly the server's envelopes 1..cursor of its device, says nothing untrue of them, and its cursor never passes last_seq |
| SyncTheorems.AcknowledgementLosesNothing | client/packages/client-core/src/messaging/syncManager.ts:104-133 | whatever is marked delivered was acknowledged by a store generation that, while it lives, holds the original content |
| SyncTheorems.LocalContentStays | client/web/src/shared/platform/durableInbox.ts:300-312 | within a generation the cursor, rows, payloads and chat numbers never go back |
| SyncTheorems.ErasedByReceiptOrExpiry | backend/app/messages/repository.py:158-192 | the server erases an undelivered payload only by expiry |
| SyncTheorems.SuccessMeansStored | client/packages/client-core/src/messaging/syncManager.ts:38-69 | in every run whatever an ended operation has promised is stored, up to its cursor |
| SyncTheorems.SuccessStoresAll | client/packages/client-core/src/messaging/syncManager.ts:38-69 | an operation from its beginning to its successful end in any run: a synchronization has then stored all the mailbox held when it began, an ingest its envelope and all before it |
| SyncTheorems.BackfillNumbersAll | client/packages/client-core/src/messaging/syncManager.ts:71-87 | once the backfill is finished every stored envelope carries its chat number, and newer ones do from the start |
| SyncTheorems.IngestFindsNoGap | client/packages/client-core/src/messaging/syncManager.ts:56-63 | after paging in what was missing, the gap error cannot occur |
| OutgoingInvariants.SaysDecodes | client/packages/client-core/src/messaging/messageCodec.ts:49-66 | every envelope of such a command decodes to the text |
| OutgoingInvariants.SaysValidates | backend/app/messages/service.py:182-195 | what the server stores for such a command is the text, for every destination |
| OutgoingInvariants.GrowthKeeps | client/packages/client-core/src/messaging/outgoingManager.ts:67-290 | a step that only grows rows, wire and server keeps every other process valid |
| OutgoingRuns.PutGrows | client/web/src/shared/platform/durableInbox.ts:328-346 | storing or replacing a command keeps its text and chat and touches nothing accepted |
| OutgoingRuns.AcceptKeeps | client/web/src/shared/platform/durableInbox.ts:348-376 | binding one of the device's own messages always succeeds and never rebinds |
| OutgoingRuns.RejectedKeeps | client/packages/client-core/src/messaging/outgoingManager.ts:98-101 | a rejected command is only rebuilt with the text its row decodes to |
| OutgoingRuns.ServerKeeps | client/packages/client-core/src/messaging/outgoingManager.ts:255-290 | whatever the server does with delayed or repeated requests keeps it all |
| OutgoingRuns.NextKeeps | client/packages/client-core/src/messaging/outgoingManager.ts:52-290 | so does every event of every process |
| OutgoingRuns.SentOnceAsTyped | client/packages/client-core/src/messaging/outgoingManager.ts:67-109 | in every run a client message id has at most one server message, whose every envelope was stored with what the user first typed |
| OutgoingRuns.TransmittedIsDurable | client/packages/client-core/src/messaging/outgoingManager.ts:86-92 | nothing is transmitted before its row is durable, and every stored or transmitted command decodes to what was first typed |
| OutgoingRuns.RowsAreForGood | client/web/src/shared/platform/durableInbox.ts:328-376 | a row and its chat stay, and an accepted row never changes its command or message again |
| OutgoingRuns.SuccessIsDurable | client/packages/client-core/src/messaging/outgoingManager.ts:92-97 | a send that reports success has its message on the server and its row bound to it |
| OutgoingStore.OutgoingInbox.Put | client/web/src/shared/platform/durableInbox.ts:328-346 | the transaction stores, replaces, returns or refuses as specified, and changes nothing when it refuses |
| OutgoingStore.OutgoingInbox.ApplyDeliveryReceipt | client/web/src/shared/platform/durableInbox.ts:262-285 | a receipt reaches metadata and acceptance, or is kept until the acceptance; a row is returned exactly when it changed |
| OutgoingStore.OutgoingInbox.Accept | client/web/src/shared/platform/durableInbox.ts:348-376 | the loop merges each envelope with the previous acceptance and its early receipt, which it uses up |
| OutgoingStore.OutgoingInbox.MergeSentMetadata | client/web/src/shared/platform/durableInbox.ts:418-439 | the loop merges each envelope with one earlier copy and its receipt, into metadata and acceptance |
| DeliveryMetadata.DeliveredIffSaid | client/web/src/shared/platform/durableInbox.ts:75-87 | for all sequences of receipts and acceptances, early, late or repeated, an accepted envelope is delivered exactly when one of them said so |
| DeliveryMetadata.OrderDoesNotMatter | client/web/src/shared/platform/durableInbox.ts:262-285 | two runs in which the same was said end with the same acceptance and delivery time |
| DeliveryMetadata.OwnAcceptance | client/web/src/shared/platform/durableInbox.ts:348-376 | what an acceptance leaves for each envelope of its message |
| DeliveryMetadata.MetadataKeepsIff | client/web/src/shared/platform/durableInbox.ts:418-439 | a metadata merge keeps a delivery exactly when the fetched copy reports it, no metadata is stored yet, or the stored metadata reports it |
| DeliveryMetadata.DeliveryNeverReverts | client/web/src/shared/platform/durableInbox.ts:418-439 | in runs whose metadata merges meet that condition a delivery once heard stays, and all that is said after an acceptance is heard |
| DeliveryMetadata.NothingUnsaidIsStored | client/web/src/shared/platform/durableInbox.ts:262-439 | in every run, with metadata of any kind, no delivery is stored that nobody said |
| DeliveryMetadata.CoveredDeliveredIffSaid | client/web/src/shared/platform/durableInbox.ts:418-439 | under that condition an accepted envelope ends delivered exactly when an event said so, with the time it said |
| DeliveryMetadata.CoveredOrderDoesNotMatter | client/web/src/shared/platform/durableInbox.ts:418-439 | so two such runs with the same events end alike |
| DeliveryMetadata.StaleMetadataReverts | client/web/src/shared/platform/durableInbox.ts:428-437 | otherwise it reverts, for every message and envelope |
| DeliveryMetadata.FetchedMetadataCanRevert | client/web/src/shared/platform/durableInbox.ts:428-437 | a concrete run in which it does |
| DeliveryRuns.TrueIsHonest | client/web/src/shared/platform/durableInbox.ts:262-439 | whatever the server says meets what these results ask of an event, for every message it stores, and its delivery times agree |
| DeliveryRuns.RunIsHonest | client/web/src/shared/platform/durableInbox.ts:262-439 | so does all that reaches the local stores in any run, however late it comes |
| DeliveryRuns.DeliveredInRuns | client/web/src/shared/platform/durableInbox.ts:262-376 | in every run of server and local database without fetched metadata, a stored command is accepted exactly when an acceptance came, and carries the server's delivery time exactly when a receipt or acceptance told it |
| DeliveryRuns.CoveredInRuns | client/web/src/shared/platform/durableInbox.ts:262-439 | with fetched metadata too, from an acceptance on, when every merge meets the condition |
| DeliveryRuns.PutIsSeen | client/web/src/shared/platform/durableInbox.ts:328-346 | the stored rows are those of the outgoing path, with times and deliveries added |
| DeliveryRuns.NeverBoundElsewhere | client/web/src/shared/platform/durableInbox.ts:38-56 | the unique index over accepted messages never refuses an acceptance |
| DeliveryRuns.AcceptIsSeen | client/web/src/shared/platform/durableInbox.ts:348-376 | an acceptance does to the rows what it does on the outgoing path, for messages with a chat number |
| DeliveryRuns.ReceiptIsSeen | client/web/src/shared/platform/durableInbox.ts:262-285 | a receipt changes nothing the outgoing path sees |
| DeliveryRuns.MetadataIsSeen | client/web/src/shared/platform/durableInbox.ts:418-439 | nor do fetched metadata, for messages with a chat number |
| MessageState.MergeMessages | client/packages/client-core/src/messaging/messageState.ts:38-71 | the loops over the two maps compute the specified merge for every input |
| MessageState.MergeMessagesByChat | client/packages/client-core/src/messaging/messageState.ts:74-90 | every chat ends as if the batch's rows for it had been merged into it alone, and no other chat is added or changed |
| MessageState.GroupByChat | client/packages/client-core/src/messaging/messageState.ts:75-80 | groups the batch by chat without losing or reordering rows |
| MessageMerge.ListIsUnique | client/packages/client-core/src/messaging/messageState.ts:27-36 | a display list is determined by its rows |
| MessageMerge.StepIsApply | client/packages/client-core/src/messaging/messageState.ts:47-68 | one incoming row changes its own command's row and no other, through either map |
| MessageMerge.MergeIsFold | client/packages/client-core/src/messaging/messageState.ts:38-71 | a merge keeps the list in order and folds the batch into its rows command by command |
| MessageMerge.BatchingDoesNotMatter | client/packages/client-core/src/messaging/messageState.ts:38-71 | two batches one after the other give the list that both give at once |
| MessageMerge.ReapplyingChangesNothing | client/packages/client-core/src/messaging/messageState.ts:53-60 | merging a batch again leaves the same list |
| MessageMerge.MergeNeverGoesBack | client/packages/client-core/src/messaging/messageState.ts:21-25 | no row is lost, its time stays, its status never goes back, and identifiers and commands stay unique |
| History.MigrateSchema | client/web/src/shared/platform/durableInbox.ts:39-57 | after an upgrade every record is indexed as it would be now, with its value unchanged |
| History.ReadHistoryEntries | client/web/src/shared/platform/durableInbox.ts:59-73 | the cursor loop collects the first entries of its range |
| History.ReadChatHistory | client/web/src/shared/platform/durableInbox.ts:241-260 | a page holds exactly the stored rows of the chat that are the first of both stores together below the cursor, newest first, with the next cursor exactly when more are left |
| History.PageOfBoth | client/web/src/shared/platform/durableInbox.ts:246-258 | one row more than the limit from each index is enough |
| History.WalkReturnsAll | client/web/src/shared/platform/durableInbox.ts:241-260 | following nextBefore to the end returns every row present at the start exactly once, newest first, whatever is stored between pages |
| History.StillWalkEnds | client/web/src/shared/platform/durableInbox.ts:241-260 | a walk over a history that stands still ends |
| LocalRuns.PutsAreTheCommit | client/web/src/shared/platform/durableInbox.ts:295-312 | the records a page puts, one per change, hold exactly the merged rows, each indexed anew and no other touched |
| LocalRuns.CommitKeeps | client/web/src/shared/platform/durableInbox.ts:287-317 | committing served envelopes, however old, keeps indexes current, rows true and every row at its place |
| LocalRuns.PutKeeps | client/web/src/shared/platform/durableInbox.ts:328-346 | so do storing and replacing a command |
| LocalRuns.AcceptKeeps | client/web/src/shared/platform/durableInbox.ts:348-376 | so does an acceptance, first, repeated or stale |
| LocalRuns.ReceiptKeeps | client/web/src/shared/platform/durableInbox.ts:262-285 | so does a receipt, early or late |
| LocalRuns.MetadataKeeps | client/web/src/shared/platform/durableInbox.ts:418-439 | so do sent metadata |
| LocalRuns.NextKeeps | client/web/src/shared/platform/durableInbox.ts:176-439 | so does every event, of the server too; a new identity starts under a generation never used before |
| LocalRuns.NewDatabaseOk | client/web/src/shared/platform/durableInbox.ts:176-189 | a new database beside a server in any reachable state is where such a run may start |
| LocalRuns.HistoryIsReadable | client/web/src/shared/platform/durableInbox.ts:26-37 | at any moment of a run every record is indexed as it would be now and lies under its own identifier |
| LocalRuns.HistoryWalk | client/web/src/shared/platform/durableInbox.ts:241-260 | in every run, following nextBefore to its end, with each page read at any later time of the generation and any transactions in between, returns every row the chat had at the first page exactly once, newest first |
| LocalRuns.DeliveriesAreTrue | client/web/src/shared/platform/durableInbox.ts:75-87 | in every run a delivery or purge time stored with an accepted message is the one the server stores for that envelope |
| ReadStates.JoinAllIsMaximum | client/packages/client-core/src/messaging/readCursorManager.ts:40-49 | a read state is the componentwise maximum of what was merged |
| ReadStates.JoinAllIsOrderless | client/packages/client-core/src/messaging/readCursorManager.ts:40-49 | in any order, with any repetition |
| ReadStates.ReadStateStore.MergeChatReadCursor | client/web/src/shared/platform/durableInbox.ts:386-403 | the durable update joins an own position into local and confirmed, any other into the peer's |
| ReadStates.ReadStateStore.AdvanceLocalReadCursor | client/web/src/shared/platform/durableInbox.ts:405-408 | a local advance joins into local only and refuses positions below one |
| ReadStates.ReadMemory.Publish | client/packages/client-core/src/messaging/readCursorManager.ts:40-49 | publishing joins, so what a tab shows never goes back |
| ReadCursors.NextKeeps | client/packages/client-core/src/messaging/readCursorManager.ts:51-122 | every event of tabs, network and server keeps these bounds |
| ReadCursors.StatesAreMaxima | client/packages/client-core/src/messaging/readCursorManager.ts:40-72 | in every run stored and in-memory states are the maxima of what was merged, and no tab is ahead of the store |
| ReadCursors.ConfirmedIsStored | client/packages/client-core/src/messaging/readCursorManager.ts:102-122 | confirmed is at most local and at most the server's stored position, which is at most last_message_seq |
| Coverage.StatesOfARun | backend/app/messages/repository.py:85-118 | the states met at successive times of one run are what the loading asks for |
| Coverage.MetadataPage | backend/app/messages/repository.py:85-118 | a page of unread sent messages leaves out only what another member has read by then |
| Coverage.RecoverSentMetadata | client/packages/client-core/src/messaging/outgoingManager.ts:144-159 | following the pages merges every own message, or it was read by another member |
| Coverage.SynchronizeReads | client/packages/client-core/src/messaging/readCursorManager.ts:74-94 | following the chat pages raises every held peer position to what was stored before |
| Coverage.LoadMailbox | client/packages/client-core/src/messaging/messengerService.ts:125-141 | after a successful load every own message that existed at its begin was merged or has a chat number up to the held peer position |
| RefreshTokens.NextKeeps | backend/app/auth/service.py:177-268 | every step of logins, refreshes, logouts and revocations keeps families, locks and what was read under them in order |
| RefreshTokens.FamiliesAreExact | backend/app/auth/service.py:177-229 | each token rotates at most once, and a session's issued tokens are exactly its history and its current one |
| RefreshTokens.ReuseRevokesFamily | backend/app/auth/service.py:190-200 | in every reachable state a refresh that was answered as a reuse presented a consumed token, and its family is revoked |
| RefreshTokens.PresentingEndsFamily | backend/app/auth/service.py:177-268 | from the moment a call presents a consumed token to be refreshed, or any issued token to log out with, whatever races with it: it is open, was aborted, or has revoked the family; a refresh then ended as a reuse |
| RefreshTokens.PresentedTokensEndTheirFamily | backend/app/auth/service.py:177-238 | so every refresh begun with a token consumed by then, and every logout begun with an issued token, that ends without an abort has ended its family |
| RefreshTokens.ReuseTouchesOneFamily | backend/app/auth/service.py:190-200 | and only that family, and only its validity |
| RefreshTokens.DeadFamiliesStayDead | backend/app/auth/service.py:177-229 | no consumed token is ever rotated again, and in a revoked family no refresh succeeds any more |
| RefreshTokens.NextMoves | backend/app/auth/service.py:202-222 | a rotation happens only in a session that is valid and whose device is not revoked |
| RefreshTokens.RevokedDevicesHaveNoSession | backend/app/auth/service.py:308-337 | a revoked device has no valid session |
| AuthTables.AuthService.Refresh | backend/app/auth/service.py:177-229 | on the tables in place: a current token of an active session is replaced, a consumed one revokes its family, any other is refused |
| AuthTables.AuthService.Logout | backend/app/auth/service.py:231-238 | any token of a family, current or consumed, ends exactly that family |
| AuthTables.AuthService.Login | backend/app/auth/service.py:83-175 | a session is opened exactly for an active account on a new device or its own unrevoked one |
| AuthTables.AuthService.RevokeDevice | backend/app/auth/service.py:308-337 | an own device is revoked with every session on it, and no other session changes |
| RealtimeSocket.RequestsSettleOnce | client/web/src/shared/api/webSocketManager.ts:135-156 | every request is pending with one timer or was settled exactly once; a late acceptance is reported at most once, for a timed-out send of the same connection; at most 256 are remembered |
| RealtimeSocket.NothingPendingWithoutSocket | client/web/src/shared/api/webSocketManager.ts:282-304 | when a connection is gone, everything asked over it is settled |
| RealtimeSocket.DelaysBackOff | client/web/src/shared/api/webSocketManager.ts:269-275 | reconnect delays stay in 500..30000 and do not shrink until authentication or a stop |
| RealtimeSocket.DelayGrows | client/web/src/shared/api/webSocketManager.ts:269-275 | the delay starts at 500, never shrinks with the retries made, and is 30000 from the seventh reconnect on |
| RealtimeSocket.WebSocketManager.RejectAll | client/web/src/shared/api/webSocketManager.ts:282-304 | the loop settles every pending request and clears every timer |
| RealtimeSocket.WebSocketManager.OnClose | client/web/src/shared/api/webSocketManager.ts:185-193 | a close of the current socket rejects what is pending and stops or reconnects |
| RealtimeSocket.WebSocketManager.Halt | client/web/src/shared/api/webSocketManager.ts:55-70 | a stop ends connection, timers and requests |
| RealtimeSocket.WebSocketManager.Ask | client/web/src/shared/api/webSocketManager.ts:135-156 | a request is registered with its timer, and taken back if it cannot be sent |
| RealtimeSocket.WebSocketManager.OnRequestTimer | client/web/src/shared/api/webSocketManager.ts:112-124 | a timeout settles its request and remembers a send, forgetting the oldest beyond 256 |
| RealtimeSocket.WebSocketManager.HandleFrame | client/web/src/shared/api/webSocketManager.ts:201-258 | a frame settles the request it answers, of its own kind only, or reports a late acceptance |
| ChatRetention.AtMostThreeChats | client/packages/client-core/src/chats/chatStore.ts:145-155 | in every run at most three chats are retained, messages and history belong to them, and one mailbox load is in flight at most |
| ChatRetention.LatePagesAreInert | client/packages/client-core/src/chats/chatStore.ts:157-179 | a page, or its failure, that answers a request already answered, replaced or evicted leaves the store as it is, however much later it arrives |
| ChatRetention.EvictionCancels | client/packages/client-core/src/chats/chatStore.ts:145-155 | however another chat comes to be selected, evicting a chat drops its rows and makes the pages under way for it stale |
| ChatRetention.OlderSelectionsAreInert | client/packages/client-core/src/chats/chatStore.ts:204-375 | once a later selection has begun, no completion guarded by an earlier one (a direct chat opened, a chat fetched again, the chat restored from local state or with the list of chats) changes the store any more; pages are governed by their request |
| ChatRetention.EndedLifecyclesAreInert | client/packages/client-core/src/chats/chatStore.ts:291-302 | nothing begun in an ended lifecycle changes the store any more |
| SessionLifecycle.AuthenticatedIsNewest | client/packages/client-core/src/auth/sessionStore.ts:57-66 | in every run an authenticated state in use was loaded by the newest operation, and a user is shown only then |
| SessionLifecycle.OvertakenIsInert | client/packages/client-core/src/auth/sessionStore.ts:107-121 | once a restore, sign-in, sign-out, expiry or disposal has begun, no earlier operation's answer changes the store |
| SessionLifecycle.OlderDevicesAreInert | client/packages/client-core/src/auth/sessionStore.ts:153-176 | once the device list was asked for again, or a revocation begun, an earlier request for it changes nothing, whatever it returns |

## Left out

- SyncMachine.Next: models SyncManager and the stores on values, as one step function, because every await is a point where other tabs and the server step in; its loops and in-place updates appear as methods in InboxStore and InboxPaging.
- OutgoingMachine.Next: likewise for OutgoingManager. The set of commands in flight is not part of it: it only keeps some steps of one tab from interleaving, so the proofs cover more runs than the code allows. Publication to the display is not part of it either.
- ChatRetention.Next: likewise for the chat store; search, sending, the lists of chats themselves and error texts are not part of it.
- SessionLifecycle.Next: likewise for the session store; device names and error texts are not part of it.
- RefreshTokens.Next: models the interleaved steps on values, AuthTables whole transactions in place; hashing is taken to be injective, sessions from before cookies were bound are not part of it.
- ReadCursors.Next: does not model when a flush is scheduled or retried, only that a confirmation may be merged at any time.
- ServerLocks.NoDeadlock: covers chat, user and mailbox locks; row locks on sessions and devices, and waits on unique indexes or foreign keys during a flush, are not part of the order.
- ServerTransactions.Apply: the flush and commit of a transaction are one step, and locked reads see the latest committed rows.
- OutgoingRuns.SentOnceAsTyped: a text is its UTF-8 bytes; the device keeps one store generation, since a new identity draws a new device.
- DeliveryRuns.AcceptIsSeen: for answers with a chat number, as this version of the server always sends it; so is DeliveryRuns.MetadataIsSeen.
- MessageMerge.BatchingDoesNotMatter: holds for rows as the client builds them, one server identifier per command, own rows with a status, at most one history identifier per command.
- MessageState.Before: rows with neither a history identifier nor a command, which the client never builds, are put last instead of being compared by the text of their identifiers.
- Backfill.UpgradeEstablishesTables: what the earlier version of the services guaranteed of its tables is a hypothesis, except the order within mailboxes, which is not asked for.
- LocalRuns.HistoryWalk: for pages of one store generation; a page of another fails, since its scope is no longer valid.
- LocalRuns.Next: models the transactions on values; the same transactions in place are methods of InboxStore and OutgoingStore. Read states and cached chats are not part of it.
- InboxStore.CommitPage: a row's user is not part of the scope, since a device belongs to one user; protocol version, envelope type and recipient user are constant and omitted.
- Opening, upgrading and blocking of IndexedDB beyond the indexing of records, and the durability options of its transactions.
- Live-event delivery (Redis, connection registry): live events are rendered rows that may be lost, repeated and reordered.
- Hashing, access tokens, cookies, HTTP routing, schemas, mappers and settings.
- Direct-chat creation, chat preferences, user search, registration and device naming.
- The mode without a durable store.
- Order of publication for late acceptances, and the coalescing of delivery updates before they are published.
- Rendering, scrolling and visibility.
