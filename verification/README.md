# Message layer: a verified model

This project models the core of a message-layer server and proves what its mechanisms are for. The
server keeps organizations, actors, channels, threads, messages, use-counted grants, permission
requests, artifacts and a hash-chained audit log per organization in SQL tables. Around it stand
projections that follow its events, durable streams in an object store, a WebSocket gateway, a
composer that finds mentions in text, and principal tokens.

## How the model is built

- `Tables`, `ServiceSpec` and `ServiceRuns` hold the tables as values and every call as two steps: a
  read-only check, and a transaction that runs later on whatever the tables hold by then and either
  commits whole or changes nothing. A run is any schedule of such steps, so checks and transactions of
  any number of calls interleave. Committed transactions are recorded in a history.
- `Service` is the service as an object: the same transactions as methods that change the tables
  statement by statement, with loops and rollback, each proved to do what `ServiceSpec` says.
- `CanonicalJson` and `CanonicalJsonLaws` are the canonical printer and the parser; `AuditChain` and
  `AuditRuns` the audit log.
- `Rights` says once more, in columns of the tables and without the service's own lookups, who may do
  what; `Charging` says what is paid for it, and `RightsRuns` that every run obeys.
- `TableHistory`, `GrantHistory`, `EventHistory` and `Announcements` say what each committed
  transaction does to each row, and that the tables of every run are its history replayed.
- `GrantLaws`, `MessageLaws`, `Idempotency`, `Cascades`, `Deletions`, `ApprovalLoop` and `SourceHistory`
  prove further laws about all runs.
- `MemoryText`, `Memory`, `Projections`, `Search` and `PluginHandlers` are the memory and search
  plugins: each is told of committed posts and redactions in order, at its own pace, and reads the
  tables as it finds them.
- `DurableChunks`, `DurableCommit` and `CommitFinality` are the storage-backed durable streams; `Mentions` and
  `MentionScan` the mention scanner; `Base64Url` and `PrincipalTokens` the tokens; `WebSocket` one
  subscription.

Hashes, HMAC, UTF-8, the clock, time formatting, the key comparator and the reading of JSON numbers are
parameters. What a theorem needs of them is a stated hypothesis: `CollisionFree` (SHA-256 in hex is
injective, not empty and without a bar), `TotalPreorder` (the comparator), `NoCollisions`, `Faithful`, and `ReadsBack` (a number token in question is read
exactly).
Ids that a step draws are fresh. Transactions are serial and atomic.

## Where code and expectation part

- `localeCompare` may tie different keys. Canonical texts are then still stable under re-printing, but
  not independent of insertion order; `InsertionOrderIffNoTies` gives the exact condition.
- The tables of the durable-stream, webhook and Telegram plugins reference organizations, actors and
  channels and are not part of the cascades. `deleteOrg` therefore fails exactly for an org with a row
  in one of them (`OrgDeletableIff`, `WebhookRefusesDeleteOrg`), and `deleteChannel` exactly for a
  channel that a Telegram setup is bound to (`ChannelDeletableIff`, `TelegramRefusesDeleteChannel`).
- `deleteOrg` collects streams before its transaction; a stream opened in between keeps its counter
  (`DeleteOrgDenseIff`, `AlwaysDenseIff`, `DeleteOrgCanLeaveGap`).
- Nothing keeps two appends to a durable stream from overlapping; then an acknowledged chunk can be
  overwritten, and only then (`BeginSafeIff`, `OverlappingAppendsOverwrite`).
- Closing a durable stream does not wait for an append in flight; an end of file before that append's
  count update is not final (`EofFinalIff`, `EofBeforeLastChunk`).
- A committed durable stream whose target is deleted while another commit is still to post is committed
  a second time (`CommittedIdStaysIff`, `CommittedIdCanChange`).
- A display name that falls on itself, as `x @x` does, can be passed over by the mention scan
  (`EveryStandingHitIff`, `OverlappingNameIsLost`).
- Live WebSocket events can be sent out of order, and `lastSeq` can fall (`LiveOrderKeptIff`,
  `LastSeqNeverFallsIff`).

## Model

| member | source | states |
|---|---|---|
| CanonicalJsonLaws.ParseStable | src/service.ts:130-138 | Parsing the canonical text of any JSON value gives that value back with keys sorted at every depth and undefined read as null (grammar of sections 4, 5 and 7 of RFC 8259). |
| CanonicalJsonLaws.ReprintIsIdentity | src/service.ts:167-173 | Re-printing what was parsed from a stored payload gives the stored text again, for any key comparator that is a total preorder; verification relies on this. |
| CanonicalJsonLaws.StableIsRenderedCanon | src/service.ts:130-138 | The canonical text is the plain JSON text of the sorted value: the fast printer refines "normalize, then print". |
| CanonicalJsonLaws.CanonIdempotent | src/service.ts:130-138 | Sorting a sorted value changes nothing. |
| CanonicalJsonLaws.SameTextIffSameCanon | src/service.ts:130-138 | Two values have the same canonical text exactly if they are equal after sorting keys and reading undefined as null. |
| CanonicalJsonLaws.SelfDelimiting | src/service.ts:130-138 | Where one canonical text ends can be told from the text: equal concatenations split at the same place. |
| CanonicalJsonLaws.ObjectTextsPrefixFree | src/service.ts:130-138 | No object text is a proper prefix of another canonical text. |
| CanonicalJsonLaws.InsertionOrderIffNoTies | src/service.ts:130-138 | Insertion order of keys, at every depth, never shows in the text if and only if the comparator ties no two different keys. |
| CanonicalJsonLaws.SameTextIffAlike | src/service.ts:130-138 | If no keys tie, two values that repeat no key within an object have the same text exactly if they are the same up to key order at every depth, undefined read as null. |
| CanonicalJsonLaws.ParseRendered | src/service.ts:130-138 | The parser inverts the plain printer on every value without undefined, whatever text follows. |
| CanonicalJsonLaws.EscapesAsStandard | src/service.ts:131-132 | A character of a string is escaped by its two-character form if it has one, as \u00 and two lower-case hex digits if it is another control, and not at all otherwise (section 7 of RFC 8259). |
| AuditChain.CheckRows | src/service.ts:2755-2769 | The verification loop: valid exactly if every row's hash extends its predecessor's, and otherwise the index returned is the least one that does not. |
| AuditChain.VerifyAuditChain | src/service.ts:2716-2769 | Reads all rows before checking any; the first unreadable row is the error, otherwise the verdict of the loop on the re-parsed payloads. |
| AuditChain.FrameInjective | src/service.ts:341-343 | The framing previous hash, type, payload, time separated by bars is injective although payload texts may contain bars, because payload texts are self-delimiting. |
| AuditChain.TamperEvidence | src/service.ts:2755-2769 | Two logs that both verify and end in the same hash have the same length and agree row by row on type, payload and time. |
| AuditChain.AppendKeepsGenuine | src/service.ts:334-350 | Appending a row for one org keeps every org's log a chain of written rows. |
| AuditChain.GenuineVerifies | src/service.ts:2755-2769 | A log of written rows is readable and verifies although payloads are stored, parsed and printed again. |
| Tables.EmitAllGenuine | src/service.ts:307-332 | Emitting any list of events keeps every org's log a chain of written rows. |
| AuditRuns.CommitKeepsGenuine | src/service.ts:307-350 | Every transaction of the service, deletions included, keeps all logs genuine. |
| AuditRuns.EveryLogVerifies | src/service.ts:2755-2769 | In every reachable state of every interleaving, every org's log is readable and verifies. |
| EventHistory.CommitEventsFollow | src/service.ts:307-350 | Each transaction stores and audits exactly the events it publishes, each as often as it publishes it; deleting a channel takes its streams' stored events, deleting an org all of its events and audit rows. |
| EventHistory.LogsAreHistory | src/service.ts:307-350 | In every run of the service, for every event: the event log and the audit log hold it as often as committed transactions published it, deletions taken into account. |
| Announcements.EveryPostIsAnnounced | src/service.ts:1437-1490 | In every run each posted message published itself with its number and part count, then one event per mention part and one per command part with its part number, in order and none left out, and after these only revocations of grants it used up. |
| Announcements.CommitTells | src/service.ts:769-2622 | Every transaction that commits publishes the event of its kind, about its own subject and in its own org; a bulk revocation one per grant. |
| Rights.AppendAllowedIff | src/service.ts:1310-1370 | A message goes to its transaction exactly if, in columns: the sender is an actor of the org; stream, key and parts are not empty; the channel or thread row is of the org and public, or the sender has the channel's membership row; every mention is of an actor of the org who could read it; and the sender has a scope or a live grant row for appending and, if there are commands, for invoking. |
| Rights.AppendRefusals | src/service.ts:1310-1370 | Otherwise it is refused for its first fault: no such stream, not readable, bad parts, or a missing capability, which is asked for instead if the caller wants that. |
| Rights.RedactAllowedIff | src/service.ts:1510-1535 | A redaction goes through exactly if the org's message with that id is not redacted and the caller is its author, or has a scope or a live grant row for redacting in its stream; and the transaction is told correctly whether the caller is the author. |
| Rights.CheckOkIff | src/service.ts:769-2622 | For each of the 23 calls: the check succeeds exactly if the rule written out in columns of the tables allows the call, administration of channels, grants, requests and orgs included. |
| Rights.CheckCarries | src/service.ts:769-2622 | A call whose check succeeds leads to a transaction with the call's own arguments and the rows the check saw. |
| RightsRuns.EveryTransactionWasAllowed | src/service.ts:769-2622 | In every interleaving, everything pending or committed was allowed, by the rules in columns, at the step that began its call. |
| RightsRuns.EveryPostWasAllowed | src/service.ts:1310-1370 | In every interleaving, every append that is pending or was committed was its sender's right when its call began. |
| RightsRuns.EveryChargeWasLive | src/service.ts:578-636 | In every interleaving, each committed transaction charged exactly the capabilities it had to, one use each, to the oldest grant row that at that step was active, unexpired, not used up, and for the right org, actor, capability and resource; scopes are free. |
| RightsRuns.EveryRedactionIsSettled | src/service.ts:1510-1566 | In every interleaving, each redaction is of a message posted before it, in that message's stream; it charged nothing if it was the author's or its principal has the scope, and one grant otherwise. |
| Charging.CommitPays | src/service.ts:578-636 | Any transaction on any tables, if it commits, charges exactly that. |
| Charging.CommitsIffAffords | src/service.ts:578-636 | A transaction that must pay commits exactly if, in columns, its principal still has a scope or a live grant for each capability it needs when it commits, or it replays an earlier message. |
| Charging.OldestUsableIsLive | src/service.ts:590-604 | In columns: the lookup finds a row that is live, and older rows are not, and it finds none exactly if no row is live. |
| Tables.OldestUsable | src/service.ts:590-604 | A charge goes to the usable grant created first; there is none exactly if no grant is usable (`Charging.OldestUsableIsLive` says the same in columns). |
| GrantLaws.GrantConservation | src/service.ts:578-636 | In every interleaving of checks and transactions a grant's use counter is the number of committed actions charged to it and never exceeds its cap. |
| GrantLaws.AutoRevokeExactlyOnce | src/service.ts:608-634 | The automatic revocation of a grant is announced once if its last use is burnt, and never otherwise; a spent grant is inactive. |
| GrantLaws.OnlyPostsAreCharged | src/service.ts:1372-1412 | Replays charge and announce nothing and leave the tables as they are; a new message is charged once for the append and once more if it carries commands, scopes excepted. |
| GrantLaws.CommitKeepsBooks | src/service.ts:578-636 | Each transaction on its own keeps counter, charge history and revocation history in balance for every grant, whether it commits or aborts. |
| GrantLaws.CheapCheckIsExact | src/service.ts:2024-2033 | In every reachable state `checkGrant`, which ignores caps, is true exactly if some grant row of the actor for the capability is active, unexpired and has a use left, that is, if some resource makes the full lookup succeed. |
| GrantLaws.ListingIsExact | src/service.ts:2088-2106 | In every reachable state the listing holds exactly the actor's grants that are active and unexpired, which are those a charge could go to, each with its cap less its committed charges as remaining uses, at least one. |
| MessageLaws.DenseNumbering | src/service.ts:638-647 | Under every interleaving without `deleteOrg`, each stream's messages carry exactly the numbers 1 to n in order and its counter holds n + 1, so the UNIQUE constraint on (stream, number) never fires. |
| MessageLaws.DeleteOrgDenseIff | src/service.ts:820-873 | `deleteOrg` keeps numbering dense exactly if it collected, before its transaction, every stream of the org that has a counter. |
| MessageLaws.AlwaysDenseIff | src/service.ts:820-873 | Over every run, deletions of orgs included, numbering is dense in every state exactly if every committed `deleteOrg` had collected all streams of its org that had a counter. |
| Deletions.DeleteOrgCanLeaveGap | src/service.ts:820-873 | A run from the empty service in which a channel is opened and posted to after `deleteOrg` collected the streams: the deletion commits, the message goes, the channel's counter stays. |
| MessageLaws.PagingVisitsAllOnce | src/service.ts:1571-1600 | Asking again with the last number returned visits every message once, in order, and ends, whatever the page size. |
| MessageLaws.AppendEffect | src/service.ts:1372-1421 | What a committed append leaves behind: either nothing at all, with the earlier message's answer, or exactly one message, its parts and the next counter value. |
| Idempotency.IdempotentAppend | src/service.ts:1373-1383 | In every interleaving two successful appends with the same org, stream, actor and key give the same id and number unless the stream was deleted in between, and the later one has no effect. |
| Idempotency.OneMessagePerKey | src/service.ts:1373-1383 | In every reachable state at most one message exists per org, stream, actor and key. |
| ApprovalLoop.CheckDecides | src/service.ts:1325-1370 | For a post that only permission could stop, the check leads to the append, or to a request for the first capability that is missing. |
| ApprovalLoop.DeniedAttemptAsks | src/service.ts:1325-1370 | A denied attempt opens a request for exactly what it lacked and burns nothing. |
| ApprovalLoop.ApprovalMatchesRequest | src/service.ts:1906-2022 | Approving an open request adds exactly the grant it asked for and touches no stream or message. |
| ApprovalLoop.ChargesDoNotCompete | src/service.ts:1384-1412 | Charging the append never takes the use that the command charge needs. |
| ApprovalLoop.ApprovalLoopPosts | src/service.ts:1310-1370 | Retrying while every request is approved, single uses included, posts the message after at most one approval, two if it carries commands, and no call on the way fails. |
| ApprovalLoop.ResolvedStaysResolved | src/service.ts:1918-1935 | A resolved request has the status decided on and cannot be resolved again by a later call. |
| ApprovalLoop.MembershipDecidesReading | src/service.ts:717-731 | An added member can read the channel; a removed one can only if it is public. |
| Cascades.DeleteChannelKeepsIntegrity | src/service.ts:1000-1063 | The cascade of `deleteChannel`, when no plugin row stops it, leaves no dangling row in any table. |
| Cascades.DeleteChannelRemovesEverything | src/service.ts:1000-1063 | `deleteChannel` removes the channel, its threads, their messages with parts, events, counters and memberships, marks their artifacts deleted and switches the channel's commands off. |
| Cascades.DeleteChannelSparesOthers | src/service.ts:1000-1063 | `deleteChannel` leaves the messages, parts, events, counter, row and artifacts of every other stream as they were, the memberships and commands of every other channel, and all grants, requests, cursors, clients, plugin rows and audit rows. |
| Cascades.DeleteOrgCommitsIff | src/service.ts:844-882 | No statement of `deleteOrg` breaks a declared foreign key, so it commits, exactly if no row of a plugin's table belongs to the org: those tables reference organizations, actors and channels and are not in the cascade. |
| Cascades.DeleteChannelCommitsIff | src/plugins/telegram-bridge.ts:295-297 | `deleteChannel` commits exactly if no plugin's row references the channel. |
| Deletions.CommitKeepsKeys | src/db.ts:11-196 | Every transaction, interleaved as it may be, keeps foreign keys leading to rows of the same org, and brings actors and channels only under its fresh id. |
| Deletions.OrgDeletableIff | src/service.ts:844-882 | In every reachable state of every interleaving, `deleteOrg` commits exactly if no durable stream, webhook subscription or Telegram setup belongs to the org. |
| Deletions.ChannelDeletableIff | src/service.ts:1000-1063 | In every reachable state of every interleaving, a checked `deleteChannel` commits exactly if no Telegram setup is bound to the channel. |
| Deletions.WebhookRefusesDeleteOrg | src/plugins/webhooks.ts:149-162 | A run from the empty service: an org with one webhook subscription passes the check of `deleteOrg`, and the transaction fails and changes nothing. |
| Deletions.TelegramRefusesDeleteChannel | src/plugins/telegram-bridge.ts:278-298 | A run from the empty service: a channel bound to Telegram passes the check of `deleteChannel`, and the transaction fails and changes nothing. |
| Cascades.DeleteOrgRemovesEverything | src/service.ts:844-882 | `deleteOrg` removes every row of the org from every core table, cursors and clients included, its messages' parts and its streams' counters. |
| Cascades.DeleteOrgSparesOthers | src/service.ts:844-882 | `deleteOrg` leaves every row of every other org as it was, in all tables, with its parts, counters, events in order and audit log. |
| Cascades.CommitKeepsIntegrity | src/db.ts:11-196 | Every transaction whose check still holds keeps referential integrity. |
| Cascades.SerialIntegrity | src/db.ts:11-196 | With calls taken one at a time, every reachable state is free of dangling rows; parts exist only for unredacted messages. |
| SourceHistory.RunKeepsSourceInv | src/service.ts:1414-1435 | In every run each message has exactly one history entry that posted it, carries that entry's parts until a redaction in history, and stays as long as its stream. |
| SourceHistory.PostOfMessage | src/service.ts:1414-1435 | A message's stream, author, number, time and, until redacted, parts are those of the history entry with its id. |
| SourceHistory.DropKeepsSource | src/service.ts:1009-1034 | A cascade that removes messages together with their parts leaves all remaining messages explained by history. |
| TableHistory.CommitFollows | src/service.ts:769-2622 | Row by row: what each transaction makes of each org, actor, channel, thread, membership, artifact, command, request, cursor, client and plugin row, and that it leaves all others. |
| TableHistory.TablesAreHistory | src/service.ts:769-2622 | In every run, every row of these eleven tables is what replaying the row's rule over the run's committed transactions gives. |
| GrantHistory.GrantsAreHistory | src/service.ts:1727-2022 | In every run each grant is what history says: issued by hand or by an approval with the terms asked for, used as often as it was charged, and active unless revoked or used up. |
| Service.OldestIsUnique | src/service.ts:590-604 | The ordering of a grant lookup picks a single row, so a loop that finds one has found the row the statement updates. |
| Service.AuditAllAppend | src/service.ts:334-350 | Auditing events in two batches is auditing them in one. |
| Service.NextDelete | src/service.ts:844-882 | Each DELETE of `deleteOrg` on its own leads from one intermediate state to the next. |
| Service.MessageLayer.LatestHash | src/service.ts:335-340 | The loop over rows, newest first, finds the hash of the org's latest row. |
| Service.MessageLayer.AppendAudit | src/service.ts:334-350 | Stores exactly the row that extends the org's chain. |
| Service.MessageLayer.Emit | src/service.ts:307-332 | Stores one event and chains it into its org's log. |
| Service.MessageLayer.SelectGrant | src/service.ts:590-604 | The loop over the grants finds the usable one created first, if any: active, unexpired, with a use left, of the right org, actor, capability and resource. |
| Service.MessageLayer.ConsumeGrantInTx | src/service.ts:578-636 | Burns one use of the oldest live grant, revokes it if that was the last one, and announces the revocation; it refuses, and changes nothing, exactly if there is neither scope nor live grant. |
| Service.MessageLayer.NextSeqTx | src/service.ts:638-647 | Hands out the counter's value and leaves the next one. |
| Service.MessageLayer.PayTx | src/service.ts:1384-1412 | Both charges of an append, or neither. |
| Service.MessageLayer.InsertMessage | src/service.ts:1414-1490 | Numbers, stores and announces a message with its parts, mentions and commands. |
| Service.MessageLayer.AppendMessageTx | src/service.ts:1372-1496 | Statement by statement, with rollback, the transaction that the laws above are about. |
| Service.MessageLayer.AppendMessage | src/service.ts:1310-1500 | The public call: check, then the transaction or a permission request or an error, with every table as specified; an answer that a message was posted means that its sender may post it. |
| Service.MessageLayer.RedactMessageTx | src/service.ts:1529-1566 | Charges non-authors, flags the message, deletes its parts and announces it, or changes nothing. |
| Service.MessageLayer.RedactMessage | src/service.ts:1504-1566 | The public call: looks the message up, compares its author with the caller, charges all others; it goes through only for those who may redact the message. |
| Service.MessageLayer.RevokeGrantsTx | src/service.ts:1842-1868 | The loop over grant ids deactivates exactly those of the org and announces each. |
| Service.MessageLayer.DeleteChannelTx | src/service.ts:1000-1080 | The cascade, statement by statement, undone as a whole if a plugin's row references the channel. |
| Service.MessageLayer.DeleteOrgTx | src/service.ts:844-882 | The sixteen deletes in order, undone as a whole if one of them breaks a foreign key. |
| Service.MessageLayer.VerifyOrg | src/service.ts:2755-2769 | The verdict on an org's log is right for arbitrary rows, and valid for rows the service wrote. |
| DurableChunks.ChunkKeyInjective | src/plugins/durable-streams-storage.ts:116-119 | No two chunks, of the same or of different streams, share a storage key, padding included. |
| DurableChunks.NextKeeps | src/plugins/durable-streams-storage.ts:360-378 | Every put, count update, crash, tail step and foreign write keeps the chunks, the append in flight and all tails consistent. |
| DurableChunks.ChunksStay | src/plugins/durable-streams-storage.ts:360-378 | With appends that do not overlap, and tails, crashes and other streams in between, every counted offset holds the chunk acknowledged there and holds it ever after. |
| DurableChunks.BeginSafeIff | src/plugins/durable-streams-storage.ts:349-382 | An append that begins leaves every acknowledged chunk counted and in place, whatever happens next, exactly if no other append is in flight; the handler does not look. |
| DurableChunks.OverlappingAppendsOverwrite | src/plugins/durable-streams-storage.ts:349-382 | A run from the empty stream in which two overlapping appends share an offset, and an acknowledged chunk is lost. |
| DurableChunks.TailSendsInOrder | src/plugins/durable-streams-storage.ts:458-493 | Whatever a tail opened at k has sent is chunks k + 1, k + 2, ... once each, in order, with the texts appended; `TailPassSends` says that it does send them. |
| DurableChunks.TailPassSends | src/plugins/durable-streams-storage.ts:470-487 | Progress: a pass of a tail that finds chunks to send ends with exactly those sent and the tail beyond them, whatever appends, crashes and other tails do meanwhile. |
| DurableChunks.TailLoadEndsIff | src/plugins/durable-streams-storage.ts:488-493 | A tail with nothing to send ends exactly if the stream is no longer open, and otherwise looks again. |
| DurableChunks.ClosedStreamIsDrained | src/plugins/durable-streams-storage.ts:470-493 | On a stream closed with no append in flight, a pass and one more look bring a tail to its end of file with every chunk after its start sent. |
| DurableChunks.EofIsComplete | src/plugins/durable-streams-storage.ts:470-493 | Unless the stream was closed while an append was in flight, an end of file comes after every chunk, and no chunk will ever follow. |
| DurableChunks.EofFinalIff | src/plugins/durable-streams-storage.ts:488-491 | An end of file is final exactly if it covers the acknowledged chunks and those of any append still in flight. |
| DurableChunks.EofBeforeLastChunk | src/plugins/durable-streams-storage.ts:470-493 | A run from the empty stream in which a tail reports end of file and an append in flight is acknowledged afterwards. |
| DurableChunks.PagesCoverLog | src/plugins/durable-streams-storage.ts:406-437 | Paged reads see every chunk after the start once, in order, whatever the page size. |
| DurableChunks.DurableStream.AppendChunks | src/plugins/durable-streams-storage.ts:349-382 | The append loop keeps the stream readable at every put and acknowledges exactly the chunks given; a closed stream refuses. |
| DurableChunks.DurableStream.ReadBatch | src/plugins/durable-streams-storage.ts:387-440 | A batch is the requested slice of the chunks, as long as the limit allows; it is up to date exactly if nothing lies beyond it. |
| DurableChunks.DurableStream.Assemble | src/plugins/durable-streams-storage.ts:585-591 | The text assembled for a commit is all chunks joined in offset order. |
| DurableChunks.ConcatInOrder | src/plugins/durable-streams-storage.ts:585-591 | Joining is concatenation, chunk after chunk. |
| DurableChunks.DurableStream.Close | src/plugins/durable-streams-storage.ts:517-558 | Closing changes an open stream's status and nothing else. |
| DurableCommit.HappenKeeps | src/plugins/durable-streams-storage.ts:565-614 | Every step of every commit attempt, crashes and foreign service calls included, keeps the commit invariant. |
| DurableCommit.CommitPostsOnce | src/plugins/durable-streams-storage.ts:565-613 | However many commits are attempted and wherever they crash, the target holds at most one message under the commit's key; until it is redacted its stored parts are one text, a first part of the chunks joined in order; only one post is more than a replay. |
| DurableCommit.CommitReadsAll | src/plugins/durable-streams-storage.ts:580-586 | A commit that has read as many objects as the stream counted when it began holds the text of every chunk counted then, whatever else happened meanwhile. |
| DurableCommit.CommitPostsAll | src/plugins/durable-streams-storage.ts:588-595 | What it then posts to the target, under the default key, is that text as one part; a refused post ends the attempt. |
| CommitFinality.CommittedIdIsFinal | src/plugins/durable-streams-storage.ts:579-614 | Once set, `committed_message_id` never changes while the target stream stands. |
| CommitFinality.CommittedIdStaysIff | src/plugins/durable-streams-storage.ts:565-614 | Over every history: while the target stands and the committing actor is in the org, no continuation changes `committed_message_id` if and only if every commit in flight, reading or waiting, has its answer already or a plugin's row holds the target's channel. |
| CommitFinality.CommittedAloneIsFinal | src/plugins/durable-streams-storage.ts:565-614 | With no other commit in flight it never changes, whatever happens to the target. |
| CommitFinality.CommittedIdCanChange | src/plugins/durable-streams-storage.ts:565-614 | A history from the beginning: of two commits in flight the first saves its message, the channel is deleted, and the second posts and saves another. |
| MemoryText.NormalizeIsNormal | src/plugins/memory.ts:73-79 | Normalized text is words separated by single spaces; `NormalizeJoinsWords` says which words. |
| MemoryText.NormalizeIdempotent | src/plugins/memory.ts:73-79 | Normalizing again changes nothing. |
| MemoryText.NormalizeJoinsWords | src/plugins/memory.ts:73-79 | Normalizing keeps the words of a text, the maximal runs of characters other than white space, whatever they are, and puts one space between them. |
| MemoryText.WordsOfALine | src/plugins/memory.ts:73-79 | Line breaks and tabs separate words as spaces do; punctuation does not. |
| MemoryText.CandidatesRejoin | src/plugins/memory.ts:93-102 | A text of at most 280 characters is its own candidate; of a longer one the candidates are the first eight of its sentences, which rejoin to the text, end in a terminator and contain none before a space. |
| Memory.IngestLinks | src/plugins/memory.ts:497-598 | Ingesting a message adds exactly the links that its non-filler candidates call for, and keeps units unique, hashed and sourced. |
| Memory.ShortTextIsKept | src/plugins/memory.ts:511-560 | What one short text leaves behind, in full: its words become a unit with that text and an edge to the message, or one more source of the unit that has them; only a trifle leaves nothing. |
| Memory.EveryShortTextIsRecalled | src/plugins/memory.ts:511-560 | After an ingestion every short text of the message that is no trifle has a unit with its hash and an edge from it to the message. |
| Memory.ForgetLinks | src/plugins/memory.ts:625-664 | Forgetting a redacted message removes exactly its links and the units left without any. |
| Memory.PromoteLinks | src/plugins/memory.ts:600-623 | Promotion changes no link. |
| Memory.PromoteMarksOne | src/plugins/memory.ts:600-623 | Promotion marks the one unit with the summary given, announces it with its sources, and leaves all others as they are. |
| Memory.IngestMirrors | src/plugins/memory.ts:594-597 | After an ingestion's notices the search index mirrors units and sources again. |
| Memory.ForgetMirrors | src/plugins/memory.ts:648-662 | After a redaction's notices the search index mirrors units and sources again. |
| Memory.PromoteMirrors | src/plugins/memory.ts:600-623 | After a promotion's notice the search index mirrors units and sources again. |
| Projections.FoundParts | src/plugins/memory.ts:475-495 | Told of a post late, a plugin finds all of the message's parts or, once it is redacted or deleted, none. |
| Projections.HydrateOneMore | src/plugins/memory.ts:475-493 | Memory reads every text part that has a word in it, in part order. |
| Projections.FirstTextIff | src/plugins/search.ts:415-432 | Search reads the first text part in part order, if it is not empty. |
| Projections.PostsAreRecalled | src/plugins/memory.ts:497-598 | In every state each short text memory was told of, whose message and stream are still there, has a unit in its stream with the message among its sources. |
| Projections.MemoryEqualsRecomputation | src/plugins/memory.ts:497-664 | Once memory has been told everything, the links of a stream that was never deleted are exactly those its unredacted messages call for, whatever interleaved and however far memory lagged. |
| Projections.UnitsAreCandidateKeys | src/plugins/memory.ts:123-127 | Then such a stream has a unit for a wording exactly if one of its unredacted messages has a non-filler candidate of that wording. |
| Projections.UnitsAreUniqueAndSourced | src/plugins/memory.ts:131-165 | In every state units are unique per stream and wording, and none is without a source message. |
| Projections.UnitsShowTheirStream | src/plugins/memory.ts:448-473 | In every state a unit whose stream exists carries that stream's type and visibility. |
| PluginHandlers.MemoryPlugin.IngestMessageAppended | src/plugins/memory.ts:497-598 | The nested loops over texts and candidates compute the ingestion and its notices; every short text that is no trifle can be recalled afterwards. |
| PluginHandlers.HydrateTextParts | src/plugins/memory.ts:475-493 | The loop over part rows collects exactly the texts that have a word, in order. |
| PluginHandlers.MemoryPlugin.ApplyMessageRedaction | src/plugins/memory.ts:625-664 | The loop over linked units removes or re-announces each. |
| PluginHandlers.MemoryPlugin.ApplyPromotion | src/plugins/memory.ts:600-623 | Marks the unit and announces it if it exists. |
| Search.IndexEqualsBackfill | src/plugins/search.ts:832-872 | Over any run in which no stream was deleted, once search has been told everything its message documents equal a rebuild from the tables, timestamps aside. |
| Search.BackfillHolds | src/plugins/search.ts:845-872 | A rebuild holds exactly the documents of the unredacted messages whose first text is not empty. |
| Search.VisibleHitsAreCurrent | src/plugins/search.ts:601-636 | Deletions included, a message document shown to an asker is of an existing message of the asker's org, of a stream the asker can read now by its row and memberships, with its current text, unless its redaction is still to be handled. |
| Search.PostsAreFound | src/plugins/search.ts:440-484 | In every state each post search was told of, whose message and stream are still there, has a document with its first text part as body, cut to 78 characters as title if it is longer than 80, and with its author, number, stream and the stream's visibility. |
| Search.VisibleIff | src/plugins/search.ts:601-636 | A document is shown exactly to the actors of its org whose stream row is public or who have the membership row. |
| Projections.SearchMirrorsMemory | src/plugins/search.ts:690-696 | In every state the memory documents mirror the units and their sources. |
| PluginHandlers.SearchIndex.IndexMessage | src/plugins/search.ts:440-484 | Indexes a message under its stream's visibility, if it has text. |
| PluginHandlers.FirstTextOfMessage | src/plugins/search.ts:415-432 | The loop over part rows stops at the first text part, and finds none exactly if there is none. |
| PluginHandlers.SearchIndex.ReceiveNotices | src/plugins/search.ts:690-696 | Applies the memory plugin's notices in order. |
| PluginHandlers.SearchIndex.BackfillMessages | src/plugins/search.ts:845-872 | The loop over stored messages merges the rebuild into the index. |
| MentionScan.ParseMentions | clients/nextjs/lib/composer-parts.ts:96-156 | Mentions come out in order, disjoint, in range, labelled with the text they span; each is a full name on boundaries or a token only one actor is known by; every full name on boundaries, unless it falls on itself, and every such token overlaps a mention, for names one at least as long. |
| MentionScan.EveryStandingHitIff | clients/nextjs/lib/composer-parts.ts:102-128 | The scan, which goes on behind each occurrence, looks at every occurrence on boundaries, in every text, exactly if no shift of the name by p characters falls on itself behind white space, a bracket or a quote. |
| MentionScan.PlainNameStandsApart | clients/nextjs/lib/composer-parts.ts:102-128 | A display name without an `@` of its own never does. |
| MentionScan.OverlappingNameIsLost | clients/nextjs/lib/composer-parts.ts:96-156 | For every name that falls on itself there is a text in which it stands on boundaries and no mention in the result covers it. |
| MentionScan.NameWithAtCanBeLost | clients/nextjs/lib/composer-parts.ts:96-156 | The display name `x @x` in the text `q@x @x @x`: the mention at position 4 is missing from the result. |
| MentionScan.ScanName | clients/nextjs/lib/composer-parts.ts:102-128 | One name's scan keeps the spans disjoint and covers every occurrence it looks at. |
| MentionScan.FirstPass | clients/nextjs/lib/composer-parts.ts:99-128 | All names, longest first: spans sound, each a name, every looked-at occurrence covered by a span at least as long. |
| MentionScan.SecondPass | clients/nextjs/lib/composer-parts.ts:130-153 | Every unambiguous token overlaps some span; each new span is such a token. |
| MentionScan.RangeOverlapsClaimed | clients/nextjs/lib/composer-parts.ts:192-197 | True exactly if some position of the range is claimed. |
| MentionScan.MarkClaimed | clients/nextjs/lib/composer-parts.ts:199-201 | Claims exactly the range in addition. |
| MentionScan.SortOrders | clients/nextjs/lib/composer-parts.ts:155 | Disjoint spans come out of the final sort in order, each ending before the next begins. |
| Mentions.BuildMentionAliases | clients/nextjs/lib/composer-parts.ts:166-184 | Lists each pair of actor and alias once. |
| Mentions.SeenKeyInjective | clients/nextjs/lib/composer-parts.ts:177 | The text key that removes duplicates tells all pairs apart. |
| Mentions.AliasIsItsWords | clients/nextjs/lib/composer-parts.ts:158-164 | An actor's alias is the words of the lower-cased name, each stripped to small letters, digits and `_.-`, with hyphens between: Deploy Bot is known as deploy-bot. |
| Mentions.KeepOneMore | clients/nextjs/lib/composer-parts.ts:158-164 | Stripping keeps small letters, digits, `_`, `.` and `-`, in order, and nothing else. |
| Mentions.PlainNameIsKnown | clients/nextjs/lib/composer-parts.ts:166-184 | A name whose lower-cased words need no stripping is known by those words with hyphens between. |
| Mentions.AgentsLoseTheirSuffix | clients/nextjs/lib/composer-parts.ts:172-174 | An actor whose alias ends in `-agent` or `_agent` is also known without the ending, and by nothing else. |
| Mentions.ResolveMentionToken | clients/nextjs/lib/composer-parts.ts:186-190 | Resolves to an actor exactly if that actor, and no other, is known by the token. |
| Base64Url.RoundTrip | src/plugins/principal-token-auth.ts:82-86 | Decoding gives the bytes back, for every length (section 5 of RFC 4648, section 2 of RFC 7515). |
| Base64Url.TextShape | src/plugins/principal-token-auth.ts:359-363 | The text uses the url alphabet alone, has no padding, and its length is never 1 mod 4. |
| Base64Url.GroupIsOneNumber | src/plugins/principal-token-auth.ts:359-363 | Three bytes and their four sextets are the same number; a last byte or two is filled up with zero bits (section 4 of RFC 4648). |
| Base64Url.KnownText | src/plugins/principal-token-auth.ts:359-363 | A test vector of section 10 of RFC 4648. |
| Base64Url.Base64UrlDecode | src/plugins/principal-token-auth.ts:82-86 | The padding loop computes the decoding of the padded text. |
| PrincipalTokens.MintedTokenVerifies | src/plugins/principal-token-auth.ts:101-166 | A minted token verifies to exactly the minted claims from 60 seconds before it was minted up to, but not at, its expiry, and at no other time. |
| PrincipalTokens.AcceptedIff | src/plugins/principal-token-auth.ts:101-166 | A text is accepted with given claims exactly if it is a header, a payload and a signature, none empty, joined by dots; the header is an object that says HS256 and JWT or no type; the signature is the secret's own over the first two; and the payload says each of those claims, at a time when they are valid. |
| PrincipalTokens.ReplayWindow.Check | src/plugins/principal-token-auth.ts:194-207 | The check with its lazy cleaning loop computes the window's next state and answer. |
| PrincipalTokens.AcceptedAtMostOnce | src/plugins/principal-token-auth.ts:189-208 | With a clock that never runs back, a token id is accepted at most once before the expiry recorded with it, however often the window is cleaned. |
| PrincipalTokens.PassesIff | src/plugins/principal-token-auth.ts:189-208 | With such a clock a token passes the window exactly if no earlier use of its id was accepted with an expiry still to come; an id never shown before always passes. |
| PrincipalTokens.NoWindowPasses | src/plugins/principal-token-auth.ts:194-196 | With the window switched off every token passes. |
| PrincipalTokens.TokenPassesOnce | src/plugins/principal-token-auth.ts:189-208 | A token that is still valid when shown again is turned away. |
| WebSocket.LastSeqKeepsItsFloor | src/ws.ts:183-209 | From registration on, `lastSeq` never drops below what it was then. |
| WebSocket.NoReplayedNumberLive | src/ws.ts:176-209 | No number sent by the replay is sent again live; live numbers are all higher. |
| WebSocket.SentOnceAfterItsCheck | src/ws.ts:184-209 | In every interleaving each publication is sent at most once, only for the subscription's stream and org, and only after a passed read check that began no earlier than the publication. |
| WebSocket.WantedIsChecked | src/ws.ts:183-209 | In every run an event starts a read check exactly if, when published, the subscription listens and is active, and the event is deliverable, of its stream and org, and has no number or one above `lastSeq`; it is sent exactly if that check has passed. |
| WebSocket.NothingAfterRevocation | src/ws.ts:194-206 | Once a read check has failed, nothing published afterwards is ever sent. |
| WebSocket.ReplaySendsAll | src/ws.ts:170-175 | The replay sends every deliverable stored event in order, and leaves `lastSeq` at the highest number sent or asked for. |
| WebSocket.LiveOrderKeptIff | src/ws.ts:191-209 | Over every run, live events go out in the order of their publication exactly if the passing checks end in the order they began. |
| WebSocket.PassKeepsOrderIff | src/ws.ts:191-209 | A passing check keeps that order exactly if no check begun later has passed before it. |
| WebSocket.LastSeqNeverFallsIff | src/ws.ts:207-208 | Over every run, no step lowers `lastSeq` exactly if the passing checks end in the order of their events' numbers. |
| WebSocket.LiveOrderCanReverse | src/ws.ts:207-208 | A run in which read checks end out of order: the live order is reversed, and `lastSeq` goes back. |
| WebSocket.Subscription.constructor | src/ws.ts:170-181 | The replay loop sends the deliverable events and raises `lastSeq` to the highest number. |
| WebSocket.Subscription.OnRegister | src/ws.ts:183-184 | The listener goes live with `lastSeq` as the replay left it. |
| WebSocket.Subscription.OnUnsubscribe | src/ws.ts:216-222 | The listener hears no further event; checks in flight may still end. |
| WebSocket.Subscription.OnEvent | src/ws.ts:184-190 | Starts a read check for exactly the events that are for this subscription and new. |
| WebSocket.Subscription.OnCheckEnds | src/ws.ts:191-209 | Sends after a passed check, ends the subscription after a failed one. |

## Left out

- ApprovalLoop.ApprovalMatchesRequest: the grant and the request's new status come in one step; the code uses two transactions, and a crash between them leaves a grant with the request still open.
- ApprovalLoop.ResolvedStaysResolved: is about later calls; two resolutions of one request that interleave between the code's two transactions can both go through.
- Service.MessageLayer.AppendMessage: the lookup of registered commands before the transaction is not modelled.
- DurableChunks.DurableStream.AppendChunks: byte counts and the limit on them are not modelled.
- DurableChunks.DurableStream.ReadBatch: the live wait, and the second look at the count after it, are not modelled.
- DurableChunks.DurableStream.Close: the manifest written at a close is not modelled.
- MemoryText.CandidatesRejoin: lengths count characters, not UTF-16 units.
- PluginHandlers.MemoryPlugin.IngestMessageAppended: summaries, keywords and timestamps of units are not modelled.
- Tables.Grant: expiry times are numbers; the code takes any text and compares it with the ISO text of the present, which is the same order for ISO texts of one form only.
- ServiceSpec.ResolveTx: approving a request issues the grant and updates the request in one step; in the code these are two transactions, so that two interleaved approvals can both issue a grant.
- ServiceRuns.PartsValid: command parts only need a name; looking up registered commands, the long form `owner:name`, and rejecting ambiguous names are not modelled.
- ServiceSpec.RegisterCommandTx: the UNIQUE constraint on registered commands, the pending-or-active check, and deleting commands are not modelled; the request's id is derived from the command's instead of drawn.
- Service.MessageLayer.RevokeGrantsTx: `revokeGrant` and `revokeAllGrantsForActor` share one transaction; with no grant to revoke it commits without effect.
- Service.MessageLayer: createChannel, createThread, membership, grant, request and artifact transactions exist as functions in ServiceSpec only, not as methods; their bodies are straight-line statements.
- CanonicalJson.Parse: white space between tokens, duplicate keys (the last one wins in JSON.parse) and lone surrogates are not modelled; number tokens are opaque texts.
- CanonicalJson.StableJson: functions, symbols, bigint values and toJSON methods are not modelled, nor that own properties with integer-like names come first before sorting.
- AuditChain.ReadRow: the prev_hash column is stored but, as in the code, not looked at by verification.
- MessageLaws.ListMessages: parts are not hydrated, and rows are taken in number order, which dense numbering shows to be table order.
- GrantLaws.EffectiveGrants: the order of the listing by capability and age is not modelled.
- ServiceRuns.CheckTelegram: that the actor is a human, that no active setup exists for the same pair, the Telegram calls, and disabling a setup are not modelled; of webhook subscriptions, durable streams and Telegram setups ServiceSpec has only the columns that are foreign keys.
- Webhook deliveries, API keys and the Telegram bridge's message traffic: no hard claim.
- Announcements.CommitTells: is about the type, org and subject of an event; its further payload fields are stated for posts only.
- Payload details: preview parts in request contexts, expiresAt and maxUses in the resolved event, command names in the registered event, artifact file names and digests.
- Artifacts: content, content checks and blob storage; only their rows, charges and cascades are modelled.
- Timestamps are natural numbers; ties in created_at are broken by insertion order, which SQL leaves open.
- Concurrency below transactions (isolation levels, the shared PGlite connection) is assumed away.
- DurableChunks.Next: byte counts, the manifest, long polling and the waiters map are left out; a waiting tail may look again at any moment.
- DurableChunks.OneWriter: the theorems on chunks and tails assume that appends to one stream do not overlap; the handlers do not enforce it, and BeginSafeIff shows the assumption exact.
- DurableCommit.CommitKey: attempts use the default key and one committing actor; the SQL variant in src/plugins/durable-streams.ts follows the same steps without a blob store and is not modelled again.
- CommitFinality.CommittedIdStaysIff: of a target that is a thread, the channel is taken to exist; a thread whose channel was deleted between its check and its creation is not covered.
- Memory.Ingest: summaries and keywords, which are functions of the canonical text, and timestamps are not modelled; unit ids count up instead of being random.
- Projections.PromoteUnit: promotion may happen at any moment; the permission check of recordMemoryPromotion is not modelled.
- Projections.Turns: plugins are told of committed transactions in commit order; that the in-process bus publishes in that order is assumed.
- Memory units after `deleteChannel`: the plugin does not listen for it, so statements about units are about streams that were never deleted.
- Search.Visible: only message documents; actor, channel and thread documents, the LIMIT 500, scores, snippets and highlights are left out, and document ids stand for their triple of org, type and entity.
- Mentions.NormalizeAlias: lower-casing is a parameter; slash commands and the completion helpers are left out.
- PrincipalTokens.VerifyJwt: times are whole seconds; the timing-safe comparison is plain equality; header rewriting and the principal schema are left out.
- WebSocket.Run: one subscription; events between the replay query and registration are not delivered (as in the code), and two concurrent subscribe messages for one stream are not modelled.
- HTTP routing, sockets, database drivers, storage adapters, SDK, agents and user interfaces.
