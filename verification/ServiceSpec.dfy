// The service's calls (src/service.ts) as functions on tables. A call is a read-only check that
// yields a transaction, and the transaction, which runs later on whatever the tables then hold and
// either commits whole or changes nothing.

module ServiceSpec {
  import opened Prelude
  import opened Decimal
  import opened CanonicalJson
  import opened AuditChain
  import opened Tables

  datatype Error = NotFound | PermissionDenied(capability: string) | Validation | ForeignKeyViolation | NothingToDo

  datatype Call =
    | CreateOrg(name: string)
    | CreateActor(orgId: Id, displayName: string)
    | CreateChannel(p: Principal, name: string, visibility: Visibility)
    | CreateThread(p: Principal, channelId: Id, parentMessageId: Id, visibility: Visibility)
    | AddChannelMember(p: Principal, channelId: Id, actorId: Id, role: string)
    | RemoveChannelMember(p: Principal, channelId: Id, actorId: Id)
    | AppendMessage(p: Principal, streamId: Id, streamType: StreamType, parts: seq<MessagePart>, key: string,
                    autoRequestOnDeny: bool)
    | RedactMessage(p: Principal, messageId: Id, reason: string)
    | CreateGrant(p: Principal, actorId: Id, resourceType: string, resourceId: Option<Id>, capability: string,
                  expiresAt: Option<nat>, maxUses: Option<int>)
    | RevokeGrant(p: Principal, grantId: Id, reason: string)
    | RevokeAllGrants(p: Principal, actorId: Id, reason: string)
    | OpenRequest(p: Principal, action: string, resourceType: string, resourceId: Option<Id>, context: Json)
    | ResolveRequest(p: Principal, requestId: Id, approve: bool, expiresAt: Option<nat>, maxUses: Option<int>)
    | RegisterArtifact(p: Principal, streamId: Id, streamType: StreamType)
    | DeleteArtifact(p: Principal, artifactId: Id, reason: string)
    | RegisterCommand(p: Principal, name: string, scope: Option<Id>)
    | DeleteChannel(p: Principal, channelId: Id)
    | DeleteOrg(p: Principal, orgId: Id)
    | UpdateCursor(p: Principal, streamId: Id, lastSeenSeq: int, lastAckSeq: int)
    | RegisterClient(p: Principal, endpoint: string)
    | OpenDurableStream(p: Principal, target: Option<Id>)
    | SubscribeWebhook(p: Principal, about: Option<Id>)
    | BindTelegram(p: Principal, humanId: Id, channelId: Id)

  /** A checked call: its arguments and what the check read from the tables. */
  datatype Tx =
    | TxCreateOrg(name: string)
    | TxCreateActor(orgId: Id)
    | TxCreateChannel(p: Principal, name: string, visibility: Visibility)
    | TxCreateThread(p: Principal, channelId: Id, parentMessageId: Id, visibility: Visibility)
    | TxAddMember(p: Principal, channelId: Id, actorId: Id, role: string)
    | TxRemoveMember(p: Principal, channelId: Id, actorId: Id)
    | TxAppend(p: Principal, streamId: Id, streamType: StreamType, parts: seq<MessagePart>, key: string)
    | TxRedact(p: Principal, messageId: Id, streamId: Id, streamType: StreamType, isAuthor: bool, reason: string)
    | TxCreateGrant(p: Principal, actorId: Id, resourceType: string, resourceId: Option<Id>, capability: string,
                    expiresAt: Option<nat>, maxUses: Option<nat>)
    | TxRevokeGrants(p: Principal, grantIds: seq<Id>, bulkActorId: Option<Id>, reason: string)
    | TxOpenRequest(p: Principal, action: string, resourceType: string, resourceId: Option<Id>, context: Json)
    | TxResolve(p: Principal, requestId: Id, request: Request, approve: bool, expiresAt: Option<nat>,
                maxUses: Option<nat>)
    | TxRegisterArtifact(p: Principal, streamId: Id, streamType: StreamType)
    | TxDeleteArtifact(p: Principal, artifactId: Id, artifact: Artifact, reason: string)
    | TxRegisterCommand(p: Principal, name: string, scope: Option<Id>)
    | TxDeleteChannel(p: Principal, channelId: Id)
    | TxDeleteOrg(p: Principal, orgId: Id, streamIds: set<Id>)
    | TxUpdateCursor(p: Principal, streamId: Id, lastSeenSeq: nat, lastAckSeq: nat)
    | TxRegisterClient(p: Principal, endpoint: string)
    | TxOpenPluginRow(row: PluginRow)

  datatype Value =
    | Nothing
    | Created(id: Id)
    | Appended(messageId: Id, streamSeq: nat, idempotent: bool)

  /** What a transaction did: new tables, the events to publish, and the grants it charged. */
  datatype Outcome =
    | Committed(tables: Tables, events: seq<DomainEvent>, charged: seq<Id>, value: Value)
    | Aborted(error: Error)

  // ---------- payloads ----------

  function Num(n: nat): Json {
    Number(NaturalToken(n))
  }

  function NaturalToken(n: nat): NumberToken {
    Digits(n)
  }

  function OptText(o: Option<string>): Json {
    match o case Some(s) => Text(s) case None => Null
  }

  function OptNum(o: Option<nat>): Json {
    match o case Some(n) => Num(n) case None => Null
  }

  function IntJson(o: Option<int>): Json {
    match o case Some(n) => if n >= 0 then Num(n) else Null case None => Null
  }

  function VisibilityName(v: Visibility): string {
    match v case Private => "private" case Public => "public"
  }

  function AutoRevokePayload(orgId: Id, grantId: Id): Json {
    Object([Entry("orgId", Text(orgId)), Entry("grantId", Text(grantId)),
            Entry("reason", Text("max_uses exhausted")), Entry("autoRevoked", Bool(true))])
  }

  function AutoRevokeEvent(orgId: Id, grantId: Id, now: nat): DomainEvent {
    DomainEvent(GrantRevoked, AutoRevokePayload(orgId, grantId), orgId, None, None, now)
  }

  function RevokeEvent(p: Principal, grantId: Id, actorId: Option<Id>, reason: string, now: nat): DomainEvent {
    var common := [Entry("orgId", Text(p.orgId)), Entry("grantId", Text(grantId)),
                   Entry("revokedByActorId", Text(p.actorId)), Entry("reason", Text(reason))];
    var bulk := if actorId.Some? then [Entry("actorId", Text(actorId.value)), Entry("bulk", Bool(true))] else [];
    DomainEvent(GrantRevoked, Object(common + bulk), p.orgId, None, None, now)
  }

  function MemberEvent(orgId: Id, actorId: Id, role: Json, channelId: Id, author: seq<Entry>, now: nat): DomainEvent {
    DomainEvent(MembershipUpdated,
                Object([Entry("orgId", Text(orgId)), Entry("actorId", Text(actorId)), Entry("role", role),
                        Entry("scope", Text("channel")), Entry("channelId", Text(channelId))] + author),
                orgId, Some(channelId), None, now)
  }

  function OwnerEvent(p: Principal, channelId: Id, now: nat): DomainEvent {
    MemberEvent(p.orgId, p.actorId, Text("owner"), channelId, [], now)
  }

  function MemberAddedEvent(p: Principal, actorId: Id, role: string, channelId: Id, now: nat): DomainEvent {
    MemberEvent(p.orgId, actorId, Text(role), channelId, [Entry("addedByActorId", Text(p.actorId))], now)
  }

  function MemberRemovedEvent(p: Principal, actorId: Id, channelId: Id, now: nat): DomainEvent {
    MemberEvent(p.orgId, actorId, Null, channelId, [Entry("removedByActorId", Text(p.actorId))], now)
  }

  function OrgCreatedEvent(orgId: Id, name: string, now: nat): DomainEvent {
    DomainEvent(OrgCreated, Object([Entry("orgId", Text(orgId)), Entry("name", Text(name))]), orgId, None, None, now)
  }

  function ActorJoinedEvent(orgId: Id, actorId: Id, now: nat): DomainEvent {
    DomainEvent(MembershipUpdated,
                Object([Entry("orgId", Text(orgId)), Entry("actorId", Text(actorId)), Entry("role", Text("member")),
                        Entry("scope", Text("org"))]),
                orgId, None, None, now)
  }

  function ChannelCreatedEvent(p: Principal, id: Id, name: string, visibility: Visibility, now: nat): DomainEvent {
    DomainEvent(ChannelCreated,
                Object([Entry("orgId", Text(p.orgId)), Entry("channelId", Text(id)), Entry("name", Text(name)),
                        Entry("visibility", Text(VisibilityName(visibility))), Entry("createdByActorId", Text(p.actorId))]),
                p.orgId, Some(id), None, now)
  }

  function ThreadCreatedEvent(p: Principal, id: Id, channelId: Id, parentMessageId: Id, visibility: Visibility, now: nat): DomainEvent {
    DomainEvent(ThreadCreated,
                Object([Entry("orgId", Text(p.orgId)), Entry("threadId", Text(id)), Entry("channelId", Text(channelId)),
                        Entry("parentMessageId", Text(parentMessageId)),
                        Entry("visibility", Text(VisibilityName(visibility))), Entry("createdByActorId", Text(p.actorId))]),
                p.orgId, Some(id), None, now)
  }

  function RedactedEvent(env: Env, p: Principal, messageId: Id, streamId: Id, reason: string, now: nat): DomainEvent {
    DomainEvent(MessageRedacted,
                Object([Entry("orgId", Text(p.orgId)), Entry("messageId", Text(messageId)), Entry("streamId", Text(streamId)),
                        Entry("redactedAt", Text(env.iso(now))), Entry("redactedByActorId", Text(p.actorId)),
                        Entry("reason", Text(reason))]),
                p.orgId, Some(streamId), None, now)
  }

  function GrantCreatedEvent(p: Principal, g: Grant, now: nat): DomainEvent {
    DomainEvent(EventType.GrantCreated,
                Object([Entry("orgId", Text(p.orgId)), Entry("grantId", Text(g.id)), Entry("actorId", Text(g.actorId)),
                        Entry("resourceType", Text(g.resourceType)), Entry("resourceId", OptText(g.resourceId)),
                        Entry("capability", Text(g.capability)), Entry("expiresAt", OptNum(g.expiresAt)),
                        Entry("maxUses", OptNum(g.maxUses)), Entry("createdByActorId", Text(p.actorId))]),
                p.orgId, None, None, now)
  }

  function RequestCreatedEvent(id: Id, r: Request, now: nat): DomainEvent {
    DomainEvent(PermissionRequestCreated,
                Object([Entry("orgId", Text(r.orgId)), Entry("requestId", Text(id)), Entry("actorId", Text(r.actorId)),
                        Entry("action", Text(r.action)), Entry("resourceType", Text(r.resourceType)),
                        Entry("resourceId", OptText(r.resourceId)), Entry("context", r.context)]),
                r.orgId, None, None, now)
  }

  function CommandRegisteredEvent(p: Principal, requestId: Id, commandId: Option<Id>, now: nat): DomainEvent {
    DomainEvent(CommandRegistered,
                Object([Entry("orgId", Text(p.orgId)), Entry("commandId", OptText(commandId)),
                        Entry("requestId", Text(requestId)), Entry("resolverActorId", Text(p.actorId))]),
                p.orgId, None, None, now)
  }

  function CommandRequestedEvent(p: Principal, id: Id, requestId: Id, name: string, channelId: Option<Id>, now: nat): DomainEvent {
    DomainEvent(CommandRegistrationRequested,
                Object([Entry("orgId", Text(p.orgId)), Entry("commandId", Text(id)), Entry("requestId", Text(requestId)),
                        Entry("name", Text(name)), Entry("channelId", OptText(channelId)), Entry("ownerActorId", Text(p.actorId))]),
                p.orgId, None, None, now)
  }

  function CommandRequest(p: Principal, id: Id, name: string, channelId: Option<Id>): Request {
    var context := Object([Entry("kind", Text("command.register")), Entry("commandId", Text(id)), Entry("name", Text(name)),
                           Entry("channelId", OptText(channelId)), Entry("ownerActorId", Text(p.actorId))]);
    Request(p.orgId, p.actorId, "command:register", if channelId.Some? then "channel" else "org",
            Some(if channelId.Some? then channelId.value else p.orgId), Open, None, context)
  }

  function ArtifactRegisteredEvent(p: Principal, id: Id, streamId: Id, streamType: StreamType, now: nat): DomainEvent {
    DomainEvent(ArtifactRegistered,
                Object([Entry("orgId", Text(p.orgId)), Entry("artifactId", Text(id)), Entry("streamId", Text(streamId)),
                        Entry("streamType", Text(StreamTypeName(streamType))), Entry("createdByActorId", Text(p.actorId))]),
                p.orgId, Some(streamId), None, now)
  }

  function ArtifactDeletedEvent(p: Principal, artifactId: Id, a: Artifact, reason: string, now: nat): DomainEvent {
    DomainEvent(ArtifactDeleted,
                Object([Entry("orgId", Text(p.orgId)), Entry("artifactId", Text(artifactId)), Entry("streamId", Text(a.streamId)),
                        Entry("deletedByActorId", Text(p.actorId)), Entry("reason", Text(reason))]),
                p.orgId, Some(a.streamId), None, now)
  }

  function CursorUpdatedEvent(p: Principal, streamId: Id, lastSeenSeq: nat, lastAckSeq: nat, now: nat): DomainEvent {
    DomainEvent(CursorUpdated,
                Object([Entry("orgId", Text(p.orgId)), Entry("actorId", Text(p.actorId)), Entry("streamId", Text(streamId)),
                        Entry("lastSeenSeq", Num(lastSeenSeq)), Entry("lastAckSeq", Num(lastAckSeq))]),
                p.orgId, Some(streamId), None, now)
  }

  function ClientRegisteredEvent(p: Principal, id: Id, endpoint: string, now: nat): DomainEvent {
    DomainEvent(ClientRegistered,
                Object([Entry("orgId", Text(p.orgId)), Entry("clientId", Text(id)), Entry("actorId", Text(p.actorId)),
                        Entry("endpoint", Text(endpoint))]),
                p.orgId, None, None, now)
  }

  function ChannelDeletedEvent(p: Principal, channelId: Id, threadCount: nat, now: nat): DomainEvent {
    DomainEvent(AuditLogged,
                Object([Entry("kind", Text("channel.deleted")), Entry("orgId", Text(p.orgId)), Entry("channelId", Text(channelId)),
                        Entry("deletedByActorId", Text(p.actorId)), Entry("threadCount", Num(threadCount))]),
                p.orgId, None, None, now)
  }

  function OrgDeletedEvent(env: Env, p: Principal, orgId: Id, now: nat): DomainEvent {
    DomainEvent(AuditLogged,
                Object([Entry("kind", Text("org.deleted")), Entry("orgId", Text(orgId)),
                        Entry("deletedByActorId", Text(p.actorId)), Entry("deletedAt", Text(env.iso(now)))]),
                orgId, None, None, now)
  }

  function MessageFields(p: Principal, streamId: Id, streamType: StreamType, messageId: Id, streamSeq: nat): seq<Entry> {
    [Entry("orgId", Text(p.orgId)), Entry("streamId", Text(streamId)),
     Entry("streamType", Text(StreamTypeName(streamType))), Entry("messageId", Text(messageId)),
     Entry("streamSeq", Num(streamSeq)), Entry("actorId", Text(p.actorId))]
  }

  function AppendedEvent(env: Env, p: Principal, streamId: Id, streamType: StreamType, messageId: Id, streamSeq: nat,
                         partCount: nat, now: nat): DomainEvent
  {
    DomainEvent(MessageAppended,
                Object(MessageFields(p, streamId, streamType, messageId, streamSeq)
                       + [Entry("partCount", Num(partCount)), Entry("createdAt", Text(env.iso(now)))]),
                p.orgId, Some(streamId), Some(streamSeq), now)
  }

  function MentionEvent(fields: seq<Entry>, p: Principal, streamId: Id, streamSeq: nat, i: nat, actorId: Id,
                        labelText: Option<string>, start: Option<int>, end: Option<int>, now: nat): DomainEvent
  {
    DomainEvent(MentionRecorded,
                Object(fields + [Entry("mentionedActorId", Text(actorId)), Entry("partIndex", Num(i)),
                                 Entry("label", OptText(labelText)), Entry("start", IntJson(start)), Entry("end", IntJson(end))]),
                p.orgId, Some(streamId), Some(streamSeq), now)
  }

  function CommandEvent(fields: seq<Entry>, p: Principal, streamId: Id, streamSeq: nat, i: nat, command: string,
                        invocationId: Option<string>, argKeys: seq<string>, commandId: Option<Id>, ownerActorId: Option<Id>,
                        now: nat): DomainEvent
  {
    DomainEvent(CommandInvoked,
                Object(fields + [Entry("command", Text(command)), Entry("commandId", OptText(commandId)),
                                 Entry("ownerActorId", OptText(ownerActorId)),
                                 Entry("invocationId", OptText(invocationId)), Entry("partIndex", Num(i)),
                                 Entry("argKeys", List(seq(|argKeys|, k requires 0 <= k < |argKeys| => Text(argKeys[k]))))]),
                p.orgId, Some(streamId), Some(streamSeq), now)
  }

  /** One event per mention part, then (in a second pass) one per command part. */
  function MentionEvents(fields: seq<Entry>, p: Principal, streamId: Id, streamSeq: nat, parts: seq<MessagePart>,
                         now: nat): seq<DomainEvent>
  {
    if parts == [] then []
    else
      var i := |parts| - 1;
      MentionEvents(fields, p, streamId, streamSeq, parts[..i], now)
      + (match parts[i]
         case MentionPart(actorId, labelText, start, end) =>
           [MentionEvent(fields, p, streamId, streamSeq, i, actorId, labelText, start, end, now)]
         case _ => [])
  }

  function CommandEvents(fields: seq<Entry>, p: Principal, streamId: Id, streamSeq: nat, parts: seq<MessagePart>,
                         now: nat): seq<DomainEvent>
  {
    if parts == [] then []
    else
      var i := |parts| - 1;
      CommandEvents(fields, p, streamId, streamSeq, parts[..i], now)
      + (match parts[i]
         case CommandPart(command, invocationId, argKeys, commandId, ownerActorId) =>
           [CommandEvent(fields, p, streamId, streamSeq, i, command, invocationId, argKeys, commandId, ownerActorId, now)]
         case _ => [])
  }

  // ---------- grant consumption ----------

  /** The grants after a charge, which ones were charged, and the revocations this caused. */
  datatype Payment = Payment(grants: seq<Grant>, charged: seq<Id>, events: seq<DomainEvent>)

  /** One use more, and inactive once the uses are spent. */
  function Burn(g: Grant): Grant {
    var used := g.(usesCount := g.usesCount + 1);
    if used.maxUses.Some? && used.usesCount >= used.maxUses.value then used.(active := false) else used
  }

  /** `consumeGrantInTx`: scopes are free; otherwise the oldest live grant loses one use. */
  function Consume(grants: seq<Grant>, p: Principal, capability: string, resourceType: string,
                   resourceId: Option<Id>, now: nat): Option<Payment>
  {
    if capability in p.scopes then Some(Payment(grants, [], []))
    else
      match OldestUsable(grants, GrantQuery(p.orgId, p.actorId, capability, resourceType, resourceId, now))
      case None => None
      case Some(i) =>
        var burnt := Burn(grants[i]);
        Some(Payment(grants[i := burnt], [burnt.id],
                     if burnt.active then [] else [AutoRevokeEvent(p.orgId, burnt.id, now)]))
  }

  // ---------- appendMessage ----------

  predicate HasCommand(parts: seq<MessagePart>) {
    exists i :: 0 <= i < |parts| && parts[i].CommandPart?
  }

  function NextSeq(counters: map<Id, nat>, streamId: Id): nat {
    if streamId in counters then counters[streamId] else 1
  }

  /** The two charges of an append: the append itself and, if it carries commands, their invocation. */
  function PayForAppend(grants: seq<Grant>, p: Principal, streamId: Id, streamType: StreamType,
                        parts: seq<MessagePart>, now: nat): Result<Payment, Error>
  {
    var rt := StreamTypeName(streamType);
    match Consume(grants, p, "message:append", rt, Some(streamId), now)
    case None => Err(PermissionDenied("message:append"))
    case Some(one) =>
      if !HasCommand(parts) then Ok(one)
      else
        match Consume(one.grants, p, "command:invoke", rt, Some(streamId), now)
        case None => Err(PermissionDenied("command:invoke"))
        case Some(two) => Ok(Payment(two.grants, one.charged + two.charged, one.events + two.events))
  }

  function NewMessage(t: Tables, p: Principal, streamId: Id, streamType: StreamType, key: string, now: nat, id: Id): Message {
    Message(id, p.orgId, streamId, streamType, p.actorId, NextSeq(t.counters, streamId), key, now, false)
  }

  /** What a posted message announces: itself, then its mentions, then its commands. */
  function PostEvents(env: Env, p: Principal, m: Message, parts: seq<MessagePart>, now: nat): seq<DomainEvent> {
    var fields := MessageFields(p, m.streamId, m.streamType, m.id, m.streamSeq);
    [AppendedEvent(env, p, m.streamId, m.streamType, m.id, m.streamSeq, |parts|, now)]
    + MentionEvents(fields, p, m.streamId, m.streamSeq, parts, now)
    + CommandEvents(fields, p, m.streamId, m.streamSeq, parts, now)
  }

  /** Pays for, numbers, stores and announces a message. */
  function PostMessage(env: Env, t: Tables, p: Principal, streamId: Id, streamType: StreamType,
                       parts: seq<MessagePart>, key: string, now: nat, id: Id): Outcome
  {
    match PayForAppend(t.grants, p, streamId, streamType, parts, now)
    case Err(e) => Aborted(e)
    case Ok(paid) =>
      var m := NewMessage(t, p, streamId, streamType, key, now, id);
      var events := PostEvents(env, p, m, parts, now);
      var posted := t.(grants := paid.grants,
                       counters := t.counters[streamId := m.streamSeq + 1],
                       messages := t.messages + [m],
                       parts := t.parts + PartRows(id, parts));
      Committed(EmitAll(env, posted, paid.events + events), events + paid.events, paid.charged,
                Appended(id, m.streamSeq, false))
  }

  /** Replays an earlier append of the same key, or posts a message. */
  function AppendTx(env: Env, t: Tables, p: Principal, streamId: Id, streamType: StreamType,
                    parts: seq<MessagePart>, key: string, now: nat, id: Id): Outcome
  {
    match FindByKey(t.messages, AppendKey(p.orgId, streamId, p.actorId, key))
    case Some(m) => Committed(t, [], [], Appended(m.id, m.streamSeq, true))
    case None => PostMessage(env, t, p, streamId, streamType, parts, key, now, id)
  }

  // ---------- other transactions ----------

  function CreateChannelTx(env: Env, t: Tables, p: Principal, name: string, visibility: Visibility, now: nat, id: Id): Outcome {
    match Consume(t.grants, p, "channel:create", "org", Some(p.orgId), now)
    case None => Aborted(PermissionDenied("channel:create"))
    case Some(paid) =>
      var events := [ChannelCreatedEvent(p, id, name, visibility, now), OwnerEvent(p, id, now)];
      var t1 := t.(grants := paid.grants,
                   channels := t.channels[id := Channel(p.orgId, visibility, p.actorId)],
                   memberships := t.memberships[MemberKey(p.orgId, p.actorId, Some(id)) := "owner"]);
      Committed(EmitAll(env, t1, paid.events + events), paid.events + events, paid.charged, Created(id))
  }

  function CreateThreadTx(env: Env, t: Tables, p: Principal, channelId: Id, parentMessageId: Id,
                          visibility: Visibility, now: nat, id: Id): Outcome
  {
    match Consume(t.grants, p, "thread:create", "channel", Some(channelId), now)
    case None => Aborted(PermissionDenied("thread:create"))
    case Some(paid) =>
      var created := ThreadCreatedEvent(p, id, channelId, parentMessageId, visibility, now);
      var t1 := t.(grants := paid.grants,
                   threads := t.threads[id := Thread(p.orgId, channelId, parentMessageId, visibility, p.actorId)]);
      Committed(EmitAll(env, t1, paid.events + [created]), paid.events + [created], paid.charged, Created(id))
  }

  function NotPartOf(messageId: Id): PartRow -> bool {
    (row: PartRow) => row.messageId != messageId
  }

  /** Authors redact their own messages for free. */
  function PayForRedact(grants: seq<Grant>, p: Principal, streamId: Id, streamType: StreamType, isAuthor: bool, now: nat): Option<Payment> {
    if isAuthor then Some(Payment(grants, [], []))
    else Consume(grants, p, "message:redact", StreamTypeName(streamType), Some(streamId), now)
  }

  function RedactTx(env: Env, t: Tables, p: Principal, messageId: Id, streamId: Id, streamType: StreamType,
                    isAuthor: bool, reason: string, now: nat): Outcome
  {
    match PayForRedact(t.grants, p, streamId, streamType, isAuthor, now)
    case None => Aborted(PermissionDenied("message:redact"))
    case Some(paid) =>
      var redacted := RedactedEvent(env, p, messageId, streamId, reason, now);
      var t1 := t.(grants := paid.grants,
                   messages := MarkRedacted(t.messages, messageId),
                   parts := Where(t.parts, NotPartOf(messageId)));
      Committed(EmitAll(env, t1, paid.events + [redacted]), paid.events + [redacted], paid.charged, Nothing)
  }

  function CreateGrantTx(env: Env, t: Tables, p: Principal, actorId: Id, resourceType: string, resourceId: Option<Id>,
                         capability: string, expiresAt: Option<nat>, maxUses: Option<nat>, now: nat, id: Id): Outcome
  {
    var g := Grant(id, p.orgId, actorId, resourceType, resourceId, capability, expiresAt, maxUses, 0, true, now);
    var created := GrantCreatedEvent(p, g, now);
    Committed(EmitAll(env, t.(grants := t.grants + [g]), [created]), [created], [], Created(id))
  }

  /** UPDATE grants SET active=0 WHERE id=? AND org_id=?, for each id. */
  function Deactivate(grants: seq<Grant>, orgId: Id, ids: seq<Id>): (r: seq<Grant>)
    ensures |r| == |grants|
    ensures forall i :: 0 <= i < |grants| ==>
              r[i] == if grants[i].id in ids && grants[i].orgId == orgId then grants[i].(active := false) else grants[i]
  {
    seq(|grants|, i requires 0 <= i < |grants| =>
      if grants[i].id in ids && grants[i].orgId == orgId then grants[i].(active := false) else grants[i])
  }

  function RevokeEvents(p: Principal, ids: seq<Id>, actorId: Option<Id>, reason: string, now: nat): seq<DomainEvent> {
    seq(|ids|, i requires 0 <= i < |ids| => RevokeEvent(p, ids[i], actorId, reason, now))
  }

  function RevokeGrantsTx(env: Env, t: Tables, p: Principal, ids: seq<Id>, actorId: Option<Id>, reason: string,
                          now: nat): Outcome
  {
    var events := RevokeEvents(p, ids, actorId, reason, now);
    Committed(EmitAll(env, t.(grants := Deactivate(t.grants, p.orgId, ids)), events), events, [], Nothing)
  }

  function OpenRequestTx(env: Env, t: Tables, p: Principal, action: string, resourceType: string,
                         resourceId: Option<Id>, context: Json, now: nat, id: Id): Outcome
  {
    var r := Request(p.orgId, p.actorId, action, resourceType, resourceId, Open, None, context);
    var asked := RequestCreatedEvent(id, r, now);
    Committed(EmitAll(env, t.(requests := t.requests[id := r]), [asked]), [asked], [], Created(id))
  }

  function LookupText(entries: seq<Entry>, key: string): Option<string> {
    if entries == [] then None
    else if entries[0].key == key then (if entries[0].value.Text? then Some(entries[0].value.text) else None)
    else LookupText(entries[1..], key)
  }

  /** The registered command a `command:register` request is about. */
  function CommandIdOf(context: Json): Option<Id> {
    if context.Object? then LookupText(context.entries, "commandId") else None
  }

  function ResolvedEvent(p: Principal, requestId: Id, approve: bool, grantId: Option<Id>, commandId: Option<Id>, now: nat): DomainEvent {
    DomainEvent(PermissionRequestResolved,
      Object([Entry("orgId", Text(p.orgId)), Entry("requestId", Text(requestId)),
              Entry("status", Text(if approve then "approved" else "denied")), Entry("grantId", OptText(grantId)),
              Entry("commandId", OptText(commandId)), Entry("resolverActorId", Text(p.actorId))]),
      p.orgId, None, None, now)
  }

  function SetStatus(m: map<Id, Request>, requestId: Id, approve: bool, grantId: Option<Id>): map<Id, Request> {
    if requestId !in m then m
    else m[requestId := m[requestId].(status := if approve then Approved else Denied, grantId := grantId)]
  }

  function SetEnabled(m: map<Id, Command>, commandId: Option<Id>, enabled: bool): map<Id, Command> {
    if commandId.Some? && commandId.value in m then m[commandId.value := m[commandId.value].(enabled := enabled)] else m
  }

  /** Resolving a `command:register` request switches the command on or off; no grant is made. */
  function ResolveCommandTx(env: Env, t: Tables, p: Principal, requestId: Id, request: Request, approve: bool, now: nat): Outcome {
    var commandId := CommandIdOf(request.context);
    var resolved := ResolvedEvent(p, requestId, approve, None, commandId, now);
    var registered := CommandRegisteredEvent(p, requestId, commandId, now);
    var events := if approve && commandId.Some? then [resolved, registered] else [resolved];
    Committed(EmitAll(env, t.(commands := SetEnabled(t.commands, commandId, approve), requests := SetStatus(t.requests, requestId, approve, None)), events), events, [], Nothing)
  }

  function DenyTx(env: Env, t: Tables, p: Principal, requestId: Id, now: nat): Outcome {
    var resolved := ResolvedEvent(p, requestId, false, None, None, now);
    Committed(EmitAll(env, t.(requests := SetStatus(t.requests, requestId, false, None)), [resolved]), [resolved], [], Nothing)
  }

  /** Approving issues exactly the grant that was asked for. */
  function ApproveTx(env: Env, t: Tables, p: Principal, requestId: Id, request: Request,
                     expiresAt: Option<nat>, maxUses: Option<nat>, now: nat, id: Id): Outcome
  {
    var g := Grant(id, p.orgId, request.actorId, request.resourceType, request.resourceId, request.action, expiresAt, maxUses, 0, true, now);
    var events := [GrantCreatedEvent(p, g, now), ResolvedEvent(p, requestId, true, Some(id), None, now)];
    var t1 := t.(grants := t.grants + [g], requests := SetStatus(t.requests, requestId, true, Some(id)));
    Committed(EmitAll(env, t1, events), events, [], Created(id))
  }

  /** Resolving, with the approved grant issued in the same step. */
  function ResolveTx(env: Env, t: Tables, p: Principal, requestId: Id, request: Request, approve: bool,
                     expiresAt: Option<nat>, maxUses: Option<nat>, now: nat, id: Id): Outcome
  {
    if request.action == "command:register" then ResolveCommandTx(env, t, p, requestId, request, approve, now)
    else if !approve then DenyTx(env, t, p, requestId, now)
    else ApproveTx(env, t, p, requestId, request, expiresAt, maxUses, now, id)
  }

  /** An upload is charged to its own capability, or failing that to appending. */
  function PayForArtifact(grants: seq<Grant>, p: Principal, streamId: Id, streamType: StreamType, now: nat): Option<Payment> {
    var rt := StreamTypeName(streamType);
    var first := Consume(grants, p, "artifact:register", rt, Some(streamId), now);
    if first.Some? then first else Consume(grants, p, "message:append", rt, Some(streamId), now)
  }

  function RegisterArtifactTx(env: Env, t: Tables, p: Principal, streamId: Id, streamType: StreamType, now: nat, id: Id): Outcome {
    match PayForArtifact(t.grants, p, streamId, streamType, now)
    case None => Aborted(PermissionDenied("artifact:register"))
    case Some(paid) =>
      var registered := ArtifactRegisteredEvent(p, id, streamId, streamType, now);
      var t1 := t.(grants := paid.grants,
                   artifacts := t.artifacts[id := Artifact(p.orgId, streamId, streamType, p.actorId, false)]);
      Committed(EmitAll(env, t1, paid.events + [registered]), paid.events + [registered], paid.charged, Created(id))
  }

  function MarkDeleted(m: map<Id, Artifact>, orgId: Id, artifactId: Id): map<Id, Artifact> {
    if artifactId in m && m[artifactId].orgId == orgId then m[artifactId := m[artifactId].(deleted := true)] else m
  }

  function DeleteArtifactTx(env: Env, t: Tables, p: Principal, artifactId: Id, a: Artifact, reason: string, now: nat): Outcome {
    var deleted := ArtifactDeletedEvent(p, artifactId, a, reason, now);
    Committed(EmitAll(env, t.(artifacts := MarkDeleted(t.artifacts, p.orgId, artifactId)), [deleted]), [deleted], [], Nothing)
  }

  function RegisterCommandTx(env: Env, t: Tables, p: Principal, name: string, channelId: Option<Id>, now: nat, id: Id): Outcome {
    if p.orgId !in t.orgs || p.actorId !in t.actors then Aborted(ForeignKeyViolation)
    else
      var requestId := id + "-request";
      var requested := CommandRequestedEvent(p, id, requestId, name, channelId, now);
      var r := CommandRequest(p, id, name, channelId);
      var t1 := t.(commands := t.commands[id := Command(p.orgId, p.actorId, channelId, false)],
                   requests := t.requests[requestId := r]);
      Committed(EmitAll(env, t1, [requested]), [requested], [], Created(id))
  }

  /** The declared foreign keys, the plugin tables' included. */
  predicate ForeignKeysHold(t: Tables) {
    && (forall a :: a in t.actors ==> t.actors[a].orgId in t.orgs)
    && (forall c :: c in t.commands ==> t.commands[c].orgId in t.orgs && t.commands[c].ownerActorId in t.actors)
    && (forall r :: r in t.plugins ==>
          && t.plugins[r].orgId in t.orgs && t.plugins[r].actorId in t.actors
          && (t.plugins[r].channelId.Some? ==> t.plugins[r].channelId.value in t.channels))
  }

  // ---------- deleteChannel ----------

  /** The channel and its threads, as the transaction finds them. */
  function ChannelStreams(t: Tables, orgId: Id, channelId: Id): set<Id> {
    {channelId} + set id | id in t.threads && t.threads[id].orgId == orgId && t.threads[id].channelId == channelId
  }

  function MessageOutside(orgId: Id, streamIds: set<Id>): Message -> bool {
    (m: Message) => !(m.orgId == orgId && m.streamId in streamIds)
  }

  function EventOutside(orgId: Id, streamIds: set<Id>): DomainEvent -> bool {
    (e: DomainEvent) => !(e.orgId == orgId && e.streamId.Some? && e.streamId.value in streamIds)
  }

  function PartOutside(doomed: set<Id>): PartRow -> bool {
    (row: PartRow) => row.messageId !in doomed
  }

  /** Ids of the messages a delete is about to remove. */
  function MessageIds(messages: seq<Message>, orgId: Id, streamIds: set<Id>): set<Id> {
    set m | m in messages && m.orgId == orgId && m.streamId in streamIds :: m.id
  }

  function DisownArtifacts(m: map<Id, Artifact>, orgId: Id, streamIds: set<Id>): map<Id, Artifact> {
    map a | a in m :: if m[a].orgId == orgId && m[a].streamId in streamIds then m[a].(deleted := true) else m[a]
  }

  function MembersOutside(m: map<MemberKey, string>, orgId: Id, channelId: Id): map<MemberKey, string> {
    map k | k in m && !(k.orgId == orgId && k.channelId == Some(channelId)) :: m[k]
  }

  function DisableCommands(m: map<Id, Command>, orgId: Id, channelId: Id): map<Id, Command> {
    map c | c in m :: if m[c].orgId == orgId && m[c].channelId == Some(channelId) then m[c].(enabled := false) else m[c]
  }

  function ThreadsOutside(m: map<Id, Thread>, orgId: Id, channelId: Id): map<Id, Thread> {
    map id | id in m && !(m[id].orgId == orgId && m[id].channelId == channelId) :: m[id]
  }

  function ChannelsOutside(m: map<Id, Channel>, orgId: Id, channelId: Id): map<Id, Channel> {
    map id | id in m && !(m[id].orgId == orgId && id == channelId) :: m[id]
  }

  function WithoutChannel(t: Tables, orgId: Id, channelId: Id): Tables {
    var ids := ChannelStreams(t, orgId, channelId);
    t.(parts := Where(t.parts, PartOutside(MessageIds(t.messages, orgId, ids))),
       messages := Where(t.messages, MessageOutside(orgId, ids)),
       events := Where(t.events, EventOutside(orgId, ids)),
       counters := t.counters - ids,
       artifacts := DisownArtifacts(t.artifacts, orgId, ids),
       memberships := MembersOutside(t.memberships, orgId, channelId),
       commands := DisableCommands(t.commands, orgId, channelId),
       threads := ThreadsOutside(t.threads, orgId, channelId),
       channels := ChannelsOutside(t.channels, orgId, channelId))
  }

  /** The delete of the channel's own row aborts if a plugin row still references it. */
  function DeleteChannelTx(env: Env, t: Tables, p: Principal, channelId: Id, now: nat): Outcome {
    var rest := WithoutChannel(t, p.orgId, channelId);
    if !ForeignKeysHold(rest) then Aborted(ForeignKeyViolation)
    else
      var threadCount := |ChannelStreams(t, p.orgId, channelId) - {channelId}|;
      var deleted := ChannelDeletedEvent(p, channelId, threadCount, now);
      Committed(EmitAll(env, rest, [deleted]), [deleted], [], Nothing)
  }

  // ---------- deleteOrg ----------

  function MessageNotOf(orgId: Id): Message -> bool {
    (m: Message) => m.orgId != orgId
  }

  function GrantNotOf(orgId: Id): Grant -> bool {
    (g: Grant) => g.orgId != orgId
  }

  function EventNotOf(orgId: Id): DomainEvent -> bool {
    (e: DomainEvent) => e.orgId != orgId
  }

  function AuditNotOf(orgId: Id): StoredRow -> bool {
    (row: StoredRow) => row.orgId != orgId
  }

  function OrgMessageIds(messages: seq<Message>, orgId: Id): set<Id> {
    set m | m in messages && m.orgId == orgId :: m.id
  }

  function ArtifactsNotOf(m: map<Id, Artifact>, orgId: Id): map<Id, Artifact> {
    map a | a in m && m[a].orgId != orgId :: m[a]
  }

  function CommandsNotOf(m: map<Id, Command>, orgId: Id): map<Id, Command> {
    map c | c in m && m[c].orgId != orgId :: m[c]
  }

  function ThreadsNotOf(m: map<Id, Thread>, orgId: Id): map<Id, Thread> {
    map h | h in m && m[h].orgId != orgId :: m[h]
  }

  function ChannelsNotOf(m: map<Id, Channel>, orgId: Id): map<Id, Channel> {
    map c | c in m && m[c].orgId != orgId :: m[c]
  }

  function MembersNotOf(m: map<MemberKey, string>, orgId: Id): map<MemberKey, string> {
    map k | k in m && k.orgId != orgId :: m[k]
  }

  function RequestsNotOf(m: map<Id, Request>, orgId: Id): map<Id, Request> {
    map r | r in m && m[r].orgId != orgId :: m[r]
  }

  function ActorsNotOf(m: map<Id, Actor>, orgId: Id): map<Id, Actor> {
    map a | a in m && m[a].orgId != orgId :: m[a]
  }

  function CursorsNotOf(m: map<CursorKey, Cursor>, orgId: Id): map<CursorKey, Cursor> {
    map k | k in m && k.orgId != orgId :: m[k]
  }

  function ClientsNotOf(m: map<Id, Client>, orgId: Id): map<Id, Client> {
    map c | c in m && m[c].orgId != orgId :: m[c]
  }

  const DELETES: nat := 16

  /** The tables after the first `k` DELETE statements of `deleteOrg`, one table each. */
  function AfterDeletes(t: Tables, orgId: Id, streamIds: set<Id>, k: nat): Tables {
    t.(parts := if k >= 1 then Where(t.parts, PartOutside(OrgMessageIds(t.messages, orgId))) else t.parts,
       messages := if k >= 2 then Where(t.messages, MessageNotOf(orgId)) else t.messages,
       artifacts := if k >= 3 then ArtifactsNotOf(t.artifacts, orgId) else t.artifacts,
       commands := if k >= 4 then CommandsNotOf(t.commands, orgId) else t.commands,
       threads := if k >= 5 then ThreadsNotOf(t.threads, orgId) else t.threads,
       channels := if k >= 6 then ChannelsNotOf(t.channels, orgId) else t.channels,
       memberships := if k >= 7 then MembersNotOf(t.memberships, orgId) else t.memberships,
       cursors := if k >= 8 then CursorsNotOf(t.cursors, orgId) else t.cursors,
       grants := if k >= 9 then Where(t.grants, GrantNotOf(orgId)) else t.grants,
       requests := if k >= 10 then RequestsNotOf(t.requests, orgId) else t.requests,
       clients := if k >= 11 then ClientsNotOf(t.clients, orgId) else t.clients,
       counters := if k >= 12 then t.counters - streamIds else t.counters,
       events := if k >= 13 then Where(t.events, EventNotOf(orgId)) else t.events,
       actors := if k >= 14 then ActorsNotOf(t.actors, orgId) else t.actors,
       audit := if k >= 15 then Where(t.audit, AuditNotOf(orgId)) else t.audit,
       orgs := if k >= 16 then t.orgs - {orgId} else t.orgs)
  }

  /** Whether every statement leaves the declared foreign keys intact; the first that does not aborts. */
  predicate DeletesAllowed(t: Tables, orgId: Id, streamIds: set<Id>) {
    forall k: nat :: 1 <= k <= DELETES ==> ForeignKeysHold(AfterDeletes(t, orgId, streamIds, k))
  }

  function DeleteOrgTx(env: Env, t: Tables, p: Principal, orgId: Id, streamIds: set<Id>, now: nat): Outcome {
    if !DeletesAllowed(t, orgId, streamIds) then Aborted(ForeignKeyViolation)
    else
      var rest := AfterDeletes(t, orgId, streamIds, DELETES);
      var deleted := OrgDeletedEvent(env, p, orgId, now);
      Committed(rest, [deleted], [], Nothing)
  }

  // ---------- small transactions ----------

  function CreateOrgTx(env: Env, t: Tables, name: string, now: nat, id: Id): Outcome {
    var created := OrgCreatedEvent(id, name, now);
    Committed(EmitAll(env, t.(orgs := t.orgs + {id}), [created]), [created], [], Created(id))
  }

  function CreateActorTx(env: Env, t: Tables, orgId: Id, now: nat, id: Id): Outcome {
    if orgId !in t.orgs then Aborted(ForeignKeyViolation)
    else
      var joined := ActorJoinedEvent(orgId, id, now);
      var t1 := t.(actors := t.actors[id := Actor(orgId)], memberships := t.memberships[MemberKey(orgId, id, None) := "member"]);
      Committed(EmitAll(env, t1, [joined]), [joined], [], Created(id))
  }

  function AddMemberTx(env: Env, t: Tables, p: Principal, channelId: Id, actorId: Id, role: string, now: nat): Outcome {
    var e := MemberAddedEvent(p, actorId, role, channelId, now);
    var t1 := t.(memberships := t.memberships[MemberKey(p.orgId, actorId, Some(channelId)) := role]);
    Committed(EmitAll(env, t1, [e]), [e], [], Nothing)
  }

  function RemoveMemberTx(env: Env, t: Tables, p: Principal, channelId: Id, actorId: Id, now: nat): Outcome {
    var e := MemberRemovedEvent(p, actorId, channelId, now);
    var t1 := t.(memberships := t.memberships - {MemberKey(p.orgId, actorId, Some(channelId))});
    Committed(EmitAll(env, t1, [e]), [e], [], Nothing)
  }

  /** An upsert: the last write wins. */
  function UpdateCursorTx(env: Env, t: Tables, p: Principal, streamId: Id, lastSeenSeq: nat, lastAckSeq: nat, now: nat): Outcome {
    var e := CursorUpdatedEvent(p, streamId, lastSeenSeq, lastAckSeq, now);
    var t1 := t.(cursors := t.cursors[CursorKey(p.orgId, p.actorId, streamId) := Cursor(lastSeenSeq, lastAckSeq)]);
    Committed(EmitAll(env, t1, [e]), [e], [], Nothing)
  }

  function RegisterClientTx(env: Env, t: Tables, p: Principal, endpoint: string, now: nat, id: Id): Outcome {
    var e := ClientRegisteredEvent(p, id, endpoint, now);
    Committed(EmitAll(env, t.(clients := t.clients[id := Client(p.orgId, p.actorId, endpoint)]), [e]), [e], [], Created(id))
  }

  /** A plugin inserts its row. */
  function OpenPluginRowTx(t: Tables, row: PluginRow, id: Id): Outcome {
    if row.orgId !in t.orgs || row.actorId !in t.actors || (row.channelId.Some? && row.channelId.value !in t.channels)
    then Aborted(ForeignKeyViolation)
    else Committed(t.(plugins := t.plugins[id := row]), [], [], Created(id))
  }

  // ---------- dispatch ----------

  /** Runs a checked call's transaction. `id` is the fresh id it would use. */
  function Commit(env: Env, t: Tables, tx: Tx, now: nat, id: Id): Outcome {
    match tx
    case TxCreateOrg(name) => CreateOrgTx(env, t, name, now, id)
    case TxCreateActor(orgId) => CreateActorTx(env, t, orgId, now, id)
    case TxCreateChannel(p, name, visibility) => CreateChannelTx(env, t, p, name, visibility, now, id)
    case TxCreateThread(p, channelId, parent, visibility) => CreateThreadTx(env, t, p, channelId, parent, visibility, now, id)
    case TxAddMember(p, channelId, actorId, role) => AddMemberTx(env, t, p, channelId, actorId, role, now)
    case TxRemoveMember(p, channelId, actorId) => RemoveMemberTx(env, t, p, channelId, actorId, now)
    case TxAppend(p, streamId, streamType, parts, key) => AppendTx(env, t, p, streamId, streamType, parts, key, now, id)
    case TxRedact(p, messageId, streamId, streamType, isAuthor, reason) =>
      RedactTx(env, t, p, messageId, streamId, streamType, isAuthor, reason, now)
    case TxCreateGrant(p, actorId, rt, rid, capability, expiresAt, maxUses) =>
      CreateGrantTx(env, t, p, actorId, rt, rid, capability, expiresAt, maxUses, now, id)
    case TxRevokeGrants(p, ids, actorId, reason) => RevokeGrantsTx(env, t, p, ids, actorId, reason, now)
    case TxOpenRequest(p, action, rt, rid, context) => OpenRequestTx(env, t, p, action, rt, rid, context, now, id)
    case TxResolve(p, requestId, request, approve, expiresAt, maxUses) =>
      ResolveTx(env, t, p, requestId, request, approve, expiresAt, maxUses, now, id)
    case TxRegisterArtifact(p, streamId, streamType) => RegisterArtifactTx(env, t, p, streamId, streamType, now, id)
    case TxDeleteArtifact(p, artifactId, a, reason) => DeleteArtifactTx(env, t, p, artifactId, a, reason, now)
    case TxRegisterCommand(p, name, channelId) => RegisterCommandTx(env, t, p, name, channelId, now, id)
    case TxDeleteChannel(p, channelId) => DeleteChannelTx(env, t, p, channelId, now)
    case TxDeleteOrg(p, orgId, streamIds) => DeleteOrgTx(env, t, p, orgId, streamIds, now)
    case TxUpdateCursor(p, streamId, seen, acked) => UpdateCursorTx(env, t, p, streamId, seen, acked, now)
    case TxRegisterClient(p, endpoint) => RegisterClientTx(env, t, p, endpoint, now, id)
    case TxOpenPluginRow(row) => OpenPluginRowTx(t, row, id)
  }
}
