// What a posted message publishes: itself, then each of its mentions, then each of its commands, by
// part number, and after these the grants that the post used up.

module Announcements {
  import opened Prelude
  import opened CanonicalJson
  import opened AuditChain
  import opened Tables
  import opened ServiceSpec
  import opened ServiceRuns
  import opened MessageLaws
  import opened SourceHistory
  import opened TableHistory
  import opened RightsRuns

  function IsMention(): MessagePart -> bool {
    (part: MessagePart) => part.MentionPart?
  }

  function IsCommand(): MessagePart -> bool {
    (part: MessagePart) => part.CommandPart?
  }

  /** The numbers of the parts of a kind, in order. */
  function Numbers(parts: seq<MessagePart>, kind: MessagePart -> bool): (r: seq<nat>)
    ensures forall k :: 0 <= k < |r| ==> r[k] < |parts| && kind(parts[r[k]])
    ensures forall i :: 0 <= i < |parts| && kind(parts[i]) ==> i in r
    ensures forall j, k :: 0 <= j < k < |r| ==> r[j] < r[k]
  {
    if parts == [] then []
    else
      var n := |parts| - 1;
      assert forall i :: 0 <= i < n ==> parts[..n][i] == parts[i];
      Numbers(parts[..n], kind) + (if kind(parts[n]) then [n] else [])
  }

  predicate Says(e: DomainEvent, key: string, value: Json) {
    e.payload.Object? && Entry(key, value) in e.payload.entries
  }

  /** The event is of this message. */
  predicate OfMessage(e: DomainEvent, p: Principal, streamId: Id, messageId: Id, streamSeq: nat) {
    && e.orgId == p.orgId && e.streamId == Some(streamId) && e.streamSeq == Some(streamSeq)
    && Says(e, "orgId", Text(p.orgId)) && Says(e, "streamId", Text(streamId)) && Says(e, "messageId", Text(messageId))
    && Says(e, "streamSeq", Num(streamSeq)) && Says(e, "actorId", Text(p.actorId))
  }

  predicate MentionSaid(e: DomainEvent, i: nat, part: MessagePart) {
    && e.eventType == MentionRecorded && part.MentionPart?
    && Says(e, "partIndex", Num(i)) && Says(e, "mentionedActorId", Text(part.actorId))
  }

  predicate CommandSaid(e: DomainEvent, i: nat, part: MessagePart) {
    && e.eventType == CommandInvoked && part.CommandPart?
    && Says(e, "partIndex", Num(i)) && Says(e, "command", Text(part.command))
  }

  /** The events of a post, in publication order. */
  predicate Announced(es: seq<DomainEvent>, p: Principal, streamId: Id, messageId: Id, streamSeq: nat, parts: seq<MessagePart>) {
    var mentions, commands := Numbers(parts, IsMention()), Numbers(parts, IsCommand());
    && |es| == 1 + |mentions| + |commands|
    && (forall k :: 0 <= k < |es| ==> OfMessage(es[k], p, streamId, messageId, streamSeq) && es[k].createdAt == es[0].createdAt)
    && es[0].eventType == MessageAppended && Says(es[0], "partCount", Num(|parts|))
    && (forall k :: 0 <= k < |mentions| ==> MentionSaid(es[1 + k], mentions[k], parts[mentions[k]]))
    && (forall k :: 0 <= k < |commands| ==> CommandSaid(es[1 + |mentions| + k], commands[k], parts[commands[k]]))
  }

  lemma MessageFieldsHold(p: Principal, streamId: Id, streamType: StreamType, messageId: Id, streamSeq: nat, more: seq<Entry>)
    ensures var all := MessageFields(p, streamId, streamType, messageId, streamSeq) + more;
            && Entry("orgId", Text(p.orgId)) in all && Entry("streamId", Text(streamId)) in all && Entry("messageId", Text(messageId)) in all
            && Entry("streamSeq", Num(streamSeq)) in all && Entry("actorId", Text(p.actorId)) in all
  {
    var f := MessageFields(p, streamId, streamType, messageId, streamSeq);
    assert f[0] in f && f[1] in f && f[3] in f && f[4] in f && f[5] in f;
    hide MessageFields;
  }

  lemma {:induction false} MentionsSaid(p: Principal, streamId: Id, streamType: StreamType, messageId: Id, streamSeq: nat,
                                        parts: seq<MessagePart>, now: nat)
    ensures var fields := MessageFields(p, streamId, streamType, messageId, streamSeq);
            var es, mentions := MentionEvents(fields, p, streamId, streamSeq, parts, now), Numbers(parts, IsMention());
            && |es| == |mentions|
            && forall k :: 0 <= k < |es| ==>
                 && OfMessage(es[k], p, streamId, messageId, streamSeq) && es[k].createdAt == now
                 && MentionSaid(es[k], mentions[k], parts[mentions[k]])
  {
    hide MessageFields, MentionEvent, OfMessage, MentionSaid;
    if parts != [] {
      var i := |parts| - 1;
      MentionsSaid(p, streamId, streamType, messageId, streamSeq, parts[..i], now);
      if parts[i].MentionPart? { OneMentionSaid(p, streamId, streamType, messageId, streamSeq, i, parts[i], now); }
    }
  }

  lemma OneMentionSaid(p: Principal, streamId: Id, streamType: StreamType, messageId: Id, streamSeq: nat, i: nat, part: MessagePart, now: nat)
    requires part.MentionPart?
    ensures var fields := MessageFields(p, streamId, streamType, messageId, streamSeq);
            var e := MentionEvent(fields, p, streamId, streamSeq, i, part.actorId, part.labelText, part.start, part.end, now);
            OfMessage(e, p, streamId, messageId, streamSeq) && e.createdAt == now && MentionSaid(e, i, part)
  {
    hide MessageFields, Num, OptText, IntJson;
    var more := [Entry("mentionedActorId", Text(part.actorId)), Entry("partIndex", Num(i)), Entry("label", OptText(part.labelText)),
                 Entry("start", IntJson(part.start)), Entry("end", IntJson(part.end))];
    assert more[0] in more && more[1] in more;
    MessageFieldsHold(p, streamId, streamType, messageId, streamSeq, more);
  }

  lemma {:induction false} CommandsSaid(p: Principal, streamId: Id, streamType: StreamType, messageId: Id, streamSeq: nat,
                                        parts: seq<MessagePart>, now: nat)
    ensures var fields := MessageFields(p, streamId, streamType, messageId, streamSeq);
            var es, commands := CommandEvents(fields, p, streamId, streamSeq, parts, now), Numbers(parts, IsCommand());
            && |es| == |commands|
            && forall k :: 0 <= k < |es| ==>
                 && OfMessage(es[k], p, streamId, messageId, streamSeq) && es[k].createdAt == now
                 && CommandSaid(es[k], commands[k], parts[commands[k]])
  {
    hide MessageFields, CommandEvent, OfMessage, CommandSaid;
    if parts != [] {
      var i := |parts| - 1;
      CommandsSaid(p, streamId, streamType, messageId, streamSeq, parts[..i], now);
      if parts[i].CommandPart? { OneCommandSaid(p, streamId, streamType, messageId, streamSeq, i, parts[i], now); }
    }
  }

  lemma OneCommandSaid(p: Principal, streamId: Id, streamType: StreamType, messageId: Id, streamSeq: nat, i: nat, part: MessagePart, now: nat)
    requires part.CommandPart?
    ensures var fields := MessageFields(p, streamId, streamType, messageId, streamSeq);
            var e := CommandEvent(fields, p, streamId, streamSeq, i, part.command, part.invocationId, part.argKeys, part.commandId,
                                  part.ownerActorId, now);
            OfMessage(e, p, streamId, messageId, streamSeq) && e.createdAt == now && CommandSaid(e, i, part)
  {
    hide MessageFields, Num, OptText;
    var keys := List(seq(|part.argKeys|, k requires 0 <= k < |part.argKeys| => Text(part.argKeys[k])));
    var more := [Entry("command", Text(part.command)), Entry("commandId", OptText(part.commandId)),
                 Entry("ownerActorId", OptText(part.ownerActorId)), Entry("invocationId", OptText(part.invocationId)),
                 Entry("partIndex", Num(i)), Entry("argKeys", keys)];
    assert more[0] in more && more[4] in more;
    MessageFieldsHold(p, streamId, streamType, messageId, streamSeq, more);
  }

  lemma AppendedSaid(env: Env, p: Principal, streamId: Id, streamType: StreamType, messageId: Id, streamSeq: nat, partCount: nat, now: nat)
    ensures var e := AppendedEvent(env, p, streamId, streamType, messageId, streamSeq, partCount, now);
            && e.eventType == MessageAppended && e.createdAt == now && OfMessage(e, p, streamId, messageId, streamSeq)
            && Says(e, "partCount", Num(partCount))
  {
    hide MessageFields, Num;
    var more := [Entry("partCount", Num(partCount)), Entry("createdAt", Text(env.iso(now)))];
    assert more[0] in more;
    MessageFieldsHold(p, streamId, streamType, messageId, streamSeq, more);
  }

  lemma PostAnnounced(env: Env, p: Principal, m: Message, parts: seq<MessagePart>, now: nat)
    ensures var es := PostEvents(env, p, m, parts, now);
            Announced(es, p, m.streamId, m.id, m.streamSeq, parts) && es[0].createdAt == now
  {
    hide MentionEvents, CommandEvents, AppendedEvent, MessageFields, OfMessage, MentionSaid, CommandSaid, Says, Num, Numbers, Announced;
    var fields := MessageFields(p, m.streamId, m.streamType, m.id, m.streamSeq);
    AppendedSaid(env, p, m.streamId, m.streamType, m.id, m.streamSeq, |parts|, now);
    MentionsSaid(p, m.streamId, m.streamType, m.id, m.streamSeq, parts, now);
    CommandsSaid(p, m.streamId, m.streamType, m.id, m.streamSeq, parts, now);
    AnnouncedInThree(AppendedEvent(env, p, m.streamId, m.streamType, m.id, m.streamSeq, |parts|, now),
                     MentionEvents(fields, p, m.streamId, m.streamSeq, parts, now),
                     CommandEvents(fields, p, m.streamId, m.streamSeq, parts, now), p, m.streamId, m.id, m.streamSeq, parts, now);
  }

  lemma AnnouncedInThree(e: DomainEvent, ms: seq<DomainEvent>, cs: seq<DomainEvent>, p: Principal, streamId: Id, messageId: Id,
                         streamSeq: nat, parts: seq<MessagePart>, now: nat)
    requires e.eventType == MessageAppended && Says(e, "partCount", Num(|parts|))
    requires OfMessage(e, p, streamId, messageId, streamSeq) && e.createdAt == now
    requires |ms| == |Numbers(parts, IsMention())| && |cs| == |Numbers(parts, IsCommand())|
    requires forall k :: 0 <= k < |ms| ==>
               && OfMessage(ms[k], p, streamId, messageId, streamSeq) && ms[k].createdAt == now
               && MentionSaid(ms[k], Numbers(parts, IsMention())[k], parts[Numbers(parts, IsMention())[k]])
    requires forall k :: 0 <= k < |cs| ==>
               && OfMessage(cs[k], p, streamId, messageId, streamSeq) && cs[k].createdAt == now
               && CommandSaid(cs[k], Numbers(parts, IsCommand())[k], parts[Numbers(parts, IsCommand())[k]])
    ensures Announced([e] + ms + cs, p, streamId, messageId, streamSeq, parts) && ([e] + ms + cs)[0].createdAt == now
  {
    hide OfMessage, MentionSaid, CommandSaid, Says, Num;
    var es := [e] + ms + cs;
    assert es[0] == e && forall k :: 0 <= k < |ms| ==> es[1 + k] == ms[k];
    assert forall k :: 0 <= k < |cs| ==> es[1 + |ms| + k] == cs[k];
    forall k | 0 <= k < |es|
      ensures OfMessage(es[k], p, streamId, messageId, streamSeq) && es[k].createdAt == now
    {
      if k > 0 && k <= |ms| {
        assert es[k] == ms[k - 1];
      } else if k > |ms| {
        assert es[k] == cs[k - 1 - |ms|];
      }
    }
  }

  /** The history entry of a post publishes the post's events and, after them, only revocations of grants it used up. */
  predicate PublishesPost(d: Done)
    requires IsPost(d)
  {
    var n := 1 + |Numbers(d.tx.parts, IsMention())| + |Numbers(d.tx.parts, IsCommand())|;
    && n <= |d.events|
    && Announced(d.events[..n], d.tx.p, d.tx.streamId, d.value.messageId, d.value.streamSeq, d.tx.parts)
    && forall k :: n <= k < |d.events| ==> d.events[k].eventType == GrantRevoked
  }

  predicate OnlyRevocations(es: seq<DomainEvent>) {
    forall k :: 0 <= k < |es| ==> es[k].eventType == GrantRevoked
  }

  lemma ChargesRevokeOnly(grants: seq<Grant>, p: Principal, streamId: Id, streamType: StreamType, parts: seq<MessagePart>, now: nat)
    ensures var paid := PayForAppend(grants, p, streamId, streamType, parts, now); paid.Ok? ==> OnlyRevocations(paid.value.events)
  {
    hide AutoRevokePayload, Burn, HasCommand, OldestUsable;
  }

  lemma AppendPublishes(env: Env, t: Tables, tx: Tx, now: nat, id: Id)
    requires tx.TxAppend?
    ensures var r := AppendTx(env, t, tx.p, tx.streamId, tx.streamType, tx.parts, tx.key, now, id);
            r.Committed? && r.value.Appended? && !r.value.idempotent ==> PublishesPost(Entered(tx, r, {}))
  {
    hide AuditAll, PayForAppend, PostEvents, PartRows, FindByKey, Numbers, OfMessage, MentionSaid, CommandSaid, Says;
    var r := AppendTx(env, t, tx.p, tx.streamId, tx.streamType, tx.parts, tx.key, now, id);
    if r.Committed? && r.value.Appended? && !r.value.idempotent {
      var m := NewMessage(t, tx.p, tx.streamId, tx.streamType, tx.key, now, id);
      ChargesRevokeOnly(t.grants, tx.p, tx.streamId, tx.streamType, tx.parts, now);
      PostAnnounced(env, tx.p, m, tx.parts, now);
      var es := PostEvents(env, tx.p, m, tx.parts, now);
      assert r.events[..|es|] == es;
    }
  }

  /** Main result: in every run each post published itself, its mentions and its commands, completely and in order. */
  lemma EveryPostIsAnnounced(env: Env, steps: seq<Step>, d: Done)
    requires d in Run(env, steps).log && IsPost(d)
    ensures PublishesPost(d)
  {
    hide Run, CheckedAt, Commit, AppendTx, PublishesPost;
    RunIsTraced(env, steps);
    var log := Run(env, steps).log;
    var k: nat :| k < |log| && log[k] == d;
    var b: nat, f: nat :| b < f && CheckedAt(env, steps, b, d.tx) && FinishedAt(env, steps, f, k, d);
    var t, now, id := Run(env, steps[..f]).tables, steps[f].now, steps[f].id;
    CommitIsItsTx(env, t, d.tx, now, id);
    AppendPublishes(env, t, d.tx, now, id);
    SameEntry(d, Entered(d.tx, Commit(env, t, d.tx, now, id), {}));
  }

  lemma SameEntry(d: Done, e: Done)
    requires d.tx == e.tx && d.value == e.value && d.events == e.events && IsPost(d)
    ensures PublishesPost(e) ==> PublishesPost(d)
  {
    hide Announced, Numbers;
  }

  // ---------- the other transactions ----------

  /** One of the events is of this type and org and says this. */
  predicate Tells(es: seq<DomainEvent>, eventType: EventType, orgId: Id, key: string, value: Json) {
    exists k :: 0 <= k < |es| && es[k].eventType == eventType && es[k].orgId == orgId && Says(es[k], key, value)
  }

  /** What each kind of transaction must tell, apart from posts. */
  predicate TellsItsKind(d: Done) {
    match d.tx
    case TxCreateOrg(_) => d.value.Created? && Tells(d.events, OrgCreated, d.value.id, "orgId", Text(d.value.id))
    case TxCreateActor(orgId) => d.value.Created? && Tells(d.events, MembershipUpdated, orgId, "actorId", Text(d.value.id))
    case TxCreateChannel(p, _, _) =>
      && d.value.Created? && Tells(d.events, ChannelCreated, p.orgId, "channelId", Text(d.value.id))
      && Tells(d.events, MembershipUpdated, p.orgId, "actorId", Text(p.actorId))
    case TxCreateThread(p, _, _, _) => d.value.Created? && Tells(d.events, ThreadCreated, p.orgId, "threadId", Text(d.value.id))
    case TxAddMember(p, _, actorId, _) => Tells(d.events, MembershipUpdated, p.orgId, "actorId", Text(actorId))
    case TxRemoveMember(p, _, actorId) => Tells(d.events, MembershipUpdated, p.orgId, "actorId", Text(actorId))
    case TxAppend(_, _, _, _, _) => true
    case TxRedact(p, messageId, _, _, _, _) => Tells(d.events, MessageRedacted, p.orgId, "messageId", Text(messageId))
    case TxCreateGrant(p, _, _, _, _, _, _) => d.value.Created? && Tells(d.events, EventType.GrantCreated, p.orgId, "grantId", Text(d.value.id))
    case TxRevokeGrants(p, ids, _, _) => forall i :: 0 <= i < |ids| ==> Tells(d.events, GrantRevoked, p.orgId, "grantId", Text(ids[i]))
    case TxOpenRequest(p, _, _, _, _) =>
      d.value.Created? && Tells(d.events, PermissionRequestCreated, p.orgId, "requestId", Text(d.value.id))
    case TxResolve(p, requestId, _, _, _, _) => Tells(d.events, PermissionRequestResolved, p.orgId, "requestId", Text(requestId))
    case TxRegisterArtifact(p, _, _) => d.value.Created? && Tells(d.events, ArtifactRegistered, p.orgId, "artifactId", Text(d.value.id))
    case TxDeleteArtifact(p, artifactId, _, _) => Tells(d.events, ArtifactDeleted, p.orgId, "artifactId", Text(artifactId))
    case TxRegisterCommand(p, _, _) =>
      d.value.Created? && Tells(d.events, CommandRegistrationRequested, p.orgId, "commandId", Text(d.value.id))
    case TxDeleteChannel(p, channelId) => Tells(d.events, AuditLogged, p.orgId, "channelId", Text(channelId))
    case TxDeleteOrg(_, orgId, _) => Tells(d.events, AuditLogged, orgId, "orgId", Text(orgId))
    case TxUpdateCursor(p, streamId, _, _) => Tells(d.events, CursorUpdated, p.orgId, "streamId", Text(streamId))
    case TxRegisterClient(p, _) => d.value.Created? && Tells(d.events, ClientRegistered, p.orgId, "clientId", Text(d.value.id))
    case TxOpenPluginRow(_) => d.events == []
  }

  /** Event `k` says its entry `i`. */
  lemma TellsAt(es: seq<DomainEvent>, k: nat, i: nat)
    requires k < |es| && es[k].payload.Object? && i < |es[k].payload.entries|
    ensures Tells(es, es[k].eventType, es[k].orgId, es[k].payload.entries[i].key, es[k].payload.entries[i].value)
  {
    var entry := es[k].payload.entries[i];
    assert entry in es[k].payload.entries;
    assert Says(es[k], entry.key, entry.value);
  }

  lemma FoundingTells(env: Env, t: Tables, tx: Tx, now: nat, id: Id, dropped: set<Id>)
    requires tx.TxCreateOrg? || tx.TxCreateActor?
    ensures var r := Commit(env, t, tx, now, id); r.Committed? ==> TellsItsKind(Entered(tx, r, dropped))
  {
    hide AuditAll, Tells;
    var r := Commit(env, t, tx, now, id);
    if r.Committed? { TellsAt(r.events, 0, if tx.TxCreateOrg? then 0 else 1); }
  }

  lemma CreationTells(env: Env, t: Tables, tx: Tx, now: nat, id: Id, dropped: set<Id>)
    requires tx.TxCreateChannel? || tx.TxCreateThread?
    ensures var r := Commit(env, t, tx, now, id); r.Committed? ==> TellsItsKind(Entered(tx, r, dropped))
  {
    hide AuditAll, Consume, Tells;
    var r := Commit(env, t, tx, now, id);
    if r.Committed? {
      var n := |r.events|;
      if tx.TxCreateChannel? {
        TellsAt(r.events, n - 2, 1);
        TellsAt(r.events, n - 1, 1);
      } else {
        TellsAt(r.events, n - 1, 1);
      }
    }
  }

  lemma MembershipTells(env: Env, t: Tables, tx: Tx, now: nat, id: Id, dropped: set<Id>)
    requires tx.TxAddMember? || tx.TxRemoveMember?
    ensures var r := Commit(env, t, tx, now, id); r.Committed? && TellsItsKind(Entered(tx, r, dropped))
  {
    hide AuditAll, Tells;
    TellsAt(Commit(env, t, tx, now, id).events, 0, 1);
  }

  lemma RedactionTells(env: Env, t: Tables, tx: Tx, now: nat, dropped: set<Id>)
    requires tx.TxRedact?
    ensures var r := RedactTx(env, t, tx.p, tx.messageId, tx.streamId, tx.streamType, tx.isAuthor, tx.reason, now);
            r.Committed? ==> TellsItsKind(Entered(tx, r, dropped))
  {
    hide AuditAll, PayForRedact, Tells, Where, MarkRedacted;
    var r := RedactTx(env, t, tx.p, tx.messageId, tx.streamId, tx.streamType, tx.isAuthor, tx.reason, now);
    if r.Committed? { TellsAt(r.events, |r.events| - 1, 1); }
  }

  lemma GrantTells(env: Env, t: Tables, tx: Tx, now: nat, id: Id, dropped: set<Id>)
    requires tx.TxCreateGrant? || tx.TxOpenRequest? || tx.TxRegisterCommand?
    ensures var r := Commit(env, t, tx, now, id); r.Committed? ==> TellsItsKind(Entered(tx, r, dropped))
  {
    hide AuditAll, Tells, CommandRequest;
    var r := Commit(env, t, tx, now, id);
    if r.Committed? { TellsAt(r.events, 0, 1); }
  }

  lemma RevocationTells(env: Env, t: Tables, tx: Tx, now: nat, id: Id, dropped: set<Id>)
    requires tx.TxRevokeGrants?
    ensures var r := Commit(env, t, tx, now, id); r.Committed? && TellsItsKind(Entered(tx, r, dropped))
  {
    hide AuditAll, Tells, Deactivate;
    var r := Commit(env, t, tx, now, id);
    forall i | 0 <= i < |tx.grantIds|
      ensures Tells(r.events, GrantRevoked, tx.p.orgId, "grantId", Text(tx.grantIds[i]))
    {
      TellsAt(r.events, i, 1);
    }
  }

  lemma ResolutionTells(env: Env, t: Tables, p: Principal, requestId: Id, q: Request, approve: bool, expiresAt: Option<nat>,
                        maxUses: Option<nat>, now: nat, id: Id)
    ensures var r := ResolveTx(env, t, p, requestId, q, approve, expiresAt, maxUses, now, id);
            r.Committed? && Tells(r.events, PermissionRequestResolved, p.orgId, "requestId", Text(requestId))
  {
    hide AuditAll, Tells, CommandIdOf, SetStatus, SetEnabled, CommandRegisteredEvent, GrantCreatedEvent;
    var r := ResolveTx(env, t, p, requestId, q, approve, expiresAt, maxUses, now, id);
    TellsAt(r.events, if approve && q.action != "command:register" then 1 else 0, 1);
  }

  lemma ArtifactTells(env: Env, t: Tables, tx: Tx, now: nat, id: Id, dropped: set<Id>)
    requires tx.TxRegisterArtifact? || tx.TxDeleteArtifact?
    ensures var r := Commit(env, t, tx, now, id); r.Committed? ==> TellsItsKind(Entered(tx, r, dropped))
  {
    hide AuditAll, PayForArtifact, MarkDeleted, Tells;
    var r := Commit(env, t, tx, now, id);
    if r.Committed? { TellsAt(r.events, |r.events| - 1, 1); }
  }

  lemma ReaderTells(env: Env, t: Tables, tx: Tx, now: nat, id: Id, dropped: set<Id>)
    requires tx.TxUpdateCursor? || tx.TxRegisterClient? || tx.TxOpenPluginRow?
    ensures var r := Commit(env, t, tx, now, id); r.Committed? ==> TellsItsKind(Entered(tx, r, dropped))
  {
    hide AuditAll, Tells;
    var r := Commit(env, t, tx, now, id);
    if tx.TxUpdateCursor? { TellsAt(r.events, 0, 2); }
    if tx.TxRegisterClient? { TellsAt(r.events, 0, 1); }
  }

  lemma DeletionTells(env: Env, t: Tables, p: Principal, x: Id, streamIds: set<Id>, now: nat)
    ensures var r := DeleteChannelTx(env, t, p, x, now); r.Committed? ==> Tells(r.events, AuditLogged, p.orgId, "channelId", Text(x))
    ensures var r := DeleteOrgTx(env, t, p, x, streamIds, now); r.Committed? ==> Tells(r.events, AuditLogged, x, "orgId", Text(x))
  {
    hide AuditAll, Tells, WithoutChannel, ForeignKeysHold, AfterDeletes, DeletesAllowed, ChannelStreams;
    var c, o := DeleteChannelTx(env, t, p, x, now), DeleteOrgTx(env, t, p, x, streamIds, now);
    if c.Committed? { TellsAt(c.events, 0, 2); }
    if o.Committed? { TellsAt(o.events, 0, 1); }
  }

  /** Main result: every transaction that commits publishes the event of its kind, about its own subject, in its own org. */
  lemma CommitTells(env: Env, t: Tables, tx: Tx, now: nat, id: Id, dropped: set<Id>)
    ensures var r := Commit(env, t, tx, now, id); r.Committed? ==> TellsItsKind(Entered(tx, r, dropped))
  {
    hide Commit, Tells, AppendTx, RedactTx, CreateChannelTx, CreateThreadTx, ResolveTx, DeleteChannelTx, DeleteOrgTx;
    CommitIsItsTx(env, t, tx, now, id);
    match tx
    case TxCreateOrg(_) => FoundingTells(env, t, tx, now, id, dropped);
    case TxCreateActor(_) => FoundingTells(env, t, tx, now, id, dropped);
    case TxCreateChannel(_, _, _) => CreationTells(env, t, tx, now, id, dropped);
    case TxCreateThread(_, _, _, _) => CreationTells(env, t, tx, now, id, dropped);
    case TxAddMember(_, _, _, _) => MembershipTells(env, t, tx, now, id, dropped);
    case TxRemoveMember(_, _, _) => MembershipTells(env, t, tx, now, id, dropped);
    case TxAppend(_, _, _, _, _) =>
    case TxRedact(_, _, _, _, _, _) => RedactionTells(env, t, tx, now, dropped);
    case TxRevokeGrants(_, _, _, _) => RevocationTells(env, t, tx, now, id, dropped);
    case TxResolve(p, q, request, a, e, u) => ResolutionTells(env, t, p, q, request, a, e, u, now, id);
    case TxRegisterArtifact(_, _, _) => ArtifactTells(env, t, tx, now, id, dropped);
    case TxDeleteArtifact(_, _, _, _) => ArtifactTells(env, t, tx, now, id, dropped);
    case TxDeleteChannel(p, channelId) => DeletionTells(env, t, p, channelId, {}, now);
    case TxDeleteOrg(p, orgId, streamIds) => DeletionTells(env, t, p, orgId, streamIds, now);
    case TxUpdateCursor(_, _, _, _) => ReaderTells(env, t, tx, now, id, dropped);
    case TxRegisterClient(_, _) => ReaderTells(env, t, tx, now, id, dropped);
    case TxOpenPluginRow(_) => ReaderTells(env, t, tx, now, id, dropped);
    case _ => GrantTells(env, t, tx, now, id, dropped);
  }
}
