// Messages under every interleaving: numbers are dense in each stream, an append request posts at
// most once, and paging visits every message once.

module MessageLaws {
  import opened Prelude
  import opened CanonicalJson
  import opened AuditChain
  import opened Tables
  import opened ServiceSpec
  import opened ServiceRuns

  // ---------- what a transaction does to streams and messages ----------

  predicate SameStreams(t: Tables, r: Tables) {
    r.messages == t.messages && r.parts == t.parts && r.counters == t.counters && r.channels == t.channels && r.threads == t.threads
  }

  /** Whether a committed transaction leaves messages, counters and streams alone. */
  predicate OffStream(tx: Tx) {
    !tx.TxCreateChannel? && !tx.TxCreateThread? && !tx.TxAppend? && !tx.TxRedact? && !tx.TxDeleteChannel? && !tx.TxDeleteOrg?
  }

  lemma SmallOffStream(env: Env, t: Tables, tx: Tx, now: nat, id: Id)
    requires tx.TxCreateOrg? || tx.TxCreateActor? || tx.TxAddMember? || tx.TxRemoveMember? || tx.TxOpenRequest?
             || tx.TxDeleteArtifact? || tx.TxUpdateCursor? || tx.TxRegisterClient? || tx.TxOpenPluginRow?
    ensures var r := Commit(env, t, tx, now, id); r.Committed? ==> SameStreams(t, r.tables)
  {
    hide AuditAll, OrgCreatedEvent, ActorJoinedEvent, MemberAddedEvent, MemberRemovedEvent, RequestCreatedEvent;
    hide ArtifactDeletedEvent, MarkDeleted, CursorUpdatedEvent, ClientRegisteredEvent;
  }

  lemma GrantOffStream(env: Env, t: Tables, tx: Tx, now: nat, id: Id)
    requires tx.TxCreateGrant? || tx.TxRevokeGrants?
    ensures var r := Commit(env, t, tx, now, id); r.Committed? ==> SameStreams(t, r.tables)
  {
    hide AuditAll, Deactivate, RevokeEvents, GrantCreatedEvent;
  }

  lemma ResolutionsOffStream(env: Env, t: Tables, p: Principal, requestId: Id, request: Request, approve: bool, now: nat)
    ensures SameStreams(t, ResolveCommandTx(env, t, p, requestId, request, approve, now).tables)
    ensures SameStreams(t, DenyTx(env, t, p, requestId, now).tables)
  {
    hide AuditAll, CommandIdOf, SetStatus, SetEnabled, ResolvedEvent, CommandRegisteredEvent;
  }

  lemma ApproveOffStream(env: Env, t: Tables, p: Principal, requestId: Id, request: Request, expiresAt: Option<nat>,
                         maxUses: Option<nat>, now: nat, id: Id)
    ensures SameStreams(t, ApproveTx(env, t, p, requestId, request, expiresAt, maxUses, now, id).tables)
  {
    hide AuditAll, SetStatus, GrantCreatedEvent, ResolvedEvent;
  }

  lemma ResolveOffStream(env: Env, t: Tables, p: Principal, requestId: Id, request: Request, approve: bool,
                         expiresAt: Option<nat>, maxUses: Option<nat>, now: nat, id: Id)
    ensures var r := ResolveTx(env, t, p, requestId, request, approve, expiresAt, maxUses, now, id);
            r.Committed? && SameStreams(t, r.tables)
  {
    ResolutionsOffStream(env, t, p, requestId, request, approve, now);
    ApproveOffStream(env, t, p, requestId, request, expiresAt, maxUses, now, id);
    ResolveCommits(env, t, p, requestId, request, approve, expiresAt, maxUses, now, id);
    hide SameStreams, ResolveCommandTx, DenyTx, ApproveTx;
  }

  lemma ResolveCommits(env: Env, t: Tables, p: Principal, requestId: Id, request: Request, approve: bool,
                       expiresAt: Option<nat>, maxUses: Option<nat>, now: nat, id: Id)
    ensures ResolveTx(env, t, p, requestId, request, approve, expiresAt, maxUses, now, id).Committed?
  {
    hide EmitAll, CommandIdOf, SetStatus, SetEnabled, ResolvedEvent, CommandRegisteredEvent, GrantCreatedEvent;
  }

  lemma RegisterOffStream(env: Env, t: Tables, tx: Tx, now: nat, id: Id)
    requires tx.TxRegisterArtifact? || tx.TxRegisterCommand?
    ensures var r := Commit(env, t, tx, now, id); r.Committed? ==> SameStreams(t, r.tables)
  {
    hide AuditAll, PayForArtifact, CommandRequestedEvent, CommandRequest, ArtifactRegisteredEvent;
  }

  lemma OffStreamCommit(env: Env, t: Tables, tx: Tx, now: nat, id: Id)
    requires OffStream(tx)
    ensures var r := Commit(env, t, tx, now, id); r.Committed? ==> SameStreams(t, r.tables)
  {
    hide Commit, ResolveTx;
    CommitIsItsTx(env, t, tx, now, id);
    match tx
    case TxResolve(p, requestId, request, approve, expiresAt, maxUses) =>
      ResolveOffStream(env, t, p, requestId, request, approve, expiresAt, maxUses, now, id);
    case TxCreateGrant(_, _, _, _, _, _, _) => GrantOffStream(env, t, tx, now, id);
    case TxRevokeGrants(_, _, _, _) => GrantOffStream(env, t, tx, now, id);
    case TxRegisterArtifact(_, _, _) => RegisterOffStream(env, t, tx, now, id);
    case TxRegisterCommand(_, _, _) => RegisterOffStream(env, t, tx, now, id);
    case _ => SmallOffStream(env, t, tx, now, id);
  }

  lemma AppendEffect(env: Env, t: Tables, p: Principal, streamId: Id, streamType: StreamType, parts: seq<MessagePart>,
                     key: string, now: nat, id: Id)
    ensures var r := AppendTx(env, t, p, streamId, streamType, parts, key, now, id);
            var found := FindByKey(t.messages, AppendKey(p.orgId, streamId, p.actorId, key));
            r.Committed? ==>
              && r.value.Appended? && r.value.idempotent == found.Some?
              && (found.Some? ==> r == Committed(t, [], [], Appended(found.value.id, found.value.streamSeq, true)))
              && (found.None? ==>
                    var m := NewMessage(t, p, streamId, streamType, key, now, id);
                    && r.value == Appended(id, m.streamSeq, false)
                    && r.tables.messages == t.messages + [m] && r.tables.parts == t.parts + PartRows(id, parts)
                    && r.tables.counters == t.counters[streamId := m.streamSeq + 1]
                    && r.tables.channels == t.channels && r.tables.threads == t.threads)
  {
    hide AuditAll, PayForAppend, PostEvents, PartRows;
  }

  lemma CreateChannelEffect(env: Env, t: Tables, p: Principal, name: string, visibility: Visibility, now: nat, id: Id)
    ensures var r := CreateChannelTx(env, t, p, name, visibility, now, id);
            r.Committed? ==>
              && r.value == Created(id)
              && r.tables.channels == t.channels[id := Channel(p.orgId, visibility, p.actorId)]
              && r.tables.messages == t.messages && r.tables.parts == t.parts
              && r.tables.counters == t.counters && r.tables.threads == t.threads
  {
    hide AuditAll, Consume, ChannelCreatedEvent, OwnerEvent;
  }

  lemma CreateThreadEffect(env: Env, t: Tables, p: Principal, channelId: Id, parentMessageId: Id, visibility: Visibility, now: nat, id: Id)
    ensures var r := CreateThreadTx(env, t, p, channelId, parentMessageId, visibility, now, id);
            r.Committed? ==>
              && r.value == Created(id)
              && r.tables.threads == t.threads[id := Thread(p.orgId, channelId, parentMessageId, visibility, p.actorId)]
              && r.tables.messages == t.messages && r.tables.parts == t.parts
              && r.tables.counters == t.counters && r.tables.channels == t.channels
  {
    hide AuditAll, Consume, ThreadCreatedEvent;
  }

  lemma RedactEffect(env: Env, t: Tables, p: Principal, messageId: Id, streamId: Id, streamType: StreamType, isAuthor: bool,
                     reason: string, now: nat)
    ensures var r := RedactTx(env, t, p, messageId, streamId, streamType, isAuthor, reason, now);
            r.Committed? ==>
              && r.tables.messages == MarkRedacted(t.messages, messageId)
              && r.tables.parts == Where(t.parts, NotPartOf(messageId))
              && r.tables.counters == t.counters && r.tables.channels == t.channels && r.tables.threads == t.threads
              && r.value == Nothing
  {
    hide AuditAll, PayForRedact, MarkRedacted, RedactedEvent, Where;
  }

  lemma DeleteChannelEffect(env: Env, t: Tables, p: Principal, channelId: Id, now: nat)
    ensures var r := DeleteChannelTx(env, t, p, channelId, now);
            var ids := ChannelStreams(t, p.orgId, channelId);
            r.Committed? ==>
              && r.value == Nothing
              && r.tables.messages == Where(t.messages, MessageOutside(p.orgId, ids))
              && r.tables.parts == Where(t.parts, PartOutside(MessageIds(t.messages, p.orgId, ids)))
              && r.tables.counters == t.counters - ids
              && r.tables.channels == ChannelsOutside(t.channels, p.orgId, channelId)
              && r.tables.threads == ThreadsOutside(t.threads, p.orgId, channelId)
  {
    hide AuditAll, ChannelDeletedEvent, Where, MessageIds, DisownArtifacts, MembersOutside, DisableCommands, ChannelsOutside,
         ThreadsOutside, ChannelStreams, ForeignKeysHold;
  }

  lemma DeleteOrgEffect(env: Env, t: Tables, p: Principal, orgId: Id, streamIds: set<Id>, now: nat)
    ensures var r := DeleteOrgTx(env, t, p, orgId, streamIds, now);
            r.Committed? ==> r.tables == AfterDeletes(t, orgId, streamIds, DELETES) && r.value == Nothing
  {
    hide AfterDeletes, DeletesAllowed, OrgDeletedEvent;
  }

  // ---------- streams and their orgs ----------

  /** Everything that belongs to a stream carries the stream's org; pending calls were checked so. */
  ghost predicate StreamInv(s: Sys) {
    && (forall m :: m in s.tables.messages ==> m.streamId in s.streamOrg && s.streamOrg[m.streamId] == m.orgId)
    && (forall c :: c in s.tables.channels ==> c in s.streamOrg && s.streamOrg[c] == s.tables.channels[c].orgId)
    && (forall h :: h in s.tables.threads ==> h in s.streamOrg && s.streamOrg[h] == s.tables.threads[h].orgId)
    && (forall c :: c in s.tables.counters ==> c in s.streamOrg)
    && (forall x :: x in s.streamOrg ==> x in s.usedIds)
    && (forall n :: n in s.pending ==> CheckedInOrg(s.streamOrg, s.pending[n]))
  }

  /** What a check established about streams, and no later step can undo. */
  ghost predicate CheckedInOrg(streamOrg: map<Id, Id>, tx: Tx) {
    match tx
    case TxAppend(p, streamId, _, _, _) => streamId in streamOrg && streamOrg[streamId] == p.orgId
    case TxDeleteChannel(p, channelId) => channelId in streamOrg && streamOrg[channelId] == p.orgId
    case TxDeleteOrg(_, orgId, streamIds) => forall x :: x in streamIds ==> x in streamOrg && streamOrg[x] == orgId
    case _ => true
  }

  lemma CheckAppendEstablishes(s: Sys, p: Principal, streamId: Id, streamType: StreamType, parts: seq<MessagePart>,
                               key: string, ask: bool, now: nat)
    requires StreamInv(s)
    ensures var r := CheckAppend(s.tables, p, streamId, streamType, parts, key, ask, now);
            r.Ok? ==> CheckedInOrg(s.streamOrg, r.value) && (r.value.TxAppend? || r.value.TxOpenRequest?)
  {
    hide HasGrant, PartsValid, HasCommand, IsMember, KnownActor;
  }

  lemma CheckEstablishes(s: Sys, call: Call, now: nat)
    requires StreamInv(s) && Check(s.tables, call, now).Ok?
    ensures CheckedInOrg(s.streamOrg, Check(s.tables, call, now).value)
  {
    hide HasGrant, FindById, AdministersChannel, MayResolve, ActiveGrantIds, OrgHasGrant, CheckAppend, KnownActor, Readable;
    if call.AppendMessage? {
      CheckAppendEstablishes(s, call.p, call.streamId, call.streamType, call.parts, call.key, call.autoRequestOnDeny, now);
    }
  }

  lemma MoreStreams(streamOrg: map<Id, Id>, added: map<Id, Id>, tx: Tx)
    requires CheckedInOrg(streamOrg, tx) && forall x :: x in added ==> x !in streamOrg
    ensures CheckedInOrg(streamOrg + added, tx)
  {
  }

  /** The new streams of a committed transaction use its fresh id. */
  lemma NewStreamsFresh(env: Env, t: Tables, tx: Tx, now: nat, id: Id)
    ensures var r := Commit(env, t, tx, now, id);
            r.Committed? ==> forall x :: x in NewStreams(tx, r.value) ==> x == id
  {
    hide Commit, CreateChannelTx, CreateThreadTx, AppendTx, RedactTx, ResolveTx, DeleteChannelTx, DeleteOrgTx;
    if tx.TxCreateChannel? {
      CommitIsItsTx(env, t, tx, now, id);
      CreateChannelEffect(env, t, tx.p, tx.name, tx.visibility, now, id);
    } else if tx.TxCreateThread? {
      CommitIsItsTx(env, t, tx, now, id);
      CreateThreadEffect(env, t, tx.p, tx.channelId, tx.parentMessageId, tx.visibility, now, id);
    }
  }

  /** Dispatch, for the transactions that touch streams. */
  lemma CommitIsItsTx(env: Env, t: Tables, tx: Tx, now: nat, id: Id)
    ensures match tx
            case TxCreateChannel(p, name, v) => Commit(env, t, tx, now, id) == CreateChannelTx(env, t, p, name, v, now, id)
            case TxCreateThread(p, c, m, v) => Commit(env, t, tx, now, id) == CreateThreadTx(env, t, p, c, m, v, now, id)
            case TxAppend(p, x, st, parts, key) => Commit(env, t, tx, now, id) == AppendTx(env, t, p, x, st, parts, key, now, id)
            case TxRedact(p, m, x, st, a, reason) => Commit(env, t, tx, now, id) == RedactTx(env, t, p, m, x, st, a, reason, now)
            case TxResolve(p, q, request, a, e, u) => Commit(env, t, tx, now, id) == ResolveTx(env, t, p, q, request, a, e, u, now, id)
            case TxDeleteChannel(p, c) => Commit(env, t, tx, now, id) == DeleteChannelTx(env, t, p, c, now)
            case TxDeleteOrg(p, o, ids) => Commit(env, t, tx, now, id) == DeleteOrgTx(env, t, p, o, ids, now)
            case _ => true
  {
    hide CreateChannelTx, CreateThreadTx, AppendTx, RedactTx, DeleteChannelTx, DeleteOrgTx;
    hide CreateOrgTx, CreateActorTx, AddMemberTx, RemoveMemberTx, CreateGrantTx, RevokeGrantsTx, OpenRequestTx, ResolveTx;
    hide RegisterArtifactTx, DeleteArtifactTx, RegisterCommandTx, UpdateCursorTx, RegisterClientTx, OpenPluginRowTx;
  }

  // ---------- dense numbering ----------

  /** Numbers 1, 2, 3, ... in order. */
  predicate Numbered(messages: seq<Message>) {
    forall i :: 0 <= i < |messages| ==> messages[i].streamSeq == i + 1
  }

  /** A stream with messages counts one past their number; a stream without has no counter. */
  predicate DenseStream(t: Tables, streamId: Id) {
    var mine := StreamMessages(t.messages, streamId);
    && Numbered(mine)
    && (streamId in t.counters <==> mine != [])
    && (streamId in t.counters ==> t.counters[streamId] == |mine| + 1)
  }

  ghost predicate Dense(t: Tables) {
    forall x :: DenseStream(t, x)
  }

  lemma {:induction false} RedactKeepsStreams(messages: seq<Message>, id: Id, streamId: Id)
    ensures StreamMessages(MarkRedacted(messages, id), streamId) == MarkRedacted(StreamMessages(messages, streamId), id)
  {
    if messages != [] {
      var n := |messages| - 1;
      assert MarkRedacted(messages, id)[..n] == MarkRedacted(messages[..n], id);
      RedactKeepsStreams(messages[..n], id, streamId);
    }
  }

  lemma AppendKeepsDense(t: Tables, t': Tables, m: Message)
    requires Dense(t) && m.streamSeq == NextSeq(t.counters, m.streamId)
    requires t'.messages == t.messages + [m] && t'.counters == t.counters[m.streamId := m.streamSeq + 1]
    ensures Dense(t')
  {
    forall x
      ensures DenseStream(t', x)
    {
      assert DenseStream(t, x);
      WhereSnoc(t.messages, m, InStream(x));
    }
  }

  lemma RedactKeepsDense(t: Tables, t': Tables, id: Id)
    requires Dense(t) && t'.messages == MarkRedacted(t.messages, id) && t'.counters == t.counters
    ensures Dense(t')
  {
    forall x
      ensures DenseStream(t', x)
    {
      assert DenseStream(t, x);
      RedactKeepsStreams(t.messages, id, x);
    }
  }

  /** Deleting the rows of whole streams, with their counters, keeps all numbers dense. */
  lemma DropKeepsDense(t: Tables, t': Tables, keep: Message -> bool, gone: set<Id>)
    requires Dense(t) && t'.messages == Where(t.messages, keep) && t'.counters == t.counters - gone
    requires forall m :: m in t.messages ==> (keep(m) <==> m.streamId !in gone)
    ensures Dense(t')
  {
    forall x
      ensures DenseStream(t', x)
    {
      assert DenseStream(t, x);
      DropStream(t.messages, keep, gone, x);
    }
  }

  lemma DropStream(messages: seq<Message>, keep: Message -> bool, gone: set<Id>, x: Id)
    requires forall m :: m in messages ==> (keep(m) <==> m.streamId !in gone)
    ensures StreamMessages(Where(messages, keep), x) == if x in gone then [] else StreamMessages(messages, x)
  {
    var both := (m: Message) => keep(m) && m.streamId == x;
    WhereWhere(messages, keep, InStream(x), both);
    if x in gone {
      WhereNone(messages, both);
    } else {
      WhereAgree(messages, both, InStream(x));
    }
  }

  // ---------- deleteOrg and the counters ----------

  /**
   * `deleteOrg` reads the org's streams before its transaction and drops only their counters. The
   * numbering stays dense exactly when no stream of the org has come into use in between.
   */
  lemma DeleteOrgDenseIff(t: Tables, streamOrg: map<Id, Id>, orgId: Id, streamIds: set<Id>)
    requires Dense(t)
    requires forall m :: m in t.messages ==> m.streamId in streamOrg && streamOrg[m.streamId] == m.orgId
    requires forall x :: x in streamIds ==> x in streamOrg && streamOrg[x] == orgId
    requires forall x :: x in t.counters ==> x in streamOrg
    ensures Dense(AfterDeletes(t, orgId, streamIds, DELETES))
            <==> forall x :: x in t.counters && streamOrg[x] == orgId ==> x in streamIds
  {
    hide ArtifactsNotOf, CommandsNotOf, ThreadsNotOf, ChannelsNotOf, MembersNotOf, RequestsNotOf, ActorsNotOf, CursorsNotOf, ClientsNotOf;
    var t' := AfterDeletes(t, orgId, streamIds, DELETES);
    var gone := set x | x in streamOrg && streamOrg[x] == orgId;
    forall x
      ensures StreamMessages(t'.messages, x) == if x in gone then [] else StreamMessages(t.messages, x)
      ensures DenseStream(t, x)
    {
      DropStream(t.messages, MessageNotOf(orgId), gone, x);
    }
    if exists x :: x in t.counters && streamOrg[x] == orgId && x !in streamIds {
      var x :| x in t.counters && streamOrg[x] == orgId && x !in streamIds;
      assert !DenseStream(t', x);
    }
  }

  // ---------- the stream invariant over runs ----------

  /** The tables' part of `StreamInv`. */
  ghost predicate OwnStreams(t: Tables, streamOrg: map<Id, Id>) {
    && (forall m :: m in t.messages ==> m.streamId in streamOrg && streamOrg[m.streamId] == m.orgId)
    && (forall c :: c in t.channels ==> c in streamOrg && streamOrg[c] == t.channels[c].orgId)
    && (forall h :: h in t.threads ==> h in streamOrg && streamOrg[h] == t.threads[h].orgId)
    && (forall c :: c in t.counters ==> c in streamOrg)
  }

  lemma DropKeepsOwnStreams(t: Tables, t': Tables, streamOrg: map<Id, Id>)
    requires OwnStreams(t, streamOrg)
    requires forall m :: m in t'.messages ==> m in t.messages
    requires forall c :: c in t'.channels ==> c in t.channels && t'.channels[c] == t.channels[c]
    requires forall h :: h in t'.threads ==> h in t.threads && t'.threads[h] == t.threads[h]
    requires forall c :: c in t'.counters ==> c in t.counters
    ensures OwnStreams(t', streamOrg)
  {
  }

  lemma SameKeepsOwnStreams(t: Tables, t': Tables, streamOrg: map<Id, Id>)
    requires OwnStreams(t, streamOrg) && SameStreams(t, t')
    ensures OwnStreams(t', streamOrg)
  {
  }

  lemma DeleteChannelKeepsOwnStreams(env: Env, t: Tables, p: Principal, channelId: Id, now: nat, streamOrg: map<Id, Id>)
    requires OwnStreams(t, streamOrg) && DeleteChannelTx(env, t, p, channelId, now).Committed?
    ensures OwnStreams(DeleteChannelTx(env, t, p, channelId, now).tables, streamOrg)
  {
    hide DeleteChannelTx, OwnStreams, ChannelStreams;
    DeleteChannelEffect(env, t, p, channelId, now);
    DropKeepsOwnStreams(t, DeleteChannelTx(env, t, p, channelId, now).tables, streamOrg);
  }

  lemma AfterDeletesKeepsOwnStreams(t: Tables, orgId: Id, streamIds: set<Id>, streamOrg: map<Id, Id>)
    requires OwnStreams(t, streamOrg)
    ensures OwnStreams(AfterDeletes(t, orgId, streamIds, DELETES), streamOrg)
  {
    hide OwnStreams, ArtifactsNotOf, CommandsNotOf, MembersNotOf, RequestsNotOf, ActorsNotOf, CursorsNotOf, ClientsNotOf, OrgMessageIds;
    DropKeepsOwnStreams(t, AfterDeletes(t, orgId, streamIds, DELETES), streamOrg);
  }

  lemma CreationKeepsOwnStreams(env: Env, t: Tables, tx: Tx, now: nat, id: Id, streamOrg: map<Id, Id>)
    requires OwnStreams(t, streamOrg) && id !in streamOrg && (tx.TxCreateChannel? || tx.TxCreateThread?)
    ensures var r := Commit(env, t, tx, now, id);
            r.Committed? ==> OwnStreams(r.tables, streamOrg + NewStreams(tx, r.value))
  {
    hide Commit, CreateChannelTx, CreateThreadTx, OwnStreams;
    CommitIsItsTx(env, t, tx, now, id);
    var r := Commit(env, t, tx, now, id);
    if r.Committed? {
      if tx.TxCreateChannel? {
        CreateChannelEffect(env, t, tx.p, tx.name, tx.visibility, now, id);
      } else {
        CreateThreadEffect(env, t, tx.p, tx.channelId, tx.parentMessageId, tx.visibility, now, id);
      }
      GrowKeepsOwnStreams(t, r.tables, streamOrg, id, tx.p.orgId);
    }
  }

  lemma NoNewStreams(streamOrg: map<Id, Id>, tx: Tx, value: Value)
    requires !tx.TxCreateChannel? && !tx.TxCreateThread?
    ensures streamOrg + NewStreams(tx, value) == streamOrg
  {
    assert streamOrg + map[] == streamOrg;
  }

  lemma CommitKeepsOwnStreams(env: Env, t: Tables, tx: Tx, now: nat, id: Id, streamOrg: map<Id, Id>)
    requires OwnStreams(t, streamOrg) && CheckedInOrg(streamOrg, tx) && id !in streamOrg
    ensures var r := Commit(env, t, tx, now, id);
            r.Committed? ==> OwnStreams(r.tables, streamOrg + NewStreams(tx, r.value))
  {
    hide Commit, AppendTx, RedactTx, DeleteChannelTx, DeleteOrgTx, OwnStreams, NewStreams;
    CommitIsItsTx(env, t, tx, now, id);
    var r := Commit(env, t, tx, now, id);
    if tx.TxCreateChannel? || tx.TxCreateThread? {
      CreationKeepsOwnStreams(env, t, tx, now, id, streamOrg);
    } else if r.Committed? {
      NoNewStreams(streamOrg, tx, r.value);
      match tx
      case TxAppend(p, x, st, parts, key) =>
        AppendEffect(env, t, p, x, st, parts, key, now, id);
        PostKeepsOwnStreams(t, r.tables, streamOrg, NewMessage(t, p, x, st, key, now, id));
      case TxRedact(p, m, x, st, a, reason) =>
        RedactEffect(env, t, p, m, x, st, a, reason, now);
        RedactKeepsOwnStreams(t, r.tables, streamOrg, m);
      case TxDeleteChannel(p, c) =>
        DeleteChannelKeepsOwnStreams(env, t, p, c, now, streamOrg);
      case TxDeleteOrg(p, o, ids) =>
        DeleteOrgEffect(env, t, p, o, ids, now);
        AfterDeletesKeepsOwnStreams(t, o, ids, streamOrg);
      case _ =>
        OffStreamCommit(env, t, tx, now, id);
        SameKeepsOwnStreams(t, r.tables, streamOrg);
    }
  }

  lemma GrowKeepsOwnStreams(t: Tables, t': Tables, streamOrg: map<Id, Id>, id: Id, orgId: Id)
    requires OwnStreams(t, streamOrg) && id !in streamOrg
    requires t'.messages == t.messages && t'.counters == t.counters
    requires || (t'.threads == t.threads && exists c: Channel :: c.orgId == orgId && t'.channels == t.channels[id := c])
             || (t'.channels == t.channels && exists h: Thread :: h.orgId == orgId && t'.threads == t.threads[id := h])
    ensures OwnStreams(t', streamOrg + map[id := orgId])
  {
  }

  lemma PostKeepsOwnStreams(t: Tables, t': Tables, streamOrg: map<Id, Id>, m: Message)
    requires OwnStreams(t, streamOrg) && m.streamId in streamOrg && streamOrg[m.streamId] == m.orgId
    requires t' == t || (t'.messages == t.messages + [m] && t'.channels == t.channels && t'.threads == t.threads
                         && t'.counters == t.counters[m.streamId := m.streamSeq + 1])
    ensures OwnStreams(t', streamOrg)
  {
  }

  lemma RedactKeepsOwnStreams(t: Tables, t': Tables, streamOrg: map<Id, Id>, id: Id)
    requires OwnStreams(t, streamOrg)
    requires t'.messages == MarkRedacted(t.messages, id) && t'.channels == t.channels && t'.threads == t.threads
    requires t'.counters == t.counters
    ensures OwnStreams(t', streamOrg)
  {
    forall m | m in t'.messages
      ensures m.streamId in streamOrg && streamOrg[m.streamId] == m.orgId
    {
      var i :| 0 <= i < |t'.messages| && t'.messages[i] == m;
      assert t.messages[i] in t.messages;
    }
  }

  lemma ExecKeepsStreamInv(env: Env, s: Sys, step: Step)
    requires StreamInv(s)
    ensures StreamInv(Exec(env, s, step))
  {
    hide Commit, Check, CheckedInOrg, DroppedStreams, NewStreams;
    match step
    case Begin(callNo, call, now) =>
      if Check(s.tables, call, now).Ok? { CheckEstablishes(s, call, now); }
    case Finish(callNo, now, id) =>
      if callNo in s.pending && id !in s.usedIds {
        var tx := s.pending[callNo];
        var r := Commit(env, s.tables, tx, now, id);
        CommitKeepsOwnStreams(env, s.tables, tx, now, id, s.streamOrg);
        NewStreamsFresh(env, s.tables, tx, now, id);
        if r.Committed? {
          forall n | n in s.pending
            ensures CheckedInOrg(s.streamOrg + NewStreams(tx, r.value), s.pending[n])
          {
            MoreStreams(s.streamOrg, NewStreams(tx, r.value), s.pending[n]);
          }
        }
      }
    case Abandon(callNo) =>
  }

  lemma {:induction false} RunKeepsStreamInv(env: Env, steps: seq<Step>)
    ensures StreamInv(Run(env, steps))
  {
    hide Exec, StreamInv;
    if steps == [] {
      StartStreamInv();
    } else {
      RunKeepsStreamInv(env, steps[..|steps| - 1]);
      ExecKeepsStreamInv(env, Run(env, steps[..|steps| - 1]), steps[|steps| - 1]);
    }
  }

  lemma StartStreamInv()
    ensures StreamInv(START)
  {
  }

  // ---------- dense numbering over runs ----------

  lemma CommitKeepsDense(env: Env, t: Tables, tx: Tx, now: nat, id: Id, streamOrg: map<Id, Id>)
    requires Dense(t) && OwnStreams(t, streamOrg) && CheckedInOrg(streamOrg, tx) && !tx.TxDeleteOrg?
    ensures var r := Commit(env, t, tx, now, id); r.Committed? ==> Dense(r.tables)
  {
    hide Commit, CreateChannelTx, CreateThreadTx, AppendTx, RedactTx, DeleteChannelTx, MarkRedacted;
    CommitIsItsTx(env, t, tx, now, id);
    var r := Commit(env, t, tx, now, id);
    if r.Committed? {
      match tx
      case TxCreateChannel(p, name, v) =>
        CreateChannelEffect(env, t, p, name, v, now, id);
        SameKeepsDense(t, r.tables);
      case TxCreateThread(p, c, m, v) =>
        CreateThreadEffect(env, t, p, c, m, v, now, id);
        SameKeepsDense(t, r.tables);
      case TxAppend(p, x, st, parts, key) =>
        AppendEffect(env, t, p, x, st, parts, key, now, id);
        if !r.value.idempotent { AppendKeepsDense(t, r.tables, NewMessage(t, p, x, st, key, now, id)); }
      case TxRedact(p, m, x, st, a, reason) =>
        RedactEffect(env, t, p, m, x, st, a, reason, now);
        RedactKeepsDense(t, r.tables, m);
      case TxDeleteChannel(p, c) =>
        DeleteChannelEffect(env, t, p, c, now);
        DeleteChannelKeepsDense(t, r.tables, streamOrg, p.orgId, c);
      case TxDeleteOrg(_, _, _) =>
      case _ =>
        OffStreamCommit(env, t, tx, now, id);
        SameKeepsDense(t, r.tables);
    }
  }

  lemma SameKeepsDense(t: Tables, t': Tables)
    requires Dense(t) && t'.messages == t.messages && t'.counters == t.counters
    ensures Dense(t')
  {
    forall x
      ensures DenseStream(t', x)
    {
      assert DenseStream(t, x);
    }
  }

  lemma DeleteChannelKeepsDense(t: Tables, t': Tables, streamOrg: map<Id, Id>, orgId: Id, channelId: Id)
    requires Dense(t) && OwnStreams(t, streamOrg) && channelId in streamOrg && streamOrg[channelId] == orgId
    requires t'.messages == Where(t.messages, MessageOutside(orgId, ChannelStreams(t, orgId, channelId)))
    requires t'.counters == t.counters - ChannelStreams(t, orgId, channelId)
    ensures Dense(t')
  {
    hide Dense;
    DropKeepsDense(t, t', MessageOutside(orgId, ChannelStreams(t, orgId, channelId)), ChannelStreams(t, orgId, channelId));
  }

  predicate NeverDeletesOrg(steps: seq<Step>) {
    forall i :: 0 <= i < |steps| ==> steps[i].Begin? ==> !steps[i].call.DeleteOrg?
  }

  lemma OnlyDeleteOrgDrops(t: Tables, call: Call, now: nat)
    requires !call.DeleteOrg? && Check(t, call, now).Ok?
    ensures !Check(t, call, now).value.TxDeleteOrg?
  {
    hide HasGrant, FindById, AdministersChannel, MayResolve, ActiveGrantIds, OrgHasGrant, KnownActor, Readable, PartsValid, HasCommand;
  }

  ghost predicate DenseInv(s: Sys) {
    && StreamInv(s)
    && Dense(s.tables)
    && forall n :: n in s.pending ==> !s.pending[n].TxDeleteOrg?
  }

  lemma ExecKeepsDense(env: Env, s: Sys, step: Step)
    requires DenseInv(s) && (step.Begin? ==> !step.call.DeleteOrg?)
    ensures DenseInv(Exec(env, s, step))
  {
    hide Commit, Check, CheckedInOrg, DroppedStreams, NewStreams, Dense;
    ExecKeepsStreamInv(env, s, step);
    match step
    case Begin(callNo, call, now) =>
      if Check(s.tables, call, now).Ok? { OnlyDeleteOrgDrops(s.tables, call, now); }
    case Finish(callNo, now, id) =>
      if callNo in s.pending && id !in s.usedIds {
        CommitKeepsDense(env, s.tables, s.pending[callNo], now, id, s.streamOrg);
      }
    case Abandon(callNo) =>
  }

  lemma {:induction false} RunKeepsDense(env: Env, steps: seq<Step>)
    requires NeverDeletesOrg(steps)
    ensures DenseInv(Run(env, steps))
  {
    hide Exec, DenseInv;
    if steps == [] {
      StartDense();
    } else {
      RunKeepsDense(env, steps[..|steps| - 1]);
      ExecKeepsDense(env, Run(env, steps[..|steps| - 1]), steps[|steps| - 1]);
    }
  }

  lemma StartDense()
    ensures DenseInv(START)
  {
    StartStreamInv();
  }

  /**
   * Main result: whatever interleaves, commits and aborts, short of deleting an org, each stream's
   * messages carry exactly the numbers 1..n in table order, and its counter stands at n + 1.
   */
  lemma DenseNumbering(env: Env, steps: seq<Step>, streamId: Id)
    requires NeverDeletesOrg(steps)
    ensures DenseStream(Run(env, steps).tables, streamId)
  {
    hide Run, DenseStream;
    RunKeepsDense(env, steps);
  }

  // ---------- dense numbering in runs that delete orgs ----------

  /** If the step commits a `deleteOrg`, that had collected every stream of the org with a counter. */
  ghost predicate Collects(env: Env, s: Sys, step: Step) {
    step.Finish? && step.callNo in s.pending && step.id !in s.usedIds && s.pending[step.callNo].TxDeleteOrg?
    && Commit(env, s.tables, s.pending[step.callNo], step.now, step.id).Committed? ==>
      var tx := s.pending[step.callNo];
      forall x :: x in s.tables.counters && x in s.streamOrg && s.streamOrg[x] == tx.orgId ==> x in tx.streamIds
  }

  ghost predicate AlwaysCollects(env: Env, steps: seq<Step>) {
    forall k :: 0 <= k < |steps| ==> Collects(env, Run(env, steps[..k]), steps[k])
  }

  ghost predicate AlwaysDense(env: Env, steps: seq<Step>) {
    forall k :: 0 <= k <= |steps| ==> Dense(Run(env, steps[..k]).tables)
  }

  lemma DeletionDenseIff(env: Env, s: Sys, callNo: nat, now: nat, id: Id)
    requires StreamInv(s) && Dense(s.tables) && callNo in s.pending && id !in s.usedIds && s.pending[callNo].TxDeleteOrg?
    ensures Dense(Exec(env, s, Finish(callNo, now, id)).tables) <==> Collects(env, s, Finish(callNo, now, id))
  {
    hide Commit, DeleteOrgTx, AfterDeletes, Dense, NewStreams, DroppedStreams;
    var tx := s.pending[callNo];
    CommitIsItsTx(env, s.tables, tx, now, id);
    DeleteOrgEffect(env, s.tables, tx.p, tx.orgId, tx.streamIds, now);
    assert CheckedInOrg(s.streamOrg, tx);
    DeleteOrgDenseIff(s.tables, s.streamOrg, tx.orgId, tx.streamIds);
  }

  lemma StepDenseIff(env: Env, s: Sys, step: Step)
    requires StreamInv(s) && Dense(s.tables)
    ensures Dense(Exec(env, s, step).tables) <==> Collects(env, s, step)
  {
    hide Commit, Check, CheckedInOrg, DroppedStreams, NewStreams, Dense;
    if step.Finish? && step.callNo in s.pending && step.id !in s.usedIds {
      assert CheckedInOrg(s.streamOrg, s.pending[step.callNo]);
      if s.pending[step.callNo].TxDeleteOrg? {
        DeletionDenseIff(env, s, step.callNo, step.now, step.id);
      } else {
        CommitKeepsDense(env, s.tables, s.pending[step.callNo], step.now, step.id, s.streamOrg);
      }
    }
  }

  lemma OneStepMore(env: Env, steps: seq<Step>)
    requires steps != []
    ensures var front := steps[..|steps| - 1];
            && (AlwaysDense(env, steps) <==> AlwaysDense(env, front) && Dense(Run(env, steps).tables))
            && (AlwaysCollects(env, steps) <==> AlwaysCollects(env, front) && Collects(env, Run(env, front), steps[|steps| - 1]))
  {
    hide Run, Dense, Collects;
    var front := steps[..|steps| - 1];
    assert forall k :: 0 <= k <= |front| ==> steps[..k] == front[..k];
    assert steps[..|steps|] == steps && front[..|front|] == front;
  }

  /**
   * Main result: over every run, deletions of orgs included, the numbering is dense in every state
   * exactly if every committed `deleteOrg` had collected all streams of its org that had a counter.
   */
  lemma {:induction false} AlwaysDenseIff(env: Env, steps: seq<Step>)
    ensures AlwaysDense(env, steps) <==> AlwaysCollects(env, steps)
  {
    hide Exec, Dense, Collects, AlwaysDense, AlwaysCollects, StreamInv;
    if steps == [] {
      NothingDense(env);
    } else {
      var front := steps[..|steps| - 1];
      AlwaysDenseIff(env, front);
      OneStepMore(env, steps);
      RunKeepsStreamInv(env, front);
      if AlwaysDense(env, front) {
        LastDense(env, front);
        StepDenseIff(env, Run(env, front), steps[|steps| - 1]);
      }
    }
  }

  lemma NothingDense(env: Env)
    ensures AlwaysDense(env, []) && AlwaysCollects(env, [])
  {
    StartDense();
  }

  lemma LastDense(env: Env, steps: seq<Step>)
    requires AlwaysDense(env, steps)
    ensures Dense(Run(env, steps).tables)
  {
    hide Run, Dense;
    assert steps[..|steps|] == steps;
  }

  // ---------- paging ----------

  const MAX_LIST_LIMIT: nat := 500

  function NumberedAfter(afterSeq: nat): Message -> bool {
    (m: Message) => m.streamSeq > afterSeq
  }

  function ClampLimit(limit: int): nat {
    if limit < 1 then 1 else if limit > MAX_LIST_LIMIT then MAX_LIST_LIMIT else limit
  }

  /** One page of a stream, as `listMessages` selects it; `rows` are in number order. */
  function ListMessages(rows: seq<Message>, afterSeq: nat, limit: int): seq<Message> {
    var hits := Where(rows, NumberedAfter(afterSeq));
    if |hits| <= ClampLimit(limit) then hits else hits[..ClampLimit(limit)]
  }

  lemma {:induction false} AfterIsSuffix(rows: seq<Message>, k: nat)
    requires Numbered(rows) && k <= |rows|
    ensures Where(rows, NumberedAfter(k)) == rows[k..]
  {
    if |rows| == k {
      WhereNone(rows, NumberedAfter(k));
    } else {
      AfterIsSuffix(rows[..|rows| - 1], k);
      assert rows[k..] == rows[..|rows| - 1][k..] + [rows[|rows| - 1]];
    }
  }

  /** What a reader sees who asks again with the last number seen, until a page comes back empty. */
  function AllPages(rows: seq<Message>, afterSeq: nat, limit: int): seq<Message>
    requires Numbered(rows) && afterSeq <= |rows|
    decreases |rows| - afterSeq
  {
    PageIsSlice(rows, afterSeq, limit);
    var page := ListMessages(rows, afterSeq, limit);
    if page == [] then [] else page + AllPages(rows, page[|page| - 1].streamSeq, limit)
  }

  lemma PageIsSlice(rows: seq<Message>, afterSeq: nat, limit: int)
    requires Numbered(rows) && afterSeq <= |rows|
    ensures var page := ListMessages(rows, afterSeq, limit);
            && afterSeq + |page| <= |rows| && page == rows[afterSeq..afterSeq + |page|]
            && (page == [] ==> afterSeq == |rows|)
            && (page != [] ==> page[|page| - 1].streamSeq == afterSeq + |page|)
  {
    AfterIsSuffix(rows, afterSeq);
    var page := ListMessages(rows, afterSeq, limit);
    assert page == rows[afterSeq..][..|page|];
  }

  /** Main result: paging visits every message of a densely numbered stream once, in order, and ends. */
  lemma {:induction false} PagingVisitsAllOnce(rows: seq<Message>, afterSeq: nat, limit: int)
    requires Numbered(rows) && afterSeq <= |rows|
    ensures AllPages(rows, afterSeq, limit) == rows[afterSeq..]
    decreases |rows| - afterSeq
  {
    hide ListMessages, Numbered;
    PageIsSlice(rows, afterSeq, limit);
    var page := ListMessages(rows, afterSeq, limit);
    if page != [] {
      var next := afterSeq + |page|;
      PagingVisitsAllOnce(rows, next, limit);
      assert rows[afterSeq..] == rows[afterSeq..next] + rows[next..];
    }
  }
}
