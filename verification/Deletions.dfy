// deleteChannel and deleteOrg under every interleaving: the plugin rows that refuse them, runs in
// which they are refused, and a run in which deleteOrg leaves a counter behind.

module Deletions {
  import opened Prelude
  import opened CanonicalJson
  import opened AuditChain
  import opened Tables
  import opened ServiceSpec
  import opened ServiceRuns
  import opened MessageLaws
  import opened Cascades

  // ---------- foreign keys over runs ----------

  /** An id that was drawn before, and that leads to the org if it still leads anywhere. */
  predicate ActorVouched(t: Tables, usedIds: set<Id>, orgId: Id, actorId: Id) {
    actorId in usedIds && (actorId in t.actors ==> t.actors[actorId].orgId == orgId)
  }

  predicate ChannelVouched(t: Tables, usedIds: set<Id>, orgId: Id, channelId: Id) {
    channelId in usedIds && (channelId in t.channels ==> t.channels[channelId].orgId == orgId)
  }

  /** What a check established about the keys its transaction uses, and no later step can undo. */
  ghost predicate KeysVouched(t: Tables, usedIds: set<Id>, tx: Tx) {
    match tx
    case TxRegisterCommand(p, _, _) => ActorVouched(t, usedIds, p.orgId, p.actorId)
    case TxOpenPluginRow(row) =>
      && ActorVouched(t, usedIds, row.orgId, row.actorId)
      && (row.channelId.Some? ==> ChannelVouched(t, usedIds, row.orgId, row.channelId.value))
    case TxDeleteChannel(p, channelId) => ChannelVouched(t, usedIds, p.orgId, channelId)
    case _ => true
  }

  ghost predicate KeyInv(s: Sys) {
    && OwnKeys(s.tables)
    && s.tables.actors.Keys <= s.usedIds && s.tables.channels.Keys <= s.usedIds && s.tables.plugins.Keys <= s.usedIds
    && "" in s.usedIds && "" !in s.tables.actors
    && (forall n :: n in s.pending ==> KeysVouched(s.tables, s.usedIds, s.pending[n]))
  }

  /** Actors, channels and threads are kept or dropped, plugin rows are kept; a new one has the step's fresh id. */
  ghost predicate OnlyNew(t: Tables, r: Tables, id: Id) {
    && (forall a :: a in r.actors && a != id ==> a in t.actors && r.actors[a] == t.actors[a])
    && (forall c :: c in r.channels && c != id ==> c in t.channels && r.channels[c] == t.channels[c])
    && (forall h :: h in r.threads && h != id ==> h in t.threads && r.threads[h] == t.threads[h])
    && (forall x :: x in t.plugins && x != id ==> x in r.plugins && r.plugins[x] == t.plugins[x])
    && r.plugins.Keys <= t.plugins.Keys + {id}
  }

  ghost predicate KeysKept(t: Tables, r: Outcome, id: Id) {
    r.Committed? ==> OwnKeys(r.tables) && OnlyNew(t, r.tables, id)
  }

  predicate SameKeys(t: Tables, r: Tables) {
    && r.orgs == t.orgs && r.actors == t.actors && r.channels == t.channels && r.threads == t.threads
    && r.commands == t.commands && r.plugins == t.plugins
  }

  /** Transactions that touch no table with a foreign key, and none that one leads to. */
  predicate OffKeys(tx: Tx) {
    || tx.TxAddMember? || tx.TxRemoveMember? || tx.TxAppend? || tx.TxRedact? || tx.TxCreateGrant?
    || tx.TxRevokeGrants? || tx.TxOpenRequest? || tx.TxRegisterArtifact? || tx.TxDeleteArtifact? || tx.TxUpdateCursor?
    || tx.TxRegisterClient?
  }

  lemma AppendOffKeys(env: Env, t: Tables, p: Principal, streamId: Id, streamType: StreamType, parts: seq<MessagePart>,
                      key: string, now: nat, id: Id)
    ensures var r := AppendTx(env, t, p, streamId, streamType, parts, key, now, id); r.Committed? ==> SameKeys(t, r.tables)
  {
    hide AuditAll, PayForAppend, PostEvents, PartRows;
  }

  lemma RedactOffKeys(env: Env, t: Tables, p: Principal, messageId: Id, streamId: Id, streamType: StreamType, isAuthor: bool,
                      reason: string, now: nat)
    ensures var r := RedactTx(env, t, p, messageId, streamId, streamType, isAuthor, reason, now); r.Committed? ==> SameKeys(t, r.tables)
  {
    hide AuditAll, PayForRedact, MarkRedacted, RedactedEvent, Where;
  }

  lemma StreamTxOffKeys(env: Env, t: Tables, tx: Tx, now: nat, id: Id)
    requires tx.TxRegisterArtifact? || tx.TxDeleteArtifact?
    ensures var r := Commit(env, t, tx, now, id); r.Committed? ==> SameKeys(t, r.tables)
  {
    hide AuditAll, PayForArtifact, MarkDeleted, ArtifactRegisteredEvent, ArtifactDeletedEvent;
  }

  lemma OtherTxOffKeys(env: Env, t: Tables, tx: Tx, now: nat, id: Id)
    requires tx.TxAddMember? || tx.TxRemoveMember? || tx.TxCreateGrant? || tx.TxRevokeGrants? || tx.TxOpenRequest?
             || tx.TxUpdateCursor? || tx.TxRegisterClient?
    ensures var r := Commit(env, t, tx, now, id); r.Committed? ==> SameKeys(t, r.tables)
  {
    hide AuditAll, Deactivate, RevokeEvents, GrantCreatedEvent, RequestCreatedEvent, MemberAddedEvent, MemberRemovedEvent;
    hide CursorUpdatedEvent, ClientRegisteredEvent;
  }

  lemma SameKeysKeep(t: Tables, r: Outcome, id: Id)
    requires OwnKeys(t) && (r.Committed? ==> SameKeys(t, r.tables))
    ensures KeysKept(t, r, id)
  {
    hide ActorsOk, CommandsOk, PluginsOk;
  }

  lemma OffKeysKeeps(env: Env, t: Tables, tx: Tx, now: nat, id: Id)
    requires OwnKeys(t) && OffKeys(tx)
    ensures KeysKept(t, Commit(env, t, tx, now, id), id)
  {
    hide Commit, AppendTx, RedactTx, OwnKeys, SameKeys, KeysKept;
    CommitIsItsTx(env, t, tx, now, id);
    match tx {
      case TxAppend(p, x, st, parts, key) => AppendOffKeys(env, t, p, x, st, parts, key, now, id);
      case TxRedact(p, m, x, st, a, reason) => RedactOffKeys(env, t, p, m, x, st, a, reason, now);
      case TxRegisterArtifact(_, _, _) => StreamTxOffKeys(env, t, tx, now, id);
      case TxDeleteArtifact(_, _, _, _) => StreamTxOffKeys(env, t, tx, now, id);
      case _ => OtherTxOffKeys(env, t, tx, now, id);
    }
    SameKeysKeep(t, Commit(env, t, tx, now, id), id);
  }

  lemma ResolveCommandKeepsKeys(env: Env, t: Tables, p: Principal, requestId: Id, request: Request, approve: bool, now: nat, id: Id)
    requires OwnKeys(t)
    ensures KeysKept(t, ResolveCommandTx(env, t, p, requestId, request, approve, now), id)
  {
    CommandsFlip(t.commands, t.actors, CommandIdOf(request.context), approve);
    hide AuditAll, CommandIdOf, SetStatus, SetEnabled, ResolvedEvent, CommandRegisteredEvent, ActorsOk, CommandsOk, PluginsOk;
  }

  lemma DecisionKeepsKeys(env: Env, t: Tables, p: Principal, requestId: Id, request: Request, expiresAt: Option<nat>,
                          maxUses: Option<nat>, now: nat, id: Id)
    requires OwnKeys(t)
    ensures KeysKept(t, DenyTx(env, t, p, requestId, now), id)
    ensures KeysKept(t, ApproveTx(env, t, p, requestId, request, expiresAt, maxUses, now, id), id)
  {
    hide AuditAll, SetStatus, ResolvedEvent, GrantCreatedEvent, ActorsOk, CommandsOk, PluginsOk;
  }

  lemma ResolveKeepsKeys(env: Env, t: Tables, p: Principal, requestId: Id, request: Request, approve: bool,
                         expiresAt: Option<nat>, maxUses: Option<nat>, now: nat, id: Id)
    requires OwnKeys(t)
    ensures KeysKept(t, ResolveTx(env, t, p, requestId, request, approve, expiresAt, maxUses, now, id), id)
  {
    hide ResolveCommandTx, DenyTx, ApproveTx, KeysKept, OwnKeys;
    ResolveCommandKeepsKeys(env, t, p, requestId, request, approve, now, id);
    DecisionKeepsKeys(env, t, p, requestId, request, expiresAt, maxUses, now, id);
  }

  lemma CreateOrgKeepsKeys(env: Env, t: Tables, name: string, now: nat, id: Id)
    requires OwnKeys(t)
    ensures KeysKept(t, CreateOrgTx(env, t, name, now, id), id)
  {
    hide AuditAll, OrgCreatedEvent, PluginsOk, CommandsOk;
  }

  lemma CreateActorKeepsKeys(env: Env, t: Tables, orgId: Id, now: nat, id: Id)
    requires OwnKeys(t) && id !in t.actors
    ensures KeysKept(t, CreateActorTx(env, t, orgId, now, id), id)
  {
    hide AuditAll, ActorJoinedEvent;
  }

  lemma CreateChannelKeepsKeys(env: Env, t: Tables, p: Principal, name: string, visibility: Visibility, now: nat, id: Id)
    requires OwnKeys(t) && id !in t.channels
    ensures KeysKept(t, CreateChannelTx(env, t, p, name, visibility, now, id), id)
  {
    hide AuditAll, Consume, ChannelCreatedEvent, OwnerEvent, ActorsOk, CommandsOk;
  }

  lemma CreateThreadKeepsKeys(env: Env, t: Tables, p: Principal, channelId: Id, parent: Id, visibility: Visibility, now: nat, id: Id)
    requires OwnKeys(t)
    ensures KeysKept(t, CreateThreadTx(env, t, p, channelId, parent, visibility, now, id), id)
  {
    hide AuditAll, Consume, ThreadCreatedEvent, ActorsOk, CommandsOk, PluginsOk;
  }

  lemma RegistrationKeepsKeys(env: Env, t: Tables, usedIds: set<Id>, p: Principal, name: string, channelId: Option<Id>, now: nat, id: Id)
    requires OwnKeys(t) && ActorVouched(t, usedIds, p.orgId, p.actorId)
    ensures KeysKept(t, RegisterCommandTx(env, t, p, name, channelId, now, id), id)
  {
    hide AuditAll, CommandRequestedEvent, CommandRequest, ActorsOk, PluginsOk;
  }

  lemma PluginRowKeepsKeys(t: Tables, usedIds: set<Id>, row: PluginRow, id: Id)
    requires OwnKeys(t) && KeysVouched(t, usedIds, TxOpenPluginRow(row))
    ensures KeysKept(t, OpenPluginRowTx(t, row, id), id)
  {
    hide ActorsOk, CommandsOk;
  }

  /** The cascade on a channel that no plugin row holds. */
  lemma ChannelGoneKeys(t: Tables, orgId: Id, channelId: Id, id: Id)
    requires OwnKeys(t) && Unbound(t.plugins, channelId)
    ensures var r := WithoutChannel(t, orgId, channelId); OwnKeys(r) && OnlyNew(t, r, id)
  {
    hide Where, MessageIds, ChannelStreams, DisownArtifacts, MembersOutside, ActorsOk;
  }

  lemma DeleteChannelKeepsKeys(env: Env, t: Tables, p: Principal, channelId: Id, now: nat, id: Id)
    requires OwnKeys(t) && (channelId in t.channels ==> t.channels[channelId].orgId == p.orgId)
    ensures KeysKept(t, DeleteChannelTx(env, t, p, channelId, now), id)
  {
    hide DeleteChannelTx, WithoutChannel, Unbound, OwnKeys, OnlyNew, SameKeys;
    DeleteChannelCommitsIff(env, t, p, channelId, now);
    if Unbound(t.plugins, channelId) {
      ChannelGoneKeys(t, p.orgId, channelId, id);
      DeletionKeys(env, t, p, channelId, now);
      SameKeysAsKept(t, WithoutChannel(t, p.orgId, channelId), DeleteChannelTx(env, t, p, channelId, now).tables, id);
    }
  }

  lemma DeletionKeys(env: Env, t: Tables, p: Principal, channelId: Id, now: nat)
    ensures var r := DeleteChannelTx(env, t, p, channelId, now);
            r.Committed? ==> SameKeys(WithoutChannel(t, p.orgId, channelId), r.tables)
  {
    hide AuditAll, WithoutChannel, ChannelStreams, ChannelDeletedEvent, ForeignKeysHold;
  }

  lemma SameKeysAsKept(t: Tables, mid: Tables, r: Tables, id: Id)
    requires OwnKeys(mid) && OnlyNew(t, mid, id) && SameKeys(mid, r)
    ensures OwnKeys(r) && OnlyNew(t, r, id)
  {
    hide ActorsOk, CommandsOk, PluginsOk;
  }

  lemma DeleteOrgKeepsKeys(env: Env, t: Tables, p: Principal, orgId: Id, streamIds: set<Id>, now: nat, id: Id)
    requires OwnKeys(t)
    ensures KeysKept(t, DeleteOrgTx(env, t, p, orgId, streamIds, now), id)
  {
    DeleteOrgCommitsIff(t, orgId, streamIds);
    if NoPluginRows(t, orgId) { OrgGoneKeys(t, orgId, streamIds, id); }
    hide AfterDeletes, OrgDeletedEvent, OwnKeys, OnlyNew, NoPluginRows, DeletesAllowed;
  }

  lemma OrgGoneKeys(t: Tables, orgId: Id, streamIds: set<Id>, id: Id)
    requires OwnKeys(t) && NoPluginRows(t, orgId)
    ensures var r := AfterDeletes(t, orgId, streamIds, DELETES); OwnKeys(r) && OnlyNew(t, r, id)
  {
    hide Where, OrgMessageIds, ArtifactsNotOf, MembersNotOf, RequestsNotOf, CursorsNotOf, ClientsNotOf;
  }

  lemma CommitKeepsKeys(env: Env, t: Tables, usedIds: set<Id>, tx: Tx, now: nat, id: Id)
    requires OwnKeys(t) && t.actors.Keys <= usedIds && t.channels.Keys <= usedIds
    requires KeysVouched(t, usedIds, tx) && id !in usedIds
    ensures KeysKept(t, Commit(env, t, tx, now, id), id)
  {
    hide CreateOrgTx, CreateActorTx, CreateChannelTx, CreateThreadTx, AppendTx, RedactTx, RegisterCommandTx, OpenPluginRowTx, ResolveTx,
         DeleteChannelTx, DeleteOrgTx, AddMemberTx, RemoveMemberTx, CreateGrantTx, RevokeGrantsTx, OpenRequestTx, RegisterArtifactTx,
         DeleteArtifactTx, UpdateCursorTx, RegisterClientTx, OwnKeys, KeysKept;
    match tx
    case TxCreateOrg(name) => CreateOrgKeepsKeys(env, t, name, now, id);
    case TxCreateActor(orgId) => CreateActorKeepsKeys(env, t, orgId, now, id);
    case TxCreateChannel(p, name, v) => CreateChannelKeepsKeys(env, t, p, name, v, now, id);
    case TxCreateThread(p, c, m, v) => CreateThreadKeepsKeys(env, t, p, c, m, v, now, id);
    case TxRegisterCommand(p, name, c) => RegistrationKeepsKeys(env, t, usedIds, p, name, c, now, id);
    case TxOpenPluginRow(row) => PluginRowKeepsKeys(t, usedIds, row, id);
    case TxResolve(p, q, request, a, e, u) => ResolveKeepsKeys(env, t, p, q, request, a, e, u, now, id);
    case TxDeleteChannel(p, c) => DeleteChannelKeepsKeys(env, t, p, c, now, id);
    case TxDeleteOrg(p, o, ids) => DeleteOrgKeepsKeys(env, t, p, o, ids, now, id);
    case _ => OffKeysKeeps(env, t, tx, now, id);
  }

  lemma StillVouched(t: Tables, r: Tables, usedIds: set<Id>, id: Id, tx: Tx)
    requires KeysVouched(t, usedIds, tx) && OnlyNew(t, r, id) && id !in usedIds
    ensures KeysVouched(r, usedIds + {id}, tx)
  {
  }

  lemma CheckVouchesKeys(t: Tables, usedIds: set<Id>, call: Call, now: nat)
    requires t.actors.Keys <= usedIds && t.channels.Keys <= usedIds && Check(t, call, now).Ok?
    ensures KeysVouched(t, usedIds, Check(t, call, now).value)
  {
    hide HasGrant, AdministersChannel, MayResolve, ActiveGrantIds, OrgHasGrant, OrgStreams, IsMember, CheckAppend, HasCapability,
         StreamDenial;
    if call.AppendMessage? {
      CheckAppendVouches(t, call.p, call.streamId, call.streamType, call.parts, call.key, call.autoRequestOnDeny, now);
    }
  }

  lemma ExecKeepsKeys(env: Env, s: Sys, step: Step)
    requires KeyInv(s)
    ensures KeyInv(Exec(env, s, step))
  {
    hide Commit, Check, OwnKeys, KeysVouched, DroppedStreams, NewStreams;
    match step
    case Begin(callNo, call, now) =>
      if Check(s.tables, call, now).Ok? { CheckVouchesKeys(s.tables, s.usedIds, call, now); }
    case Finish(callNo, now, id) =>
      if callNo in s.pending && id !in s.usedIds {
        var tx := s.pending[callNo];
        var r := Commit(env, s.tables, tx, now, id);
        CommitKeepsKeys(env, s.tables, s.usedIds, tx, now, id);
        if r.Committed? {
          forall n | n in s.pending
            ensures KeysVouched(r.tables, s.usedIds + {id}, s.pending[n])
          {
            StillVouched(s.tables, r.tables, s.usedIds, id, s.pending[n]);
          }
        }
      }
    case Abandon(callNo) =>
  }

  lemma StartKeys()
    ensures KeyInv(START)
  {
  }

  /** In every run, foreign keys lead to rows of the same org. */
  lemma {:induction false} RunKeepsKeys(env: Env, steps: seq<Step>)
    ensures KeyInv(Run(env, steps))
  {
    hide Exec, KeyInv;
    if steps == [] {
      StartKeys();
    } else {
      RunKeepsKeys(env, steps[..|steps| - 1]);
      ExecKeepsKeys(env, Run(env, steps[..|steps| - 1]), steps[|steps| - 1]);
    }
  }

  /**
   * Main result: in every reachable state, `deleteOrg` commits exactly if no durable stream, webhook
   * subscription or Telegram setup belongs to the org.
   */
  lemma OrgDeletableIff(env: Env, steps: seq<Step>, p: Principal, orgId: Id, streamIds: set<Id>, now: nat)
    ensures var t := Run(env, steps).tables;
            DeleteOrgTx(env, t, p, orgId, streamIds, now).Committed? <==> NoPluginRows(t, orgId)
  {
    hide Run, DeletesAllowed, NoPluginRows, OwnKeys, AfterDeletes, OrgDeletedEvent;
    RunKeepsKeys(env, steps);
    DeleteOrgCommitsIff(Run(env, steps).tables, orgId, streamIds);
  }

  /** Main result: in every reachable state, a checked `deleteChannel` commits exactly if no Telegram setup is bound to the channel. */
  lemma ChannelDeletableIff(env: Env, steps: seq<Step>, callNo: nat, now: nat)
    requires var s := Run(env, steps); callNo in s.pending && s.pending[callNo].TxDeleteChannel?
    ensures var s := Run(env, steps);
            var tx := s.pending[callNo];
            DeleteChannelTx(env, s.tables, tx.p, tx.channelId, now).Committed? <==> Unbound(s.tables.plugins, tx.channelId)
  {
    hide Run, DeleteChannelTx, Unbound, OwnKeys;
    RunKeepsKeys(env, steps);
    var s := Run(env, steps);
    assert KeysVouched(s.tables, s.usedIds, s.pending[callNo]);
    DeleteChannelCommitsIff(env, s.tables, s.pending[callNo].p, s.pending[callNo].channelId, now);
  }

  // ---------- runs that go wrong ----------

  const ADMIN := Principal("a", "o", {"org:admin", "channel:create", "message:append", "webhook:subscribe"})

  /** An org with one actor. */
  const OPENING: seq<Step> :=
    [Begin(0, CreateOrg("x"), 0), Finish(0, 0, "o"), Begin(0, CreateActor("o", "x"), 0), Finish(0, 0, "a")]

  /** Tables that hold an org, an actor, perhaps a channel, and nothing else that matters here. */
  predicate Bare(t: Tables, channels: map<Id, Channel>, plugins: map<Id, PluginRow>) {
    && t.orgs == {"o"} && t.actors == map["a" := Actor("o")] && t.channels == channels && t.plugins == plugins
    && t.messages == [] && t.counters == map[] && t.threads == map[]
  }

  lemma RunTwo(env: Env, steps: seq<Step>, a: Step, b: Step)
    ensures Run(env, steps + [a, b]) == Exec(env, Exec(env, Run(env, steps), a), b)
  {
    hide Exec, Run;
    assert steps + [a, b] == (steps + [a]) + [b];
    RunOne(env, steps, a);
    RunOne(env, steps + [a], b);
  }

  /** A call made on its own between the steps of others. */
  lemma CallRuns(env: Env, steps: seq<Step>, n: nat, call: Call, id: Id)
    requires var s := Run(env, steps); n !in s.pending && id !in s.usedIds && Check(s.tables, call, 0).Ok?
    ensures var s, s' := Run(env, steps), Run(env, steps + [Begin(n, call, 0), Finish(n, 0, id)]);
            var r := Commit(env, s.tables, Check(s.tables, call, 0).value, 0, id);
            && s'.pending == s.pending
            && (r.Committed? ==> s'.tables == r.tables && s'.usedIds == s.usedIds + {id} && |s'.log| == |s.log| + 1)
            && (r.Aborted? ==> s' == s)
  {
    hide Run, Commit, Check, NewStreams, DroppedStreams;
    RunTwo(env, steps, Begin(n, call, 0), Finish(n, 0, id));
    var s := Run(env, steps);
    assert s.pending[n := Check(s.tables, call, 0).value] - {n} == s.pending;
  }

  lemma Opening(env: Env)
    ensures var s := Run(env, OPENING); Bare(s.tables, map[], map[]) && s.pending == map[] && s.usedIds == {"", "o", "a"} && |s.log| == 2
  {
    hide Run, Commit, AuditAll;
    var one := [Begin(0, CreateOrg("x"), 0), Finish(0, 0, "o")];
    assert [] + one == one;
    assert OPENING == one + [Begin(0, CreateActor("o", "x"), 0), Finish(0, 0, "a")];
    assert Run(env, []) == START by { RunNothing(env); }
    CallRuns(env, [], 0, CreateOrg("x"), "o");
    FoundOrg(env);
    CallRuns(env, one, 0, CreateActor("o", "x"), "a");
    FoundActor(env, Run(env, one).tables);
  }

  lemma RunNothing(env: Env)
    ensures Run(env, []) == START
  {
  }

  lemma FoundOrg(env: Env)
    ensures var r := Commit(env, EMPTY_TABLES, TxCreateOrg("x"), 0, "o");
            r.Committed? && r.tables.orgs == {"o"} && r.tables.actors == map[] && r.tables.channels == map[] && r.tables.plugins == map[]
            && r.tables.messages == [] && r.tables.counters == map[] && r.tables.threads == map[]
  {
    hide AuditAll, OrgCreatedEvent;
  }

  lemma FoundActor(env: Env, t: Tables)
    requires t.orgs == {"o"} && t.actors == map[] && t.channels == map[] && t.plugins == map[]
    requires t.messages == [] && t.counters == map[] && t.threads == map[]
    ensures var r := Commit(env, t, TxCreateActor("o"), 0, "a"); r.Committed? && Bare(r.tables, map[], map[])
  {
    hide AuditAll, ActorJoinedEvent;
  }

  lemma SubscribedOrg(env: Env, t: Tables)
    requires Bare(t, map[], map[])
    ensures Check(t, SubscribeWebhook(ADMIN, None), 0) == Ok(TxOpenPluginRow(PluginRow("o", "a", None)))
    ensures var r := Commit(env, t, TxOpenPluginRow(PluginRow("o", "a", None)), 0, "w");
            r.Committed? && Bare(r.tables, map[], map["w" := PluginRow("o", "a", None)])
  {
  }

  lemma OrgChecked(t: Tables, channels: map<Id, Channel>, plugins: map<Id, PluginRow>)
    requires Bare(t, channels, plugins)
    ensures Check(t, DeleteOrg(ADMIN, "o"), 0) == Ok(TxDeleteOrg(ADMIN, "o", OrgStreams(t, "o")))
  {
  }

  /** An org with a single webhook subscription, and no durable stream, cannot be deleted: the transaction fails and changes nothing. */
  lemma WebhookRefusesDeleteOrg(env: Env)
    ensures var held := OPENING + [Begin(0, SubscribeWebhook(ADMIN, None), 0), Finish(0, 0, "w")];
            var s := Run(env, held);
            && s.tables.plugins == map["w" := PluginRow("o", "a", None)]
            && Check(s.tables, DeleteOrg(ADMIN, "o"), 0).Ok?
            && Run(env, held + [Begin(0, DeleteOrg(ADMIN, "o"), 0), Finish(0, 0, "z")]) == s
  {
    hide Run, Commit, Check, OrgStreams, NoPluginRows;
    var held := OPENING + [Begin(0, SubscribeWebhook(ADMIN, None), 0), Finish(0, 0, "w")];
    Opening(env);
    SubscribedOrg(env, Run(env, OPENING).tables);
    CallRuns(env, OPENING, 0, SubscribeWebhook(ADMIN, None), "w");
    var t := Run(env, held).tables;
    OrgChecked(t, map[], t.plugins);
    CallRuns(env, held, 0, DeleteOrg(ADMIN, "o"), "z");
    CommitIsItsTx(env, t, TxDeleteOrg(ADMIN, "o", OrgStreams(t, "o")), 0, "z");
    OrgDeletableIff(env, held, ADMIN, "o", OrgStreams(t, "o"), 0);
    assert t.plugins["w"].orgId == "o";
    assert !NoPluginRows(t, "o") by { HasPluginRow(t, "w"); }
  }

  lemma HasPluginRow(t: Tables, r: Id)
    requires r in t.plugins
    ensures !NoPluginRows(t, t.plugins[r].orgId)
  {
  }

  const OPEN_CHANNEL := Channel("o", Public, "a")

  lemma ChannelOpened(env: Env, t: Tables)
    requires Bare(t, map[], map[])
    ensures Check(t, CreateChannel(ADMIN, "x", Public), 0) == Ok(TxCreateChannel(ADMIN, "x", Public))
    ensures var r := Commit(env, t, TxCreateChannel(ADMIN, "x", Public), 0, "c");
            r.Committed? && Bare(r.tables, map["c" := OPEN_CHANNEL], map[])
  {
    hide AuditAll, ChannelCreatedEvent, OwnerEvent;
  }

  lemma TelegramBound(env: Env, t: Tables)
    requires Bare(t, map["c" := OPEN_CHANNEL], map[])
    ensures Check(t, BindTelegram(ADMIN, "a", "c"), 0) == Ok(TxOpenPluginRow(PluginRow("o", "a", Some("c"))))
    ensures var r := Commit(env, t, TxOpenPluginRow(PluginRow("o", "a", Some("c"))), 0, "b");
            r.Committed? && Bare(r.tables, map["c" := OPEN_CHANNEL], map["b" := PluginRow("o", "a", Some("c"))])
  {
  }

  lemma ChannelChecked(t: Tables, plugins: map<Id, PluginRow>)
    requires Bare(t, map["c" := OPEN_CHANNEL], plugins)
    ensures Check(t, DeleteChannel(ADMIN, "c"), 0) == Ok(TxDeleteChannel(ADMIN, "c"))
  {
  }

  /** A channel that a Telegram setup is bound to cannot be deleted, although the caller may administer it. */
  lemma TelegramRefusesDeleteChannel(env: Env)
    ensures var held := OPENING + [Begin(0, CreateChannel(ADMIN, "x", Public), 0), Finish(0, 0, "c")]
                        + [Begin(0, BindTelegram(ADMIN, "a", "c"), 0), Finish(0, 0, "b")];
            var s := Run(env, held);
            && s.tables.plugins == map["b" := PluginRow("o", "a", Some("c"))]
            && Check(s.tables, DeleteChannel(ADMIN, "c"), 0).Ok?
            && Run(env, held + [Begin(0, DeleteChannel(ADMIN, "c"), 0), Finish(0, 0, "z")]) == s
  {
    hide Run, Commit, Check, Unbound, OwnKeys;
    var withChannel := OPENING + [Begin(0, CreateChannel(ADMIN, "x", Public), 0), Finish(0, 0, "c")];
    var held := withChannel + [Begin(0, BindTelegram(ADMIN, "a", "c"), 0), Finish(0, 0, "b")];
    Opening(env);
    ChannelOpened(env, Run(env, OPENING).tables);
    CallRuns(env, OPENING, 0, CreateChannel(ADMIN, "x", Public), "c");
    TelegramBound(env, Run(env, withChannel).tables);
    CallRuns(env, withChannel, 0, BindTelegram(ADMIN, "a", "c"), "b");
    var t := Run(env, held).tables;
    ChannelChecked(t, t.plugins);
    CallRuns(env, held, 0, DeleteChannel(ADMIN, "c"), "z");
    CommitIsItsTx(env, t, TxDeleteChannel(ADMIN, "c"), 0, "z");
    RunKeepsKeys(env, held);
    DeleteChannelCommitsIff(env, t, ADMIN, "c", 0);
    assert !Unbound(t.plugins, "c") by { HoldsChannel(t.plugins, "b"); }
  }

  lemma HoldsChannel(plugins: map<Id, PluginRow>, r: Id)
    requires r in plugins && plugins[r].channelId.Some?
    ensures !Unbound(plugins, plugins[r].channelId.value)
  {
  }

  // ---------- a counter that deleteOrg leaves behind ----------

  lemma BeginRuns(env: Env, steps: seq<Step>, n: nat, call: Call)
    requires var s := Run(env, steps); n !in s.pending && Check(s.tables, call, 0).Ok?
    ensures var s := Run(env, steps);
            Run(env, steps + [Begin(n, call, 0)]) == s.(pending := s.pending[n := Check(s.tables, call, 0).value])
  {
    hide Run, Check;
    RunOne(env, steps, Begin(n, call, 0));
  }

  lemma FinishRuns(env: Env, steps: seq<Step>, n: nat, id: Id)
    requires var s := Run(env, steps); n in s.pending && id !in s.usedIds && Commit(env, s.tables, s.pending[n], 0, id).Committed?
    ensures var s := Run(env, steps);
            Run(env, steps + [Finish(n, 0, id)]).tables == Commit(env, s.tables, s.pending[n], 0, id).tables
  {
    hide Run, Commit;
    RunOne(env, steps, Finish(n, 0, id));
  }

  lemma FirstPost(env: Env, t: Tables)
    requires Bare(t, map["c" := OPEN_CHANNEL], map[])
    ensures var post := AppendMessage(ADMIN, "c", ChannelStream, [TextPart("x")], "k", false);
            Check(t, post, 0) == Ok(TxAppend(ADMIN, "c", ChannelStream, [TextPart("x")], "k"))
    ensures var r := Commit(env, t, TxAppend(ADMIN, "c", ChannelStream, [TextPart("x")], "k"), 0, "m");
            && r.Committed? && r.tables.counters == map["c" := 2] && r.tables.plugins == map[]
            && r.tables.messages == [Message("m", "o", "c", ChannelStream, "a", 1, "k", 0, false)]
  {
    hide AuditAll, PostEvents, PartRows;
    assert [TextPart("x")][0].TextPart?;
  }

  /** What the delete makes of the late stream: no message, and a counter that still stands at two. */
  lemma LateCounterStays(env: Env, t: Tables, m: Message)
    requires t.messages == [m] && m.orgId == "o" && t.counters == map["c" := 2] && t.plugins == map[]
    requires DeleteOrgTx(env, t, ADMIN, "o", {}, 0).Committed?
    ensures var r := DeleteOrgTx(env, t, ADMIN, "o", {}, 0).tables; r.messages == [] && r.counters == map["c" := 2]
  {
    hide Where, ArtifactsNotOf, CommandsNotOf, ThreadsNotOf, ChannelsNotOf, MembersNotOf, RequestsNotOf, ActorsNotOf, CursorsNotOf,
         ClientsNotOf, DeletesAllowed, OrgDeletedEvent, OrgMessageIds;
    WhereNone(t.messages, MessageNotOf("o"));
  }

  const LATE_POST := AppendMessage(ADMIN, "c", ChannelStream, [TextPart("x")], "k", false)

  /** `deleteOrg` is checked, and then a channel opens. */
  const LATE_CHANNEL: seq<Step> :=
    OPENING + [Begin(0, DeleteOrg(ADMIN, "o"), 0)] + [Begin(1, CreateChannel(ADMIN, "x", Public), 0), Finish(1, 0, "c")]

  lemma ChannelOpensLate(env: Env)
    ensures var s := Run(env, LATE_CHANNEL);
            && Bare(s.tables, map["c" := OPEN_CHANNEL], map[]) && s.pending == map[0 := TxDeleteOrg(ADMIN, "o", {})]
            && s.usedIds == {"", "o", "a", "c"}
  {
    hide Run, Commit, Check, OrgStreams;
    var checked := OPENING + [Begin(0, DeleteOrg(ADMIN, "o"), 0)];
    Opening(env);
    var t := Run(env, OPENING).tables;
    OrgChecked(t, map[], map[]);
    BeginRuns(env, OPENING, 0, DeleteOrg(ADMIN, "o"));
    ChannelOpened(env, t);
    CallRuns(env, checked, 1, CreateChannel(ADMIN, "x", Public), "c");
    NoStreamsYet(t);
  }

  lemma PostsLate(env: Env)
    ensures var s := Run(env, LATE_CHANNEL + [Begin(1, LATE_POST, 0), Finish(1, 0, "m")]);
            && s.tables.counters == map["c" := 2] && s.tables.plugins == map[] && "z" !in s.usedIds
            && s.tables.messages == [Message("m", "o", "c", ChannelStream, "a", 1, "k", 0, false)]
            && s.pending == map[0 := TxDeleteOrg(ADMIN, "o", {})]
  {
    hide Run, Commit, Check;
    ChannelOpensLate(env);
    FirstPost(env, Run(env, LATE_CHANNEL).tables);
    CallRuns(env, LATE_CHANNEL, 1, LATE_POST, "m");
  }

  /**
   * A channel opened and posted to between the check of `deleteOrg` and its transaction: the deletion
   * commits, and the channel's counter outlives the org.
   */
  lemma DeleteOrgCanLeaveGap(env: Env)
    ensures var late := LATE_CHANNEL + [Begin(1, LATE_POST, 0), Finish(1, 0, "m")];
            var t := Run(env, late + [Finish(0, 0, "z")]).tables;
            && t.messages == [] && t.counters == map["c" := 2] && !DenseStream(t, "c")
  {
    hide Run, Commit, NoPluginRows, DeleteOrgTx;
    var late := LATE_CHANNEL + [Begin(1, LATE_POST, 0), Finish(1, 0, "m")];
    PostsLate(env);
    var t := Run(env, late).tables;
    OrgDeletableIff(env, late, ADMIN, "o", {}, 0);
    NoRowsAtAll(t, "o");
    CommitIsItsTx(env, t, TxDeleteOrg(ADMIN, "o", {}), 0, "z");
    FinishRuns(env, late, 0, "z");
    LateCounterStays(env, t, t.messages[0]);
  }

  lemma NoStreamsYet(t: Tables)
    requires t.channels == map[] && t.threads == map[]
    ensures OrgStreams(t, "o") == {}
  {
  }

  lemma NoRowsAtAll(t: Tables, orgId: Id)
    requires t.plugins == map[]
    ensures NoPluginRows(t, orgId)
  {
  }
}
