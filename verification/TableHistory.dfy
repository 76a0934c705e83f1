// The tables row by row as their history tells them. Each table has a rule for one row, saying what
// a committed transaction makes of it; replaying the rules over a run's history gives the tables.

module TableHistory {
  import opened Prelude
  import opened CanonicalJson
  import opened AuditChain
  import opened Tables
  import opened ServiceSpec
  import opened ServiceRuns
  import opened MessageLaws

  function At<K, V>(m: map<K, V>, k: K): Option<V> {
    if k in m then Some(m[k]) else None
  }

  /** Replays one row's rule over a history. */
  function Told<K, V>(rule: (Done, K, Option<V>) -> Option<V>, log: seq<Done>, k: K): Option<V> {
    if log == [] then None else rule(log[|log| - 1], k, Told(rule, log[..|log| - 1], k))
  }

  // ---------- the rules ----------

  function OrgAfter(d: Done, id: Id, before: Option<()>): Option<()> {
    match d.tx
    case TxCreateOrg(_) => if d.value == Created(id) then Some(()) else before
    case TxDeleteOrg(_, orgId, _) => if id == orgId then None else before
    case _ => before
  }

  function ActorAfter(d: Done, id: Id, before: Option<Actor>): Option<Actor> {
    match d.tx
    case TxCreateActor(orgId) => if d.value == Created(id) then Some(Actor(orgId)) else before
    case TxDeleteOrg(_, orgId, _) => if before.Some? && before.value.orgId == orgId then None else before
    case _ => before
  }

  function ChannelAfter(d: Done, id: Id, before: Option<Channel>): Option<Channel> {
    match d.tx
    case TxCreateChannel(p, _, visibility) => if d.value == Created(id) then Some(Channel(p.orgId, visibility, p.actorId)) else before
    case TxDeleteChannel(p, channelId) => if id == channelId && before.Some? && before.value.orgId == p.orgId then None else before
    case TxDeleteOrg(_, orgId, _) => if before.Some? && before.value.orgId == orgId then None else before
    case _ => before
  }

  function ThreadAfter(d: Done, id: Id, before: Option<Thread>): Option<Thread> {
    match d.tx
    case TxCreateThread(p, channelId, parent, visibility) =>
      if d.value == Created(id) then Some(Thread(p.orgId, channelId, parent, visibility, p.actorId)) else before
    case TxDeleteChannel(p, channelId) =>
      if before.Some? && before.value.channelId == channelId && before.value.orgId == p.orgId then None else before
    case TxDeleteOrg(_, orgId, _) => if before.Some? && before.value.orgId == orgId then None else before
    case _ => before
  }

  /** Joining an org, owning a channel one created, being added, being removed. */
  function MemberAfter(d: Done, k: MemberKey, before: Option<string>): Option<string> {
    match d.tx
    case TxCreateActor(orgId) => if k.orgId == orgId && k.channelId == None && d.value == Created(k.actorId) then Some("member") else before
    case TxCreateChannel(p, _, _) =>
      if k.orgId == p.orgId && k.actorId == p.actorId && k.channelId.Some? && d.value == Created(k.channelId.value) then Some("owner")
      else before
    case TxAddMember(p, channelId, actorId, role) =>
      if k.orgId == p.orgId && k.actorId == actorId && k.channelId == Some(channelId) then Some(role) else before
    case TxRemoveMember(p, channelId, actorId) =>
      if k.orgId == p.orgId && k.actorId == actorId && k.channelId == Some(channelId) then None else before
    case TxDeleteChannel(p, channelId) => if k.orgId == p.orgId && k.channelId == Some(channelId) then None else before
    case TxDeleteOrg(_, orgId, _) => if k.orgId == orgId then None else before
    case _ => before
  }

  /** Artifacts stay as rows when they are deleted, or their stream is. */
  function ArtifactAfter(d: Done, id: Id, before: Option<Artifact>): Option<Artifact> {
    match d.tx
    case TxRegisterArtifact(p, streamId, streamType) =>
      if d.value == Created(id) then Some(Artifact(p.orgId, streamId, streamType, p.actorId, false)) else before
    case TxDeleteArtifact(p, artifactId, _, _) =>
      if id == artifactId && before.Some? && before.value.orgId == p.orgId then Some(before.value.(deleted := true)) else before
    case TxDeleteChannel(p, _) =>
      if before.Some? && before.value.orgId == p.orgId && before.value.streamId in d.dropped then Some(before.value.(deleted := true))
      else before
    case TxDeleteOrg(_, orgId, _) => if before.Some? && before.value.orgId == orgId then None else before
    case _ => before
  }

  /** The first `commandId` entry of a request's context names the command. */
  predicate NamesCommand(context: Json, id: Id) {
    context.Object? && exists i :: 0 <= i < |context.entries| && context.entries[i] == Entry("commandId", Text(id))
                                   && forall j :: 0 <= j < i ==> context.entries[j].key != "commandId"
  }

  /** Commands start switched off, and the resolution of their request switches them. */
  function CommandAfter(d: Done, id: Id, before: Option<Command>): Option<Command> {
    match d.tx
    case TxRegisterCommand(p, _, scope) => if d.value == Created(id) then Some(Command(p.orgId, p.actorId, scope, false)) else before
    case TxResolve(_, _, request, approve, _, _) =>
      if before.Some? && request.action == "command:register" && NamesCommand(request.context, id)
      then Some(before.value.(enabled := approve)) else before
    case TxDeleteChannel(p, channelId) =>
      if before.Some? && before.value.orgId == p.orgId && before.value.channelId == Some(channelId)
      then Some(before.value.(enabled := false)) else before
    case TxDeleteOrg(_, orgId, _) => if before.Some? && before.value.orgId == orgId then None else before
    case _ => before
  }

  /** Registering a command asks for it; only an approved request for a capability names a grant. */
  function RequestAfter(d: Done, id: Id, before: Option<Request>): Option<Request> {
    match d.tx
    case TxOpenRequest(p, action, rt, rid, context) =>
      if d.value == Created(id) then Some(Request(p.orgId, p.actorId, action, rt, rid, Open, None, context)) else before
    case TxRegisterCommand(p, name, scope) =>
      if d.value.Created? && id == d.value.id + "-request" then Some(CommandRequest(p, d.value.id, name, scope)) else before
    case TxResolve(_, requestId, request, approve, _, _) =>
      if id != requestId || before == None then before
      else if approve && request.action != "command:register" && d.value.Created?
      then Some(before.value.(status := Approved, grantId := Some(d.value.id)))
      else Some(before.value.(status := if approve then Approved else Denied, grantId := None))
    case TxDeleteOrg(_, orgId, _) => if before.Some? && before.value.orgId == orgId then None else before
    case _ => before
  }

  function CursorAfter(d: Done, k: CursorKey, before: Option<Cursor>): Option<Cursor> {
    match d.tx
    case TxUpdateCursor(p, streamId, seen, acked) =>
      if k.orgId == p.orgId && k.actorId == p.actorId && k.streamId == streamId then Some(Cursor(seen, acked)) else before
    case TxDeleteOrg(_, orgId, _) => if k.orgId == orgId then None else before
    case _ => before
  }

  function ClientAfter(d: Done, id: Id, before: Option<Client>): Option<Client> {
    match d.tx
    case TxRegisterClient(p, endpoint) => if d.value == Created(id) then Some(Client(p.orgId, p.actorId, endpoint)) else before
    case TxDeleteOrg(_, orgId, _) => if before.Some? && before.value.orgId == orgId then None else before
    case _ => before
  }

  function PluginAfter(d: Done, id: Id, before: Option<PluginRow>): Option<PluginRow> {
    match d.tx
    case TxOpenPluginRow(row) => if d.value == Created(id) then Some(row) else before
    case _ => before
  }

  // ---------- one transaction ----------

  ghost predicate Follows<K(!new), V>(rule: (Done, K, Option<V>) -> Option<V>, d: Done, m: map<K, V>, m': map<K, V>) {
    forall k :: At(m', k) == rule(d, k, At(m, k))
  }

  function OrgRow(orgs: set<Id>, id: Id): Option<()> {
    if id in orgs then Some(()) else None
  }

  ghost predicate PlacesFollow(t: Tables, t': Tables, d: Done) {
    && (forall id :: OrgRow(t'.orgs, id) == OrgAfter(d, id, OrgRow(t.orgs, id)))
    && Follows(ActorAfter, d, t.actors, t'.actors)
    && Follows(ChannelAfter, d, t.channels, t'.channels)
    && Follows(ThreadAfter, d, t.threads, t'.threads)
    && Follows(MemberAfter, d, t.memberships, t'.memberships)
  }

  ghost predicate WorkFollows(t: Tables, t': Tables, d: Done) {
    && Follows(ArtifactAfter, d, t.artifacts, t'.artifacts)
    && Follows(CommandAfter, d, t.commands, t'.commands)
    && Follows(RequestAfter, d, t.requests, t'.requests)
    && Follows(CursorAfter, d, t.cursors, t'.cursors)
    && Follows(ClientAfter, d, t.clients, t'.clients)
    && Follows(PluginAfter, d, t.plugins, t'.plugins)
  }

  /** Every row after the transaction is what its rule makes of the row before. */
  ghost predicate RowsFollow(t: Tables, t': Tables, d: Done) {
    PlacesFollow(t, t', d) && WorkFollows(t, t', d)
  }

  /** The outcome's history entry. */
  function Entered(tx: Tx, r: Outcome, dropped: set<Id>): Done
    requires r.Committed?
  {
    Done(tx, r.value, r.charged, r.events, dropped)
  }

  predicate SameRows(t: Tables, t': Tables) {
    && t'.orgs == t.orgs && t'.actors == t.actors && t'.channels == t.channels && t'.threads == t.threads
    && t'.memberships == t.memberships && t'.artifacts == t.artifacts && t'.commands == t.commands
    && t'.requests == t.requests && t'.cursors == t.cursors && t'.clients == t.clients && t'.plugins == t.plugins
  }

  predicate TouchesNoRow(tx: Tx) {
    tx.TxAppend? || tx.TxRedact? || tx.TxCreateGrant? || tx.TxRevokeGrants?
  }

  lemma NoRowFollows(t: Tables, t': Tables, d: Done)
    requires TouchesNoRow(d.tx) && SameRows(t, t')
    ensures RowsFollow(t, t', d)
  {
    hide PlacesFollow, WorkFollows;
    NoPlaceFollows(t, t', d);
    NoWorkFollows(t, t', d);
  }

  lemma NoPlaceFollows(t: Tables, t': Tables, d: Done)
    requires TouchesNoRow(d.tx) && SameRows(t, t')
    ensures PlacesFollow(t, t', d)
  {
  }

  lemma NoWorkFollows(t: Tables, t': Tables, d: Done)
    requires TouchesNoRow(d.tx) && SameRows(t, t')
    ensures WorkFollows(t, t', d)
  {
    hide NamesCommand, CommandRequest;
  }

  lemma AppendSameRows(env: Env, t: Tables, p: Principal, streamId: Id, streamType: StreamType, parts: seq<MessagePart>, key: string,
                       now: nat, id: Id)
    ensures var r := AppendTx(env, t, p, streamId, streamType, parts, key, now, id); r.Committed? ==> SameRows(t, r.tables)
  {
    hide AuditAll, PayForAppend, PostEvents, PartRows, FindByKey, NewMessage, SameRows;
    var r := AppendTx(env, t, p, streamId, streamType, parts, key, now, id);
    if r.Committed? { SameButPosted(t, r.tables); }
  }

  /** The tables an append writes, and no others. */
  predicate PostedOnly(t: Tables, t': Tables) {
    t' == t.(grants := t'.grants, counters := t'.counters, messages := t'.messages, parts := t'.parts, events := t'.events, audit := t'.audit)
  }

  lemma SameButPosted(t: Tables, t': Tables)
    requires PostedOnly(t, t')
    ensures SameRows(t, t')
  {
  }

  lemma RedactSameRows(env: Env, t: Tables, p: Principal, messageId: Id, streamId: Id, streamType: StreamType, isAuthor: bool,
                       reason: string, now: nat)
    ensures var r := RedactTx(env, t, p, messageId, streamId, streamType, isAuthor, reason, now); r.Committed? ==> SameRows(t, r.tables)
  {
    hide AuditAll, PayForRedact, Where, MarkRedacted, RedactedEvent;
  }

  lemma GrantingSameRows(env: Env, t: Tables, tx: Tx, now: nat, id: Id)
    requires tx.TxCreateGrant? || tx.TxRevokeGrants?
    ensures var r := Commit(env, t, tx, now, id); r.Committed? ==> SameRows(t, r.tables)
  {
    hide AuditAll, GrantCreatedEvent, Deactivate, RevokeEvents;
  }

  lemma GrantTxsFollow(env: Env, t: Tables, tx: Tx, now: nat, id: Id, dropped: set<Id>)
    requires TouchesNoRow(tx)
    ensures var r := Commit(env, t, tx, now, id); r.Committed? ==> RowsFollow(t, r.tables, Entered(tx, r, dropped))
  {
    hide RowsFollow, SameRows, Commit, AppendTx, RedactTx;
    CommitIsItsTx(env, t, tx, now, id);
    match tx {
      case TxAppend(p, x, st, parts, key) => AppendSameRows(env, t, p, x, st, parts, key, now, id);
      case TxRedact(p, m, x, st, a, reason) => RedactSameRows(env, t, p, m, x, st, a, reason, now);
      case _ => GrantingSameRows(env, t, tx, now, id);
    }
    var r := Commit(env, t, tx, now, id);
    if r.Committed? { NoRowFollows(t, r.tables, Entered(tx, r, dropped)); }
  }

  lemma CreateOrgFollows(env: Env, t: Tables, name: string, now: nat, id: Id, dropped: set<Id>)
    ensures var r := CreateOrgTx(env, t, name, now, id); r.Committed? && RowsFollow(t, r.tables, Entered(TxCreateOrg(name), r, dropped))
  {
    hide AuditAll, OrgCreatedEvent;
  }

  lemma CreateActorFollows(env: Env, t: Tables, orgId: Id, now: nat, id: Id, dropped: set<Id>)
    ensures var r := CreateActorTx(env, t, orgId, now, id); r.Committed? ==> RowsFollow(t, r.tables, Entered(TxCreateActor(orgId), r, dropped))
  {
    hide AuditAll, ActorJoinedEvent;
  }

  lemma CreateChannelFollows(env: Env, t: Tables, p: Principal, name: string, visibility: Visibility, now: nat, id: Id, dropped: set<Id>)
    ensures var r := CreateChannelTx(env, t, p, name, visibility, now, id);
            r.Committed? ==> RowsFollow(t, r.tables, Entered(TxCreateChannel(p, name, visibility), r, dropped))
  {
    hide AuditAll, ChannelCreatedEvent, OwnerEvent, Consume;
  }

  lemma CreateThreadFollows(env: Env, t: Tables, p: Principal, channelId: Id, parent: Id, visibility: Visibility, now: nat, id: Id,
                            dropped: set<Id>)
    ensures var r := CreateThreadTx(env, t, p, channelId, parent, visibility, now, id);
            r.Committed? ==> RowsFollow(t, r.tables, Entered(TxCreateThread(p, channelId, parent, visibility), r, dropped))
  {
    hide AuditAll, ThreadCreatedEvent, Consume;
  }

  lemma AddMemberFollows(env: Env, t: Tables, p: Principal, channelId: Id, actorId: Id, role: string, now: nat, dropped: set<Id>)
    ensures var r := AddMemberTx(env, t, p, channelId, actorId, role, now);
            r.Committed? && RowsFollow(t, r.tables, Entered(TxAddMember(p, channelId, actorId, role), r, dropped))
  {
    hide AuditAll, MemberAddedEvent;
  }

  lemma RemoveMemberFollows(env: Env, t: Tables, p: Principal, channelId: Id, actorId: Id, now: nat, dropped: set<Id>)
    ensures var r := RemoveMemberTx(env, t, p, channelId, actorId, now);
            r.Committed? && RowsFollow(t, r.tables, Entered(TxRemoveMember(p, channelId, actorId), r, dropped))
  {
    hide AuditAll, MemberRemovedEvent;
  }

  lemma RegisterArtifactFollows(env: Env, t: Tables, p: Principal, streamId: Id, streamType: StreamType, now: nat, id: Id, dropped: set<Id>)
    ensures var r := RegisterArtifactTx(env, t, p, streamId, streamType, now, id);
            r.Committed? ==> RowsFollow(t, r.tables, Entered(TxRegisterArtifact(p, streamId, streamType), r, dropped))
  {
    hide AuditAll, PayForArtifact, ArtifactRegisteredEvent;
  }

  lemma DeleteArtifactFollows(env: Env, t: Tables, p: Principal, artifactId: Id, a: Artifact, reason: string, now: nat, dropped: set<Id>)
    ensures var r := DeleteArtifactTx(env, t, p, artifactId, a, reason, now);
            r.Committed? && RowsFollow(t, r.tables, Entered(TxDeleteArtifact(p, artifactId, a, reason), r, dropped))
  {
    hide AuditAll, ArtifactDeletedEvent;
  }

  lemma RegisterCommandFollows(env: Env, t: Tables, p: Principal, name: string, scope: Option<Id>, now: nat, id: Id, dropped: set<Id>)
    ensures var r := RegisterCommandTx(env, t, p, name, scope, now, id);
            r.Committed? ==> RowsFollow(t, r.tables, Entered(TxRegisterCommand(p, name, scope), r, dropped))
  {
    hide AuditAll, CommandRequestedEvent, CommandRequest;
  }

  lemma OpenRequestFollows(env: Env, t: Tables, p: Principal, action: string, rt: string, rid: Option<Id>, context: Json, now: nat, id: Id,
                           dropped: set<Id>)
    ensures var r := OpenRequestTx(env, t, p, action, rt, rid, context, now, id);
            r.Committed? && RowsFollow(t, r.tables, Entered(TxOpenRequest(p, action, rt, rid, context), r, dropped))
  {
    hide AuditAll, RequestCreatedEvent;
  }

  lemma UpdateCursorFollows(env: Env, t: Tables, p: Principal, streamId: Id, seen: nat, acked: nat, now: nat, dropped: set<Id>)
    ensures var r := UpdateCursorTx(env, t, p, streamId, seen, acked, now);
            r.Committed? && RowsFollow(t, r.tables, Entered(TxUpdateCursor(p, streamId, seen, acked), r, dropped))
  {
    hide AuditAll, CursorUpdatedEvent;
  }

  lemma RegisterClientFollows(env: Env, t: Tables, p: Principal, endpoint: string, now: nat, id: Id, dropped: set<Id>)
    ensures var r := RegisterClientTx(env, t, p, endpoint, now, id);
            r.Committed? && RowsFollow(t, r.tables, Entered(TxRegisterClient(p, endpoint), r, dropped))
  {
    hide AuditAll, ClientRegisteredEvent;
  }

  lemma OpenPluginRowFollows(t: Tables, row: PluginRow, id: Id, dropped: set<Id>)
    ensures var r := OpenPluginRowTx(t, row, id); r.Committed? ==> RowsFollow(t, r.tables, Entered(TxOpenPluginRow(row), r, dropped))
  {
  }

  lemma {:induction false} LookupIff(entries: seq<Entry>, id: Id)
    ensures LookupText(entries, "commandId") == Some(id) <==> NamesCommand(Object(entries), id)
  {
    if entries != [] {
      LookupIff(entries[1..], id);
      if entries[0].key == "commandId" {
        assert NamesCommand(Object(entries), id) <==> entries[0] == Entry("commandId", Text(id));
      } else {
        LaterEntry(entries, id);
      }
    }
  }

  lemma LaterEntry(entries: seq<Entry>, id: Id)
    requires entries != [] && entries[0].key != "commandId"
    ensures NamesCommand(Object(entries), id) <==> NamesCommand(Object(entries[1..]), id)
  {
    var rest := entries[1..];
    if NamesCommand(Object(entries), id) {
      var i :| 0 <= i < |entries| && entries[i] == Entry("commandId", Text(id)) && forall j :: 0 <= j < i ==> entries[j].key != "commandId";
      assert rest[i - 1] == entries[i];
    }
    if NamesCommand(Object(rest), id) {
      var i :| 0 <= i < |rest| && rest[i] == Entry("commandId", Text(id)) && forall j :: 0 <= j < i ==> rest[j].key != "commandId";
      assert entries[i + 1] == rest[i];
    }
  }

  lemma CommandIdIff(context: Json)
    ensures forall id :: CommandIdOf(context) == Some(id) <==> NamesCommand(context, id)
  {
    if context.Object? {
      forall id
        ensures CommandIdOf(context) == Some(id) <==> NamesCommand(context, id)
      {
        LookupIff(context.entries, id);
        assert Object(context.entries) == context;
      }
    }
  }

  lemma ResolveCommandFollows(env: Env, t: Tables, p: Principal, requestId: Id, request: Request, approve: bool, expiresAt: Option<nat>,
                              maxUses: Option<nat>, now: nat, dropped: set<Id>)
    requires request.action == "command:register"
    ensures var r := ResolveCommandTx(env, t, p, requestId, request, approve, now);
            r.Committed? && RowsFollow(t, r.tables, Entered(TxResolve(p, requestId, request, approve, expiresAt, maxUses), r, dropped))
  {
    hide AuditAll, ResolvedEvent, CommandRegisteredEvent, CommandIdOf, NamesCommand;
    CommandIdIff(request.context);
  }

  lemma DenyFollows(env: Env, t: Tables, p: Principal, requestId: Id, request: Request, expiresAt: Option<nat>, maxUses: Option<nat>,
                    now: nat, dropped: set<Id>)
    requires request.action != "command:register"
    ensures var r := DenyTx(env, t, p, requestId, now);
            r.Committed? && RowsFollow(t, r.tables, Entered(TxResolve(p, requestId, request, false, expiresAt, maxUses), r, dropped))
  {
    hide AuditAll, ResolvedEvent, NamesCommand;
  }

  lemma ApproveFollows(env: Env, t: Tables, p: Principal, requestId: Id, request: Request, expiresAt: Option<nat>, maxUses: Option<nat>,
                       now: nat, id: Id, dropped: set<Id>)
    requires request.action != "command:register"
    ensures var r := ApproveTx(env, t, p, requestId, request, expiresAt, maxUses, now, id);
            r.Committed? && RowsFollow(t, r.tables, Entered(TxResolve(p, requestId, request, true, expiresAt, maxUses), r, dropped))
  {
    hide AuditAll, ResolvedEvent, GrantCreatedEvent, NamesCommand;
  }

  lemma ResolveFollows(env: Env, t: Tables, p: Principal, requestId: Id, request: Request, approve: bool, expiresAt: Option<nat>,
                       maxUses: Option<nat>, now: nat, id: Id, dropped: set<Id>)
    ensures var r := ResolveTx(env, t, p, requestId, request, approve, expiresAt, maxUses, now, id);
            r.Committed? && RowsFollow(t, r.tables, Entered(TxResolve(p, requestId, request, approve, expiresAt, maxUses), r, dropped))
  {
    hide RowsFollow, ResolveCommandTx, DenyTx, ApproveTx;
    if request.action == "command:register" {
      ResolveCommandFollows(env, t, p, requestId, request, approve, expiresAt, maxUses, now, dropped);
    } else if approve {
      ApproveFollows(env, t, p, requestId, request, expiresAt, maxUses, now, id, dropped);
    } else {
      DenyFollows(env, t, p, requestId, request, expiresAt, maxUses, now, dropped);
    }
  }

  lemma DeleteChannelFollows(env: Env, t: Tables, p: Principal, channelId: Id, now: nat)
    ensures var r := DeleteChannelTx(env, t, p, channelId, now);
            r.Committed? ==> RowsFollow(t, r.tables, Entered(TxDeleteChannel(p, channelId), r, ChannelStreams(t, p.orgId, channelId)))
  {
    hide AuditAll, Where, MessageIds, ChannelDeletedEvent, ForeignKeysHold, ChannelStreams;
  }

  lemma DeleteOrgFollows(env: Env, t: Tables, p: Principal, orgId: Id, streamIds: set<Id>, now: nat, dropped: set<Id>)
    ensures var r := DeleteOrgTx(env, t, p, orgId, streamIds, now);
            r.Committed? ==> RowsFollow(t, r.tables, Entered(TxDeleteOrg(p, orgId, streamIds), r, dropped))
  {
    hide Where, OrgMessageIds, OrgDeletedEvent, DeletesAllowed;
  }

  lemma PlaceTxsFollow(env: Env, t: Tables, tx: Tx, now: nat, id: Id, dropped: set<Id>)
    requires tx.TxCreateOrg? || tx.TxCreateActor? || tx.TxCreateChannel? || tx.TxCreateThread? || tx.TxAddMember? || tx.TxRemoveMember?
    ensures var r := Commit(env, t, tx, now, id); r.Committed? ==> RowsFollow(t, r.tables, Entered(tx, r, dropped))
  {
    hide RowsFollow, CreateOrgTx, CreateActorTx, CreateChannelTx, CreateThreadTx, AddMemberTx, RemoveMemberTx;
    match tx
    case TxCreateOrg(name) => CreateOrgFollows(env, t, name, now, id, dropped);
    case TxCreateActor(orgId) => CreateActorFollows(env, t, orgId, now, id, dropped);
    case TxCreateChannel(p, name, visibility) => CreateChannelFollows(env, t, p, name, visibility, now, id, dropped);
    case TxCreateThread(p, channelId, parent, visibility) => CreateThreadFollows(env, t, p, channelId, parent, visibility, now, id, dropped);
    case TxAddMember(p, channelId, actorId, role) => AddMemberFollows(env, t, p, channelId, actorId, role, now, dropped);
    case TxRemoveMember(p, channelId, actorId) => RemoveMemberFollows(env, t, p, channelId, actorId, now, dropped);
  }

  lemma WorkTxsFollow(env: Env, t: Tables, tx: Tx, now: nat, id: Id, dropped: set<Id>)
    requires tx.TxOpenRequest? || tx.TxRegisterArtifact? || tx.TxDeleteArtifact? || tx.TxRegisterCommand?
    ensures var r := Commit(env, t, tx, now, id); r.Committed? ==> RowsFollow(t, r.tables, Entered(tx, r, dropped))
  {
    hide RowsFollow, OpenRequestTx, RegisterArtifactTx, DeleteArtifactTx, RegisterCommandTx;
    match tx
    case TxOpenRequest(p, action, rt, rid, context) => OpenRequestFollows(env, t, p, action, rt, rid, context, now, id, dropped);
    case TxRegisterArtifact(p, streamId, streamType) => RegisterArtifactFollows(env, t, p, streamId, streamType, now, id, dropped);
    case TxDeleteArtifact(p, artifactId, a, reason) => DeleteArtifactFollows(env, t, p, artifactId, a, reason, now, dropped);
    case TxRegisterCommand(p, name, scope) => RegisterCommandFollows(env, t, p, name, scope, now, id, dropped);
  }

  lemma ReaderTxsFollow(env: Env, t: Tables, tx: Tx, now: nat, id: Id, dropped: set<Id>)
    requires tx.TxUpdateCursor? || tx.TxRegisterClient? || tx.TxOpenPluginRow?
    ensures var r := Commit(env, t, tx, now, id); r.Committed? ==> RowsFollow(t, r.tables, Entered(tx, r, dropped))
  {
    hide RowsFollow, UpdateCursorTx, RegisterClientTx, OpenPluginRowTx;
    match tx
    case TxUpdateCursor(p, streamId, seen, acked) => UpdateCursorFollows(env, t, p, streamId, seen, acked, now, dropped);
    case TxRegisterClient(p, endpoint) => RegisterClientFollows(env, t, p, endpoint, now, id, dropped);
    case TxOpenPluginRow(row) => OpenPluginRowFollows(t, row, id, dropped);
  }

  /** Main result: each row after a transaction is what the table's rule makes of that row before it. */
  lemma CommitFollows(env: Env, t: Tables, tx: Tx, now: nat, id: Id, dropped: set<Id>)
    requires tx.TxDeleteChannel? ==> dropped == ChannelStreams(t, tx.p.orgId, tx.channelId)
    ensures var r := Commit(env, t, tx, now, id); r.Committed? ==> RowsFollow(t, r.tables, Entered(tx, r, dropped))
  {
    hide RowsFollow, ChannelStreams, Commit, ResolveTx, DeleteChannelTx, DeleteOrgTx, AppendTx, RedactTx, CreateChannelTx, CreateThreadTx;
    CommitIsItsTx(env, t, tx, now, id);
    if TouchesNoRow(tx) {
      GrantTxsFollow(env, t, tx, now, id, dropped);
    } else {
      match tx {
        case TxResolve(p, q, request, approve, e, u) => ResolveFollows(env, t, p, q, request, approve, e, u, now, id, dropped);
        case TxDeleteChannel(p, channelId) => DeleteChannelFollows(env, t, p, channelId, now);
        case TxDeleteOrg(p, orgId, streamIds) => DeleteOrgFollows(env, t, p, orgId, streamIds, now, dropped);
        case TxCreateOrg(_) => PlaceTxsFollow(env, t, tx, now, id, dropped);
        case TxCreateActor(_) => PlaceTxsFollow(env, t, tx, now, id, dropped);
        case TxCreateChannel(_, _, _) => PlaceTxsFollow(env, t, tx, now, id, dropped);
        case TxCreateThread(_, _, _, _) => PlaceTxsFollow(env, t, tx, now, id, dropped);
        case TxAddMember(_, _, _, _) => PlaceTxsFollow(env, t, tx, now, id, dropped);
        case TxRemoveMember(_, _, _) => PlaceTxsFollow(env, t, tx, now, id, dropped);
        case TxUpdateCursor(_, _, _, _) => ReaderTxsFollow(env, t, tx, now, id, dropped);
        case TxRegisterClient(_, _) => ReaderTxsFollow(env, t, tx, now, id, dropped);
        case TxOpenPluginRow(_) => ReaderTxsFollow(env, t, tx, now, id, dropped);
        case _ => WorkTxsFollow(env, t, tx, now, id, dropped);
      }
    }
  }

  // ---------- runs ----------

  /** The table is its rule replayed. */
  ghost predicate IsTold<K(!new), V>(rule: (Done, K, Option<V>) -> Option<V>, m: map<K, V>, log: seq<Done>) {
    forall k :: At(m, k) == Told(rule, log, k)
  }

  ghost predicate PlacesTold(t: Tables, log: seq<Done>) {
    && (forall id :: OrgRow(t.orgs, id) == Told(OrgAfter, log, id))
    && IsTold(ActorAfter, t.actors, log) && IsTold(ChannelAfter, t.channels, log) && IsTold(ThreadAfter, t.threads, log)
    && IsTold(MemberAfter, t.memberships, log)
  }

  ghost predicate WorkTold(t: Tables, log: seq<Done>) {
    && IsTold(ArtifactAfter, t.artifacts, log) && IsTold(CommandAfter, t.commands, log) && IsTold(RequestAfter, t.requests, log)
    && IsTold(CursorAfter, t.cursors, log) && IsTold(ClientAfter, t.clients, log) && IsTold(PluginAfter, t.plugins, log)
  }

  lemma ToldNext<K(!new), V>(rule: (Done, K, Option<V>) -> Option<V>, log: seq<Done>, d: Done, m: map<K, V>, m': map<K, V>)
    requires IsTold(rule, m, log) && Follows(rule, d, m, m')
    ensures IsTold(rule, m', log + [d])
  {
    assert (log + [d])[..|log|] == log;
    forall k
      ensures At(m', k) == Told(rule, log + [d], k)
    {
      assert At(m, k) == Told(rule, log, k);
    }
  }

  lemma OrgToldNext(t: Tables, t': Tables, log: seq<Done>, d: Done)
    requires PlacesTold(t, log) && PlacesFollow(t, t', d)
    ensures forall id :: OrgRow(t'.orgs, id) == Told(OrgAfter, log + [d], id)
  {
    hide IsTold, Follows;
    assert (log + [d])[..|log|] == log;
    forall id
      ensures OrgRow(t'.orgs, id) == Told(OrgAfter, log + [d], id)
    {
      assert OrgRow(t.orgs, id) == Told(OrgAfter, log, id);
    }
  }

  lemma PlacesToldNext(t: Tables, t': Tables, log: seq<Done>, d: Done)
    requires PlacesTold(t, log) && PlacesFollow(t, t', d)
    ensures PlacesTold(t', log + [d])
  {
    hide IsTold, Follows;
    OrgToldNext(t, t', log, d);
    ToldNext(ActorAfter, log, d, t.actors, t'.actors);
    ToldNext(ChannelAfter, log, d, t.channels, t'.channels);
    ToldNext(ThreadAfter, log, d, t.threads, t'.threads);
    ToldNext(MemberAfter, log, d, t.memberships, t'.memberships);
  }

  lemma WorkToldNext(t: Tables, t': Tables, log: seq<Done>, d: Done)
    requires WorkTold(t, log) && WorkFollows(t, t', d)
    ensures WorkTold(t', log + [d])
  {
    hide IsTold, Follows;
    ToldNext(ArtifactAfter, log, d, t.artifacts, t'.artifacts);
    ToldNext(CommandAfter, log, d, t.commands, t'.commands);
    ToldNext(RequestAfter, log, d, t.requests, t'.requests);
    ToldNext(CursorAfter, log, d, t.cursors, t'.cursors);
    ToldNext(ClientAfter, log, d, t.clients, t'.clients);
    ToldNext(PluginAfter, log, d, t.plugins, t'.plugins);
  }

  lemma ExecTells(env: Env, s: Sys, step: Step)
    requires PlacesTold(s.tables, s.log) && WorkTold(s.tables, s.log)
    ensures var s' := Exec(env, s, step); PlacesTold(s'.tables, s'.log) && WorkTold(s'.tables, s'.log)
  {
    hide Check, Commit, PlacesTold, WorkTold, PlacesFollow, WorkFollows, ChannelStreams, NewStreams;
    if step.Finish? && step.callNo in s.pending && step.id !in s.usedIds {
      var tx := s.pending[step.callNo];
      var r := Commit(env, s.tables, tx, step.now, step.id);
      if r.Committed? {
        var d := Entered(tx, r, DroppedStreams(s, tx));
        CommitFollows(env, s.tables, tx, step.now, step.id, DroppedStreams(s, tx));
        PlacesToldNext(s.tables, r.tables, s.log, d);
        WorkToldNext(s.tables, r.tables, s.log, d);
      }
    }
  }

  lemma StartTells()
    ensures PlacesTold(START.tables, START.log) && WorkTold(START.tables, START.log)
  {
    assert START.tables == EMPTY_TABLES && START.log == [];
  }

  /** Main result: in every run, every row of these tables is what the run's history alone says it is. */
  lemma {:induction false} TablesAreHistory(env: Env, steps: seq<Step>)
    ensures var s := Run(env, steps); PlacesTold(s.tables, s.log) && WorkTold(s.tables, s.log)
  {
    hide Exec, PlacesTold, WorkTold;
    if steps == [] {
      StartTells();
    } else {
      var front := steps[..|steps| - 1];
      TablesAreHistory(env, front);
      ExecTells(env, Run(env, front), steps[|steps| - 1]);
    }
  }
}
