// Referential integrity when calls are taken one at a time, and what deleteOrg leaves behind.

module Cascades {
  import opened Prelude
  import opened CanonicalJson
  import opened AuditChain
  import opened Tables
  import opened ServiceSpec
  import opened ServiceRuns
  import opened MessageLaws

  // ---------- referential integrity, table by table ----------

  predicate ActorIn(actors: map<Id, Actor>, orgId: Id, actorId: Id) {
    actorId in actors && actors[actorId].orgId == orgId
  }

  /** A live stream of the given kind, in the given org. */
  predicate StreamIn(channels: map<Id, Channel>, threads: map<Id, Thread>, streamId: Id, streamType: StreamType, orgId: Id) {
    match streamType
    case ChannelStream => streamId in channels && channels[streamId].orgId == orgId
    case ThreadStream => streamId in threads && threads[streamId].orgId == orgId
  }

  ghost predicate ActorsOk(actors: map<Id, Actor>, orgs: set<Id>) {
    forall a :: a in actors ==> actors[a].orgId in orgs
  }

  ghost predicate ChannelsOk(channels: map<Id, Channel>, orgs: set<Id>) {
    forall c :: c in channels ==> channels[c].orgId in orgs
  }

  predicate HasParent(messages: seq<Message>, h: Thread) {
    exists m :: m in messages && m.id == h.parentMessageId && m.streamId == h.channelId && m.orgId == h.orgId
  }

  predicate ThreadOk(h: Thread, channels: map<Id, Channel>, messages: seq<Message>) {
    h.channelId in channels && channels[h.channelId].orgId == h.orgId && HasParent(messages, h)
  }

  ghost predicate ThreadsOk(threads: map<Id, Thread>, channels: map<Id, Channel>, messages: seq<Message>) {
    forall h :: h in threads ==> h !in channels && ThreadOk(threads[h], channels, messages)
  }

  predicate MessageOk(m: Message, channels: map<Id, Channel>, threads: map<Id, Thread>, actors: map<Id, Actor>) {
    StreamIn(channels, threads, m.streamId, m.streamType, m.orgId) && ActorIn(actors, m.orgId, m.actorId)
  }

  ghost predicate MessagesOk(messages: seq<Message>, channels: map<Id, Channel>, threads: map<Id, Thread>, actors: map<Id, Actor>) {
    forall m :: m in messages ==> MessageOk(m, channels, threads, actors)
  }

  predicate UniqueMessageIds(messages: seq<Message>) {
    forall i, j :: 0 <= i < j < |messages| ==> messages[i].id != messages[j].id
  }

  predicate PartOk(row: PartRow, messages: seq<Message>) {
    exists m :: m in messages && m.id == row.messageId && !m.redacted
  }

  ghost predicate PartsOk(parts: seq<PartRow>, messages: seq<Message>) {
    forall row :: row in parts ==> PartOk(row, messages)
  }

  predicate MemberOk(k: MemberKey, actors: map<Id, Actor>, channels: map<Id, Channel>) {
    && ActorIn(actors, k.orgId, k.actorId)
    && (k.channelId.Some? ==> k.channelId.value in channels && channels[k.channelId.value].orgId == k.orgId)
  }

  ghost predicate MembersOk(memberships: map<MemberKey, string>, actors: map<Id, Actor>, channels: map<Id, Channel>) {
    forall k :: k in memberships ==> MemberOk(k, actors, channels)
  }

  ghost predicate CountersOk(counters: map<Id, nat>, channels: map<Id, Channel>, threads: map<Id, Thread>) {
    forall c :: c in counters ==> c in channels || c in threads
  }

  ghost predicate ArtifactsOk(artifacts: map<Id, Artifact>, channels: map<Id, Channel>, threads: map<Id, Thread>) {
    forall a :: a in artifacts && !artifacts[a].deleted ==>
                  StreamIn(channels, threads, artifacts[a].streamId, artifacts[a].streamType, artifacts[a].orgId)
  }

  ghost predicate CommandsOk(commands: map<Id, Command>, actors: map<Id, Actor>) {
    forall c :: c in commands ==> ActorIn(actors, commands[c].orgId, commands[c].ownerActorId)
  }

  ghost predicate ClientsOk(cursors: map<CursorKey, Cursor>, clients: map<Id, Client>, actors: map<Id, Actor>) {
    && (forall k :: k in cursors ==> ActorIn(actors, k.orgId, k.actorId))
    && (forall c :: c in clients ==> ActorIn(actors, clients[c].orgId, clients[c].actorId))
  }

  predicate PluginOk(row: PluginRow, actors: map<Id, Actor>, channels: map<Id, Channel>) {
    && ActorIn(actors, row.orgId, row.actorId)
    && (row.channelId.Some? ==> row.channelId.value in channels && channels[row.channelId.value].orgId == row.orgId)
  }

  ghost predicate PluginsOk(plugins: map<Id, PluginRow>, actors: map<Id, Actor>, channels: map<Id, Channel>) {
    forall r :: r in plugins ==> PluginOk(plugins[r], actors, channels)
  }

  /** Every row points at existing rows of its own org; parts belong to unredacted messages. */
  ghost predicate Integrity(t: Tables) {
    && ActorsOk(t.actors, t.orgs)
    && ChannelsOk(t.channels, t.orgs)
    && ThreadsOk(t.threads, t.channels, t.messages)
    && MessagesOk(t.messages, t.channels, t.threads, t.actors)
    && UniqueMessageIds(t.messages)
    && PartsOk(t.parts, t.messages)
    && MembersOk(t.memberships, t.actors, t.channels)
    && CountersOk(t.counters, t.channels, t.threads)
    && ArtifactsOk(t.artifacts, t.channels, t.threads)
    && CommandsOk(t.commands, t.actors)
    && ClientsOk(t.cursors, t.clients, t.actors)
    && PluginsOk(t.plugins, t.actors, t.channels)
  }

  /** Ids in use as primary keys that fresh ids must avoid. */
  ghost predicate KeysUsed(t: Tables, usedIds: set<Id>) {
    && t.actors.Keys <= usedIds && t.channels.Keys <= usedIds && t.threads.Keys <= usedIds
    && (forall m :: m in t.messages ==> m.id in usedIds)
  }

  // ---------- growing tables keep what refers to them ----------

  lemma ActorsGrow(t: Tables, actors: map<Id, Actor>)
    requires Integrity(t) && forall a :: a in t.actors ==> a in actors && actors[a] == t.actors[a]
    ensures MessagesOk(t.messages, t.channels, t.threads, actors)
    ensures MembersOk(t.memberships, actors, t.channels)
    ensures CommandsOk(t.commands, actors) && ClientsOk(t.cursors, t.clients, actors)
    ensures PluginsOk(t.plugins, actors, t.channels)
  {
    forall m | m in t.messages
      ensures MessageOk(m, t.channels, t.threads, actors)
    {
      assert MessageOk(m, t.channels, t.threads, t.actors);
    }
    forall k | k in t.memberships
      ensures MemberOk(k, actors, t.channels)
    {
      assert MemberOk(k, t.actors, t.channels);
    }
  }

  lemma StreamsGrow(t: Tables, channels: map<Id, Channel>, threads: map<Id, Thread>)
    requires Integrity(t)
    requires forall c :: c in t.channels ==> c in channels && channels[c] == t.channels[c]
    requires forall h :: h in t.threads ==> h in threads && threads[h] == t.threads[h]
    ensures MessagesOk(t.messages, channels, threads, t.actors)
    ensures MembersOk(t.memberships, t.actors, channels)
    ensures CountersOk(t.counters, channels, threads)
    ensures ArtifactsOk(t.artifacts, channels, threads)
    ensures PluginsOk(t.plugins, t.actors, channels)
    ensures forall h :: h in t.threads ==> ThreadOk(t.threads[h], channels, t.messages)
  {
    forall m | m in t.messages
      ensures MessageOk(m, channels, threads, t.actors)
    {
      assert MessageOk(m, t.channels, t.threads, t.actors);
    }
    forall k | k in t.memberships
      ensures MemberOk(k, t.actors, channels)
    {
      assert MemberOk(k, t.actors, t.channels);
    }
    forall h | h in t.threads
      ensures ThreadOk(t.threads[h], channels, t.messages)
    {
      assert ThreadOk(t.threads[h], t.channels, t.messages);
    }
  }

  lemma MessagesGrow(t: Tables, m: Message)
    requires Integrity(t) && MessageOk(m, t.channels, t.threads, t.actors) && forall x :: x in t.messages ==> x.id != m.id
    ensures ThreadsOk(t.threads, t.channels, t.messages + [m])
    ensures MessagesOk(t.messages + [m], t.channels, t.threads, t.actors)
    ensures UniqueMessageIds(t.messages + [m]) && PartsOk(t.parts, t.messages + [m])
  {
    var ms := t.messages + [m];
    assert forall x :: x in t.messages ==> x in ms;
    forall h | h in t.threads
      ensures ThreadOk(t.threads[h], t.channels, ms)
    {
      assert ThreadOk(t.threads[h], t.channels, t.messages);
    }
    assert forall i :: 0 <= i < |t.messages| ==> t.messages[i] in t.messages;
    forall row | row in t.parts
      ensures PartOk(row, ms)
    {
      assert PartOk(row, t.messages);
    }
  }

  lemma NewPartsOk(parts: seq<PartRow>, messages: seq<Message>, m: Message, more: seq<MessagePart>)
    requires PartsOk(parts, messages) && m in messages && !m.redacted
    ensures PartsOk(parts + PartRows(m.id, more), messages)
  {
  }

  /** Redaction flags the message and takes its parts away. */
  lemma RedactionKeeps(t: Tables, id: Id)
    requires Integrity(t)
    ensures var ms := MarkRedacted(t.messages, id);
            && ThreadsOk(t.threads, t.channels, ms) && MessagesOk(ms, t.channels, t.threads, t.actors)
            && UniqueMessageIds(ms) && PartsOk(Where(t.parts, NotPartOf(id)), ms)
  {
    var ms := MarkRedacted(t.messages, id);
    forall m | m in ms
      ensures MessageOk(m, t.channels, t.threads, t.actors)
    {
      var i :| 0 <= i < |ms| && ms[i] == m;
      assert t.messages[i] in t.messages;
    }
    forall h | h in t.threads
      ensures ThreadOk(t.threads[h], t.channels, ms)
    {
      assert ThreadOk(t.threads[h], t.channels, t.messages);
      RedactedStays(t.messages, id, t.threads[h]);
    }
    forall row | row in Where(t.parts, NotPartOf(id))
      ensures PartOk(row, ms)
    {
      assert PartOk(row, t.messages);
      var m :| m in t.messages && m.id == row.messageId && !m.redacted;
      var i :| 0 <= i < |t.messages| && t.messages[i] == m;
      assert ms[i] in ms && ms[i] == m;
    }
  }

  lemma RedactedStays(messages: seq<Message>, id: Id, h: Thread)
    requires HasParent(messages, h)
    ensures HasParent(MarkRedacted(messages, id), h)
  {
    var ms := MarkRedacted(messages, id);
    var m :| m in messages && m.id == h.parentMessageId && m.streamId == h.channelId && m.orgId == h.orgId;
    var i :| 0 <= i < |messages| && messages[i] == m;
    assert ms[i] in ms;
  }

  // ---------- deleteChannel ----------

  lemma ChannelGoneStream(t: Tables, orgId: Id, channelId: Id, m: StreamRef)
    requires Integrity(t) && channelId in t.channels && t.channels[channelId].orgId == orgId
    requires StreamIn(t.channels, t.threads, m.streamId, m.streamType, m.orgId)
    requires !(m.orgId == orgId && m.streamId in ChannelStreams(t, orgId, channelId))
    ensures StreamIn(ChannelsOutside(t.channels, orgId, channelId), ThreadsOutside(t.threads, orgId, channelId),
                     m.streamId, m.streamType, m.orgId)
  {
  }

  /** A row's reference to its stream. */
  datatype StreamRef = StreamRef(streamId: Id, streamType: StreamType, orgId: Id)

  lemma ChannelGoneThreads(t: Tables, orgId: Id, channelId: Id)
    requires Integrity(t) && channelId in t.channels && t.channels[channelId].orgId == orgId
    ensures var t' := WithoutChannel(t, orgId, channelId); ThreadsOk(t'.threads, t'.channels, t'.messages)
  {
    hide DisownArtifacts, MembersOutside, DisableCommands, Where, MessageIds, MessagesOk, PartsOk, UniqueMessageIds, MembersOk, CountersOk,
         ArtifactsOk, CommandsOk, ActorsOk, ChannelsOk, ClientsOk, PluginsOk;
    var t' := WithoutChannel(t, orgId, channelId);
    forall h | h in t'.threads
      ensures h !in t'.channels && ThreadOk(t'.threads[h], t'.channels, t'.messages)
    {
      var row := t.threads[h];
      assert ThreadOk(row, t.channels, t.messages);
      var m :| m in t.messages && m.id == row.parentMessageId && m.streamId == row.channelId && m.orgId == row.orgId;
      assert row.channelId !in t.threads;
      assert m in t'.messages;
    }
  }

  lemma ChannelGoneMessages(t: Tables, orgId: Id, channelId: Id)
    requires Integrity(t) && channelId in t.channels && t.channels[channelId].orgId == orgId
    ensures var t' := WithoutChannel(t, orgId, channelId);
            && MessagesOk(t'.messages, t'.channels, t'.threads, t'.actors)
            && PartsOk(t'.parts, t'.messages)
            && UniqueMessageIds(t'.messages)
  {
    hide DisownArtifacts, MembersOutside, DisableCommands, StreamIn, ChannelsOutside, ThreadsOutside, ChannelStreams;
    var t' := WithoutChannel(t, orgId, channelId);
    forall m | m in t'.messages
      ensures MessageOk(m, t'.channels, t'.threads, t'.actors)
    {
      assert MessageOk(m, t.channels, t.threads, t.actors);
      ChannelGoneStream(t, orgId, channelId, StreamRef(m.streamId, m.streamType, m.orgId));
    }
    forall row | row in t'.parts
      ensures PartOk(row, t'.messages)
    {
      assert PartOk(row, t.messages);
      var m :| m in t.messages && m.id == row.messageId && !m.redacted;
      assert m in t'.messages;
    }
    WhereKeepsUniqueMessageIds(t.messages, MessageOutside(orgId, ChannelStreams(t, orgId, channelId)));
  }

  lemma {:induction false} WhereKeepsUniqueMessageIds(messages: seq<Message>, keep: Message -> bool)
    requires UniqueMessageIds(messages)
    ensures UniqueMessageIds(Where(messages, keep))
  {
    if messages != [] {
      var front, last := messages[..|messages| - 1], messages[|messages| - 1];
      WhereKeepsUniqueMessageIds(front, keep);
      assert forall m :: m in front ==> m.id != last.id;
    }
  }

  lemma ChannelGoneOthers(t: Tables, orgId: Id, channelId: Id)
    requires Integrity(t) && channelId in t.channels && t.channels[channelId].orgId == orgId && Unbound(t.plugins, channelId)
    ensures var t' := WithoutChannel(t, orgId, channelId);
            && ChannelsOk(t'.channels, t'.orgs)
            && MembersOk(t'.memberships, t'.actors, t'.channels)
            && CountersOk(t'.counters, t'.channels, t'.threads)
            && ArtifactsOk(t'.artifacts, t'.channels, t'.threads)
            && CommandsOk(t'.commands, t'.actors)
            && PluginsOk(t'.plugins, t'.actors, t'.channels)
  {
    hide Where, MessageIds, StreamIn;
    var t' := WithoutChannel(t, orgId, channelId);
    forall k | k in t'.memberships
      ensures MemberOk(k, t'.actors, t'.channels)
    {
      assert MemberOk(k, t.actors, t.channels);
    }
    forall a | a in t'.artifacts && !t'.artifacts[a].deleted
      ensures StreamIn(t'.channels, t'.threads, t'.artifacts[a].streamId, t'.artifacts[a].streamType, t'.artifacts[a].orgId)
    {
      var row := t.artifacts[a];
      ChannelGoneStream(t, orgId, channelId, StreamRef(row.streamId, row.streamType, row.orgId));
    }
  }

  /** No plugin row references the channel. */
  predicate Unbound(plugins: map<Id, PluginRow>, channelId: Id) {
    forall r :: r in plugins ==> plugins[r].channelId != Some(channelId)
  }

  /** The cascade of `deleteChannel` leaves no dangling row. */
  lemma DeleteChannelKeepsIntegrity(t: Tables, orgId: Id, channelId: Id, usedIds: set<Id>)
    requires Integrity(t) && KeysUsed(t, usedIds) && channelId in t.channels && t.channels[channelId].orgId == orgId
    requires Unbound(t.plugins, channelId)
    ensures Integrity(WithoutChannel(t, orgId, channelId)) && KeysUsed(WithoutChannel(t, orgId, channelId), usedIds)
  {
    ChannelGoneThreads(t, orgId, channelId);
    ChannelGoneMessages(t, orgId, channelId);
    ChannelGoneOthers(t, orgId, channelId);
    hide ThreadsOk, MessagesOk, PartsOk, UniqueMessageIds, MembersOk, CountersOk, ArtifactsOk, CommandsOk, ClientsOk, PluginsOk, MessageIds,
         DisownArtifacts, MembersOutside, DisableCommands;
  }

  /** Nothing is left that belongs to the channel or its threads, artifacts are disowned, commands are off. */
  ghost predicate ChannelGone(t: Tables, orgId: Id, channelId: Id, ids: set<Id>) {
    && channelId !in t.channels
    && (forall h :: h in t.threads ==> !(t.threads[h].orgId == orgId && t.threads[h].channelId == channelId))
    && (forall m :: m in t.messages ==> !(m.orgId == orgId && m.streamId in ids))
    && (forall e :: e in t.events ==> !(e.orgId == orgId && e.streamId.Some? && e.streamId.value in ids))
    && (forall x :: x in ids ==> x !in t.counters)
    && (forall k :: k in t.memberships ==> !(k.orgId == orgId && k.channelId == Some(channelId)))
    && (forall a :: a in t.artifacts && t.artifacts[a].orgId == orgId && t.artifacts[a].streamId in ids ==> t.artifacts[a].deleted)
    && (forall c :: c in t.commands && t.commands[c].orgId == orgId && t.commands[c].channelId == Some(channelId) ==> !t.commands[c].enabled)
  }

  /** Main result: `deleteChannel` leaves nothing of the channel and its threads behind, the parts of their messages included. */
  lemma DeleteChannelRemovesEverything(t: Tables, orgId: Id, channelId: Id)
    requires Integrity(t) && channelId in t.channels && t.channels[channelId].orgId == orgId
    ensures var ids, t' := ChannelStreams(t, orgId, channelId), WithoutChannel(t, orgId, channelId);
            && ChannelGone(t', orgId, channelId, ids)
            && (forall row, m :: row in t'.parts && m in t.messages && m.id == row.messageId ==> !(m.orgId == orgId && m.streamId in ids))
  {
    hide Integrity, Where;
  }

  function EventIn(streamId: Option<Id>): DomainEvent -> bool {
    (e: DomainEvent) => e.streamId == streamId
  }

  /** Main result: `deleteChannel` leaves the rows of all other streams and all tables without streams as they were. */
  lemma DeleteChannelSparesOthers(t: Tables, orgId: Id, channelId: Id, x: Id)
    requires Integrity(t) && x !in ChannelStreams(t, orgId, channelId)
    ensures var t' := WithoutChannel(t, orgId, channelId);
            && StreamMessages(t'.messages, x) == StreamMessages(t.messages, x)
            && (x in t.channels ==> x in t'.channels && t'.channels[x] == t.channels[x])
            && (x in t.threads ==> x in t'.threads && t'.threads[x] == t.threads[x])
            && (x in t.counters ==> x in t'.counters && t'.counters[x] == t.counters[x])
            && (forall row, m :: row in t.parts && m in t.messages && m.id == row.messageId && m.streamId == x ==> row in t'.parts)
            && (forall a :: a in t.artifacts && t.artifacts[a].streamId == x ==> t'.artifacts[a] == t.artifacts[a])
            && (forall k :: k in t.memberships && k.channelId != Some(channelId) ==> k in t'.memberships && t'.memberships[k] == t.memberships[k])
            && (forall c :: c in t.commands && t.commands[c].channelId != Some(channelId) ==> t'.commands[c] == t.commands[c])
            && Where(t'.events, EventIn(Some(x))) == Where(t.events, EventIn(Some(x)))
            && Where(t'.events, EventIn(None)) == Where(t.events, EventIn(None))
            && t'.grants == t.grants && t'.requests == t.requests && t'.audit == t.audit && t'.actors == t.actors && t'.orgs == t.orgs
            && t'.cursors == t.cursors && t'.clients == t.clients && t'.plugins == t.plugins
  {
    hide ThreadsOk, MessagesOk, PartsOk, MembersOk, CountersOk, ArtifactsOk, CommandsOk, ActorsOk, ChannelsOk, ClientsOk, PluginsOk,
         MembersOutside, DisableCommands;
    var ids := ChannelStreams(t, orgId, channelId);
    WhereWhere(t.messages, MessageOutside(orgId, ids), InStream(x), InStream(x));
    WhereWhere(t.events, EventOutside(orgId, ids), EventIn(Some(x)), EventIn(Some(x)));
    WhereWhere(t.events, EventOutside(orgId, ids), EventIn(None), EventIn(None));
    SparedChannelParts(t, orgId, ids, x);
    SparedChannelRows(t, orgId, channelId);
  }

  lemma SparedChannelRows(t: Tables, orgId: Id, channelId: Id)
    ensures forall k :: k in t.memberships && k.channelId != Some(channelId) ==>
                          var m := MembersOutside(t.memberships, orgId, channelId); k in m && m[k] == t.memberships[k]
    ensures forall c :: c in t.commands && t.commands[c].channelId != Some(channelId) ==>
                          var m := DisableCommands(t.commands, orgId, channelId); c in m && m[c] == t.commands[c]
  {
  }

  lemma SparedChannelParts(t: Tables, orgId: Id, ids: set<Id>, x: Id)
    requires UniqueMessageIds(t.messages) && x !in ids
    ensures forall row, m :: row in t.parts && m in t.messages && m.id == row.messageId && m.streamId == x ==>
                               row in Where(t.parts, PartOutside(MessageIds(t.messages, orgId, ids)))
  {
    forall row, m | row in t.parts && m in t.messages && m.id == row.messageId && m.streamId == x
      ensures row.messageId !in MessageIds(t.messages, orgId, ids)
    {
      forall y | y in t.messages && y.id == m.id
        ensures y.streamId == x
      {
        SameIdSameMessage(t.messages, y, m);
      }
    }
  }

  // ---------- deleteOrg ----------

  /** No plugin's row belongs to the org. */
  predicate NoPluginRows(t: Tables, orgId: Id) {
    forall r :: r in t.plugins ==> t.plugins[r].orgId != orgId
  }

  /** The declared foreign keys hold, and lead to rows of the same org. */
  ghost predicate OwnKeys(t: Tables) {
    ActorsOk(t.actors, t.orgs) && CommandsOk(t.commands, t.actors) && PluginsOk(t.plugins, t.actors, t.channels)
  }

  lemma DeletesAllowedOnlyWithoutPluginRows(t: Tables, orgId: Id, streamIds: set<Id>)
    requires OwnKeys(t) && DeletesAllowed(t, orgId, streamIds)
    ensures NoPluginRows(t, orgId)
  {
    hide ArtifactsNotOf, CommandsNotOf, ThreadsNotOf, ChannelsNotOf, MembersNotOf, RequestsNotOf, CursorsNotOf, ClientsNotOf, OrgMessageIds;
    assert ForeignKeysHold(AfterDeletes(t, orgId, streamIds, DELETES));
  }

  lemma DeletesKeepForeignKeys(t: Tables, orgId: Id, streamIds: set<Id>, k: nat)
    requires OwnKeys(t) && NoPluginRows(t, orgId)
    ensures ForeignKeysHold(AfterDeletes(t, orgId, streamIds, k))
  {
    hide ArtifactsNotOf, ThreadsNotOf, MembersNotOf, RequestsNotOf, CursorsNotOf, ClientsNotOf, OrgMessageIds;
  }

  /**
   * No statement of `deleteOrg` breaks a declared foreign key, so the deletion commits, exactly when
   * no plugin's row belongs to the org; the plugin tables are not part of the cascade.
   */
  lemma DeleteOrgCommitsIff(t: Tables, orgId: Id, streamIds: set<Id>)
    requires OwnKeys(t)
    ensures DeletesAllowed(t, orgId, streamIds) <==> NoPluginRows(t, orgId)
  {
    hide AfterDeletes, OwnKeys, NoPluginRows, ForeignKeysHold;
    if DeletesAllowed(t, orgId, streamIds) {
      DeletesAllowedOnlyWithoutPluginRows(t, orgId, streamIds);
    }
    if NoPluginRows(t, orgId) {
      forall k: nat | 1 <= k <= DELETES
        ensures ForeignKeysHold(AfterDeletes(t, orgId, streamIds, k))
      {
        DeletesKeepForeignKeys(t, orgId, streamIds, k);
      }
    }
  }

  /** Likewise `deleteChannel` commits exactly when no plugin's row references the channel. */
  lemma DeleteChannelCommitsIff(env: Env, t: Tables, p: Principal, channelId: Id, now: nat)
    requires OwnKeys(t) && (channelId in t.channels ==> t.channels[channelId].orgId == p.orgId)
    ensures DeleteChannelTx(env, t, p, channelId, now).Committed? <==> Unbound(t.plugins, channelId)
  {
    hide Where, MessageIds, ChannelStreams, DisownArtifacts, MembersOutside, ThreadsOutside, AuditAll, ChannelDeletedEvent;
  }

  lemma OrgGoneThreads(t: Tables, orgId: Id)
    requires Integrity(t)
    ensures ThreadsOk(ThreadsNotOf(t.threads, orgId), ChannelsNotOf(t.channels, orgId), Where(t.messages, MessageNotOf(orgId)))
  {
    forall h | h in ThreadsNotOf(t.threads, orgId)
      ensures ThreadOk(t.threads[h], ChannelsNotOf(t.channels, orgId), Where(t.messages, MessageNotOf(orgId)))
    {
      var row := t.threads[h];
      assert ThreadOk(row, t.channels, t.messages);
      var m :| m in t.messages && m.id == row.parentMessageId && m.streamId == row.channelId && m.orgId == row.orgId;
      assert m in Where(t.messages, MessageNotOf(orgId));
    }
  }

  lemma OrgGoneMessages(t: Tables, orgId: Id)
    requires Integrity(t)
    ensures var ms := Where(t.messages, MessageNotOf(orgId));
            && MessagesOk(ms, ChannelsNotOf(t.channels, orgId), ThreadsNotOf(t.threads, orgId), ActorsNotOf(t.actors, orgId))
            && UniqueMessageIds(ms)
            && PartsOk(Where(t.parts, PartOutside(OrgMessageIds(t.messages, orgId))), ms)
  {
    var ms := Where(t.messages, MessageNotOf(orgId));
    WhereKeepsUniqueMessageIds(t.messages, MessageNotOf(orgId));
    forall m | m in ms
      ensures MessageOk(m, ChannelsNotOf(t.channels, orgId), ThreadsNotOf(t.threads, orgId), ActorsNotOf(t.actors, orgId))
    {
      assert MessageOk(m, t.channels, t.threads, t.actors);
    }
    forall row | row in Where(t.parts, PartOutside(OrgMessageIds(t.messages, orgId)))
      ensures PartOk(row, ms)
    {
      assert PartOk(row, t.messages);
      var m :| m in t.messages && m.id == row.messageId && !m.redacted;
      assert m in ms;
    }
  }

  lemma OrgGoneOthers(t: Tables, orgId: Id)
    requires Integrity(t) && NoPluginRows(t, orgId)
    ensures var actors, channels, threads := ActorsNotOf(t.actors, orgId), ChannelsNotOf(t.channels, orgId), ThreadsNotOf(t.threads, orgId);
            && ActorsOk(actors, t.orgs - {orgId}) && ChannelsOk(channels, t.orgs - {orgId})
            && MembersOk(MembersNotOf(t.memberships, orgId), actors, channels)
            && CountersOk(t.counters - OrgStreams(t, orgId), channels, threads)
            && ArtifactsOk(ArtifactsNotOf(t.artifacts, orgId), channels, threads)
            && CommandsOk(CommandsNotOf(t.commands, orgId), actors)
            && ClientsOk(CursorsNotOf(t.cursors, orgId), ClientsNotOf(t.clients, orgId), actors)
            && PluginsOk(t.plugins, actors, channels)
  {
    hide ThreadsOk, MessagesOk, PartsOk, UniqueMessageIds;
    forall k | k in MembersNotOf(t.memberships, orgId)
      ensures MemberOk(k, ActorsNotOf(t.actors, orgId), ChannelsNotOf(t.channels, orgId))
    {
      assert MemberOk(k, t.actors, t.channels);
    }
  }

  lemma DeleteOrgKeepsIntegrity(t: Tables, orgId: Id, usedIds: set<Id>)
    requires Integrity(t) && KeysUsed(t, usedIds) && NoPluginRows(t, orgId)
    ensures var t' := AfterDeletes(t, orgId, OrgStreams(t, orgId), DELETES); Integrity(t') && KeysUsed(t', usedIds)
  {
    OrgGoneThreads(t, orgId);
    OrgGoneMessages(t, orgId);
    OrgGoneOthers(t, orgId);
    hide ThreadsOk, MessagesOk, PartsOk, UniqueMessageIds, MembersOk, CountersOk, ArtifactsOk, CommandsOk, ActorsOk, ChannelsOk,
         ClientsOk, PluginsOk, MembersNotOf, ArtifactsNotOf, CommandsNotOf, RequestsNotOf, OrgMessageIds, OrgStreams;
  }

  /** Every row that names an org, by table. */
  ghost predicate NothingOf(t: Tables, orgId: Id) {
    && orgId !in t.orgs
    && (forall a :: a in t.actors ==> t.actors[a].orgId != orgId)
    && (forall k :: k in t.memberships ==> k.orgId != orgId)
    && (forall c :: c in t.channels ==> t.channels[c].orgId != orgId)
    && (forall h :: h in t.threads ==> t.threads[h].orgId != orgId)
    && (forall m :: m in t.messages ==> m.orgId != orgId)
    && (forall g :: g in t.grants ==> g.orgId != orgId)
    && (forall r :: r in t.requests ==> t.requests[r].orgId != orgId)
    && (forall a :: a in t.artifacts ==> t.artifacts[a].orgId != orgId)
    && (forall c :: c in t.commands ==> t.commands[c].orgId != orgId)
    && (forall k :: k in t.cursors ==> k.orgId != orgId)
    && (forall c :: c in t.clients ==> t.clients[c].orgId != orgId)
    && (forall e :: e in t.events ==> e.orgId != orgId)
    && (forall row :: row in t.audit ==> row.orgId != orgId)
  }

  function MessageOf(orgId: Id): Message -> bool {
    (m: Message) => m.orgId == orgId
  }

  function GrantOf(orgId: Id): Grant -> bool {
    (g: Grant) => g.orgId == orgId
  }

  /** Main result: `deleteOrg` removes every row of the org, its parts and its counters. */
  lemma DeleteOrgRemovesEverything(t: Tables, orgId: Id)
    requires Integrity(t)
    ensures var t' := AfterDeletes(t, orgId, OrgStreams(t, orgId), DELETES);
            && NothingOf(t', orgId)
            && (forall row, m :: row in t'.parts && m in t.messages && m.id == row.messageId ==> m.orgId != orgId)
            && (forall x :: x in OrgStreams(t, orgId) ==> x !in t'.counters)
  {
    hide Integrity;
  }

  function EventOf(orgId: Id): DomainEvent -> bool {
    (e: DomainEvent) => e.orgId == orgId
  }

  /** Main result: `deleteOrg` leaves every other org's rows, parts, counters and audit log as they were. */
  lemma DeleteOrgSparesOthers(t: Tables, orgId: Id, other: Id)
    requires Integrity(t) && other != orgId
    ensures var t' := AfterDeletes(t, orgId, OrgStreams(t, orgId), DELETES);
            && (other in t.orgs ==> other in t'.orgs)
            && Where(t'.messages, MessageOf(other)) == Where(t.messages, MessageOf(other))
            && Where(t'.grants, GrantOf(other)) == Where(t.grants, GrantOf(other))
            && Where(t'.events, EventOf(other)) == Where(t.events, EventOf(other))
            && OrgRows(t'.audit, other) == OrgRows(t.audit, other)
            && (forall c :: c in t.channels && t.channels[c].orgId == other ==> c in t'.channels && t'.channels[c] == t.channels[c])
            && (forall h :: h in t.threads && t.threads[h].orgId == other ==> h in t'.threads && t'.threads[h] == t.threads[h])
            && (forall x :: x in OrgStreams(t, other) && x in t.counters ==> x in t'.counters && t'.counters[x] == t.counters[x])
            && (forall row, m :: row in t.parts && m in t.messages && m.id == row.messageId && m.orgId == other ==> row in t'.parts)
            && KeepsRowsOf(t, t', other)
  {
    hide ThreadsOk, MessagesOk, PartsOk, MembersOk, CountersOk, ArtifactsOk, CommandsOk, ActorsOk, ChannelsOk, ClientsOk, PluginsOk,
         MembersNotOf, ArtifactsNotOf, CommandsNotOf, RequestsNotOf, CursorsNotOf, ClientsNotOf, ActorsNotOf, KeepsRowsOf;
    SparedRows(t, orgId, other);
    SparedStreams(t, orgId, other);
    SparedParts(t, orgId, other);
    SparedMaps(t, orgId, other);
  }

  /** The org's rows in the tables that hold neither streams nor messages. */
  ghost predicate KeepsRowsOf(t: Tables, t': Tables, orgId: Id) {
    && (forall a :: a in t.actors && t.actors[a].orgId == orgId ==> a in t'.actors && t'.actors[a] == t.actors[a])
    && (forall k :: k in t.memberships && k.orgId == orgId ==> k in t'.memberships && t'.memberships[k] == t.memberships[k])
    && (forall r :: r in t.requests && t.requests[r].orgId == orgId ==> r in t'.requests && t'.requests[r] == t.requests[r])
    && (forall a :: a in t.artifacts && t.artifacts[a].orgId == orgId ==> a in t'.artifacts && t'.artifacts[a] == t.artifacts[a])
    && (forall c :: c in t.commands && t.commands[c].orgId == orgId ==> c in t'.commands && t'.commands[c] == t.commands[c])
    && (forall k :: k in t.cursors && k.orgId == orgId ==> k in t'.cursors && t'.cursors[k] == t.cursors[k])
    && (forall c :: c in t.clients && t.clients[c].orgId == orgId ==> c in t'.clients && t'.clients[c] == t.clients[c])
    && t'.plugins == t.plugins
  }

  lemma SparedMaps(t: Tables, orgId: Id, other: Id)
    requires other != orgId
    ensures KeepsRowsOf(t, AfterDeletes(t, orgId, OrgStreams(t, orgId), DELETES), other)
  {
    hide Where, OrgMessageIds, ThreadsNotOf, ChannelsNotOf, OrgStreams;
  }

  lemma SparedRows(t: Tables, orgId: Id, other: Id)
    requires other != orgId
    ensures Where(Where(t.messages, MessageNotOf(orgId)), MessageOf(other)) == Where(t.messages, MessageOf(other))
    ensures Where(Where(t.grants, GrantNotOf(orgId)), GrantOf(other)) == Where(t.grants, GrantOf(other))
    ensures Where(Where(t.events, EventNotOf(orgId)), EventOf(other)) == Where(t.events, EventOf(other))
    ensures OrgRows(Where(t.audit, AuditNotOf(orgId)), other) == OrgRows(t.audit, other)
  {
    WhereWhere(t.messages, MessageNotOf(orgId), MessageOf(other), MessageOf(other));
    WhereWhere(t.grants, GrantNotOf(orgId), GrantOf(other), GrantOf(other));
    WhereWhere(t.events, EventNotOf(orgId), EventOf(other), EventOf(other));
    WhereWhere(t.audit, AuditNotOf(orgId), OfOrg(other), OfOrg(other));
  }

  lemma SparedStreams(t: Tables, orgId: Id, other: Id)
    requires Integrity(t) && other != orgId
    ensures OrgStreams(t, other) !! OrgStreams(t, orgId)
  {
    assert ThreadsOk(t.threads, t.channels, t.messages);
  }

  lemma SparedParts(t: Tables, orgId: Id, other: Id)
    requires Integrity(t) && other != orgId
    ensures forall row, m :: row in t.parts && m in t.messages && m.id == row.messageId && m.orgId == other ==>
                               row in Where(t.parts, PartOutside(OrgMessageIds(t.messages, orgId)))
  {
    forall row, m | row in t.parts && m in t.messages && m.id == row.messageId && m.orgId == other
      ensures row.messageId !in OrgMessageIds(t.messages, orgId)
    {
      forall x | x in t.messages && x.id == m.id
        ensures x.orgId == other
      {
        SameIdSameMessage(t.messages, x, m);
      }
    }
  }

  lemma SameIdSameMessage(messages: seq<Message>, x: Message, y: Message)
    requires UniqueMessageIds(messages) && x in messages && y in messages && x.id == y.id
    ensures x == y
  {
  }

  // ---------- calls taken one at a time ----------

  /** What a check vouches for when its transaction follows at once. */
  ghost predicate StillTrue(t: Tables, tx: Tx) {
    match tx
    case TxCreateChannel(p, _, _) => KnownActor(t, p)
    case TxCreateThread(p, channelId, parent, v) =>
      KnownActor(t, p) && ThreadOk(Thread(p.orgId, channelId, parent, v, p.actorId), t.channels, t.messages)
    case TxAddMember(p, channelId, actorId, _) => MemberOk(MemberKey(p.orgId, actorId, Some(channelId)), t.actors, t.channels)
    case TxAppend(p, streamId, streamType, _, _) =>
      KnownActor(t, p) && StreamIn(t.channels, t.threads, streamId, streamType, p.orgId)
    case TxRegisterArtifact(p, streamId, streamType) => StreamIn(t.channels, t.threads, streamId, streamType, p.orgId)
    case TxRegisterCommand(p, _, _) => KnownActor(t, p)
    case TxDeleteArtifact(p, a, _, _) => true
    case TxDeleteChannel(p, channelId) => channelId in t.channels && t.channels[channelId].orgId == p.orgId
    case TxDeleteOrg(p, orgId, streamIds) => streamIds == OrgStreams(t, orgId)
    case TxUpdateCursor(p, _, _, _) => KnownActor(t, p)
    case TxRegisterClient(p, _) => KnownActor(t, p)
    case TxOpenPluginRow(row) => PluginOk(row, t.actors, t.channels)
    case _ => true
  }

  lemma CheckAppendVouches(t: Tables, p: Principal, streamId: Id, streamType: StreamType, parts: seq<MessagePart>,
                           key: string, ask: bool, now: nat)
    ensures var r := CheckAppend(t, p, streamId, streamType, parts, key, ask, now);
            r.Ok? ==> StillTrue(t, r.value) && (r.value.TxAppend? || r.value.TxOpenRequest?)
  {
    hide HasGrant, PartsValid, HasCommand, IsMember;
  }

  lemma CheckVouches(t: Tables, call: Call, now: nat)
    requires Check(t, call, now).Ok?
    ensures StillTrue(t, Check(t, call, now).value)
  {
    hide HasGrant, AdministersChannel, MayResolve, ActiveGrantIds, OrgHasGrant, CheckAppend, OrgStreams, IsMember, ReadDenial;
    if call.AppendMessage? {
      CheckAppendVouches(t, call.p, call.streamId, call.streamType, call.parts, call.key, call.autoRequestOnDeny, now);
    } else if call.CreateThread? {
      ThreadVouched(t, call.p, call.channelId, call.parentMessageId, call.visibility);
    }
  }

  lemma ThreadVouched(t: Tables, p: Principal, channelId: Id, parentMessageId: Id, v: Visibility)
    requires channelId in t.channels && t.channels[channelId].orgId == p.orgId
    ensures var parent := FindById(t.messages, parentMessageId);
            parent.Some? && parent.value.orgId == p.orgId && parent.value.streamId == channelId ==>
              ThreadOk(Thread(p.orgId, channelId, parentMessageId, v, p.actorId), t.channels, t.messages)
  {
    var parent := FindById(t.messages, parentMessageId);
    assert parent.Some? ==> parent.value in t.messages;
  }

  ghost predicate Kept(r: Outcome, usedIds: set<Id>) {
    r.Committed? ==> Integrity(r.tables) && KeysUsed(r.tables, usedIds)
  }

  /** Tables that agree on every row integrity looks at. */
  predicate SameRows(t: Tables, r: Tables) {
    && SameStreams(t, r)
    && r.orgs == t.orgs && r.actors == t.actors && r.memberships == t.memberships && r.parts == t.parts
    && r.artifacts == t.artifacts && r.commands == t.commands
    && r.cursors == t.cursors && r.clients == t.clients && r.plugins == t.plugins
  }

  lemma SameRowsKeep(t: Tables, r: Tables, usedIds: set<Id>)
    requires Integrity(t) && KeysUsed(t, usedIds) && SameRows(t, r)
    ensures Integrity(r) && KeysUsed(r, usedIds)
  {
    hide ThreadsOk, MessagesOk, PartsOk, UniqueMessageIds, MembersOk, CountersOk, ArtifactsOk, CommandsOk, ActorsOk, ChannelsOk, ClientsOk, PluginsOk;
  }

  lemma CreateOrgKeeps(env: Env, t: Tables, name: string, now: nat, id: Id, usedIds: set<Id>)
    requires Integrity(t) && KeysUsed(t, usedIds)
    ensures Kept(CreateOrgTx(env, t, name, now, id), usedIds)
  {
    hide AuditAll, OrgCreatedEvent, ThreadsOk, MessagesOk, PartsOk, UniqueMessageIds, MembersOk, CountersOk, ArtifactsOk, CommandsOk,
         ClientsOk, PluginsOk;
  }

  lemma CreateActorKeeps(env: Env, t: Tables, orgId: Id, now: nat, id: Id, usedIds: set<Id>)
    requires Integrity(t) && KeysUsed(t, usedIds) && id !in usedIds
    ensures Kept(CreateActorTx(env, t, orgId, now, id), usedIds + {id})
  {
    hide AuditAll, ActorJoinedEvent, ThreadsOk, MessagesOk, PartsOk, UniqueMessageIds, CountersOk, ArtifactsOk, CommandsOk,
         ChannelsOk, ClientsOk, PluginsOk;
    ActorsGrow(t, t.actors[id := Actor(orgId)]);
  }

  lemma CreateChannelKeeps(env: Env, t: Tables, p: Principal, name: string, v: Visibility, now: nat, id: Id, usedIds: set<Id>)
    requires Integrity(t) && KeysUsed(t, usedIds) && id !in usedIds && KnownActor(t, p)
    ensures Kept(CreateChannelTx(env, t, p, name, v, now, id), usedIds + {id})
  {
    hide AuditAll, ChannelCreatedEvent, OwnerEvent, Consume, MessagesOk, PartsOk, UniqueMessageIds, CountersOk, ArtifactsOk,
         CommandsOk, ClientsOk, PluginsOk;
    StreamsGrow(t, t.channels[id := Channel(p.orgId, v, p.actorId)], t.threads);
  }

  lemma CreateThreadKeeps(env: Env, t: Tables, p: Principal, channelId: Id, parent: Id, v: Visibility, now: nat, id: Id, usedIds: set<Id>)
    requires Integrity(t) && KeysUsed(t, usedIds) && id !in usedIds
    requires ThreadOk(Thread(p.orgId, channelId, parent, v, p.actorId), t.channels, t.messages)
    ensures Kept(CreateThreadTx(env, t, p, channelId, parent, v, now, id), usedIds + {id})
  {
    hide AuditAll, ThreadCreatedEvent, Consume, MessagesOk, PartsOk, UniqueMessageIds, CountersOk, ArtifactsOk, MembersOk,
         CommandsOk, ActorsOk, ChannelsOk, ClientsOk, PluginsOk;
    StreamsGrow(t, t.channels, t.threads[id := Thread(p.orgId, channelId, parent, v, p.actorId)]);
  }

  lemma MembershipKeeps(env: Env, t: Tables, p: Principal, channelId: Id, actorId: Id, role: string, now: nat, usedIds: set<Id>)
    requires Integrity(t) && KeysUsed(t, usedIds)
    ensures MemberOk(MemberKey(p.orgId, actorId, Some(channelId)), t.actors, t.channels) ==>
              Kept(AddMemberTx(env, t, p, channelId, actorId, role, now), usedIds)
    ensures Kept(RemoveMemberTx(env, t, p, channelId, actorId, now), usedIds)
  {
    hide AuditAll, MemberAddedEvent, MemberRemovedEvent, ThreadsOk, MessagesOk, PartsOk, UniqueMessageIds, CountersOk, ArtifactsOk,
         CommandsOk, ActorsOk, ChannelsOk, ClientsOk, PluginsOk;
  }

  lemma PostKeeps(t: Tables, m: Message, parts: seq<MessagePart>, r: Tables, usedIds: set<Id>)
    requires Integrity(t) && KeysUsed(t, usedIds) && m.id !in usedIds && !m.redacted
    requires MessageOk(m, t.channels, t.threads, t.actors)
    requires r.orgs == t.orgs && r.actors == t.actors && r.channels == t.channels && r.threads == t.threads
    requires r.memberships == t.memberships && r.artifacts == t.artifacts && r.commands == t.commands
    requires r.cursors == t.cursors && r.clients == t.clients
    requires r.plugins == t.plugins && r.messages == t.messages + [m] && r.parts == t.parts + PartRows(m.id, parts)
    requires m.streamId in r.counters && r.counters.Keys == t.counters.Keys + {m.streamId}
    ensures Integrity(r) && KeysUsed(r, usedIds + {m.id})
  {
    hide PartRows, ThreadsOk, MessagesOk, PartsOk, UniqueMessageIds, ArtifactsOk, MembersOk, CommandsOk, ActorsOk, ChannelsOk, ClientsOk, PluginsOk;
    MessagesGrow(t, m);
    assert r.messages[|t.messages|] == m;
    NewPartsOk(t.parts, r.messages, m, parts);
  }

  lemma AppendKeeps(env: Env, t: Tables, p: Principal, streamId: Id, streamType: StreamType, parts: seq<MessagePart>, key: string,
                    now: nat, id: Id, usedIds: set<Id>)
    requires Integrity(t) && KeysUsed(t, usedIds) && id !in usedIds
    requires KnownActor(t, p) && StreamIn(t.channels, t.threads, streamId, streamType, p.orgId)
    ensures Kept(AppendTx(env, t, p, streamId, streamType, parts, key, now, id), usedIds + {id})
  {
    hide AuditAll, PayForAppend, PostEvents, PartRows, Integrity, KeysUsed, StreamIn;
    var r := AppendTx(env, t, p, streamId, streamType, parts, key, now, id);
    if FindByKey(t.messages, AppendKey(p.orgId, streamId, p.actorId, key)).Some? {
      MoreUsed(r, usedIds, id);
    } else if r.Committed? {
      PostKeeps(t, NewMessage(t, p, streamId, streamType, key, now, id), parts, r.tables, usedIds);
    }
  }

  lemma RedactKeeps(env: Env, t: Tables, p: Principal, messageId: Id, streamId: Id, streamType: StreamType, isAuthor: bool,
                    reason: string, now: nat, usedIds: set<Id>)
    requires Integrity(t) && KeysUsed(t, usedIds)
    ensures Kept(RedactTx(env, t, p, messageId, streamId, streamType, isAuthor, reason, now), usedIds)
  {
    RedactionKeeps(t, messageId);
    RedactionKeepsIds(t.messages, messageId, usedIds);
    hide AuditAll, RedactedEvent, PayForRedact, MarkRedacted, Where, ThreadsOk, MessagesOk, PartsOk, UniqueMessageIds, CountersOk,
         ArtifactsOk, MembersOk, CommandsOk, ActorsOk, ChannelsOk, ClientsOk, PluginsOk;
  }

  lemma RedactionKeepsIds(messages: seq<Message>, id: Id, usedIds: set<Id>)
    requires forall m :: m in messages ==> m.id in usedIds
    ensures forall m :: m in MarkRedacted(messages, id) ==> m.id in usedIds
  {
    var ms := MarkRedacted(messages, id);
    forall m | m in ms
      ensures m.id in usedIds
    {
      var i :| 0 <= i < |ms| && ms[i] == m;
      assert messages[i] in messages;
    }
  }

  lemma GrantKeeps(env: Env, t: Tables, tx: Tx, now: nat, id: Id, usedIds: set<Id>)
    requires Integrity(t) && KeysUsed(t, usedIds) && (tx.TxCreateGrant? || tx.TxRevokeGrants? || tx.TxOpenRequest?)
    ensures Kept(Commit(env, t, tx, now, id), usedIds)
  {
    hide AuditAll, Deactivate, RevokeEvents, GrantCreatedEvent, RequestCreatedEvent, Integrity, KeysUsed;
    SameRowsKeep(t, Commit(env, t, tx, now, id).tables, usedIds);
  }

  lemma CommandsFlip(commands: map<Id, Command>, actors: map<Id, Actor>, c: Option<Id>, enabled: bool)
    requires CommandsOk(commands, actors)
    ensures CommandsOk(SetEnabled(commands, c, enabled), actors)
  {
  }

  lemma ResolveCommandKeeps(env: Env, t: Tables, p: Principal, requestId: Id, request: Request, approve: bool, now: nat, usedIds: set<Id>)
    requires Integrity(t) && KeysUsed(t, usedIds)
    ensures Kept(ResolveCommandTx(env, t, p, requestId, request, approve, now), usedIds)
  {
    CommandsFlip(t.commands, t.actors, CommandIdOf(request.context), approve);
    hide AuditAll, CommandIdOf, SetStatus, SetEnabled, ResolvedEvent, CommandRegisteredEvent;
    hide ThreadsOk, MessagesOk, PartsOk, UniqueMessageIds, CountersOk, ArtifactsOk, MembersOk, CommandsOk, ActorsOk, ChannelsOk, ClientsOk, PluginsOk;
  }

  lemma ApproveKeeps(env: Env, t: Tables, p: Principal, requestId: Id, request: Request, expiresAt: Option<nat>,
                     maxUses: Option<nat>, now: nat, id: Id, usedIds: set<Id>)
    requires Integrity(t) && KeysUsed(t, usedIds)
    ensures Kept(DenyTx(env, t, p, requestId, now), usedIds)
    ensures Kept(ApproveTx(env, t, p, requestId, request, expiresAt, maxUses, now, id), usedIds)
  {
    hide AuditAll, SetStatus, GrantCreatedEvent, ResolvedEvent, Integrity, KeysUsed;
    SameRowsKeep(t, DenyTx(env, t, p, requestId, now).tables, usedIds);
    SameRowsKeep(t, ApproveTx(env, t, p, requestId, request, expiresAt, maxUses, now, id).tables, usedIds);
  }

  lemma ResolveKeeps(env: Env, t: Tables, p: Principal, requestId: Id, request: Request, approve: bool, expiresAt: Option<nat>,
                     maxUses: Option<nat>, now: nat, id: Id, usedIds: set<Id>)
    requires Integrity(t) && KeysUsed(t, usedIds)
    ensures Kept(ResolveTx(env, t, p, requestId, request, approve, expiresAt, maxUses, now, id), usedIds)
  {
    hide ResolveCommandTx, DenyTx, ApproveTx, Kept, Integrity, KeysUsed;
    ResolveCommandKeeps(env, t, p, requestId, request, approve, now, usedIds);
    ApproveKeeps(env, t, p, requestId, request, expiresAt, maxUses, now, id, usedIds);
  }

  lemma ArtifactKeeps(env: Env, t: Tables, p: Principal, streamId: Id, streamType: StreamType, a: Id, row: Artifact, reason: string,
                      now: nat, id: Id, usedIds: set<Id>)
    requires Integrity(t) && KeysUsed(t, usedIds)
    ensures StreamIn(t.channels, t.threads, streamId, streamType, p.orgId) ==>
              Kept(RegisterArtifactTx(env, t, p, streamId, streamType, now, id), usedIds)
    ensures Kept(DeleteArtifactTx(env, t, p, a, row, reason, now), usedIds)
  {
    hide AuditAll, PayForArtifact, ArtifactRegisteredEvent, ArtifactDeletedEvent;
    hide ThreadsOk, MessagesOk, PartsOk, UniqueMessageIds, CountersOk, MembersOk, CommandsOk, ActorsOk, ChannelsOk, ClientsOk, PluginsOk, StreamIn;
  }

  lemma RegistrationKeeps(env: Env, t: Tables, p: Principal, name: string, scope: Option<Id>, now: nat, id: Id, usedIds: set<Id>)
    requires Integrity(t) && KeysUsed(t, usedIds) && KnownActor(t, p)
    ensures Kept(RegisterCommandTx(env, t, p, name, scope, now, id), usedIds)
  {
    hide AuditAll, CommandRequest, CommandRequestedEvent;
    hide ThreadsOk, MessagesOk, PartsOk, UniqueMessageIds, CountersOk, MembersOk, ArtifactsOk, ActorsOk, ChannelsOk;
  }

  lemma ConsumerKeeps(env: Env, t: Tables, p: Principal, streamId: Id, seen: nat, acked: nat, endpoint: string, now: nat, id: Id,
                      usedIds: set<Id>)
    requires Integrity(t) && KeysUsed(t, usedIds) && KnownActor(t, p)
    ensures Kept(UpdateCursorTx(env, t, p, streamId, seen, acked, now), usedIds)
    ensures Kept(RegisterClientTx(env, t, p, endpoint, now, id), usedIds)
  {
    hide AuditAll, CursorUpdatedEvent, ClientRegisteredEvent;
    hide ThreadsOk, MessagesOk, PartsOk, UniqueMessageIds, CountersOk, MembersOk, CommandsOk, ArtifactsOk, ActorsOk, ChannelsOk, PluginsOk;
  }

  lemma PluginKeeps(t: Tables, row: PluginRow, id: Id, usedIds: set<Id>)
    requires Integrity(t) && KeysUsed(t, usedIds) && PluginOk(row, t.actors, t.channels)
    ensures Kept(OpenPluginRowTx(t, row, id), usedIds)
  {
    hide ThreadsOk, MessagesOk, PartsOk, UniqueMessageIds, CountersOk, MembersOk, CommandsOk, ArtifactsOk, ActorsOk, ChannelsOk, ClientsOk;
  }

  lemma DeleteChannelTxKeeps(env: Env, t: Tables, p: Principal, channelId: Id, now: nat, usedIds: set<Id>)
    requires Integrity(t) && KeysUsed(t, usedIds) && channelId in t.channels && t.channels[channelId].orgId == p.orgId
    ensures Kept(DeleteChannelTx(env, t, p, channelId, now), usedIds)
  {
    DeleteChannelCommitsIff(env, t, p, channelId, now);
    hide Integrity, KeysUsed, WithoutChannel, DeleteChannelTx, Unbound, SameRows;
    if Unbound(t.plugins, channelId) {
      DeleteChannelKeepsIntegrity(t, p.orgId, channelId, usedIds);
      DeletionRows(env, t, p, channelId, now);
      SameRowsKeep(WithoutChannel(t, p.orgId, channelId), DeleteChannelTx(env, t, p, channelId, now).tables, usedIds);
    }
  }

  lemma DeletionRows(env: Env, t: Tables, p: Principal, channelId: Id, now: nat)
    ensures var r := DeleteChannelTx(env, t, p, channelId, now);
            r.Committed? ==> SameRows(WithoutChannel(t, p.orgId, channelId), r.tables)
  {
    hide AuditAll, WithoutChannel, ChannelDeletedEvent, ChannelStreams, ForeignKeysHold;
  }

  lemma DeleteOrgTxKeeps(env: Env, t: Tables, p: Principal, orgId: Id, now: nat, usedIds: set<Id>)
    requires Integrity(t) && KeysUsed(t, usedIds)
    ensures Kept(DeleteOrgTx(env, t, p, orgId, OrgStreams(t, orgId), now), usedIds)
  {
    DeleteOrgCommitsIff(t, orgId, OrgStreams(t, orgId));
    if NoPluginRows(t, orgId) { DeleteOrgKeepsIntegrity(t, orgId, usedIds); }
    hide Integrity, KeysUsed, AfterDeletes, OrgDeletedEvent, OrgStreams, DeletesAllowed;
  }

  lemma MoreUsed(r: Outcome, usedIds: set<Id>, id: Id)
    requires Kept(r, usedIds)
    ensures Kept(r, usedIds + {id})
  {
    hide Integrity;
  }

  lemma CommitKeepsIntegrity(env: Env, t: Tables, tx: Tx, now: nat, id: Id, usedIds: set<Id>)
    requires Integrity(t) && KeysUsed(t, usedIds) && StillTrue(t, tx) && id !in usedIds
    ensures Kept(Commit(env, t, tx, now, id), usedIds + {id})
  {
    hide AppendTx, RedactTx, CreateChannelTx, CreateThreadTx, ResolveCommandTx, DenyTx, ApproveTx, RegisterArtifactTx, DeleteOrgTx,
         RevokeGrantsTx, CreateOrgTx, CreateActorTx, AddMemberTx, RemoveMemberTx, OpenRequestTx, DeleteArtifactTx, RegisterCommandTx,
         DeleteChannelTx, CreateGrantTx, OpenPluginRowTx, UpdateCursorTx, RegisterClientTx, Integrity, KeysUsed, Kept, MemberOk, ThreadOk, StreamIn, OrgStreams;
    var r := Commit(env, t, tx, now, id);
    match tx
    case TxCreateOrg(name) => CreateOrgKeeps(env, t, name, now, id, usedIds); MoreUsed(r, usedIds, id);
    case TxCreateActor(orgId) => CreateActorKeeps(env, t, orgId, now, id, usedIds);
    case TxCreateChannel(p, name, v) => CreateChannelKeeps(env, t, p, name, v, now, id, usedIds);
    case TxCreateThread(p, c, m, v) => CreateThreadKeeps(env, t, p, c, m, v, now, id, usedIds);
    case TxAddMember(p, c, a, role) => MembershipKeeps(env, t, p, c, a, role, now, usedIds); MoreUsed(r, usedIds, id);
    case TxRemoveMember(p, c, a) => MembershipKeeps(env, t, p, c, a, "", now, usedIds); MoreUsed(r, usedIds, id);
    case TxAppend(p, x, st, parts, key) => AppendKeeps(env, t, p, x, st, parts, key, now, id, usedIds);
    case TxRedact(p, m, x, st, a, reason) => RedactKeeps(env, t, p, m, x, st, a, reason, now, usedIds); MoreUsed(r, usedIds, id);
    case TxCreateGrant(_, _, _, _, _, _, _) => GrantKeeps(env, t, tx, now, id, usedIds); MoreUsed(r, usedIds, id);
    case TxRevokeGrants(_, _, _, _) => GrantKeeps(env, t, tx, now, id, usedIds); MoreUsed(r, usedIds, id);
    case TxOpenRequest(_, _, _, _, _) => GrantKeeps(env, t, tx, now, id, usedIds); MoreUsed(r, usedIds, id);
    case TxResolve(p, q, request, a, e, u) => ResolveKeeps(env, t, p, q, request, a, e, u, now, id, usedIds); MoreUsed(r, usedIds, id);
    case TxRegisterArtifact(p, x, st) =>
      ArtifactKeeps(env, t, p, x, st, "", Artifact("", "", st, "", true), "", now, id, usedIds);
      MoreUsed(r, usedIds, id);
    case TxDeleteArtifact(p, a, row, reason) =>
      ArtifactKeeps(env, t, p, "", ChannelStream, a, row, reason, now, id, usedIds);
      MoreUsed(r, usedIds, id);
    case TxRegisterCommand(p, name, scope) => RegistrationKeeps(env, t, p, name, scope, now, id, usedIds); MoreUsed(r, usedIds, id);
    case TxUpdateCursor(p, x, seen, acked) => ConsumerKeeps(env, t, p, x, seen, acked, "", now, id, usedIds); MoreUsed(r, usedIds, id);
    case TxRegisterClient(p, endpoint) => ConsumerKeeps(env, t, p, "", 0, 0, endpoint, now, id, usedIds); MoreUsed(r, usedIds, id);
    case TxOpenPluginRow(row) => PluginKeeps(t, row, id, usedIds); MoreUsed(r, usedIds, id);
    case TxDeleteChannel(p, c) => DeleteChannelTxKeeps(env, t, p, c, now, usedIds); MoreUsed(r, usedIds, id);
    case TxDeleteOrg(p, o, ids) => DeleteOrgTxKeeps(env, t, p, o, now, usedIds); MoreUsed(r, usedIds, id);
  }

  // ---------- serial runs ----------

  /** A call with its clock readings and the id it would draw. */
  datatype SerialCall = SerialCall(call: Call, checkedAt: nat, committedAt: nat, id: Id)

  /** The schedule that lets each call finish before the next begins. */
  function OneAtATime(turns: seq<SerialCall>): seq<Step> {
    if turns == [] then []
    else
      var last := turns[|turns| - 1];
      OneAtATime(turns[..|turns| - 1]) + [Begin(0, last.call, last.checkedAt), Finish(0, last.committedAt, last.id), Abandon(0)]
  }

  ghost predicate SerialInv(s: Sys) {
    Integrity(s.tables) && KeysUsed(s.tables, s.usedIds) && s.pending == map[]
  }

  lemma TurnKeepsIntegrity(env: Env, s: Sys, turn: SerialCall)
    requires SerialInv(s)
    ensures SerialInv(Exec(env, Exec(env, Exec(env, s, Begin(0, turn.call, turn.checkedAt)), Finish(0, turn.committedAt, turn.id)), Abandon(0)))
  {
    hide Commit, Check, Integrity, KeysUsed, StillTrue, DroppedStreams, NewStreams;
    if Check(s.tables, turn.call, turn.checkedAt).Ok? {
      var tx := Check(s.tables, turn.call, turn.checkedAt).value;
      CheckVouches(s.tables, turn.call, turn.checkedAt);
      if turn.id !in s.usedIds {
        CommitKeepsIntegrity(env, s.tables, tx, turn.committedAt, turn.id, s.usedIds);
      }
    }
  }

  lemma RunThree(env: Env, steps: seq<Step>, a: Step, b: Step, c: Step)
    ensures Run(env, steps + [a, b, c]) == Exec(env, Exec(env, Exec(env, Run(env, steps), a), b), c)
  {
    hide Exec, Run;
    assert steps + [a, b, c] == ((steps + [a]) + [b]) + [c];
    RunOne(env, steps, a);
    RunOne(env, steps + [a], b);
    RunOne(env, (steps + [a]) + [b], c);
  }

  lemma RunOne(env: Env, steps: seq<Step>, a: Step)
    ensures Run(env, steps + [a]) == Exec(env, Run(env, steps), a)
  {
    hide Exec;
    assert (steps + [a])[..|steps|] == steps;
  }

  lemma StartSerial()
    ensures SerialInv(START)
  {
  }

  lemma {:induction false} SerialRunsKeepIntegrity(env: Env, turns: seq<SerialCall>)
    ensures SerialInv(Run(env, OneAtATime(turns)))
  {
    hide Exec, SerialInv;
    if turns == [] {
      StartSerial();
    } else {
      var front, last := turns[..|turns| - 1], turns[|turns| - 1];
      SerialRunsKeepIntegrity(env, front);
      TurnKeepsIntegrity(env, Run(env, OneAtATime(front)), last);
      RunThree(env, OneAtATime(front), Begin(0, last.call, last.checkedAt), Finish(0, last.committedAt, last.id), Abandon(0));
    }
  }

  /** Main result: with calls taken one at a time, every reachable state is free of dangling rows. */
  lemma SerialIntegrity(env: Env, turns: seq<SerialCall>)
    ensures Integrity(Run(env, OneAtATime(turns)).tables)
  {
    hide Run, OneAtATime, Integrity;
    SerialRunsKeepIntegrity(env, turns);
  }
}
