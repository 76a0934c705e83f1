// The service's tables (src/db.ts, SCHEMA_SQL) as values. Rows whose insertion order matters are
// sequences; the rest are maps from primary keys.

module Tables {
  import opened Prelude
  import opened CanonicalJson
  import opened AuditChain

  type Id = string

  datatype StreamType = ChannelStream | ThreadStream
  datatype Visibility = Private | Public

  datatype Principal = Principal(actorId: Id, orgId: Id, scopes: set<string>)

  datatype Actor = Actor(orgId: Id)

  datatype Channel = Channel(orgId: Id, visibility: Visibility, createdBy: Id)

  datatype Thread = Thread(orgId: Id, channelId: Id, parentMessageId: Id, visibility: Visibility, createdBy: Id)

  datatype MemberKey = MemberKey(orgId: Id, actorId: Id, channelId: Option<Id>)

  datatype MessagePart =
    | TextPart(text: string)
    | MentionPart(actorId: Id, labelText: Option<string>, start: Option<int>, end: Option<int>)
    | CommandPart(command: string, invocationId: Option<string>, argKeys: seq<string>, commandId: Option<Id>,
                  ownerActorId: Option<Id>)
    | OtherPart(kind: string, payload: Json)

  datatype PartRow = PartRow(messageId: Id, index: nat, part: MessagePart)

  datatype Message = Message(
    id: Id, orgId: Id, streamId: Id, streamType: StreamType, actorId: Id, streamSeq: nat, key: string,
    createdAt: nat, redacted: bool)

  datatype Grant = Grant(
    id: Id, orgId: Id, actorId: Id, resourceType: string, resourceId: Option<Id>, capability: string,
    expiresAt: Option<nat>, maxUses: Option<nat>, usesCount: nat, active: bool, createdAt: nat)

  datatype RequestStatus = Open | Approved | Denied

  datatype Request = Request(
    orgId: Id, actorId: Id, action: string, resourceType: string, resourceId: Option<Id>,
    status: RequestStatus, grantId: Option<Id>, context: Json)

  datatype Artifact = Artifact(orgId: Id, streamId: Id, streamType: StreamType, createdBy: Id, deleted: bool)

  datatype Command = Command(orgId: Id, ownerActorId: Id, channelId: Option<Id>, enabled: bool)

  datatype CursorKey = CursorKey(orgId: Id, actorId: Id, streamId: Id)

  datatype Cursor = Cursor(lastSeenSeq: nat, lastAckSeq: nat)

  datatype Client = Client(orgId: Id, actorId: Id, endpoint: string)

  /**
   * The foreign keys of a row in a plugin's table: a durable stream (of either plugin) and a webhook
   * subscription reference an org and an actor, a Telegram setup references a channel as well.
   */
  datatype PluginRow = PluginRow(orgId: Id, actorId: Id, channelId: Option<Id>)

  datatype DomainEvent = DomainEvent(
    eventType: EventType, payload: Json, orgId: Id, streamId: Option<Id>, streamSeq: Option<nat>, createdAt: nat)

  datatype Tables = Tables(
    orgs: set<Id>,
    actors: map<Id, Actor>,
    memberships: map<MemberKey, string>,
    channels: map<Id, Channel>,
    threads: map<Id, Thread>,
    counters: map<Id, nat>,
    messages: seq<Message>,
    parts: seq<PartRow>,
    grants: seq<Grant>,
    requests: map<Id, Request>,
    artifacts: map<Id, Artifact>,
    commands: map<Id, Command>,
    cursors: map<CursorKey, Cursor>,
    clients: map<Id, Client>,
    plugins: map<Id, PluginRow>,
    events: seq<DomainEvent>,
    audit: seq<StoredRow>)

  const EMPTY_TABLES := Tables({}, map[], map[], map[], map[], map[], [], [], [], map[], map[], map[], map[], map[], map[],
                               [], [])

  function StreamTypeName(t: StreamType): string {
    match t case ChannelStream => "channel" case ThreadStream => "thread"
  }

  // ---------- events and audit ----------

  function AuditEvent(env: Env, audit: seq<StoredRow>, e: DomainEvent): seq<StoredRow> {
    AppendAudit(env, audit, e.orgId, TypeName(e.eventType), e.payload, env.iso(e.createdAt))
  }

  function AuditAll(env: Env, audit: seq<StoredRow>, es: seq<DomainEvent>): seq<StoredRow> {
    if es == [] then audit
    else AuditEvent(env, AuditAll(env, audit, es[..|es| - 1]), es[|es| - 1])
  }

  /** Stores events and chains each into its org's audit log (`emit`). */
  function EmitAll(env: Env, t: Tables, es: seq<DomainEvent>): Tables {
    t.(events := t.events + es, audit := AuditAll(env, t.audit, es))
  }

  lemma {:induction false} EmitAllGenuine(env: Env, audit: seq<StoredRow>, es: seq<DomainEvent>)
    requires GenuineTable(env, audit)
    ensures GenuineTable(env, AuditAll(env, audit, es))
  {
    if es != [] {
      var front, e := es[..|es| - 1], es[|es| - 1];
      EmitAllGenuine(env, audit, front);
      AppendKeepsGenuine(env, AuditAll(env, audit, front), e.orgId, TypeName(e.eventType), e.payload,
                         env.iso(e.createdAt));
    }
  }

  // ---------- grants ----------

  /** The WHERE clause of a grant lookup. */
  datatype GrantQuery = GrantQuery(
    orgId: Id, actorId: Id, capability: string, resourceType: string, resourceId: Option<Id>, now: nat)

  predicate HasUseLeft(g: Grant) {
    g.maxUses == None || g.usesCount < g.maxUses.value
  }

  predicate Unexpired(g: Grant, now: nat) {
    g.expiresAt == None || g.expiresAt.value > now
  }

  predicate Usable(g: Grant, q: GrantQuery) {
    && g.orgId == q.orgId && g.actorId == q.actorId
    && g.capability == q.capability && g.resourceType == q.resourceType
    && g.active
    && (g.resourceId == None || g.resourceId == q.resourceId)
    && Unexpired(g, q.now)
    && HasUseLeft(g)
  }

  predicate AnyUsable(grants: seq<Grant>, q: GrantQuery) {
    exists i :: 0 <= i < |grants| && Usable(grants[i], q)
  }

  /** The grant a charge goes to: usable, created first, and first in the table among equals. */
  predicate IsOldestUsable(grants: seq<Grant>, q: GrantQuery, i: nat) {
    && i < |grants| && Usable(grants[i], q)
    && forall j :: 0 <= j < |grants| && Usable(grants[j], q) ==>
                     grants[i].createdAt < grants[j].createdAt
                     || (grants[i].createdAt == grants[j].createdAt && i <= j)
  }

  function OldestUsable(grants: seq<Grant>, q: GrantQuery): (r: Option<nat>)
    ensures r.None? <==> !AnyUsable(grants, q)
    ensures r.Some? ==> IsOldestUsable(grants, q, r.value)
  {
    if grants == [] then None
    else
      var n := |grants| - 1;
      var front := grants[..n];
      assert forall j :: 0 <= j < n ==> front[j] == grants[j];
      var best := OldestUsable(front, q);
      if Usable(grants[n], q) && (best.None? || grants[n].createdAt < grants[best.value].createdAt) then Some(n)
      else
        assert best.Some? ==> Usable(grants[best.value], q);
        best
  }

  predicate MayUse(grants: seq<Grant>, p: Principal, capability: string, resourceType: string, resourceId: Option<Id>,
                   now: nat)
  {
    || capability in p.scopes
    || AnyUsable(grants, GrantQuery(p.orgId, p.actorId, capability, resourceType, resourceId, now))
  }

  /** Read-only check (`hasGrant`): a scope, or some live grant. */
  predicate HasGrant(t: Tables, p: Principal, capability: string, resourceType: string, resourceId: Option<Id>,
                     now: nat)
  {
    MayUse(t.grants, p, capability, resourceType, resourceId, now)
  }

  // ---------- streams ----------

  datatype StreamInfo = StreamInfo(orgId: Id, channelId: Id, visibility: Visibility)

  function ResolveStream(t: Tables, streamId: Id, streamType: StreamType): Option<StreamInfo> {
    match streamType
    case ChannelStream =>
      if streamId in t.channels
      then Some(StreamInfo(t.channels[streamId].orgId, streamId, t.channels[streamId].visibility))
      else None
    case ThreadStream =>
      if streamId in t.threads
      then Some(StreamInfo(t.threads[streamId].orgId, t.threads[streamId].channelId, t.threads[streamId].visibility))
      else None
  }

  predicate OrgHasActor(t: Tables, orgId: Id, actorId: Id) {
    actorId in t.actors && t.actors[actorId].orgId == orgId
  }

  predicate IsMember(t: Tables, orgId: Id, actorId: Id, channelId: Id) {
    MemberKey(orgId, actorId, Some(channelId)) in t.memberships
  }

  /** `assertStreamReadable` passes. */
  predicate Readable(t: Tables, p: Principal, streamId: Id, streamType: StreamType) {
    var info := ResolveStream(t, streamId, streamType);
    && info.Some? && info.value.orgId == p.orgId
    && (info.value.visibility == Public || IsMember(t, p.orgId, p.actorId, info.value.channelId))
  }

  // ---------- messages ----------

  function InStream(streamId: Id): Message -> bool {
    (m: Message) => m.streamId == streamId
  }

  function StreamMessages(messages: seq<Message>, streamId: Id): seq<Message> {
    Where(messages, InStream(streamId))
  }

  /** The identity of an append request: at most one message may exist for it. */
  datatype AppendKey = AppendKey(orgId: Id, streamId: Id, actorId: Id, key: string)

  function KeyOf(m: Message): AppendKey {
    AppendKey(m.orgId, m.streamId, m.actorId, m.key)
  }

  function FindByKey(messages: seq<Message>, k: AppendKey): (r: Option<Message>)
    ensures r.None? <==> forall m :: m in messages ==> KeyOf(m) != k
    ensures r.Some? ==> r.value in messages && KeyOf(r.value) == k
  {
    if messages == [] then None
    else if KeyOf(messages[0]) == k then Some(messages[0])
    else FindByKey(messages[1..], k)
  }

  function FindById(messages: seq<Message>, id: Id): (r: Option<Message>)
    ensures r.None? <==> forall m :: m in messages ==> m.id != id
    ensures r.Some? ==> r.value in messages && r.value.id == id
  {
    if messages == [] then None
    else if messages[0].id == id then Some(messages[0])
    else FindById(messages[1..], id)
  }

  function Redacted(m: Message, id: Id): Message {
    if m.id == id then m.(redacted := true) else m
  }

  /** UPDATE messages SET redacted=1 WHERE id=? */
  function MarkRedacted(messages: seq<Message>, id: Id): (r: seq<Message>)
    ensures |r| == |messages|
    ensures forall i :: 0 <= i < |messages| ==> r[i] == Redacted(messages[i], id)
  {
    seq(|messages|, i requires 0 <= i < |messages| => Redacted(messages[i], id))
  }

  function PartRows(messageId: Id, parts: seq<MessagePart>): (r: seq<PartRow>)
    ensures |r| == |parts|
    ensures forall i :: 0 <= i < |parts| ==> r[i] == PartRow(messageId, i, parts[i])
  {
    seq(|parts|, i requires 0 <= i < |parts| => PartRow(messageId, i, parts[i]))
  }
}
