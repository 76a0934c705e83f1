// Checks of the service's calls, and runs in which the checks and transactions of any number of
// calls interleave.

module ServiceRuns {
  import opened Prelude
  import opened CanonicalJson
  import opened AuditChain
  import opened Tables
  import opened ServiceSpec

  // ---------- checks ----------

  predicate KnownActor(t: Tables, p: Principal) {
    OrgHasActor(t, p.orgId, p.actorId)
  }

  predicate MayResolve(t: Tables, p: Principal, now: nat) {
    HasGrant(t, p, "grant:create", "org", Some(p.orgId), now)
  }

  predicate AdministersChannel(t: Tables, p: Principal, channelId: Id, now: nat)
    requires channelId in t.channels
  {
    || "channel:admin" in p.scopes
    || t.channels[channelId].createdBy == p.actorId
    || HasGrant(t, p, "channel:admin", "channel", Some(channelId), now)
  }

  /** Why a stream may not be read, if it may not. */
  function ReadDenial(t: Tables, p: Principal, streamId: Id, streamType: StreamType): (r: Option<Error>)
    ensures r == None <==> Readable(t, p, streamId, streamType)
  {
    var info := ResolveStream(t, streamId, streamType);
    if info == None then Some(NotFound)
    else if Readable(t, p, streamId, streamType) then None
    else Some(PermissionDenied("stream:read"))
  }

  /** Mention parts name actors of the org who can see the stream; commands are named. */
  predicate PartsValid(t: Tables, p: Principal, info: StreamInfo, parts: seq<MessagePart>) {
    forall i :: 0 <= i < |parts| ==>
      match parts[i]
      case MentionPart(actorId, _, start, end) =>
        && actorId != "" && OrgHasActor(t, p.orgId, actorId)
        && (info.visibility == Private ==> IsMember(t, p.orgId, actorId, info.channelId))
        && (start.Some? ==> start.value >= 0) && (end.Some? ==> end.value >= 0)
        && (start.Some? && end.Some? ==> end.value >= start.value)
      case CommandPart(command, _, _, _, _) => command != ""
      case _ => true
  }

  function CheckAppend(t: Tables, p: Principal, streamId: Id, streamType: StreamType, parts: seq<MessagePart>,
                       key: string, autoRequestOnDeny: bool, now: nat): Result<Tx, Error>
  {
    var rt := StreamTypeName(streamType);
    if !KnownActor(t, p) then Err(PermissionDenied("org"))
    else if streamId == "" || key == "" || parts == [] then Err(Validation)
    else if !Readable(t, p, streamId, streamType) then Err(ReadDenial(t, p, streamId, streamType).value)
    else if !PartsValid(t, p, ResolveStream(t, streamId, streamType).value, parts) then Err(Validation)
    else if !HasGrant(t, p, "message:append", rt, Some(streamId), now) then
      DenyOrAsk(p, "message:append", rt, streamId, key, autoRequestOnDeny)
    else if HasCommand(parts) && !HasGrant(t, p, "command:invoke", rt, Some(streamId), now) then
      DenyOrAsk(p, "command:invoke", rt, streamId, key, autoRequestOnDeny)
    else Ok(TxAppend(p, streamId, streamType, parts, key))
  }

  /** A denied append either fails or, if asked to, opens a permission request instead. */
  function DenyOrAsk(p: Principal, capability: string, rt: string, streamId: Id, key: string, ask: bool): Result<Tx, Error> {
    if !ask then Err(PermissionDenied(capability))
    else
      Ok(TxOpenRequest(p, capability, rt, Some(streamId),
           Object([Entry("kind", Text(if capability == "message:append" then "message.append" else "command.invoke")),
                   Entry("streamType", Text(rt)), Entry("streamId", Text(streamId)), Entry("idempotencyKey", Text(key))])))
  }

  /** Uses must be a positive number when given. */
  predicate ValidUses(maxUses: Option<int>) {
    maxUses.Some? ==> maxUses.value >= 1
  }

  function Uses(maxUses: Option<int>): Option<nat>
    requires ValidUses(maxUses)
  {
    match maxUses case Some(n) => Some(n) case None => None
  }

  /** `SELECT id FROM grants WHERE org_id=? AND actor_id=? AND active=1` */
  function ActiveGrantIds(grants: seq<Grant>, orgId: Id, actorId: Id): seq<Id> {
    if grants == [] then []
    else
      var g := grants[|grants| - 1];
      ActiveGrantIds(grants[..|grants| - 1], orgId, actorId)
      + (if g.orgId == orgId && g.actorId == actorId && g.active then [g.id] else [])
  }

  /** `SELECT ... FROM grants WHERE id=? AND org_id=?` finds a row. */
  predicate OrgHasGrant(grants: seq<Grant>, orgId: Id, grantId: Id) {
    exists i :: 0 <= i < |grants| && grants[i].id == grantId && grants[i].orgId == orgId
  }

  /** `checkGrant`: some active unexpired grant for the capability, caps ignored. */
  predicate CheckGrant(grants: seq<Grant>, orgId: Id, actorId: Id, capability: string, now: nat) {
    exists i :: 0 <= i < |grants| && grants[i].orgId == orgId && grants[i].actorId == actorId
                && grants[i].capability == capability && grants[i].active && Unexpired(grants[i], now)
  }

  /** How the plugins look a capability up. */
  predicate HasCapability(t: Tables, p: Principal, capability: string, now: nat) {
    capability in p.scopes || CheckGrant(t.grants, p.orgId, p.actorId, capability, now)
  }

  /** `assertCanReadStream` without a stream type: channels are looked at first. */
  function StreamDenial(t: Tables, p: Principal, streamId: Id): Option<Error> {
    if streamId in t.channels then ReadDenial(t, p, streamId, ChannelStream) else ReadDenial(t, p, streamId, ThreadStream)
  }

  /** A durable stream or a webhook subscription, for a stream its creator can read if it names one. */
  function CheckPluginRow(t: Tables, p: Principal, streamId: Option<Id>): Result<Tx, Error> {
    var denial := if streamId.Some? then StreamDenial(t, p, streamId.value) else None;
    if denial.Some? then Err(denial.value) else Ok(TxOpenPluginRow(PluginRow(p.orgId, p.actorId, None)))
  }

  /** A Telegram setup is for an actor of the org who can read the channel. */
  function CheckTelegram(t: Tables, p: Principal, humanId: Id, channelId: Id, now: nat): Result<Tx, Error> {
    if p.actorId != humanId && !HasCapability(t, p, "bridge:telegram:manage", now)
    then Err(PermissionDenied("bridge:telegram:manage"))
    else if !OrgHasActor(t, p.orgId, humanId) then Err(Validation)
    else
      var denial := ReadDenial(t, Principal(humanId, p.orgId, {}), channelId, ChannelStream);
      if denial.Some? then Err(denial.value) else Ok(TxOpenPluginRow(PluginRow(p.orgId, humanId, Some(channelId))))
  }

  /** The streams whose counters `deleteOrg` will drop, read before its transaction. */
  function OrgStreams(t: Tables, orgId: Id): set<Id> {
    (set c | c in t.channels && t.channels[c].orgId == orgId)
    + (set h | h in t.threads && t.threads[h].orgId == orgId)
  }

  /** The read-only part of a call: the transaction it leads to, or why it fails. */
  function Check(t: Tables, call: Call, now: nat): Result<Tx, Error> {
    match call
    case CreateOrg(name) => if name == "" then Err(Validation) else Ok(TxCreateOrg(name))
    case CreateActor(orgId, displayName) =>
      if orgId == "" || displayName == "" then Err(Validation)
      else if orgId !in t.orgs then Err(NotFound)
      else Ok(TxCreateActor(orgId))
    case CreateChannel(p, name, visibility) =>
      if !KnownActor(t, p) then Err(PermissionDenied("org"))
      else if name == "" then Err(Validation)
      else if !HasGrant(t, p, "channel:create", "org", Some(p.orgId), now) then Err(PermissionDenied("channel:create"))
      else Ok(TxCreateChannel(p, name, visibility))
    case CreateThread(p, channelId, parentMessageId, visibility) =>
      if !KnownActor(t, p) then Err(PermissionDenied("org"))
      else if channelId !in t.channels then Err(NotFound)
      else if t.channels[channelId].orgId != p.orgId then Err(PermissionDenied("channel"))
      else
        var parent := FindById(t.messages, parentMessageId);
        if parent.None? || parent.value.orgId != p.orgId then Err(NotFound)
        else if parent.value.streamId != channelId then Err(Validation)
        else if !HasGrant(t, p, "thread:create", "channel", Some(channelId), now) then Err(PermissionDenied("thread:create"))
        else Ok(TxCreateThread(p, channelId, parentMessageId, visibility))
    case AddChannelMember(p, channelId, actorId, role) =>
      if !KnownActor(t, p) then Err(PermissionDenied("org"))
      else if channelId !in t.channels then Err(NotFound)
      else if t.channels[channelId].orgId != p.orgId then Err(PermissionDenied("channel"))
      else if !AdministersChannel(t, p, channelId, now) then Err(PermissionDenied("channel:admin"))
      else if actorId !in t.actors then Err(NotFound)
      else if t.actors[actorId].orgId != p.orgId then Err(Validation)
      else Ok(TxAddMember(p, channelId, actorId, role))
    case RemoveChannelMember(p, channelId, actorId) =>
      if !KnownActor(t, p) then Err(PermissionDenied("org"))
      else if channelId !in t.channels then Err(NotFound)
      else if !AdministersChannel(t, p, channelId, now) && p.actorId != actorId then Err(PermissionDenied("channel:admin"))
      else Ok(TxRemoveMember(p, channelId, actorId))
    case AppendMessage(p, streamId, streamType, parts, key, autoRequestOnDeny) =>
      CheckAppend(t, p, streamId, streamType, parts, key, autoRequestOnDeny, now)
    case RedactMessage(p, messageId, reason) =>
      if !KnownActor(t, p) then Err(PermissionDenied("org"))
      else
        var m := FindById(t.messages, messageId);
        if m.None? || m.value.orgId != p.orgId then Err(NotFound)
        else if m.value.redacted then Err(NothingToDo)
        else
          var isAuthor := m.value.actorId == p.actorId;
          if !isAuthor && !HasGrant(t, p, "message:redact", StreamTypeName(m.value.streamType), Some(m.value.streamId), now)
          then Err(PermissionDenied("message:redact"))
          else Ok(TxRedact(p, messageId, m.value.streamId, m.value.streamType, isAuthor, reason))
    case CreateGrant(p, actorId, rt, rid, capability, expiresAt, maxUses) =>
      if !KnownActor(t, p) then Err(PermissionDenied("org"))
      else if !MayResolve(t, p, now) then Err(PermissionDenied("grant:create"))
      else if actorId == "" || rt == "" || capability == "" || !ValidUses(maxUses) then Err(Validation)
      else Ok(TxCreateGrant(p, actorId, rt, rid, capability, expiresAt, Uses(maxUses)))
    case RevokeGrant(p, grantId, reason) =>
      if !KnownActor(t, p) then Err(PermissionDenied("org"))
      else if !MayResolve(t, p, now) then Err(PermissionDenied("grant:create"))
      else if !OrgHasGrant(t.grants, p.orgId, grantId) then Err(NotFound)
      else Ok(TxRevokeGrants(p, [grantId], None, reason))
    case RevokeAllGrants(p, actorId, reason) =>
      if !KnownActor(t, p) then Err(PermissionDenied("org"))
      else if !MayResolve(t, p, now) then Err(PermissionDenied("grant:create"))
      else if actorId == "" then Err(Validation)
      else if actorId !in t.actors then Err(NotFound)
      else if t.actors[actorId].orgId != p.orgId then Err(PermissionDenied("actor"))
      else Ok(TxRevokeGrants(p, ActiveGrantIds(t.grants, p.orgId, actorId), Some(actorId), reason))
    case OpenRequest(p, action, rt, rid, context) =>
      if !KnownActor(t, p) then Err(PermissionDenied("org"))
      else if action == "" || rt == "" then Err(Validation)
      else Ok(TxOpenRequest(p, action, rt, rid, context))
    case ResolveRequest(p, requestId, approve, expiresAt, maxUses) =>
      if !KnownActor(t, p) then Err(PermissionDenied("org"))
      else if !MayResolve(t, p, now) then Err(PermissionDenied("grant:create"))
      else if requestId !in t.requests || t.requests[requestId].orgId != p.orgId then Err(NotFound)
      else
        var r := t.requests[requestId];
        if r.status != Open then Err(Validation)
        else if approve && r.action != "command:register"
                && (r.actorId == "" || r.resourceType == "" || r.action == "" || !ValidUses(maxUses)) then Err(Validation)
        else Ok(TxResolve(p, requestId, r, approve, expiresAt, if ValidUses(maxUses) then Uses(maxUses) else None))
    case RegisterArtifact(p, streamId, streamType) =>
      if !KnownActor(t, p) then Err(PermissionDenied("org"))
      else if !Readable(t, p, streamId, streamType) then Err(ReadDenial(t, p, streamId, streamType).value)
      else if !HasGrant(t, p, "artifact:register", StreamTypeName(streamType), Some(streamId), now)
              && !HasGrant(t, p, "message:append", StreamTypeName(streamType), Some(streamId), now)
      then Err(PermissionDenied("artifact:register"))
      else Ok(TxRegisterArtifact(p, streamId, streamType))
    case DeleteArtifact(p, artifactId, reason) =>
      if !KnownActor(t, p) then Err(PermissionDenied("org"))
      else if artifactId !in t.artifacts || t.artifacts[artifactId].orgId != p.orgId then Err(NotFound)
      else
        var a := t.artifacts[artifactId];
        if a.deleted then Err(NothingToDo)
        else if a.createdBy != p.actorId && "artifact:admin" !in p.scopes
                && !HasGrant(t, p, "artifact:admin", StreamTypeName(a.streamType), Some(a.streamId), now)
        then Err(PermissionDenied("artifact:admin"))
        else Ok(TxDeleteArtifact(p, artifactId, a, reason))
    case RegisterCommand(p, name, scope) =>
      if !KnownActor(t, p) then Err(PermissionDenied("org"))
      else if name == "" then Err(Validation)
      else if scope.Some? && scope.value !in t.channels then Err(NotFound)
      else if scope.Some? && t.channels[scope.value].orgId != p.orgId then Err(PermissionDenied("channel"))
      else Ok(TxRegisterCommand(p, name, scope))
    case DeleteChannel(p, channelId) =>
      if !KnownActor(t, p) then Err(PermissionDenied("org"))
      else if channelId !in t.channels then Err(NotFound)
      else if t.channels[channelId].orgId != p.orgId then Err(PermissionDenied("channel"))
      else if !AdministersChannel(t, p, channelId, now) then Err(PermissionDenied("channel:admin"))
      else Ok(TxDeleteChannel(p, channelId))
    case DeleteOrg(p, orgId) =>
      if !KnownActor(t, p) then Err(PermissionDenied("org"))
      else if p.orgId != orgId then Err(PermissionDenied("org"))
      else if "org:admin" !in p.scopes then Err(PermissionDenied("org:admin"))
      else if orgId !in t.orgs then Err(NotFound)
      else Ok(TxDeleteOrg(p, orgId, OrgStreams(t, orgId)))
    case UpdateCursor(p, streamId, seen, acked) =>
      if !KnownActor(t, p) then Err(PermissionDenied("org"))
      else if seen < 0 || acked < 0 then Err(Validation)
      else Ok(TxUpdateCursor(p, streamId, seen, acked))
    case RegisterClient(p, endpoint) =>
      if !KnownActor(t, p) then Err(PermissionDenied("org"))
      else if endpoint == "" then Err(Validation)
      else Ok(TxRegisterClient(p, endpoint))
    case OpenDurableStream(p, target) =>
      if !KnownActor(t, p) then Err(PermissionDenied("org")) else CheckPluginRow(t, p, target)
    case SubscribeWebhook(p, about) =>
      if !KnownActor(t, p) then Err(PermissionDenied("org"))
      else if !HasCapability(t, p, "webhook:subscribe", now) then Err(PermissionDenied("webhook:subscribe"))
      else CheckPluginRow(t, p, about)
    case BindTelegram(p, humanId, channelId) =>
      if !KnownActor(t, p) then Err(PermissionDenied("org")) else CheckTelegram(t, p, humanId, channelId, now)
  }

  // ---------- interleaved runs ----------

  /** A committed transaction, as history remembers it; `dropped` are the streams it deleted. */
  datatype Done = Done(tx: Tx, value: Value, charged: seq<Id>, events: seq<DomainEvent>, dropped: set<Id>)

  /** Tables, calls between their check and their transaction, and what has happened so far. */
  datatype Sys = Sys(tables: Tables, pending: map<nat, Tx>, usedIds: set<Id>, streamOrg: map<Id, Id>, log: seq<Done>)

  /** Nothing has happened. The empty text is never drawn as an id. */
  const START := Sys(EMPTY_TABLES, map[], {""}, map[], [])

  /** One scheduling decision, with the clock reading and the id the step would draw. */
  datatype Step =
    | Begin(callNo: nat, call: Call, now: nat)
    | Finish(callNo: nat, now: nat, id: Id)
    | Abandon(callNo: nat)

  /** The streams a transaction brings into being, with their org. */
  function NewStreams(tx: Tx, value: Value): map<Id, Id> {
    match (tx, value)
    case (TxCreateChannel(p, _, _), Created(id)) => map[id := p.orgId]
    case (TxCreateThread(p, _, _, _), Created(id)) => map[id := p.orgId]
    case (_, _) => map[]
  }

  /** The streams whose messages a transaction deletes. */
  function DroppedStreams(s: Sys, tx: Tx): set<Id> {
    match tx
    case TxDeleteChannel(p, channelId) => ChannelStreams(s.tables, p.orgId, channelId)
    case TxDeleteOrg(_, orgId, _) => set x | x in s.streamOrg && s.streamOrg[x] == orgId
    case _ => {}
  }

  /** A step that the schedule cannot take leaves everything as it is. */
  function Exec(env: Env, s: Sys, step: Step): Sys {
    match step
    case Begin(callNo, call, now) =>
      if callNo in s.pending then s
      else
        (match Check(s.tables, call, now)
         case Ok(tx) => s.(pending := s.pending[callNo := tx])
         case Err(_) => s)
    case Finish(callNo, now, id) =>
      if callNo !in s.pending || id in s.usedIds then s
      else
        var tx := s.pending[callNo];
        (match Commit(env, s.tables, tx, now, id)
         case Aborted(_) => s.(pending := s.pending - {callNo})
         case Committed(tables, events, charged, value) =>
           Sys(tables, s.pending - {callNo}, s.usedIds + {id}, s.streamOrg + NewStreams(tx, value),
               s.log + [Done(tx, value, charged, events, DroppedStreams(s, tx))]))
    case Abandon(callNo) => s.(pending := s.pending - {callNo})
  }

  function Run(env: Env, steps: seq<Step>): Sys {
    if steps == [] then START else Exec(env, Run(env, steps[..|steps| - 1]), steps[|steps| - 1])
  }
}
