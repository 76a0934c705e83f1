// Who may do what. The permission rules are spelled out once more here in columns of the tables,
// without the service's own lookups, and every check, charge and redaction is shown to obey them.

module Rights {
  import opened Prelude
  import opened CanonicalJson
  import opened AuditChain
  import opened Tables
  import opened ServiceSpec
  import opened ServiceRuns

  // ---------- rules in columns ----------

  function Kind(streamType: StreamType): string {
    if streamType == ThreadStream then "thread" else "channel"
  }

  /** The grant row lets the actor use the capability on this one resource at this moment. */
  predicate LiveRow(g: Grant, orgId: Id, actorId: Id, capability: string, resourceType: string, resourceId: Id, now: nat) {
    && g.active
    && g.orgId == orgId && g.actorId == actorId
    && g.capability == capability && g.resourceType == resourceType
    && (g.resourceId.Some? ==> g.resourceId.value == resourceId)
    && (g.expiresAt.Some? ==> now < g.expiresAt.value)
    && (g.maxUses.Some? ==> g.usesCount < g.maxUses.value)
  }

  /** The principal carries the capability as a scope or has a live row for it. */
  ghost predicate Holds(t: Tables, p: Principal, capability: string, resourceType: string, resourceId: Id, now: nat) {
    capability in p.scopes || exists g :: g in t.grants && LiveRow(g, p.orgId, p.actorId, capability, resourceType, resourceId, now)
  }

  predicate IsActor(t: Tables, orgId: Id, actorId: Id) {
    actorId in t.actors && t.actors[actorId].orgId == orgId
  }

  predicate StreamExists(t: Tables, streamId: Id, streamType: StreamType) {
    if streamType == ThreadStream then streamId in t.threads else streamId in t.channels
  }

  /** A stream of the org that is public, or whose channel has the actor as a member. */
  predicate CanRead(t: Tables, orgId: Id, actorId: Id, streamId: Id, streamType: StreamType) {
    if streamType == ThreadStream then
      && streamId in t.threads && t.threads[streamId].orgId == orgId
      && (t.threads[streamId].visibility == Private ==> MemberKey(orgId, actorId, Some(t.threads[streamId].channelId)) in t.memberships)
    else
      && streamId in t.channels && t.channels[streamId].orgId == orgId
      && (t.channels[streamId].visibility == Private ==> MemberKey(orgId, actorId, Some(streamId)) in t.memberships)
  }

  /** A mention is of an actor of the org who could read it, over a sensible range; a command is named. */
  predicate GoodPart(t: Tables, orgId: Id, streamId: Id, streamType: StreamType, part: MessagePart) {
    && (part.MentionPart? ==>
          && part.actorId != "" && IsActor(t, orgId, part.actorId) && CanRead(t, orgId, part.actorId, streamId, streamType)
          && (part.start.Some? ==> 0 <= part.start.value)
          && (part.end.Some? ==> 0 <= part.end.value)
          && (part.start.Some? && part.end.Some? ==> part.start.value <= part.end.value))
    && (part.CommandPart? ==> part.command != "")
  }

  predicate GoodParts(t: Tables, orgId: Id, streamId: Id, streamType: StreamType, parts: seq<MessagePart>) {
    forall part :: part in parts ==> GoodPart(t, orgId, streamId, streamType, part)
  }

  predicate Commands(parts: seq<MessagePart>) {
    exists part :: part in parts && part.CommandPart?
  }

  /** A message only permission could stop. */
  predicate Sendable(t: Tables, p: Principal, streamId: Id, streamType: StreamType, parts: seq<MessagePart>, key: string) {
    && IsActor(t, p.orgId, p.actorId)
    && streamId != "" && key != "" && |parts| > 0
    && CanRead(t, p.orgId, p.actorId, streamId, streamType)
    && GoodParts(t, p.orgId, streamId, streamType, parts)
  }

  ghost predicate MayPost(t: Tables, p: Principal, streamId: Id, streamType: StreamType, parts: seq<MessagePart>, key: string, now: nat) {
    && Sendable(t, p, streamId, streamType, parts, key)
    && Holds(t, p, "message:append", Kind(streamType), streamId, now)
    && (Commands(parts) ==> Holds(t, p, "command:invoke", Kind(streamType), streamId, now))
  }

  /** Row `i` is the one a lookup by id finds. */
  predicate FoundAt(messages: seq<Message>, id: Id, i: nat) {
    i < |messages| && messages[i].id == id && forall j :: 0 <= j < i ==> messages[j].id != id
  }

  ghost predicate MayRedact(t: Tables, p: Principal, m: Message, now: nat) {
    && IsActor(t, p.orgId, p.actorId) && m.orgId == p.orgId && !m.redacted
    && (m.actorId == p.actorId || Holds(t, p, "message:redact", Kind(m.streamType), m.streamId, now))
  }

  ghost predicate MayAdminister(t: Tables, p: Principal, channelId: Id, now: nat) {
    channelId in t.channels && (t.channels[channelId].createdBy == p.actorId || Holds(t, p, "channel:admin", "channel", channelId, now))
  }

  ghost predicate OwnsOrAdministers(t: Tables, p: Principal, channelId: Id, now: nat) {
    MayAdminister(t, p, channelId, now) && t.channels[channelId].orgId == p.orgId
  }

  // ---------- the service's lookups obey them ----------

  lemma HoldsIff(t: Tables, p: Principal, capability: string, resourceType: string, resourceId: Id, now: nat)
    ensures HasGrant(t, p, capability, resourceType, Some(resourceId), now) <==> Holds(t, p, capability, resourceType, resourceId, now)
  {
    var q := GrantQuery(p.orgId, p.actorId, capability, resourceType, Some(resourceId), now);
    if AnyUsable(t.grants, q) {
      var i :| 0 <= i < |t.grants| && Usable(t.grants[i], q);
      assert t.grants[i] in t.grants && LiveRow(t.grants[i], p.orgId, p.actorId, capability, resourceType, resourceId, now);
    }
    forall g | g in t.grants && LiveRow(g, p.orgId, p.actorId, capability, resourceType, resourceId, now)
      ensures AnyUsable(t.grants, q)
    {
      var i :| 0 <= i < |t.grants| && t.grants[i] == g;
      assert Usable(t.grants[i], q);
    }
  }

  lemma ReadsIff(t: Tables, p: Principal, streamId: Id, streamType: StreamType)
    ensures Readable(t, p, streamId, streamType) <==> CanRead(t, p.orgId, p.actorId, streamId, streamType)
    ensures ReadDenial(t, p, streamId, streamType)
            == if CanRead(t, p.orgId, p.actorId, streamId, streamType) then None
               else if StreamExists(t, streamId, streamType) then Some(PermissionDenied("stream:read"))
               else Some(NotFound)
    ensures CanRead(t, p.orgId, p.actorId, streamId, streamType) ==> StreamExists(t, streamId, streamType)
  {
  }

  lemma PartsIff(t: Tables, p: Principal, streamId: Id, streamType: StreamType, parts: seq<MessagePart>)
    requires CanRead(t, p.orgId, p.actorId, streamId, streamType)
    ensures ResolveStream(t, streamId, streamType).Some?
    ensures PartsValid(t, p, ResolveStream(t, streamId, streamType).value, parts) <==> GoodParts(t, p.orgId, streamId, streamType, parts)
  {
    var info := ResolveStream(t, streamId, streamType).value;
    if PartsValid(t, p, info, parts) {
      forall part | part in parts
        ensures GoodPart(t, p.orgId, streamId, streamType, part)
      {
        var i :| 0 <= i < |parts| && parts[i] == part;
      }
    }
    if GoodParts(t, p.orgId, streamId, streamType, parts) {
      forall i | 0 <= i < |parts|
        ensures PartsValid(t, p, info, [parts[i]])
      {
        assert parts[i] in parts && GoodPart(t, p.orgId, streamId, streamType, parts[i]);
      }
      assert forall i :: 0 <= i < |parts| ==> PartsValid(t, p, info, [parts[i]]);
      assert forall i :: 0 <= i < |parts| ==> [parts[i]][0] == parts[i];
    }
  }

  lemma CommandsIff(parts: seq<MessagePart>)
    ensures HasCommand(parts) <==> Commands(parts)
  {
  }

  lemma {:induction false} FindByIdIff(messages: seq<Message>, id: Id)
    ensures FindById(messages, id).Some? ==> exists i: nat :: FoundAt(messages, id, i) && messages[i] == FindById(messages, id).value
    ensures forall i: nat :: FoundAt(messages, id, i) ==> FindById(messages, id) == Some(messages[i])
  {
    if messages != [] {
      FindByIdIff(messages[1..], id);
      if messages[0].id == id {
        assert FoundAt(messages, id, 0);
      } else {
        LaterRow(messages, id);
      }
    }
  }

  lemma LaterRow(messages: seq<Message>, id: Id)
    requires messages != [] && messages[0].id != id
    ensures forall i: nat :: FoundAt(messages[1..], id, i) ==> FoundAt(messages, id, i + 1)
    ensures forall i: nat :: FoundAt(messages, id, i) ==> i > 0 && FoundAt(messages[1..], id, i - 1)
  {
  }

  // ---------- posting ----------

  lemma CheckAppendIff(t: Tables, p: Principal, streamId: Id, streamType: StreamType, parts: seq<MessagePart>, key: string, ask: bool,
                       now: nat)
    ensures CheckAppend(t, p, streamId, streamType, parts, key, ask, now) == Ok(TxAppend(p, streamId, streamType, parts, key))
            <==> MayPost(t, p, streamId, streamType, parts, key, now)
  {
    hide MayUse, Readable, PartsValid, HasCommand, Commands, Holds, CanRead, GoodParts, ReadDenial;
    AppendRules(t, p, streamId, streamType, parts, now);
  }

  /** Main result: a message goes to its transaction exactly if its sender may post it. */
  lemma AppendAllowedIff(t: Tables, p: Principal, streamId: Id, streamType: StreamType, parts: seq<MessagePart>, key: string,
                         ask: bool, now: nat)
    ensures Check(t, AppendMessage(p, streamId, streamType, parts, key, ask), now) == Ok(TxAppend(p, streamId, streamType, parts, key))
            <==> MayPost(t, p, streamId, streamType, parts, key, now)
  {
    hide CheckAppend, MayPost;
    CheckAppendIff(t, p, streamId, streamType, parts, key, ask, now);
  }

  /** The first capability a sendable message lacks. */
  ghost predicate Lacking(t: Tables, p: Principal, streamId: Id, streamType: StreamType, parts: seq<MessagePart>, now: nat, c: string) {
    var append := Holds(t, p, "message:append", Kind(streamType), streamId, now);
    || (c == "message:append" && !append)
    || (c == "command:invoke" && append && Commands(parts) && !Holds(t, p, "command:invoke", Kind(streamType), streamId, now))
  }

  /** A message that may not be posted is refused for its first fault, or asks for what it lacks. */
  lemma AppendRefusals(t: Tables, p: Principal, streamId: Id, streamType: StreamType, parts: seq<MessagePart>, key: string,
                       ask: bool, now: nat)
    requires IsActor(t, p.orgId, p.actorId) && streamId != "" && key != "" && |parts| > 0
    ensures var r := Check(t, AppendMessage(p, streamId, streamType, parts, key, ask), now);
            && (r == Err(NotFound) <==> !StreamExists(t, streamId, streamType))
            && (r == Err(PermissionDenied("stream:read"))
                <==> StreamExists(t, streamId, streamType) && !CanRead(t, p.orgId, p.actorId, streamId, streamType))
            && (r == Err(Validation)
                <==> CanRead(t, p.orgId, p.actorId, streamId, streamType) && !GoodParts(t, p.orgId, streamId, streamType, parts))
            && forall c :: Sendable(t, p, streamId, streamType, parts, key) && Lacking(t, p, streamId, streamType, parts, now, c) ==>
                 if !ask then r == Err(PermissionDenied(c))
                 else r.Ok? && r.value.TxOpenRequest? && r.value.p == p && r.value.action == c
                      && r.value.resourceType == Kind(streamType) && r.value.resourceId == Some(streamId)
  {
    hide MayUse, Readable, PartsValid, HasCommand, Commands, Holds, CanRead, GoodParts, ReadDenial;
    AppendRules(t, p, streamId, streamType, parts, now);
  }

  /** What the check of an append looks up, in columns. */
  lemma AppendRules(t: Tables, p: Principal, streamId: Id, streamType: StreamType, parts: seq<MessagePart>, now: nat)
    ensures KnownActor(t, p) <==> IsActor(t, p.orgId, p.actorId)
    ensures Readable(t, p, streamId, streamType) <==> CanRead(t, p.orgId, p.actorId, streamId, streamType)
    ensures CanRead(t, p.orgId, p.actorId, streamId, streamType) ==>
              && ResolveStream(t, streamId, streamType).Some?
              && (PartsValid(t, p, ResolveStream(t, streamId, streamType).value, parts) <==> GoodParts(t, p.orgId, streamId, streamType, parts))
    ensures HasGrant(t, p, "message:append", StreamTypeName(streamType), Some(streamId), now)
            <==> Holds(t, p, "message:append", Kind(streamType), streamId, now)
    ensures HasGrant(t, p, "command:invoke", StreamTypeName(streamType), Some(streamId), now)
            <==> Holds(t, p, "command:invoke", Kind(streamType), streamId, now)
    ensures HasCommand(parts) <==> Commands(parts)
    ensures ReadDenial(t, p, streamId, streamType)
            == if CanRead(t, p.orgId, p.actorId, streamId, streamType) then None
               else if StreamExists(t, streamId, streamType) then Some(PermissionDenied("stream:read"))
               else Some(NotFound)
    ensures CanRead(t, p.orgId, p.actorId, streamId, streamType) ==> StreamExists(t, streamId, streamType)
  {
    hide MayUse, Readable, PartsValid, HasCommand, Commands, Holds, CanRead, GoodParts, ReadDenial;
    ReadsIff(t, p, streamId, streamType);
    if CanRead(t, p.orgId, p.actorId, streamId, streamType) { PartsIff(t, p, streamId, streamType, parts); }
    HoldsIff(t, p, "message:append", StreamTypeName(streamType), streamId, now);
    HoldsIff(t, p, "command:invoke", StreamTypeName(streamType), streamId, now);
    CommandsIff(parts);
  }

  // ---------- every call ----------

  /** A scope, or an active and unexpired grant row for the capability on any resource. */
  ghost predicate HoldsSomewhere(t: Tables, p: Principal, capability: string, now: nat) {
    || capability in p.scopes
    || exists g :: g in t.grants && g.orgId == p.orgId && g.actorId == p.actorId && g.capability == capability && g.active
                   && (g.expiresAt.Some? ==> now < g.expiresAt.value)
  }

  /** Plugins name a stream without its type. */
  predicate CanReadNamed(t: Tables, p: Principal, named: Option<Id>) {
    named.Some? ==> CanRead(t, p.orgId, p.actorId, named.value, if named.value in t.channels then ChannelStream else ThreadStream)
  }

  ghost predicate MayGrant(t: Tables, p: Principal, now: nat) {
    IsActor(t, p.orgId, p.actorId) && Holds(t, p, "grant:create", "org", p.orgId, now)
  }

  /** A message of the channel itself, in the principal's org. */
  ghost predicate ParentIn(t: Tables, p: Principal, channelId: Id, messageId: Id) {
    exists i: nat :: FoundAt(t.messages, messageId, i) && t.messages[i].orgId == p.orgId && t.messages[i].streamId == channelId
  }

  /** Who may make which call. */
  ghost predicate Allowed(t: Tables, call: Call, now: nat) {
    match call
    case CreateOrg(name) => name != ""
    case CreateActor(orgId, displayName) => orgId in t.orgs && orgId != "" && displayName != ""
    case AppendMessage(p, streamId, streamType, parts, key, ask) =>
      if ask then Sendable(t, p, streamId, streamType, parts, key) else MayPost(t, p, streamId, streamType, parts, key, now)
    case _ => IsActor(t, call.p.orgId, call.p.actorId) && AllowedActor(t, call, now)
  }

  ghost predicate AllowedActor(t: Tables, call: Call, now: nat)
    requires !call.CreateOrg? && !call.CreateActor? && !call.AppendMessage?
  {
    match call
    case CreateChannel(p, name, _) => name != "" && Holds(t, p, "channel:create", "org", p.orgId, now)
    case CreateThread(p, channelId, parentMessageId, _) =>
      && channelId in t.channels && t.channels[channelId].orgId == p.orgId && ParentIn(t, p, channelId, parentMessageId)
      && Holds(t, p, "thread:create", "channel", channelId, now)
    case AddChannelMember(p, channelId, actorId, _) => OwnsOrAdministers(t, p, channelId, now) && IsActor(t, p.orgId, actorId)
    case RemoveChannelMember(p, channelId, actorId) =>
      channelId in t.channels && (p.actorId == actorId || MayAdminister(t, p, channelId, now))
    case RedactMessage(p, messageId, _) => exists i: nat :: FoundAt(t.messages, messageId, i) && MayRedact(t, p, t.messages[i], now)
    case CreateGrant(p, actorId, rt, _, capability, _, maxUses) =>
      && MayGrant(t, p, now) && actorId != "" && rt != "" && capability != ""
      && (maxUses.Some? ==> maxUses.value > 0)
    case RevokeGrant(p, grantId, _) => MayGrant(t, p, now) && exists g :: g in t.grants && g.id == grantId && g.orgId == p.orgId
    case RevokeAllGrants(p, actorId, _) => MayGrant(t, p, now) && actorId != "" && IsActor(t, p.orgId, actorId)
    case OpenRequest(_, action, rt, _, _) => action != "" && rt != ""
    case ResolveRequest(p, requestId, approve, _, maxUses) =>
      && MayGrant(t, p, now) && requestId in t.requests && t.requests[requestId].orgId == p.orgId
      && t.requests[requestId].status == Open
      && (approve && t.requests[requestId].action != "command:register" ==>
            && t.requests[requestId].actorId != "" && t.requests[requestId].resourceType != "" && t.requests[requestId].action != ""
            && (maxUses.Some? ==> maxUses.value > 0))
    case RegisterArtifact(p, streamId, streamType) =>
      && CanRead(t, p.orgId, p.actorId, streamId, streamType)
      && (|| Holds(t, p, "artifact:register", Kind(streamType), streamId, now)
          || Holds(t, p, "message:append", Kind(streamType), streamId, now))
    case DeleteArtifact(p, artifactId, _) =>
      && artifactId in t.artifacts && t.artifacts[artifactId].orgId == p.orgId && !t.artifacts[artifactId].deleted
      && (|| t.artifacts[artifactId].createdBy == p.actorId
          || Holds(t, p, "artifact:admin", Kind(t.artifacts[artifactId].streamType), t.artifacts[artifactId].streamId, now))
    case RegisterCommand(p, name, scope) =>
      name != "" && (scope.Some? ==> scope.value in t.channels && t.channels[scope.value].orgId == p.orgId)
    case DeleteChannel(p, channelId) => OwnsOrAdministers(t, p, channelId, now)
    case DeleteOrg(p, orgId) => p.orgId == orgId && "org:admin" in p.scopes && orgId in t.orgs
    case UpdateCursor(_, _, seen, acked) => 0 <= seen && 0 <= acked
    case RegisterClient(_, endpoint) => endpoint != ""
    case OpenDurableStream(p, target) => CanReadNamed(t, p, target)
    case SubscribeWebhook(p, about) => HoldsSomewhere(t, p, "webhook:subscribe", now) && CanReadNamed(t, p, about)
    case BindTelegram(p, humanId, channelId) =>
      && (p.actorId == humanId || HoldsSomewhere(t, p, "bridge:telegram:manage", now))
      && IsActor(t, p.orgId, humanId) && CanRead(t, p.orgId, humanId, channelId, ChannelStream)
  }

  lemma SomewhereIff(t: Tables, p: Principal, capability: string, now: nat)
    ensures HasCapability(t, p, capability, now) <==> HoldsSomewhere(t, p, capability, now)
  {
    forall g | g in t.grants && g.orgId == p.orgId && g.actorId == p.actorId && g.capability == capability && g.active
               && (g.expiresAt.Some? ==> now < g.expiresAt.value)
      ensures CheckGrant(t.grants, p.orgId, p.actorId, capability, now)
    {
      var i :| 0 <= i < |t.grants| && t.grants[i] == g;
    }
  }

  lemma AdministersIff(t: Tables, p: Principal, channelId: Id, now: nat)
    requires channelId in t.channels
    ensures AdministersChannel(t, p, channelId, now) <==> MayAdminister(t, p, channelId, now)
  {
    hide HasGrant, Holds;
    HoldsIff(t, p, "channel:admin", "channel", channelId, now);
    ScopeHolds(t, p, "channel:admin", "channel", channelId, now);
  }

  lemma ScopeHolds(t: Tables, p: Principal, capability: string, resourceType: string, resourceId: Id, now: nat)
    ensures capability in p.scopes ==> Holds(t, p, capability, resourceType, resourceId, now)
  {
  }

  lemma ChannelCallsIff(t: Tables, call: Call, now: nat)
    requires call.CreateChannel? || call.AddChannelMember? || call.RemoveChannelMember? || call.DeleteChannel? || call.DeleteOrg?
    ensures Check(t, call, now).Ok? <==> IsActor(t, call.p.orgId, call.p.actorId) && AllowedActor(t, call, now)
  {
    hide HasGrant, Holds, AdministersChannel, MayAdminister, OrgStreams;
    var p := call.p;
    if call.CreateChannel? {
      HoldsIff(t, p, "channel:create", "org", p.orgId, now);
    } else if !call.DeleteOrg? && call.channelId in t.channels {
      AdministersIff(t, p, call.channelId, now);
    } else if !call.DeleteOrg? {
      NoChannel(t, p, call.channelId, now);
    }
  }

  lemma NoChannel(t: Tables, p: Principal, channelId: Id, now: nat)
    ensures MayAdminister(t, p, channelId, now) ==> channelId in t.channels
  {
  }

  lemma ThreadCallsIff(t: Tables, call: Call, now: nat)
    requires call.CreateThread?
    ensures Check(t, call, now).Ok? <==> IsActor(t, call.p.orgId, call.p.actorId) && AllowedActor(t, call, now)
  {
    hide HasGrant, Holds, FoundAt, FindById;
    var p := call.p;
    HoldsIff(t, p, "thread:create", "channel", call.channelId, now);
    FindByIdIff(t.messages, call.parentMessageId);
  }

  lemma GrantCallsIff(t: Tables, call: Call, now: nat)
    requires call.CreateGrant? || call.RevokeGrant? || call.RevokeAllGrants? || call.ResolveRequest?
    ensures Check(t, call, now).Ok? <==> IsActor(t, call.p.orgId, call.p.actorId) && AllowedActor(t, call, now)
  {
    hide HasGrant, Holds, Uses, ActiveGrantIds, OrgHasGrant;
    HoldsIff(t, call.p, "grant:create", "org", call.p.orgId, now);
    if call.RevokeGrant? { HasRowIff(t.grants, call.p.orgId, call.grantId); }
  }

  lemma HasRowIff(grants: seq<Grant>, orgId: Id, grantId: Id)
    ensures OrgHasGrant(grants, orgId, grantId) <==> exists g :: g in grants && g.id == grantId && g.orgId == orgId
  {
    forall g | g in grants && g.id == grantId && g.orgId == orgId
      ensures OrgHasGrant(grants, orgId, grantId)
    {
      var i :| 0 <= i < |grants| && grants[i] == g;
    }
  }

  lemma ArtifactCallsIff(t: Tables, call: Call, now: nat)
    requires call.RegisterArtifact? || call.DeleteArtifact?
    ensures Check(t, call, now).Ok? <==> IsActor(t, call.p.orgId, call.p.actorId) && AllowedActor(t, call, now)
  {
    hide HasGrant, Holds, Readable, CanRead, ReadDenial;
    var p := call.p;
    if call.RegisterArtifact? {
      ReadsIff(t, p, call.streamId, call.streamType);
      HoldsIff(t, p, "artifact:register", Kind(call.streamType), call.streamId, now);
      HoldsIff(t, p, "message:append", Kind(call.streamType), call.streamId, now);
    } else if call.artifactId in t.artifacts {
      var a := t.artifacts[call.artifactId];
      HoldsIff(t, p, "artifact:admin", Kind(a.streamType), a.streamId, now);
      ScopeHolds(t, p, "artifact:admin", Kind(a.streamType), a.streamId, now);
    }
  }

  lemma NamedIff(t: Tables, p: Principal, named: Option<Id>)
    ensures CheckPluginRow(t, p, named).Ok? <==> CanReadNamed(t, p, named)
  {
    hide CanRead, Readable, ReadDenial;
    if named.Some? {
      ReadsIff(t, p, named.value, ChannelStream);
      ReadsIff(t, p, named.value, ThreadStream);
    }
  }

  lemma PluginCallsIff(t: Tables, call: Call, now: nat)
    requires call.OpenDurableStream? || call.SubscribeWebhook? || call.BindTelegram?
    ensures Check(t, call, now).Ok? <==> IsActor(t, call.p.orgId, call.p.actorId) && AllowedActor(t, call, now)
  {
    hide HasCapability, HoldsSomewhere, CanRead, Readable, ReadDenial, CheckPluginRow, CanReadNamed;
    var p := call.p;
    match call {
      case OpenDurableStream(_, target) => NamedIff(t, p, target);
      case SubscribeWebhook(_, about) =>
        NamedIff(t, p, about);
        SomewhereIff(t, p, "webhook:subscribe", now);
      case BindTelegram(_, humanId, channelId) =>
        SomewhereIff(t, p, "bridge:telegram:manage", now);
        ReadsIff(t, Principal(humanId, p.orgId, {}), channelId, ChannelStream);
    }
  }

  lemma PlainCallsIff(t: Tables, call: Call, now: nat)
    requires call.OpenRequest? || call.RegisterCommand? || call.UpdateCursor? || call.RegisterClient?
    ensures Check(t, call, now).Ok? <==> IsActor(t, call.p.orgId, call.p.actorId) && AllowedActor(t, call, now)
  {
  }

  /** Main result: a redaction goes through exactly by the author, or by someone who may redact; the check knows which. */
  lemma RedactAllowedIff(t: Tables, p: Principal, messageId: Id, reason: string, now: nat)
    ensures var r := Check(t, RedactMessage(p, messageId, reason), now);
            && (r.Ok? <==> exists i: nat :: FoundAt(t.messages, messageId, i) && MayRedact(t, p, t.messages[i], now))
            && forall i: nat :: r.Ok? && FoundAt(t.messages, messageId, i) ==>
                 var m := t.messages[i];
                 r.value == TxRedact(p, messageId, m.streamId, m.streamType, m.actorId == p.actorId, reason)
  {
    hide HasGrant, Holds, FoundAt, FindById;
    FindByIdIff(t.messages, messageId);
    if FindById(t.messages, messageId).Some? {
      var m := FindById(t.messages, messageId).value;
      HoldsIff(t, p, "message:redact", Kind(m.streamType), m.streamId, now);
    }
  }

  lemma AppendCallIff(t: Tables, call: Call, now: nat)
    requires call.AppendMessage?
    ensures Check(t, call, now).Ok? <==> Allowed(t, call, now)
  {
    hide MayUse, Readable, PartsValid, HasCommand, Commands, Holds, CanRead, GoodParts, ReadDenial;
    AppendRules(t, call.p, call.streamId, call.streamType, call.parts, now);
  }

  /** Main result: every call is let through exactly if the rules in columns allow it. */
  lemma CheckOkIff(t: Tables, call: Call, now: nat)
    ensures Check(t, call, now).Ok? <==> Allowed(t, call, now)
  {
    hide Check, AllowedActor;
    match call
    case CreateOrg(_) => FoundingCallsIff(t, call, now);
    case CreateActor(_, _) => FoundingCallsIff(t, call, now);
    case AppendMessage(_, _, _, _, _, _) => AppendCallIff(t, call, now);
    case RedactMessage(p, messageId, reason) =>
      RedactAllowedIff(t, p, messageId, reason, now);
      RedactCallIs(t, call, now);
    case CreateThread(_, _, _, _) => ThreadCallsIff(t, call, now);
    case CreateChannel(_, _, _) => ChannelCallsIff(t, call, now);
    case AddChannelMember(_, _, _, _) => ChannelCallsIff(t, call, now);
    case RemoveChannelMember(_, _, _) => ChannelCallsIff(t, call, now);
    case DeleteChannel(_, _) => ChannelCallsIff(t, call, now);
    case DeleteOrg(_, _) => ChannelCallsIff(t, call, now);
    case CreateGrant(_, _, _, _, _, _, _) => GrantCallsIff(t, call, now);
    case RevokeGrant(_, _, _) => GrantCallsIff(t, call, now);
    case RevokeAllGrants(_, _, _) => GrantCallsIff(t, call, now);
    case ResolveRequest(_, _, _, _, _) => GrantCallsIff(t, call, now);
    case RegisterArtifact(_, _, _) => ArtifactCallsIff(t, call, now);
    case DeleteArtifact(_, _, _) => ArtifactCallsIff(t, call, now);
    case OpenDurableStream(_, _) => PluginCallsIff(t, call, now);
    case SubscribeWebhook(_, _) => PluginCallsIff(t, call, now);
    case BindTelegram(_, _, _) => PluginCallsIff(t, call, now);
    case _ => PlainCallsIff(t, call, now);
  }

  lemma FoundingCallsIff(t: Tables, call: Call, now: nat)
    requires call.CreateOrg? || call.CreateActor?
    ensures Check(t, call, now).Ok? <==> Allowed(t, call, now)
  {
  }

  lemma RedactCallIs(t: Tables, call: Call, now: nat)
    requires call.RedactMessage?
    ensures AllowedActor(t, call, now) <==> exists i: nat :: FoundAt(t.messages, call.messageId, i) && MayRedact(t, call.p, t.messages[i], now)
    ensures AllowedActor(t, call, now) ==> IsActor(t, call.p.orgId, call.p.actorId)
  {
    hide FoundAt, Holds;
  }

  // ---------- what a call that goes through will do ----------

  predicate SameUses(asked: Option<int>, given: Option<nat>) {
    asked.Some? == given.Some? && (asked.Some? ==> asked.value == given.value)
  }

  /** The transaction does what the call asked for, to the rows the check saw. */
  ghost predicate Carries(t: Tables, call: Call, tx: Tx) {
    match call
    case CreateOrg(name) => tx == TxCreateOrg(name)
    case CreateActor(orgId, _) => tx == TxCreateActor(orgId)
    case CreateChannel(p, name, visibility) => tx == TxCreateChannel(p, name, visibility)
    case CreateThread(p, channelId, parentMessageId, visibility) => tx == TxCreateThread(p, channelId, parentMessageId, visibility)
    case AddChannelMember(p, channelId, actorId, role) => tx == TxAddMember(p, channelId, actorId, role)
    case RemoveChannelMember(p, channelId, actorId) => tx == TxRemoveMember(p, channelId, actorId)
    case AppendMessage(p, streamId, streamType, parts, key, ask) =>
      || tx == TxAppend(p, streamId, streamType, parts, key)
      || (ask && tx.TxOpenRequest? && tx.p == p && tx.resourceId == Some(streamId))
    case RedactMessage(p, messageId, reason) => tx.TxRedact? && tx.p == p && tx.messageId == messageId && tx.reason == reason
    case CreateGrant(p, actorId, rt, rid, capability, expiresAt, maxUses) =>
      && tx.TxCreateGrant? && tx.p == p && tx.actorId == actorId && tx.resourceType == rt && tx.resourceId == rid
      && tx.capability == capability && tx.expiresAt == expiresAt && SameUses(maxUses, tx.maxUses)
    case RevokeGrant(p, grantId, reason) => tx == TxRevokeGrants(p, [grantId], None, reason)
    case RevokeAllGrants(p, actorId, reason) =>
      && tx.TxRevokeGrants? && tx.p == p && tx.bulkActorId == Some(actorId) && tx.reason == reason
      && ListsActive(t.grants, p.orgId, actorId, tx.grantIds)
    case OpenRequest(p, action, rt, rid, context) => tx == TxOpenRequest(p, action, rt, rid, context)
    case ResolveRequest(p, requestId, approve, expiresAt, maxUses) =>
      && tx.TxResolve? && tx.p == p && tx.requestId == requestId && requestId in t.requests && tx.request == t.requests[requestId]
      && tx.approve == approve && tx.expiresAt == expiresAt
      && (approve && tx.request.action != "command:register" ==> SameUses(maxUses, tx.maxUses))
    case RegisterArtifact(p, streamId, streamType) => tx == TxRegisterArtifact(p, streamId, streamType)
    case DeleteArtifact(p, artifactId, reason) =>
      && tx.TxDeleteArtifact? && tx.p == p && tx.artifactId == artifactId && tx.reason == reason
      && artifactId in t.artifacts && tx.artifact == t.artifacts[artifactId]
    case RegisterCommand(p, name, scope) => tx == TxRegisterCommand(p, name, scope)
    case DeleteChannel(p, channelId) => tx == TxDeleteChannel(p, channelId)
    case DeleteOrg(p, orgId) =>
      && tx.TxDeleteOrg? && tx.p == p && tx.orgId == orgId
      && forall x :: x in tx.streamIds <==> (x in t.channels && t.channels[x].orgId == orgId) || (x in t.threads && t.threads[x].orgId == orgId)
    case UpdateCursor(p, streamId, seen, acked) =>
      tx.TxUpdateCursor? && tx.p == p && tx.streamId == streamId && tx.lastSeenSeq == seen && tx.lastAckSeq == acked
    case RegisterClient(p, endpoint) => tx == TxRegisterClient(p, endpoint)
    case OpenDurableStream(p, _) => tx == TxOpenPluginRow(PluginRow(p.orgId, p.actorId, None))
    case SubscribeWebhook(p, _) => tx == TxOpenPluginRow(PluginRow(p.orgId, p.actorId, None))
    case BindTelegram(p, humanId, channelId) => tx == TxOpenPluginRow(PluginRow(p.orgId, humanId, Some(channelId)))
  }

  /** The ids are those of the actor's active grants. */
  ghost predicate ListsActive(grants: seq<Grant>, orgId: Id, actorId: Id, ids: seq<Id>) {
    forall x :: x in ids <==> exists g :: g in grants && g.id == x && g.orgId == orgId && g.actorId == actorId && g.active
  }

  lemma {:induction false} ActiveGrantsListed(grants: seq<Grant>, orgId: Id, actorId: Id)
    ensures ListsActive(grants, orgId, actorId, ActiveGrantIds(grants, orgId, actorId))
  {
    if grants != [] {
      var front, g := grants[..|grants| - 1], grants[|grants| - 1];
      ActiveGrantsListed(front, orgId, actorId);
      assert grants == front + [g];
    }
  }

  lemma GrantCallsCarry(t: Tables, call: Call, now: nat)
    requires call.CreateGrant? || call.RevokeGrant? || call.RevokeAllGrants? || call.ResolveRequest?
    requires Check(t, call, now).Ok?
    ensures Carries(t, call, Check(t, call, now).value)
  {
    hide HasGrant, ActiveGrantIds, OrgHasGrant, ListsActive;
    if call.RevokeAllGrants? { ActiveGrantsListed(t.grants, call.p.orgId, call.actorId); }
  }

  lemma AppendCarries(t: Tables, call: Call, now: nat)
    requires call.AppendMessage? && Check(t, call, now).Ok?
    ensures Carries(t, call, Check(t, call, now).value)
  {
    hide HasGrant, Readable, ReadDenial, PartsValid, HasCommand;
  }

  lemma OtherCallsCarry(t: Tables, call: Call, now: nat)
    requires !call.CreateGrant? && !call.RevokeGrant? && !call.RevokeAllGrants? && !call.ResolveRequest? && !call.AppendMessage?
    requires Check(t, call, now).Ok?
    ensures Carries(t, call, Check(t, call, now).value)
  {
    hide HasGrant, Readable, ReadDenial, FindById, AdministersChannel, HasCapability, StreamDenial;
  }

  /** A call that goes through leads to a transaction with its own arguments. */
  lemma CheckCarries(t: Tables, call: Call, now: nat)
    requires Check(t, call, now).Ok?
    ensures Carries(t, call, Check(t, call, now).value)
  {
    hide Check, Carries;
    match call
    case CreateGrant(_, _, _, _, _, _, _) => GrantCallsCarry(t, call, now);
    case RevokeGrant(_, _, _) => GrantCallsCarry(t, call, now);
    case RevokeAllGrants(_, _, _) => GrantCallsCarry(t, call, now);
    case ResolveRequest(_, _, _, _, _) => GrantCallsCarry(t, call, now);
    case AppendMessage(_, _, _, _, _, _) => AppendCarries(t, call, now);
    case _ => OtherCallsCarry(t, call, now);
  }
}
