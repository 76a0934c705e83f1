// The service as an object over its tables (class MessageLayer in src/service.ts). Each transaction
// runs statement by statement, undoes itself when it fails, and is proved to do what ServiceSpec
// says the transaction does.

module Service {
  import opened Prelude
  import opened CanonicalJson
  import opened AuditChain
  import opened Tables
  import opened ServiceSpec
  import opened ServiceRuns
  import opened ApprovalLoop
  import opened Rights
  import opened Charging

  // ---------- facts the statements need ----------

  lemma {:induction false} AuditAllAppend(env: Env, audit: seq<StoredRow>, a: seq<DomainEvent>, b: seq<DomainEvent>)
    ensures AuditAll(env, AuditAll(env, audit, a), b) == AuditAll(env, audit, a + b)
  {
    if b == [] {
      assert a + b == a;
    } else {
      var front, last := b[..|b| - 1], b[|b| - 1];
      assert (a + b)[..|a + b| - 1] == a + front;
      AuditAllAppend(env, audit, a, front);
    }
  }

  lemma AuditOne(env: Env, audit: seq<StoredRow>, e: DomainEvent)
    ensures AuditAll(env, audit, [e]) == AuditEvent(env, audit, e)
  {
    assert [e][..0] == [];
    assert AuditAll(env, audit, []) == audit;
  }

  /** The ordering of a grant lookup picks a single row. */
  lemma OldestIsUnique(grants: seq<Grant>, q: GrantQuery, i: nat)
    requires IsOldestUsable(grants, q, i)
    ensures OldestUsable(grants, q) == Some(i)
  {
    assert AnyUsable(grants, q);
    var k := OldestUsable(grants, q).value;
    assert IsOldestUsable(grants, q, k);
  }

  /** The tables of a paid redaction, field by field. */
  lemma PaidRedaction(env: Env, t: Tables, r: Tables, p: Principal, messageId: Id, streamId: Id, streamType: StreamType, isAuthor: bool,
                      reason: string, now: nat)
    requires PayForRedact(t.grants, p, streamId, streamType, isAuthor, now).Some?
    requires var paid := PayForRedact(t.grants, p, streamId, streamType, isAuthor, now).value;
             var es := paid.events + [RedactedEvent(env, p, messageId, streamId, reason, now)];
             && r.grants == paid.grants && r.messages == MarkRedacted(t.messages, messageId)
             && r.parts == Where(t.parts, NotPartOf(messageId)) && r.events == t.events + es && r.audit == AuditAll(env, t.audit, es)
    requires r.orgs == t.orgs && r.actors == t.actors && r.memberships == t.memberships && r.channels == t.channels
    requires r.threads == t.threads && r.counters == t.counters && r.requests == t.requests && r.artifacts == t.artifacts
    requires r.commands == t.commands && r.cursors == t.cursors && r.clients == t.clients && r.plugins == t.plugins
    ensures var paid := PayForRedact(t.grants, p, streamId, streamType, isAuthor, now).value;
            RedactTx(env, t, p, messageId, streamId, streamType, isAuthor, reason, now)
            == Committed(r, paid.events + [RedactedEvent(env, p, messageId, streamId, reason, now)], paid.charged, Nothing)
  {
    hide PayForRedact, RedactedEvent, AuditAll, MarkRedacted, Where;
  }

  lemma RefusedRedaction(env: Env, t: Tables, p: Principal, messageId: Id, streamId: Id, streamType: StreamType, isAuthor: bool,
                         reason: string, now: nat)
    requires PayForRedact(t.grants, p, streamId, streamType, isAuthor, now).None?
    ensures RedactTx(env, t, p, messageId, streamId, streamType, isAuthor, reason, now) == Aborted(PermissionDenied("message:redact"))
  {
    hide PayForRedact;
  }

  lemma NothingAudited(env: Env, audit: seq<StoredRow>)
    ensures AuditAll(env, audit, []) == audit
  {
  }

  lemma NoDeletes(t: Tables, orgId: Id, streamIds: set<Id>)
    ensures AfterDeletes(t, orgId, streamIds, 0) == t
  {
  }

  /** One DELETE of `deleteOrg` on its own. */
  function DeleteStatement(t: Tables, orgId: Id, streamIds: set<Id>, k: nat): Tables {
    t.(parts := if k == 0 then Where(t.parts, PartOutside(OrgMessageIds(t.messages, orgId))) else t.parts,
       messages := if k == 1 then Where(t.messages, MessageNotOf(orgId)) else t.messages,
       artifacts := if k == 2 then ArtifactsNotOf(t.artifacts, orgId) else t.artifacts,
       commands := if k == 3 then CommandsNotOf(t.commands, orgId) else t.commands,
       threads := if k == 4 then ThreadsNotOf(t.threads, orgId) else t.threads,
       channels := if k == 5 then ChannelsNotOf(t.channels, orgId) else t.channels,
       memberships := if k == 6 then MembersNotOf(t.memberships, orgId) else t.memberships,
       cursors := if k == 7 then CursorsNotOf(t.cursors, orgId) else t.cursors,
       grants := if k == 8 then Where(t.grants, GrantNotOf(orgId)) else t.grants,
       requests := if k == 9 then RequestsNotOf(t.requests, orgId) else t.requests,
       clients := if k == 10 then ClientsNotOf(t.clients, orgId) else t.clients,
       counters := if k == 11 then t.counters - streamIds else t.counters,
       events := if k == 12 then Where(t.events, EventNotOf(orgId)) else t.events,
       actors := if k == 13 then ActorsNotOf(t.actors, orgId) else t.actors,
       audit := if k == 14 then Where(t.audit, AuditNotOf(orgId)) else t.audit,
       orgs := if k == 15 then t.orgs - {orgId} else t.orgs)
  }

  lemma NextDelete(t: Tables, orgId: Id, streamIds: set<Id>, k: nat)
    requires k < DELETES
    ensures AfterDeletes(t, orgId, streamIds, k + 1) == DeleteStatement(AfterDeletes(t, orgId, streamIds, k), orgId, streamIds, k)
  {
    hide Where, OrgMessageIds, ArtifactsNotOf, CommandsNotOf, ThreadsNotOf, ChannelsNotOf, MembersNotOf, RequestsNotOf, ActorsNotOf,
         CursorsNotOf, ClientsNotOf;
  }

  lemma RefusedPost(env: Env, t: Tables, p: Principal, streamId: Id, streamType: StreamType, parts: seq<MessagePart>, key: string,
                    now: nat, id: Id)
    requires PayForAppend(t.grants, p, streamId, streamType, parts, now).Err?
    ensures PostMessage(env, t, p, streamId, streamType, parts, key, now, id)
            == Aborted(PayForAppend(t.grants, p, streamId, streamType, parts, now).error)
  {
    hide PayForAppend;
  }

  /** The tables of a paid post, field by field. */
  lemma PaidPost(env: Env, t: Tables, r: Tables, p: Principal, streamId: Id, streamType: StreamType, parts: seq<MessagePart>,
                 key: string, now: nat, id: Id)
    requires PayForAppend(t.grants, p, streamId, streamType, parts, now).Ok?
    requires var paid := PayForAppend(t.grants, p, streamId, streamType, parts, now).value;
             var m := NewMessage(t, p, streamId, streamType, key, now, id);
             var es := paid.events + PostEvents(env, p, m, parts, now);
             && r.grants == paid.grants && r.counters == t.counters[streamId := m.streamSeq + 1]
             && r.messages == t.messages + [m] && r.parts == t.parts + PartRows(id, parts)
             && r.events == t.events + es && r.audit == AuditAll(env, t.audit, es)
    requires r.orgs == t.orgs && r.actors == t.actors && r.memberships == t.memberships && r.channels == t.channels
    requires r.threads == t.threads && r.requests == t.requests && r.artifacts == t.artifacts && r.commands == t.commands
    requires r.cursors == t.cursors && r.clients == t.clients && r.plugins == t.plugins
    ensures var paid := PayForAppend(t.grants, p, streamId, streamType, parts, now).value;
            var m := NewMessage(t, p, streamId, streamType, key, now, id);
            PostMessage(env, t, p, streamId, streamType, parts, key, now, id)
            == Committed(r, PostEvents(env, p, m, parts, now) + paid.events, paid.charged, Appended(id, m.streamSeq, false))
  {
    hide PayForAppend, PostEvents, AuditAll, PartRows;
  }

  /** Which transaction an append leads to. */
  lemma ServesAppend(env: Env, t: Tables, call: Call, checkedAt: nat, committedAt: nat, id: Id)
    requires call.AppendMessage?
    ensures Serve(env, t, call, checkedAt, committedAt, id)
            == match CheckAppend(t, call.p, call.streamId, call.streamType, call.parts, call.key, call.autoRequestOnDeny, checkedAt)
               case Err(e) => Aborted(e)
               case Ok(TxAppend(p, x, st, parts, key)) => AppendTx(env, t, p, x, st, parts, key, committedAt, id)
               case Ok(TxOpenRequest(p, action, rt, rid, context)) => OpenRequestTx(env, t, p, action, rt, rid, context, committedAt, id)
               case Ok(tx) => Commit(env, t, tx, committedAt, id)
  {
    hide CheckAppend, AppendTx, OpenRequestTx;
  }

  /** Which transaction a redaction leads to. */
  lemma ServesRedaction(env: Env, t: Tables, p: Principal, messageId: Id, reason: string, checkedAt: nat, committedAt: nat, id: Id)
    ensures var m := FindById(t.messages, messageId);
            Serve(env, t, RedactMessage(p, messageId, reason), checkedAt, committedAt, id)
            == if !KnownActor(t, p) then Aborted(PermissionDenied("org"))
               else if m == None || m.value.orgId != p.orgId then Aborted(NotFound)
               else if m.value.redacted then Aborted(NothingToDo)
               else if m.value.actorId != p.actorId
                       && !HasGrant(t, p, "message:redact", StreamTypeName(m.value.streamType), Some(m.value.streamId), checkedAt)
               then Aborted(PermissionDenied("message:redact"))
               else RedactTx(env, t, p, messageId, m.value.streamId, m.value.streamType, m.value.actorId == p.actorId, reason, committedAt)
  {
    hide FindById, HasGrant, RedactTx, KnownActor;
  }

  /** How a call ends, as its caller sees it. */
  datatype Reply =
    | Finished(value: Value, published: seq<DomainEvent>, charged: seq<Id>)
    | Failed(error: Error)

  /** The call did what `outcome` says: it moved to its tables, or failed and changed nothing. */
  predicate Performed(before: Tables, after: Tables, reply: Reply, outcome: Outcome) {
    match outcome
    case Committed(tables, events, charged, value) => after == tables && reply == Finished(value, events, charged)
    case Aborted(error) => after == before && reply == Failed(error)
  }

  class MessageLayer {
    const env: Env
    var orgs: set<Id>
    var actors: map<Id, Actor>
    var memberships: map<MemberKey, string>
    var channels: map<Id, Channel>
    var threads: map<Id, Thread>
    var counters: map<Id, nat>
    var messages: seq<Message>
    var parts: seq<PartRow>
    var grants: seq<Grant>
    var requests: map<Id, Request>
    var artifacts: map<Id, Artifact>
    var commands: map<Id, Command>
    var cursors: map<CursorKey, Cursor>
    var clients: map<Id, Client>
    var plugins: map<Id, PluginRow>
    var events: seq<DomainEvent>
    var audit: seq<StoredRow>

    function State(): Tables
      reads this
    {
      Tables(orgs, actors, memberships, channels, threads, counters, messages, parts, grants, requests, artifacts, commands,
             cursors, clients, plugins, events, audit)
    }

    constructor (env: Env)
      ensures this.env == env && State() == EMPTY_TABLES
    {
      this.env := env;
      orgs, actors, memberships, channels, threads, counters := {}, map[], map[], map[], map[], map[];
      messages, parts, grants, requests, artifacts, commands := [], [], [], map[], map[], map[];
      cursors, clients, plugins, events, audit := map[], map[], map[], [], [];
    }

    /** What `db.tx` does when its body throws. */
    method Rollback(saved: Tables)
      modifies this
      ensures State() == saved
    {
      RestoreStreams(saved);
      RestorePeople(saved);
      RestoreRest(saved);
    }

    method RestoreStreams(saved: Tables)
      modifies `channels, `threads, `counters, `messages, `parts, `events, `audit
      ensures channels == saved.channels && threads == saved.threads && counters == saved.counters
      ensures messages == saved.messages && parts == saved.parts && events == saved.events && audit == saved.audit
    {
      channels, threads, counters := saved.channels, saved.threads, saved.counters;
      messages, parts, events, audit := saved.messages, saved.parts, saved.events, saved.audit;
    }

    method RestorePeople(saved: Tables)
      modifies `orgs, `actors, `memberships, `grants, `requests
      ensures orgs == saved.orgs && actors == saved.actors && memberships == saved.memberships && grants == saved.grants
      ensures requests == saved.requests
    {
      orgs, actors, memberships, grants, requests := saved.orgs, saved.actors, saved.memberships, saved.grants, saved.requests;
    }

    method RestoreRest(saved: Tables)
      modifies `artifacts, `commands, `cursors, `clients, `plugins
      ensures artifacts == saved.artifacts && commands == saved.commands
      ensures cursors == saved.cursors && clients == saved.clients && plugins == saved.plugins
    {
      artifacts, commands := saved.artifacts, saved.commands;
      cursors, clients, plugins := saved.cursors, saved.clients, saved.plugins;
    }

    // ---------- events and audit ----------

    /** `es` were stored and audited since the old state, in order. */
    twostate predicate Emitted(es: seq<DomainEvent>)
      reads this
    {
      events == old(events) + es && audit == AuditAll(env, old(audit), es)
    }

    /** The hash of the org's latest row, empty if it has none; rows are looked at newest first. */
    method LatestHash(orgId: Id) returns (prev: string)
      ensures var mine := OrgRows(audit, orgId); prev == if mine == [] then "" else mine[|mine| - 1].eventHash
    {
      var i := |audit|;
      assert audit[..|audit|] == audit;
      while i > 0
        invariant 0 <= i <= |audit|
        invariant OrgRows(audit[..i], orgId) == OrgRows(audit, orgId)
      {
        assert audit[..i] == audit[..i - 1] + [audit[i - 1]];
        WhereSnoc(audit[..i - 1], audit[i - 1], OfOrg(orgId));
        if audit[i - 1].orgId == orgId {
          return audit[i - 1].eventHash;
        }
        i := i - 1;
      }
      return "";
    }

    method AppendAudit(orgId: Id, eventType: EventType, payload: Json, createdAt: string)
      modifies `audit
      ensures audit == AuditChain.AppendAudit(env, old(audit), orgId, TypeName(eventType), payload, createdAt)
    {
      var prev := LatestHash(orgId);
      var text := StableJson(env.keyOrder, payload);
      var digest := env.hash(Frame(prev, TypeName(eventType), text, createdAt));
      audit := audit + [StoredRow(orgId, TypeName(eventType), text, if prev == "" then None else Some(prev), digest, createdAt)];
    }

    method Emit(e: DomainEvent)
      modifies `events, `audit
      ensures Emitted([e])
    {
      hide StableJson, TypeName;
      AuditOne(env, audit, e);
      events := events + [e];
      AppendAudit(e.orgId, e.eventType, e.payload, env.iso(e.createdAt));
    }

    // ---------- charging ----------

    /** The row a charge goes to: usable, and created first. */
    method SelectGrant(q: GrantQuery) returns (found: Option<nat>)
      ensures found == OldestUsable(grants, q)
      ensures found.Some? ==>
                && found.value < |grants|
                && var g := grants[found.value];
                && g.active && g.orgId == q.orgId && g.actorId == q.actorId && g.capability == q.capability
                && g.resourceType == q.resourceType && (g.resourceId.Some? ==> g.resourceId == q.resourceId)
                && (g.expiresAt.Some? ==> q.now < g.expiresAt.value) && (g.maxUses.Some? ==> g.usesCount < g.maxUses.value)
    {
      found := None;
      var i := 0;
      while i < |grants|
        invariant 0 <= i <= |grants|
        invariant found == None ==> forall j :: 0 <= j < i ==> !Usable(grants[j], q)
        invariant found.Some? ==>
                    && found.value < i && Usable(grants[found.value], q)
                    && forall j :: 0 <= j < i && Usable(grants[j], q) ==>
                                     grants[found.value].createdAt < grants[j].createdAt
                                     || (grants[found.value].createdAt == grants[j].createdAt && found.value <= j)
      {
        if Usable(grants[i], q) && (found == None || grants[i].createdAt < grants[found.value].createdAt) {
          found := Some(i);
        }
        i := i + 1;
      }
      if found.Some? { OldestIsUnique(grants, q, found.value); }
    }

    method ConsumeGrantInTx(p: Principal, capability: string, resourceType: string, resourceId: Option<Id>, now: nat)
      returns (consumed: bool, charged: seq<Id>, extra: seq<DomainEvent>)
      modifies `grants, `events, `audit
      ensures Emitted(extra)
      ensures match Consume(old(grants), p, capability, resourceType, resourceId, now)
              case None => !consumed && grants == old(grants) && extra == []
              case Some(paid) => consumed && Payment(grants, charged, extra) == paid
      ensures resourceId.Some? && consumed ==> PaidBy(old(grants), charged, p, capability, resourceType, resourceId.value, now)
      ensures resourceId.Some? && !consumed ==> !Rights.Holds(old(State()), p, capability, resourceType, resourceId.value, now)
    {
      hide AutoRevokeEvent, PaidBy, LiveRow;
      if resourceId.Some? { ConsumePaysBy(grants, p, capability, resourceType, resourceId.value, now); }
      charged, extra := [], [];
      assert AuditAll(env, audit, []) == audit;
      if capability in p.scopes {
        return true, charged, extra;
      }
      var found := SelectGrant(GrantQuery(p.orgId, p.actorId, capability, resourceType, resourceId, now));
      if found == None {
        return false, charged, extra;
      }
      var i := found.value;
      grants := grants[i := grants[i].(usesCount := grants[i].usesCount + 1)];
      charged := [grants[i].id];
      if grants[i].maxUses.Some? && grants[i].usesCount >= grants[i].maxUses.value {
        grants := grants[i := grants[i].(active := false)];
        var revoked := AutoRevokeEvent(p.orgId, grants[i].id, now);
        Emit(revoked);
        extra := [revoked];
      }
      assert grants == old(grants)[i := Burn(old(grants)[i])];
      return true, charged, extra;
    }

    method NextSeqTx(streamId: Id) returns (streamSeq: nat)
      modifies `counters
      ensures streamSeq == NextSeq(old(counters), streamId)
      ensures counters == old(counters)[streamId := streamSeq + 1]
    {
      if streamId !in counters {
        counters := counters[streamId := 2];
        return 1;
      }
      streamSeq := counters[streamId];
      counters := counters[streamId := streamSeq + 1];
    }

    // ---------- appendMessage ----------

    method InsertParts(messageId: Id, newParts: seq<MessagePart>)
      modifies `parts
      ensures parts == old(parts) + PartRows(messageId, newParts)
    {
      var i := 0;
      while i < |newParts|
        invariant 0 <= i <= |newParts|
        invariant parts == old(parts) + PartRows(messageId, newParts)[..i]
      {
        parts := parts + [PartRow(messageId, i, newParts[i])];
        i := i + 1;
      }
    }

    method EmitMentions(fields: seq<Entry>, p: Principal, streamId: Id, streamSeq: nat, newParts: seq<MessagePart>, now: nat)
      returns (published: seq<DomainEvent>)
      modifies `events, `audit
      ensures published == MentionEvents(fields, p, streamId, streamSeq, newParts, now)
      ensures Emitted(published)
    {
      hide MentionEvent, AuditEvent;
      published := [];
      assert AuditAll(env, audit, []) == audit;
      var i := 0;
      while i < |newParts|
        invariant 0 <= i <= |newParts|
        invariant published == MentionEvents(fields, p, streamId, streamSeq, newParts[..i], now)
        invariant Emitted(published)
      {
        assert newParts[..i + 1][..i] == newParts[..i];
        match newParts[i] {
          case MentionPart(actorId, labelText, start, end) =>
            var e := MentionEvent(fields, p, streamId, streamSeq, i, actorId, labelText, start, end, now);
            AuditAllAppend(env, old(audit), published, [e]);
            Emit(e);
            published := published + [e];
          case _ =>
        }
        i := i + 1;
      }
      assert newParts[..i] == newParts;
    }

    method EmitCommands(fields: seq<Entry>, p: Principal, streamId: Id, streamSeq: nat, newParts: seq<MessagePart>, now: nat)
      returns (published: seq<DomainEvent>)
      modifies `events, `audit
      ensures published == CommandEvents(fields, p, streamId, streamSeq, newParts, now)
      ensures Emitted(published)
    {
      hide CommandEvent, AuditEvent;
      published := [];
      assert AuditAll(env, audit, []) == audit;
      var i := 0;
      while i < |newParts|
        invariant 0 <= i <= |newParts|
        invariant published == CommandEvents(fields, p, streamId, streamSeq, newParts[..i], now)
        invariant Emitted(published)
      {
        assert newParts[..i + 1][..i] == newParts[..i];
        match newParts[i] {
          case CommandPart(command, invocationId, argKeys, commandId, ownerActorId) =>
            var e := CommandEvent(fields, p, streamId, streamSeq, i, command, invocationId, argKeys, commandId, ownerActorId, now);
            AuditAllAppend(env, old(audit), published, [e]);
            Emit(e);
            published := published + [e];
          case _ =>
        }
        i := i + 1;
      }
      assert newParts[..i] == newParts;
    }

    /** The two charges of an append; when the second fails, the rollback takes back the first. */
    method PayTx(p: Principal, streamId: Id, streamType: StreamType, newParts: seq<MessagePart>, now: nat)
      returns (paid: Result<Payment, Error>)
      modifies `grants, `events, `audit
      ensures paid == PayForAppend(old(grants), p, streamId, streamType, newParts, now)
      ensures paid.Ok? ==> grants == paid.value.grants && Emitted(paid.value.events)
      ensures paid.Err? ==> grants == old(grants) && events == old(events) && audit == old(audit)
    {
      var savedGrants, savedEvents, savedAudit := grants, events, audit;
      hide Consume, HasCommand, AuditAll;
      var rt := StreamTypeName(streamType);
      var consumed, charged, extra := ConsumeGrantInTx(p, "message:append", rt, Some(streamId), now);
      if !consumed {
        grants, events, audit := savedGrants, savedEvents, savedAudit;
        return Err(PermissionDenied("message:append"));
      }
      if HasCommand(newParts) {
        var again, chargedToo, extraToo := ConsumeGrantInTx(p, "command:invoke", rt, Some(streamId), now);
        if !again {
          grants, events, audit := savedGrants, savedEvents, savedAudit;
          return Err(PermissionDenied("command:invoke"));
        }
        AuditAllAppend(env, old(audit), extra, extraToo);
        charged, extra := charged + chargedToo, extra + extraToo;
      }
      return Ok(Payment(grants, charged, extra));
    }

    /** Announces a stored message. */
    method Announce(p: Principal, m: Message, newParts: seq<MessagePart>, now: nat) returns (published: seq<DomainEvent>)
      modifies `events, `audit
      ensures published == PostEvents(env, p, m, newParts, now)
      ensures Emitted(published)
    {
      hide AppendedEvent, MentionEvents, CommandEvents, AuditEvent, MessageFields;
      var fields := MessageFields(p, m.streamId, m.streamType, m.id, m.streamSeq);
      var appended := AppendedEvent(env, p, m.streamId, m.streamType, m.id, m.streamSeq, |newParts|, now);
      Emit(appended);
      var mentions := EmitMentions(fields, p, m.streamId, m.streamSeq, newParts, now);
      AuditAllAppend(env, old(audit), [appended], mentions);
      var invoked := EmitCommands(fields, p, m.streamId, m.streamSeq, newParts, now);
      AuditAllAppend(env, old(audit), [appended] + mentions, invoked);
      published := [appended] + mentions + invoked;
    }

    /** Numbers, stores and announces a message that has been paid for. */
    method InsertMessage(p: Principal, streamId: Id, streamType: StreamType, newParts: seq<MessagePart>, key: string, now: nat, id: Id)
      returns (m: Message, published: seq<DomainEvent>)
      modifies `counters, `messages, `parts, `events, `audit
      ensures m == NewMessage(old(State()), p, streamId, streamType, key, now, id)
      ensures counters == old(counters)[streamId := m.streamSeq + 1]
      ensures messages == old(messages) + [m] && parts == old(parts) + PartRows(id, newParts)
      ensures published == PostEvents(env, p, m, newParts, now) && Emitted(published)
    {
      hide PostEvents, AuditAll;
      var streamSeq := NextSeqTx(streamId);
      m := Message(id, p.orgId, streamId, streamType, p.actorId, streamSeq, key, now, false);
      messages := messages + [m];
      InsertParts(id, newParts);
      published := Announce(p, m, newParts, now);
    }

    /** Takes payment and posts; without permission nothing happens. */
    method PostTx(p: Principal, streamId: Id, streamType: StreamType, newParts: seq<MessagePart>, key: string, now: nat, id: Id)
      returns (reply: Reply)
      modifies this
      ensures Performed(old(State()), State(), reply, PostMessage(env, old(State()), p, streamId, streamType, newParts, key, now, id))
    {
      hide PostEvents, PayForAppend, AuditAll, PartRows, NextSeq, PostMessage;
      var paid := PayTx(p, streamId, streamType, newParts, now);
      if paid.Err? {
        RefusedPost(env, State(), p, streamId, streamType, newParts, key, now, id);
        return Failed(paid.error);
      }
      var m, published := InsertMessage(p, streamId, streamType, newParts, key, now, id);
      AuditAllAppend(env, old(audit), paid.value.events, published);
      PaidPost(env, old(State()), State(), p, streamId, streamType, newParts, key, now, id);
      return Finished(Appended(id, m.streamSeq, false), published + paid.value.events, paid.value.charged);
    }

    method AppendMessageTx(p: Principal, streamId: Id, streamType: StreamType, newParts: seq<MessagePart>, key: string, now: nat,
                           id: Id) returns (reply: Reply)
      modifies this
      ensures Performed(old(State()), State(), reply, AppendTx(env, old(State()), p, streamId, streamType, newParts, key, now, id))
    {
      hide PostMessage, FindByKey;
      var existing := FindByKey(messages, AppendKey(p.orgId, streamId, p.actorId, key));
      if existing.Some? {
        return Finished(Appended(existing.value.id, existing.value.streamSeq, true), [], []);
      }
      reply := PostTx(p, streamId, streamType, newParts, key, now, id);
    }

    // ---------- the public appendMessage ----------

    method ValidateParts(p: Principal, info: StreamInfo, newParts: seq<MessagePart>) returns (ok: bool)
      ensures ok == PartsValid(State(), p, info, newParts)
    {
      var i := 0;
      while i < |newParts|
        invariant 0 <= i <= |newParts|
        invariant PartsValid(State(), p, info, newParts[..i])
      {
        if !PartsValid(State(), p, info, [newParts[i]]) {
          assert newParts[i] == [newParts[i]][0];
          return false;
        }
        assert forall k :: 0 <= k < i + 1 ==> newParts[..i + 1][k] == (if k < i then newParts[..i][k] else [newParts[i]][0]);
        i := i + 1;
      }
      assert newParts[..i] == newParts;
      return true;
    }

    method CreatePermissionRequest(p: Principal, action: string, resourceType: string, resourceId: Option<Id>, context: Json, now: nat,
                                   id: Id) returns (reply: Reply)
      modifies this
      ensures Performed(old(State()), State(), reply, OpenRequestTx(env, old(State()), p, action, resourceType, resourceId, context, now, id))
      ensures reply.Finished? && reply.value == Created(id)
    {
      hide RequestCreatedEvent, AuditAll;
      var r := Request(p.orgId, p.actorId, action, resourceType, resourceId, Open, None, context);
      requests := requests[id := r];
      var asked := RequestCreatedEvent(id, r, now);
      Emit(asked);
      return Finished(Created(id), [asked], []);
    }

    method CheckPost(post: Post, ask: bool, now: nat) returns (r: Result<Tx, Error>)
      ensures r == CheckAppend(State(), post.p, post.streamId, post.streamType, post.parts, post.key, ask, now)
      ensures r.Ok? ==> r.value.TxAppend? || r.value.TxOpenRequest?
      ensures r.Ok? && r.value.TxAppend? ==> r.value == TxAppend(post.p, post.streamId, post.streamType, post.parts, post.key)
    {
      hide KnownActor, PartsValid, MayUse, HasCommand, IsMember;
      var p, rt := post.p, StreamTypeName(post.streamType);
      if !KnownActor(State(), p) {
        return Err(PermissionDenied("org"));
      }
      if post.streamId == "" || post.key == "" || post.parts == [] {
        return Err(Validation);
      }
      var denial := ReadDenial(State(), p, post.streamId, post.streamType);
      if denial.Some? {
        return Err(denial.value);
      }
      var ok := ValidateParts(p, ResolveStream(State(), post.streamId, post.streamType).value, post.parts);
      if !ok {
        return Err(Validation);
      }
      if !HasGrant(State(), p, "message:append", rt, Some(post.streamId), now) {
        return DenyOrAsk(p, "message:append", rt, post.streamId, post.key, ask);
      }
      if HasCommand(post.parts) && !HasGrant(State(), p, "command:invoke", rt, Some(post.streamId), now) {
        return DenyOrAsk(p, "command:invoke", rt, post.streamId, post.key, ask);
      }
      return Ok(TxAppend(p, post.streamId, post.streamType, post.parts, post.key));
    }

    method AppendMessage(post: Post, ask: bool, checkedAt: nat, committedAt: nat, id: Id) returns (reply: Reply)
      modifies this
      ensures Performed(old(State()), State(), reply,
                        Serve(env, old(State()), Call.AppendMessage(post.p, post.streamId, post.streamType, post.parts, post.key, ask),
                              checkedAt, committedAt, id))
      ensures reply.Finished? && reply.value.Appended? ==>
                MayPost(old(State()), post.p, post.streamId, post.streamType, post.parts, post.key, checkedAt)
    {
      hide CheckAppend, ServiceSpec.AppendTx, OpenRequestTx, Serve, MayPost;
      ServesAppend(env, State(), Call.AppendMessage(post.p, post.streamId, post.streamType, post.parts, post.key, ask), checkedAt,
                   committedAt, id);
      CheckAppendIff(State(), post.p, post.streamId, post.streamType, post.parts, post.key, ask, checkedAt);
      var checked := CheckPost(post, ask, checkedAt);
      if checked.Err? {
        return Failed(checked.error);
      }
      match checked.value {
        case TxAppend(p, streamId, streamType, newParts, key) =>
          reply := AppendMessageTx(p, streamId, streamType, newParts, key, committedAt, id);
        case TxOpenRequest(p, action, rt, rid, context) =>
          reply := CreatePermissionRequest(p, action, rt, rid, context, committedAt, id);
      }
    }

    // ---------- redaction and revocation ----------

    method PayForRedactTx(p: Principal, streamId: Id, streamType: StreamType, isAuthor: bool, now: nat)
      returns (paid: Option<Payment>)
      modifies `grants, `events, `audit
      ensures paid == PayForRedact(old(grants), p, streamId, streamType, isAuthor, now)
      ensures grants == if paid.Some? then paid.value.grants else old(grants)
      ensures Emitted(if paid.Some? then paid.value.events else [])
    {
      hide AuditAll, Consume;
      if isAuthor {
        NothingAudited(env, audit);
        return Some(Payment(grants, [], []));
      }
      var consumed, charged, extra := ConsumeGrantInTx(p, "message:redact", StreamTypeName(streamType), Some(streamId), now);
      return if consumed then Some(Payment(grants, charged, extra)) else None;
    }

    method RedactRows(messageId: Id)
      modifies `messages, `parts
      ensures messages == MarkRedacted(old(messages), messageId) && parts == Where(old(parts), NotPartOf(messageId))
    {
      messages := MarkRedacted(messages, messageId);
      parts := Where(parts, NotPartOf(messageId));
    }

    method RedactMessageTx(p: Principal, messageId: Id, streamId: Id, streamType: StreamType, isAuthor: bool, reason: string, now: nat)
      returns (reply: Reply)
      modifies this
      ensures Performed(old(State()), State(), reply, RedactTx(env, old(State()), p, messageId, streamId, streamType, isAuthor, reason, now))
    {
      hide RedactedEvent, AuditAll, PayForRedact, MarkRedacted, Where, RedactTx;
      var paid := PayForRedactTx(p, streamId, streamType, isAuthor, now);
      if paid == None {
        NothingAudited(env, old(audit));
        assert State() == old(State());
        RefusedRedaction(env, State(), p, messageId, streamId, streamType, isAuthor, reason, now);
        return Failed(PermissionDenied("message:redact"));
      }
      RedactRows(messageId);
      var redacted := RedactedEvent(env, p, messageId, streamId, reason, now);
      Emit(redacted);
      AuditAllAppend(env, old(audit), paid.value.events, [redacted]);
      PaidRedaction(env, old(State()), State(), p, messageId, streamId, streamType, isAuthor, reason, now);
      return Finished(Nothing, paid.value.events + [redacted], paid.value.charged);
    }

    /** The public call: looks the message up, compares its author with the caller, and redacts. */
    method RedactMessage(p: Principal, messageId: Id, reason: string, checkedAt: nat, committedAt: nat, id: Id) returns (reply: Reply)
      modifies this
      ensures Performed(old(State()), State(), reply,
                        Serve(env, old(State()), Call.RedactMessage(p, messageId, reason), checkedAt, committedAt, id))
      ensures reply.Finished? ==>
                exists i: nat :: FoundAt(old(messages), messageId, i) && MayRedact(old(State()), p, old(messages)[i], checkedAt)
    {
      hide FindById, HasGrant, RedactTx, FoundAt, MayRedact, Serve, KnownActor;
      RedactAllowedIff(State(), p, messageId, reason, checkedAt);
      ServesRedaction(env, State(), p, messageId, reason, checkedAt, committedAt, id);
      if !KnownActor(State(), p) {
        return Failed(PermissionDenied("org"));
      }
      var row := FindById(messages, messageId);
      if row == None || row.value.orgId != p.orgId {
        return Failed(NotFound);
      }
      if row.value.redacted {
        return Failed(NothingToDo);
      }
      var m := row.value;
      var isAuthor := m.actorId == p.actorId;
      if !isAuthor && !HasGrant(State(), p, "message:redact", StreamTypeName(m.streamType), Some(m.streamId), checkedAt) {
        return Failed(PermissionDenied("message:redact"));
      }
      reply := RedactMessageTx(p, messageId, m.streamId, m.streamType, isAuthor, reason, committedAt);
    }

    method RevokeGrantsTx(p: Principal, ids: seq<Id>, actorId: Option<Id>, reason: string, now: nat) returns (reply: Reply)
      modifies this
      ensures Performed(old(State()), State(), reply, ServiceSpec.RevokeGrantsTx(env, old(State()), p, ids, actorId, reason, now))
    {
      hide RevokeEvent, AuditAll;
      NothingAudited(env, audit);
      var published: seq<DomainEvent> := [];
      var i := 0;
      while i < |ids|
        invariant 0 <= i <= |ids|
        invariant grants == Deactivate(old(grants), p.orgId, ids[..i])
        invariant published == RevokeEvents(p, ids[..i], actorId, reason, now)
        invariant Emitted(published)
        invariant State() == old(State()).(grants := grants, events := events, audit := audit)
      {
        grants := Deactivate(grants, p.orgId, [ids[i]]);
        var e := RevokeEvent(p, ids[i], actorId, reason, now);
        Emit(e);
        AuditAllAppend(env, old(audit), published, [e]);
        published := published + [e];
        assert ids[..i + 1] == ids[..i] + [ids[i]];
        i := i + 1;
      }
      assert ids[..i] == ids;
      return Finished(Nothing, published, []);
    }

    // ---------- cascades ----------

    method DeleteChannelTx(p: Principal, channelId: Id, now: nat) returns (reply: Reply)
      modifies this
      ensures Performed(old(State()), State(), reply, ServiceSpec.DeleteChannelTx(env, old(State()), p, channelId, now))
    {
      hide ChannelDeletedEvent, AuditAll, WithoutChannel, ChannelStreams, ForeignKeysHold;
      var saved := State();
      var streamIds := ChannelStreams(saved, p.orgId, channelId);
      DeleteChannelRows(p.orgId, channelId, streamIds);
      if !ForeignKeysHold(State()) {
        Rollback(saved);
        return Failed(ForeignKeyViolation);
      }
      var deleted := ChannelDeletedEvent(p, channelId, |streamIds - {channelId}|, now);
      Emit(deleted);
      return Finished(Nothing, [deleted], []);
    }

    method DeleteChannelRows(orgId: Id, channelId: Id, streamIds: set<Id>)
      requires streamIds == ChannelStreams(State(), orgId, channelId)
      modifies this
      ensures State() == WithoutChannel(old(State()), orgId, channelId)
    {
      hide Where, MessageIds, ChannelStreams, DisownArtifacts, MembersOutside, DisableCommands, ThreadsOutside, ChannelsOutside;
      DeleteStreamRows(orgId, streamIds);
      memberships := MembersOutside(memberships, orgId, channelId);
      commands := DisableCommands(commands, orgId, channelId);
      threads := ThreadsOutside(threads, orgId, channelId);
      channels := ChannelsOutside(channels, orgId, channelId);
    }

    method DeleteStreamRows(orgId: Id, streamIds: set<Id>)
      modifies `parts, `messages, `events, `counters, `artifacts
      ensures parts == Where(old(parts), PartOutside(MessageIds(old(messages), orgId, streamIds)))
      ensures messages == Where(old(messages), MessageOutside(orgId, streamIds))
      ensures events == Where(old(events), EventOutside(orgId, streamIds))
      ensures counters == old(counters) - streamIds
      ensures artifacts == DisownArtifacts(old(artifacts), orgId, streamIds)
    {
      hide Where, MessageIds, DisownArtifacts;
      parts := Where(parts, PartOutside(MessageIds(messages, orgId, streamIds)));
      messages := Where(messages, MessageOutside(orgId, streamIds));
      events := Where(events, EventOutside(orgId, streamIds));
      counters := counters - streamIds;
      artifacts := DisownArtifacts(artifacts, orgId, streamIds);
    }

    /** The first eight DELETEs: streams, their rows and who reads them. */
    method RunStreamDelete(orgId: Id, k: nat)
      modifies `parts, `messages, `artifacts, `commands, `threads, `channels, `memberships, `cursors
      ensures parts == if k == 0 then Where(old(parts), PartOutside(OrgMessageIds(old(messages), orgId))) else old(parts)
      ensures messages == if k == 1 then Where(old(messages), MessageNotOf(orgId)) else old(messages)
      ensures artifacts == if k == 2 then ArtifactsNotOf(old(artifacts), orgId) else old(artifacts)
      ensures commands == if k == 3 then CommandsNotOf(old(commands), orgId) else old(commands)
      ensures threads == if k == 4 then ThreadsNotOf(old(threads), orgId) else old(threads)
      ensures channels == if k == 5 then ChannelsNotOf(old(channels), orgId) else old(channels)
      ensures memberships == if k == 6 then MembersNotOf(old(memberships), orgId) else old(memberships)
      ensures cursors == if k == 7 then CursorsNotOf(old(cursors), orgId) else old(cursors)
    {
      hide Where, OrgMessageIds, ArtifactsNotOf, CommandsNotOf, ThreadsNotOf, ChannelsNotOf, MembersNotOf, CursorsNotOf;
      match k {
        case 0 => parts := Where(parts, PartOutside(OrgMessageIds(messages, orgId)));
        case 1 => messages := Where(messages, MessageNotOf(orgId));
        case 2 => artifacts := ArtifactsNotOf(artifacts, orgId);
        case 3 => commands := CommandsNotOf(commands, orgId);
        case 4 => threads := ThreadsNotOf(threads, orgId);
        case 5 => channels := ChannelsNotOf(channels, orgId);
        case 6 => memberships := MembersNotOf(memberships, orgId);
        case 7 => cursors := CursorsNotOf(cursors, orgId);
        case _ =>
      }
    }

    /** The other eight: permissions, clients, history, actors and the org itself. */
    method RunOrgDelete(orgId: Id, streamIds: set<Id>, k: nat)
      modifies `grants, `requests, `clients, `counters, `events, `actors, `audit, `orgs
      ensures grants == if k == 8 then Where(old(grants), GrantNotOf(orgId)) else old(grants)
      ensures requests == if k == 9 then RequestsNotOf(old(requests), orgId) else old(requests)
      ensures clients == if k == 10 then ClientsNotOf(old(clients), orgId) else old(clients)
      ensures counters == if k == 11 then old(counters) - streamIds else old(counters)
      ensures events == if k == 12 then Where(old(events), EventNotOf(orgId)) else old(events)
      ensures actors == if k == 13 then ActorsNotOf(old(actors), orgId) else old(actors)
      ensures audit == if k == 14 then Where(old(audit), AuditNotOf(orgId)) else old(audit)
      ensures orgs == if k == 15 then old(orgs) - {orgId} else old(orgs)
    {
      hide Where, RequestsNotOf, ActorsNotOf, ClientsNotOf;
      match k {
        case 8 => grants := Where(grants, GrantNotOf(orgId));
        case 9 => requests := RequestsNotOf(requests, orgId);
        case 10 => clients := ClientsNotOf(clients, orgId);
        case 11 => counters := counters - streamIds;
        case 12 => events := Where(events, EventNotOf(orgId));
        case 13 => actors := ActorsNotOf(actors, orgId);
        case 14 => audit := Where(audit, AuditNotOf(orgId));
        case 15 => orgs := orgs - {orgId};
        case _ =>
      }
    }

    method RunDelete(orgId: Id, streamIds: set<Id>, k: nat)
      requires k < DELETES
      modifies this
      ensures State() == DeleteStatement(old(State()), orgId, streamIds, k)
    {
      hide Where, OrgMessageIds, ArtifactsNotOf, CommandsNotOf, ThreadsNotOf, ChannelsNotOf, MembersNotOf, CursorsNotOf;
      hide RequestsNotOf, ActorsNotOf, ClientsNotOf;
      RunStreamDelete(orgId, k);
      RunOrgDelete(orgId, streamIds, k);
    }

    method DeleteOrgTx(p: Principal, orgId: Id, streamIds: set<Id>, now: nat) returns (reply: Reply)
      modifies this
      ensures Performed(old(State()), State(), reply, ServiceSpec.DeleteOrgTx(env, old(State()), p, orgId, streamIds, now))
    {
      hide OrgDeletedEvent, AfterDeletes, ForeignKeysHold, DeleteStatement;
      var saved := State();
      NoDeletes(saved, orgId, streamIds);
      var k := 0;
      while k < DELETES
        invariant 0 <= k <= DELETES
        invariant State() == AfterDeletes(saved, orgId, streamIds, k)
        invariant forall j: nat :: 1 <= j <= k ==> ForeignKeysHold(AfterDeletes(saved, orgId, streamIds, j))
      {
        NextDelete(saved, orgId, streamIds, k);
        RunDelete(orgId, streamIds, k);
        k := k + 1;
        if !ForeignKeysHold(State()) {
          Rollback(saved);
          return Failed(ForeignKeyViolation);
        }
      }
      return Finished(Nothing, [OrgDeletedEvent(env, p, orgId, now)], []);
    }

    // ---------- verification ----------

    /** The verdict on an org's log; a log the service wrote itself is always found valid. */
    method VerifyOrg(orgId: Id) returns (r: Result<Verdict, ReadError>)
      ensures var rows := ReadRows(OrgRows(audit, orgId));
              (rows.Err? ==> r == Err(rows.error)) && (rows.Ok? ==> r.Ok? && Judges(env, rows.value, r.value))
      ensures TotalPreorder(env.keyOrder) && GenuineTable(env, audit) ==>
                r == Ok(Verdict(true, None, |OrgRows(audit, orgId)|))
    {
      hide ReadRow, OrgRows, Links;
      r := VerifyAuditChain(env, OrgRows(audit, orgId));
      if TotalPreorder(env.keyOrder) && GenuineTable(env, audit) {
        GenuineVerifies(env, OrgRows(audit, orgId));
      }
    }
  }
}
