// In every run of the service, every org's audit log verifies.

module AuditRuns {
  import opened Prelude
  import opened CanonicalJson
  import opened AuditChain
  import opened Tables
  import opened ServiceSpec
  import opened ServiceRuns
  import opened MessageLaws

  /** The events `a` and `b` are chained on in this order and stored after `kept`; they are what is published, in this or the other order. */
  predicate Adds(env: Env, t: Tables, kept: seq<DomainEvent>, r: Outcome, a: seq<DomainEvent>, b: seq<DomainEvent>)
    requires r.Committed?
  {
    && r.tables.audit == AuditAll(env, t.audit, a + b) && r.tables.events == kept + (a + b)
    && (r.events == a + b || r.events == b + a)
  }

  /** What is published, stored and audited are the same events. */
  ghost predicate Extended(env: Env, t: Tables, kept: seq<DomainEvent>, r: Outcome) {
    r.Committed? ==> exists a, b :: Adds(env, t, kept, r, a, b)
  }

  lemma AddsAll(env: Env, t: Tables, kept: seq<DomainEvent>, r: Outcome)
    requires r.Committed? ==> r.tables.audit == AuditAll(env, t.audit, r.events) && r.tables.events == kept + r.events
    ensures Extended(env, t, kept, r)
  {
    if r.Committed? {
      assert r.events + [] == r.events;
      assert Adds(env, t, kept, r, r.events, []);
    }
  }

  lemma AppendExtends(env: Env, t: Tables, p: Principal, streamId: Id, streamType: StreamType, parts: seq<MessagePart>,
                      key: string, now: nat, id: Id)
    ensures Extended(env, t, t.events, AppendTx(env, t, p, streamId, streamType, parts, key, now, id))
  {
    hide AuditAll, PayForAppend, PostEvents, PartRows;
    var r := AppendTx(env, t, p, streamId, streamType, parts, key, now, id);
    if r.Committed? && !r.value.idempotent {
      var paid := PayForAppend(t.grants, p, streamId, streamType, parts, now).value;
      var m := NewMessage(t, p, streamId, streamType, key, now, id);
      assert Adds(env, t, t.events, r, paid.events, PostEvents(env, p, m, parts, now));
    } else if r.Committed? {
      NothingEmitted(env, t.audit);
      AddsAll(env, t, t.events, r);
    }
  }

  lemma NothingEmitted(env: Env, audit: seq<StoredRow>)
    ensures AuditAll(env, audit, []) == audit
  {
  }

  lemma PaidExtends(env: Env, t: Tables, tx: Tx, now: nat, id: Id)
    requires tx.TxCreateChannel? || tx.TxCreateThread? || tx.TxRedact? || tx.TxRegisterArtifact?
    ensures Extended(env, t, t.events, Commit(env, t, tx, now, id))
  {
    hide AuditAll, Consume, PayForRedact, PayForArtifact, MarkRedacted, Where;
    hide ChannelCreatedEvent, OwnerEvent, ThreadCreatedEvent, RedactedEvent, ArtifactRegisteredEvent, Extended;
    AddsAll(env, t, t.events, Commit(env, t, tx, now, id));
  }

  lemma GrantExtends(env: Env, t: Tables, tx: Tx, now: nat, id: Id)
    requires tx.TxCreateGrant? || tx.TxRevokeGrants? || tx.TxOpenRequest? || tx.TxRegisterCommand?
    ensures Extended(env, t, t.events, Commit(env, t, tx, now, id))
  {
    hide AuditAll, Deactivate, RevokeEvents, GrantCreatedEvent, RequestCreatedEvent, CommandRequestedEvent, CommandRequest, Extended;
    AddsAll(env, t, t.events, Commit(env, t, tx, now, id));
  }

  lemma ResolveCommandExtends(env: Env, t: Tables, p: Principal, requestId: Id, request: Request, approve: bool, now: nat)
    ensures Extended(env, t, t.events, ResolveCommandTx(env, t, p, requestId, request, approve, now))
  {
    hide AuditAll, CommandIdOf, SetStatus, SetEnabled, ResolvedEvent, CommandRegisteredEvent, Extended;
    AddsAll(env, t, t.events, ResolveCommandTx(env, t, p, requestId, request, approve, now));
  }

  lemma DecisionExtends(env: Env, t: Tables, p: Principal, requestId: Id, request: Request, expiresAt: Option<nat>,
                        maxUses: Option<nat>, now: nat, id: Id)
    ensures Extended(env, t, t.events, DenyTx(env, t, p, requestId, now))
    ensures Extended(env, t, t.events, ApproveTx(env, t, p, requestId, request, expiresAt, maxUses, now, id))
  {
    hide AuditAll, SetStatus, GrantCreatedEvent, ResolvedEvent, Extended;
    AddsAll(env, t, t.events, DenyTx(env, t, p, requestId, now));
    AddsAll(env, t, t.events, ApproveTx(env, t, p, requestId, request, expiresAt, maxUses, now, id));
  }

  lemma ResolveExtends(env: Env, t: Tables, p: Principal, requestId: Id, request: Request, approve: bool,
                       expiresAt: Option<nat>, maxUses: Option<nat>, now: nat, id: Id)
    ensures Extended(env, t, t.events, ResolveTx(env, t, p, requestId, request, approve, expiresAt, maxUses, now, id))
  {
    hide ResolveCommandTx, DenyTx, ApproveTx, Extended;
    ResolveCommandExtends(env, t, p, requestId, request, approve, now);
    DecisionExtends(env, t, p, requestId, request, expiresAt, maxUses, now, id);
  }

  lemma PeopleExtends(env: Env, t: Tables, tx: Tx, now: nat, id: Id)
    requires tx.TxCreateOrg? || tx.TxCreateActor? || tx.TxAddMember? || tx.TxRemoveMember?
    ensures Extended(env, t, t.events, Commit(env, t, tx, now, id))
  {
    hide AuditAll, OrgCreatedEvent, ActorJoinedEvent, MemberAddedEvent, MemberRemovedEvent, Extended;
    AddsAll(env, t, t.events, Commit(env, t, tx, now, id));
  }

  lemma SmallExtends(env: Env, t: Tables, tx: Tx, now: nat, id: Id)
    requires tx.TxDeleteArtifact? || tx.TxUpdateCursor? || tx.TxRegisterClient? || tx.TxOpenPluginRow?
    ensures Extended(env, t, t.events, Commit(env, t, tx, now, id))
  {
    NothingEmitted(env, t.audit);
    hide AuditAll, ArtifactDeletedEvent, MarkDeleted, CursorUpdatedEvent, ClientRegisteredEvent, Extended;
    AddsAll(env, t, t.events, Commit(env, t, tx, now, id));
  }

  lemma DeleteChannelExtends(env: Env, t: Tables, p: Principal, channelId: Id, now: nat)
    ensures Extended(env, t, Where(t.events, EventOutside(p.orgId, ChannelStreams(t, p.orgId, channelId))),
                     DeleteChannelTx(env, t, p, channelId, now))
  {
    hide AuditAll, ChannelDeletedEvent, Where, MessageIds, DisownArtifacts, MembersOutside, DisableCommands, ChannelsOutside,
         ThreadsOutside, ChannelStreams, ForeignKeysHold, Extended;
    var kept := Where(t.events, EventOutside(p.orgId, ChannelStreams(t, p.orgId, channelId)));
    AddsAll(env, t, kept, DeleteChannelTx(env, t, p, channelId, now));
  }

  lemma {:induction false} DropOrgRows(audit: seq<StoredRow>, orgId: Id, o: Id)
    ensures OrgRows(Where(audit, AuditNotOf(orgId)), o) == if o == orgId then [] else OrgRows(audit, o)
  {
    var both := (row: StoredRow) => row.orgId != orgId && row.orgId == o;
    WhereWhere(audit, AuditNotOf(orgId), OfOrg(o), both);
    if o == orgId {
      WhereNone(audit, both);
    } else {
      WhereAgree(audit, both, OfOrg(o));
    }
  }

  lemma DeleteOrgKeepsGenuine(env: Env, t: Tables, p: Principal, orgId: Id, streamIds: set<Id>, now: nat)
    requires GenuineTable(env, t.audit)
    ensures var r := DeleteOrgTx(env, t, p, orgId, streamIds, now); r.Committed? ==> GenuineTable(env, r.tables.audit)
  {
    hide DeletesAllowed, OrgDeletedEvent, GenuineTable, OrgRows, ArtifactsNotOf, CommandsNotOf, ThreadsNotOf, ChannelsNotOf,
         MembersNotOf, RequestsNotOf, ActorsNotOf, CursorsNotOf, ClientsNotOf, OrgMessageIds;
    var rest := Where(t.audit, AuditNotOf(orgId));
    forall o
      ensures OrgRows(rest, o) == if o == orgId then [] else OrgRows(t.audit, o)
    {
      DropOrgRows(t.audit, orgId, o);
    }
    DropOrgKeepsGenuine(env, t.audit, rest, orgId);
  }

  lemma ExtendedKeepsGenuine(env: Env, t: Tables, kept: seq<DomainEvent>, r: Outcome)
    requires GenuineTable(env, t.audit) && Extended(env, t, kept, r) && r.Committed?
    ensures GenuineTable(env, r.tables.audit)
  {
    hide GenuineTable;
    var a, b :| Adds(env, t, kept, r, a, b);
    EmitAllGenuine(env, t.audit, a + b);
  }

  /** The stored events that a transaction leaves. */
  function KeptEvents(t: Tables, tx: Tx): seq<DomainEvent> {
    if tx.TxDeleteChannel? then Where(t.events, EventOutside(tx.p.orgId, ChannelStreams(t, tx.p.orgId, tx.channelId))) else t.events
  }

  lemma CommitExtends(env: Env, t: Tables, tx: Tx, now: nat, id: Id)
    requires !tx.TxDeleteOrg?
    ensures Extended(env, t, KeptEvents(t, tx), Commit(env, t, tx, now, id))
  {
    hide AppendTx, RedactTx, CreateChannelTx, CreateThreadTx, ResolveTx, RegisterArtifactTx, DeleteOrgTx, RevokeGrantsTx;
    hide CreateOrgTx, CreateActorTx, AddMemberTx, RemoveMemberTx, OpenRequestTx, DeleteArtifactTx, RegisterCommandTx;
    hide DeleteChannelTx, CreateGrantTx, OpenPluginRowTx, UpdateCursorTx, RegisterClientTx, Extended;
    match tx
    case TxAppend(p, x, st, parts, key) => AppendExtends(env, t, p, x, st, parts, key, now, id);
    case TxCreateChannel(_, _, _) => PaidExtends(env, t, tx, now, id);
    case TxCreateThread(_, _, _, _) => PaidExtends(env, t, tx, now, id);
    case TxRedact(_, _, _, _, _, _) => PaidExtends(env, t, tx, now, id);
    case TxRegisterArtifact(_, _, _) => PaidExtends(env, t, tx, now, id);
    case TxCreateGrant(_, _, _, _, _, _, _) => GrantExtends(env, t, tx, now, id);
    case TxRevokeGrants(_, _, _, _) => GrantExtends(env, t, tx, now, id);
    case TxOpenRequest(_, _, _, _, _) => GrantExtends(env, t, tx, now, id);
    case TxRegisterCommand(_, _, _) => GrantExtends(env, t, tx, now, id);
    case TxResolve(p, q, request, a, e, u) => ResolveExtends(env, t, p, q, request, a, e, u, now, id);
    case TxDeleteChannel(p, c) => DeleteChannelExtends(env, t, p, c, now);
    case TxDeleteOrg(_, _, _) =>
    case TxCreateOrg(_) => PeopleExtends(env, t, tx, now, id);
    case TxCreateActor(_) => PeopleExtends(env, t, tx, now, id);
    case TxAddMember(_, _, _, _) => PeopleExtends(env, t, tx, now, id);
    case TxRemoveMember(_, _, _) => PeopleExtends(env, t, tx, now, id);
    case _ => SmallExtends(env, t, tx, now, id);
  }

  lemma CommitKeepsGenuine(env: Env, t: Tables, tx: Tx, now: nat, id: Id)
    requires GenuineTable(env, t.audit)
    ensures var r := Commit(env, t, tx, now, id); r.Committed? ==> GenuineTable(env, r.tables.audit)
  {
    hide Commit, DeleteOrgTx, GenuineTable, Extended;
    CommitIsItsTx(env, t, tx, now, id);
    if tx.TxDeleteOrg? {
      DeleteOrgKeepsGenuine(env, t, tx.p, tx.orgId, tx.streamIds, now);
    } else if Commit(env, t, tx, now, id).Committed? {
      CommitExtends(env, t, tx, now, id);
      ExtendedKeepsGenuine(env, t, KeptEvents(t, tx), Commit(env, t, tx, now, id));
    }
  }

  lemma StartGenuine(env: Env)
    ensures GenuineTable(env, START.tables.audit)
  {
  }

  lemma {:induction false} RunKeepsGenuine(env: Env, steps: seq<Step>)
    ensures GenuineTable(env, Run(env, steps).tables.audit)
  {
    hide Commit, Check, GenuineTable;
    if steps == [] {
      StartGenuine(env);
    } else {
      var s, step := Run(env, steps[..|steps| - 1]), steps[|steps| - 1];
      RunKeepsGenuine(env, steps[..|steps| - 1]);
      if step.Finish? && step.callNo in s.pending {
        CommitKeepsGenuine(env, s.tables, s.pending[step.callNo], step.now, step.id);
      }
    }
  }

  /** Main result: in every reachable state of any run, every org's log is readable and verifies. */
  lemma EveryLogVerifies(env: Env, steps: seq<Step>, orgId: Id)
    requires TotalPreorder(env.keyOrder)
    ensures var rows := ReadRows(OrgRows(Run(env, steps).tables.audit, orgId));
            rows.Ok? && ChainHolds(env, rows.value)
  {
    hide Run, OrgRows, ReadRows, ChainHolds, TotalPreorder, Genuine;
    RunKeepsGenuine(env, steps);
    GenuineVerifies(env, OrgRows(Run(env, steps).tables.audit, orgId));
  }
}
