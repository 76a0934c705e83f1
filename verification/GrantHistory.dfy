// The grant table row by row as history tells it: who issued a grant and with what terms, what it was
// charged, when it was switched off.

module GrantHistory {
  import opened Prelude
  import opened CanonicalJson
  import opened AuditChain
  import opened Tables
  import opened ServiceSpec
  import opened ServiceRuns
  import opened MessageLaws
  import opened GrantLaws
  import opened TableHistory

  /** `n` uses more, and off for good once the cap is reached. */
  function Spent(g: Grant, n: nat): Grant {
    if n == 0 then g
    else g.(usesCount := g.usesCount + n, active := g.active && (g.maxUses.Some? ==> g.usesCount + n < g.maxUses.value))
  }

  function TimeOf(d: Done): nat {
    if d.events == [] then 0 else d.events[0].createdAt
  }

  /** A grant is made by hand or by approving a request, spent by charges, and switched off by revocation. */
  function GrantAfter(d: Done, id: Id, before: Option<Grant>): Option<Grant> {
    match d.tx
    case TxCreateGrant(p, actorId, rt, rid, capability, expiresAt, maxUses) =>
      if d.value == Created(id) then Some(Grant(id, p.orgId, actorId, rt, rid, capability, expiresAt, maxUses, 0, true, TimeOf(d)))
      else before
    case TxResolve(p, _, q, approve, expiresAt, maxUses) =>
      if approve && q.action != "command:register" && d.value == Created(id)
      then Some(Grant(id, p.orgId, q.actorId, q.resourceType, q.resourceId, q.action, expiresAt, maxUses, 0, true, TimeOf(d)))
      else before
    case TxRevokeGrants(p, ids, _, _) =>
      if before.Some? && id in ids && before.value.orgId == p.orgId then Some(before.value.(active := false)) else before
    case TxDeleteOrg(_, orgId, _) => if before.Some? && before.value.orgId == orgId then None else before
    case _ => if before.Some? then Some(Spent(before.value, CountId(d.charged, id))) else before
  }

  /** The row with an id. */
  ghost function GrantWith(grants: seq<Grant>, id: Id): (r: Option<Grant>)
    ensures r.Some? ==> r.value in grants && r.value.id == id
    ensures r.None? ==> forall g :: g in grants ==> g.id != id
  {
    if exists g :: g in grants && g.id == id then
      var g :| g in grants && g.id == id;
      Some(g)
    else None
  }

  lemma SameGrant(grants: seq<Grant>, g: Grant)
    requires UniqueIds(grants) && g in grants
    ensures GrantWith(grants, g.id) == Some(g)
  {
    var h := GrantWith(grants, g.id).value;
    var i :| 0 <= i < |grants| && grants[i] == g;
    var j :| 0 <= j < |grants| && grants[j] == h;
    assert i == j;
  }

  ghost predicate GrantsFollow(grants: seq<Grant>, grants': seq<Grant>, d: Done) {
    forall id :: GrantWith(grants', id) == GrantAfter(d, id, GrantWith(grants, id))
  }

  // ---------- charges ----------

  /** Each row is spent as often as it was charged. */
  predicate SpentBy(grants: seq<Grant>, grants': seq<Grant>, charged: seq<Id>) {
    |grants'| == |grants| && forall i :: 0 <= i < |grants| ==> grants'[i] == Spent(grants[i], CountId(charged, grants[i].id))
  }

  lemma ConsumeSpends(grants: seq<Grant>, p: Principal, capability: string, rt: string, rid: Option<Id>, now: nat)
    requires UniqueIds(grants)
    ensures var paid := Consume(grants, p, capability, rt, rid, now);
            paid.Some? ==> SpentBy(grants, paid.value.grants, paid.value.charged)
  {
    hide AutoRevokeEvent;
  }

  lemma SpentTwice(a: seq<Grant>, b: seq<Grant>, c: seq<Grant>, one: seq<Id>, two: seq<Id>)
    requires SpentBy(a, b, one) && SpentBy(b, c, two)
    ensures SpentBy(a, c, one + two)
  {
    forall i | 0 <= i < |a|
      ensures c[i] == Spent(a[i], CountId(one + two, a[i].id))
    {
      assert CountId(one + two, a[i].id) == CountId(one, a[i].id) + CountId(two, a[i].id);
    }
  }

  lemma StillUnique(grants: seq<Grant>, grants': seq<Grant>, charged: seq<Id>)
    requires UniqueIds(grants) && SpentBy(grants, grants', charged)
    ensures UniqueIds(grants')
  {
  }

  lemma NothingSpent(grants: seq<Grant>)
    ensures SpentBy(grants, grants, [])
  {
  }

  lemma AppendSpends(grants: seq<Grant>, p: Principal, streamId: Id, streamType: StreamType, parts: seq<MessagePart>, now: nat)
    requires UniqueIds(grants)
    ensures var paid := PayForAppend(grants, p, streamId, streamType, parts, now);
            paid.Ok? ==> SpentBy(grants, paid.value.grants, paid.value.charged)
  {
    hide Consume, SpentBy, UniqueIds, HasCommand;
    var rt := StreamTypeName(streamType);
    ConsumeSpends(grants, p, "message:append", rt, Some(streamId), now);
    var one := Consume(grants, p, "message:append", rt, Some(streamId), now);
    if one.Some? {
      StillUnique(grants, one.value.grants, one.value.charged);
      ConsumeSpends(one.value.grants, p, "command:invoke", rt, Some(streamId), now);
      var two := Consume(one.value.grants, p, "command:invoke", rt, Some(streamId), now);
      if two.Some? { SpentTwice(grants, one.value.grants, two.value.grants, one.value.charged, two.value.charged); }
    }
  }

  predicate Pays(tx: Tx) {
    tx.TxAppend? || tx.TxRedact? || tx.TxCreateChannel? || tx.TxCreateThread? || tx.TxRegisterArtifact?
  }

  lemma AppendTxSpends(env: Env, t: Tables, p: Principal, streamId: Id, streamType: StreamType, parts: seq<MessagePart>, key: string,
                       now: nat, id: Id)
    requires UniqueIds(t.grants)
    ensures var r := AppendTx(env, t, p, streamId, streamType, parts, key, now, id); r.Committed? ==> SpentBy(t.grants, r.tables.grants, r.charged)
  {
    hide AuditAll, PayForAppend, PostEvents, PartRows, FindByKey, SpentBy, UniqueIds;
    NothingSpent(t.grants);
    AppendSpends(t.grants, p, streamId, streamType, parts, now);
  }

  lemma RedactTxSpends(env: Env, t: Tables, p: Principal, messageId: Id, streamId: Id, streamType: StreamType, isAuthor: bool,
                       reason: string, now: nat)
    requires UniqueIds(t.grants)
    ensures var r := RedactTx(env, t, p, messageId, streamId, streamType, isAuthor, reason, now);
            r.Committed? ==> SpentBy(t.grants, r.tables.grants, r.charged)
  {
    hide AuditAll, Consume, RedactedEvent, MarkRedacted, Where, SpentBy, UniqueIds;
    NothingSpent(t.grants);
    ConsumeSpends(t.grants, p, "message:redact", StreamTypeName(streamType), Some(streamId), now);
  }

  lemma CreationSpends(env: Env, t: Tables, tx: Tx, now: nat, id: Id)
    requires UniqueIds(t.grants) && (tx.TxCreateChannel? || tx.TxCreateThread?)
    ensures var r := Commit(env, t, tx, now, id); r.Committed? ==> SpentBy(t.grants, r.tables.grants, r.charged)
  {
    hide AuditAll, Consume, ChannelCreatedEvent, OwnerEvent, ThreadCreatedEvent, SpentBy, UniqueIds;
    if tx.TxCreateChannel? {
      ConsumeSpends(t.grants, tx.p, "channel:create", "org", Some(tx.p.orgId), now);
    } else {
      ConsumeSpends(t.grants, tx.p, "thread:create", "channel", Some(tx.channelId), now);
    }
  }

  lemma ArtifactSpends(env: Env, t: Tables, tx: Tx, now: nat, id: Id)
    requires UniqueIds(t.grants) && tx.TxRegisterArtifact?
    ensures var r := Commit(env, t, tx, now, id); r.Committed? ==> SpentBy(t.grants, r.tables.grants, r.charged)
  {
    hide AuditAll, PayForArtifact, ArtifactRegisteredEvent, SpentBy, UniqueIds;
    UploadSpends(t.grants, tx.p, tx.streamId, tx.streamType, now);
  }

  lemma UploadSpends(grants: seq<Grant>, p: Principal, streamId: Id, streamType: StreamType, now: nat)
    requires UniqueIds(grants)
    ensures var paid := PayForArtifact(grants, p, streamId, streamType, now);
            paid.Some? ==> SpentBy(grants, paid.value.grants, paid.value.charged)
  {
    hide Consume, SpentBy, UniqueIds;
    ConsumeSpends(grants, p, "artifact:register", StreamTypeName(streamType), Some(streamId), now);
    ConsumeSpends(grants, p, "message:append", StreamTypeName(streamType), Some(streamId), now);
  }

  lemma PaidTxSpends(env: Env, t: Tables, tx: Tx, now: nat, id: Id)
    requires UniqueIds(t.grants) && Pays(tx)
    ensures var r := Commit(env, t, tx, now, id); r.Committed? ==> SpentBy(t.grants, r.tables.grants, r.charged)
  {
    hide Commit, AppendTx, RedactTx, CreateChannelTx, CreateThreadTx, SpentBy, UniqueIds;
    CommitIsItsTx(env, t, tx, now, id);
    match tx
    case TxAppend(p, x, st, parts, key) => AppendTxSpends(env, t, p, x, st, parts, key, now, id);
    case TxRedact(p, m, x, st, a, reason) => RedactTxSpends(env, t, p, m, x, st, a, reason, now);
    case TxRegisterArtifact(_, _, _) => ArtifactSpends(env, t, tx, now, id);
    case _ => CreationSpends(env, t, tx, now, id);
  }

  /** Spending row by row is what the rule says. */
  lemma SpentFollows(grants: seq<Grant>, grants': seq<Grant>, d: Done)
    requires UniqueIds(grants) && SpentBy(grants, grants', d.charged) && (Pays(d.tx) || (Quiet(d.tx) && d.charged == []))
    ensures GrantsFollow(grants, grants', d)
  {
    StillUnique(grants, grants', d.charged);
    forall id
      ensures GrantWith(grants', id) == GrantAfter(d, id, GrantWith(grants, id))
    {
      var before, after := GrantWith(grants, id), GrantWith(grants', id);
      if after.Some? {
        var i :| 0 <= i < |grants'| && grants'[i] == after.value;
        assert grants[i] in grants && grants[i].id == id;
      }
      if before.Some? {
        var i :| 0 <= i < |grants| && grants[i] == before.value;
        assert grants'[i] in grants';
        SameGrant(grants', grants'[i]);
      }
    }
  }

  // ---------- issuing, revoking, deleting ----------

  lemma IssuedFollows(grants: seq<Grant>, g: Grant, d: Done)
    requires UniqueIds(grants) && forall x :: x in grants ==> x.id != g.id
    requires d.tx.TxCreateGrant? || d.tx.TxResolve?
    requires d.value == Created(g.id) && GrantAfter(d, g.id, None) == Some(g)
    ensures GrantsFollow(grants, grants + [g], d)
  {
    var after := grants + [g];
    assert after[|grants|] == g && UniqueIds(after);
    forall id
      ensures GrantWith(after, id) == GrantAfter(d, id, GrantWith(grants, id))
    {
      if id == g.id {
        SameGrant(after, g);
        assert GrantWith(grants, id) == None;
      } else if GrantWith(grants, id).Some? {
        assert GrantWith(grants, id).value in after;
        SameGrant(after, GrantWith(grants, id).value);
      }
    }
  }

  lemma SameFollows(grants: seq<Grant>, d: Done)
    requires forall id :: GrantAfter(d, id, GrantWith(grants, id)) == GrantWith(grants, id)
    ensures GrantsFollow(grants, grants, d)
  {
  }

  lemma DeactivatedFollows(grants: seq<Grant>, d: Done)
    requires UniqueIds(grants) && d.tx.TxRevokeGrants?
    ensures GrantsFollow(grants, Deactivate(grants, d.tx.p.orgId, d.tx.grantIds), d)
  {
    var after := Deactivate(grants, d.tx.p.orgId, d.tx.grantIds);
    assert UniqueIds(after);
    forall id
      ensures GrantWith(after, id) == GrantAfter(d, id, GrantWith(grants, id))
    {
      DeactivatedRow(grants, after, d, id);
    }
  }

  lemma DeactivatedRow(grants: seq<Grant>, after: seq<Grant>, d: Done, id: Id)
    requires UniqueIds(after) && d.tx.TxRevokeGrants? && after == Deactivate(grants, d.tx.p.orgId, d.tx.grantIds)
    ensures GrantWith(after, id) == GrantAfter(d, id, GrantWith(grants, id))
  {
    if GrantWith(after, id).Some? {
      var i :| 0 <= i < |after| && after[i] == GrantWith(after, id).value;
      assert grants[i] in grants && grants[i].id == id;
    }
    if GrantWith(grants, id).Some? {
      var i :| 0 <= i < |grants| && grants[i] == GrantWith(grants, id).value;
      assert after[i] in after;
      SameGrant(after, after[i]);
    }
  }

  lemma {:induction false} WhereKeepsUniqueIds(grants: seq<Grant>, keep: Grant -> bool)
    requires UniqueIds(grants)
    ensures UniqueIds(Where(grants, keep))
  {
    if grants != [] {
      var front, last := grants[..|grants| - 1], grants[|grants| - 1];
      WhereKeepsUniqueIds(front, keep);
      assert forall g :: g in Where(front, keep) ==> g.id != last.id;
    }
  }

  lemma OrgGoneFollows(grants: seq<Grant>, d: Done)
    requires UniqueIds(grants) && d.tx.TxDeleteOrg?
    ensures GrantsFollow(grants, Where(grants, GrantNotOf(d.tx.orgId)), d)
  {
    var after := Where(grants, GrantNotOf(d.tx.orgId));
    WhereKeepsUniqueIds(grants, GrantNotOf(d.tx.orgId));
    forall id
      ensures GrantWith(after, id) == GrantAfter(d, id, GrantWith(grants, id))
    {
      if GrantWith(after, id).Some? { SameGrant(grants, GrantWith(after, id).value); }
      if GrantWith(grants, id).Some? && GrantWith(grants, id).value in after { SameGrant(after, GrantWith(grants, id).value); }
    }
  }

  // ---------- every transaction ----------

  ghost predicate FreshGrant(grants: seq<Grant>, id: Id) {
    UniqueIds(grants) && forall g :: g in grants ==> g.id != id
  }

  lemma CreateGrantFollows(env: Env, t: Tables, tx: Tx, now: nat, id: Id, dropped: set<Id>)
    requires FreshGrant(t.grants, id) && tx.TxCreateGrant?
    ensures var r := Commit(env, t, tx, now, id); r.Committed? ==> GrantsFollow(t.grants, r.tables.grants, Entered(tx, r, dropped))
  {
    hide AuditAll, GrantsFollow;
    var r := Commit(env, t, tx, now, id);
    IssuedFollows(t.grants, r.tables.grants[|t.grants|], Entered(tx, r, dropped));
  }

  lemma RevokeFollows(env: Env, t: Tables, tx: Tx, now: nat, id: Id, dropped: set<Id>)
    requires UniqueIds(t.grants) && tx.TxRevokeGrants?
    ensures var r := Commit(env, t, tx, now, id); r.Committed? ==> GrantsFollow(t.grants, r.tables.grants, Entered(tx, r, dropped))
  {
    hide AuditAll, GrantsFollow, Deactivate, RevokeEvents, UniqueIds;
    var r := Commit(env, t, tx, now, id);
    DeactivatedFollows(t.grants, Entered(tx, r, dropped));
  }

  lemma ApprovalIssues(env: Env, t: Tables, p: Principal, requestId: Id, q: Request, expiresAt: Option<nat>, maxUses: Option<nat>,
                       now: nat, id: Id)
    ensures var r := ApproveTx(env, t, p, requestId, q, expiresAt, maxUses, now, id);
            && r.Committed? && r.value == Created(id) && |r.events| == 2 && r.events[0].createdAt == now
            && r.tables.grants
               == t.grants + [Grant(id, p.orgId, q.actorId, q.resourceType, q.resourceId, q.action, expiresAt, maxUses, 0, true, now)]
  {
    hide AuditAll, SetStatus, ResolvedEvent;
  }

  lemma NothingIssued(env: Env, t: Tables, p: Principal, requestId: Id, q: Request, approve: bool, now: nat)
    ensures var r := ResolveCommandTx(env, t, p, requestId, q, approve, now); r.Committed? && r.tables.grants == t.grants && r.value == Nothing
    ensures var r := DenyTx(env, t, p, requestId, now); r.Committed? && r.tables.grants == t.grants && r.value == Nothing
  {
    hide AuditAll, CommandIdOf, SetStatus, SetEnabled, ResolvedEvent, CommandRegisteredEvent;
  }

  lemma ResolutionFollows(env: Env, t: Tables, p: Principal, requestId: Id, request: Request, approve: bool, expiresAt: Option<nat>,
                          maxUses: Option<nat>, now: nat, id: Id, dropped: set<Id>)
    requires FreshGrant(t.grants, id)
    ensures var r := ResolveTx(env, t, p, requestId, request, approve, expiresAt, maxUses, now, id);
            r.Committed? && GrantsFollow(t.grants, r.tables.grants, Entered(TxResolve(p, requestId, request, approve, expiresAt, maxUses), r, dropped))
  {
    hide GrantsFollow, ResolveCommandTx, DenyTx, ApproveTx;
    ApprovalIssues(env, t, p, requestId, request, expiresAt, maxUses, now, id);
    NothingIssued(env, t, p, requestId, request, approve, now);
    var r := ResolveTx(env, t, p, requestId, request, approve, expiresAt, maxUses, now, id);
    var d := Entered(TxResolve(p, requestId, request, approve, expiresAt, maxUses), r, dropped);
    if approve && request.action != "command:register" {
      IssuedFollows(t.grants, r.tables.grants[|t.grants|], d);
    } else {
      SameFollows(t.grants, d);
    }
  }

  lemma DeletionFollows(env: Env, t: Tables, tx: Tx, now: nat, id: Id, dropped: set<Id>)
    requires UniqueIds(t.grants) && tx.TxDeleteOrg?
    ensures var r := DeleteOrgTx(env, t, tx.p, tx.orgId, tx.streamIds, now);
            r.Committed? ==> GrantsFollow(t.grants, r.tables.grants, Entered(tx, r, dropped))
  {
    hide GrantsFollow, DeletesAllowed, OrgDeletedEvent, UniqueIds, Where, ArtifactsNotOf, CommandsNotOf, ThreadsNotOf, ChannelsNotOf,
         MembersNotOf, RequestsNotOf, ActorsNotOf, CursorsNotOf, ClientsNotOf, OrgMessageIds;
    var r := DeleteOrgTx(env, t, tx.p, tx.orgId, tx.streamIds, now);
    if r.Committed? { OrgGoneFollows(t.grants, Entered(tx, r, dropped)); }
  }

  /** Main result: each grant after a transaction is what the rule makes of that grant before it. */
  lemma CommitGrantsFollow(env: Env, t: Tables, tx: Tx, now: nat, id: Id, dropped: set<Id>)
    requires FreshGrant(t.grants, id)
    ensures var r := Commit(env, t, tx, now, id); r.Committed? ==> GrantsFollow(t.grants, r.tables.grants, Entered(tx, r, dropped))
  {
    hide Commit, GrantsFollow, ResolveTx, DeleteOrgTx, AppendTx, RedactTx, CreateChannelTx, CreateThreadTx, DeleteChannelTx, NoAutoRevoke,
         SpentBy;
    CommitIsItsTx(env, t, tx, now, id);
    var r := Commit(env, t, tx, now, id);
    match tx
    case TxCreateGrant(_, _, _, _, _, _, _) => CreateGrantFollows(env, t, tx, now, id, dropped);
    case TxRevokeGrants(_, _, _, _) => RevokeFollows(env, t, tx, now, id, dropped);
    case TxResolve(p, q, request, a, e, u) => ResolutionFollows(env, t, p, q, request, a, e, u, now, id, dropped);
    case TxDeleteOrg(_, _, _) => DeletionFollows(env, t, tx, now, id, dropped);
    case _ =>
      if r.Committed? {
        if Pays(tx) {
          PaidTxSpends(env, t, tx, now, id);
        } else {
          QuietCommit(env, t, tx, now, id);
          NothingSpent(t.grants);
        }
        SpentFollows(t.grants, r.tables.grants, Entered(tx, r, dropped));
      }
  }

  // ---------- runs ----------

  ghost predicate GrantsTold(grants: seq<Grant>, log: seq<Done>) {
    forall id :: GrantWith(grants, id) == Told(GrantAfter, log, id)
  }

  lemma GrantsToldNext(grants: seq<Grant>, grants': seq<Grant>, log: seq<Done>, d: Done)
    requires GrantsTold(grants, log) && GrantsFollow(grants, grants', d)
    ensures GrantsTold(grants', log + [d])
  {
    hide GrantWith;
    assert (log + [d])[..|log|] == log;
    forall id
      ensures GrantWith(grants', id) == Told(GrantAfter, log + [d], id)
    {
      assert GrantWith(grants, id) == Told(GrantAfter, log, id);
    }
  }

  lemma ExecTellsGrants(env: Env, s: Sys, step: Step)
    requires GrantInv(s) && GrantsTold(s.tables.grants, s.log)
    ensures var s' := Exec(env, s, step); GrantsTold(s'.tables.grants, s'.log)
  {
    hide Check, Commit, GrantsTold, GrantsFollow, DroppedStreams, NewStreams, Charges, AutoRevokes;
    if step.Finish? && step.callNo in s.pending && step.id !in s.usedIds {
      var tx := s.pending[step.callNo];
      var r := Commit(env, s.tables, tx, step.now, step.id);
      if r.Committed? {
        CommitGrantsFollow(env, s.tables, tx, step.now, step.id, DroppedStreams(s, tx));
        GrantsToldNext(s.tables.grants, r.tables.grants, s.log, Entered(tx, r, DroppedStreams(s, tx)));
      }
    }
  }

  /**
   * Main result: in every run each grant is what history says: issued once with the terms asked for,
   * used as often as it was charged, and active unless it was revoked or used up.
   */
  lemma {:induction false} GrantsAreHistory(env: Env, steps: seq<Step>)
    ensures var s := Run(env, steps); GrantsTold(s.tables.grants, s.log)
  {
    hide Exec, GrantsTold, GrantInv;
    if steps == [] {
      NoGrantsTold();
    } else {
      var front := steps[..|steps| - 1];
      GrantsAreHistory(env, front);
      RunKeepsGrantInv(env, front);
      ExecTellsGrants(env, Run(env, front), steps[|steps| - 1]);
    }
  }

  lemma NoGrantsTold()
    ensures GrantsTold(START.tables.grants, START.log)
  {
    assert START.tables == EMPTY_TABLES && START.log == [];
  }
}
