// What a committed transaction charges, in columns: for each capability it needs and its principal
// does not carry as a scope, one use of the oldest grant that is live at that moment.

module Charging {
  import opened Prelude
  import opened CanonicalJson
  import opened AuditChain
  import opened Tables
  import opened ServiceSpec
  import opened ServiceRuns
  import opened MessageLaws
  import opened GrantLaws
  import opened Rights

  // ---------- what a transaction charges ----------

  /** The row is live and no live row was created before it. */
  ghost predicate OldestLive(grants: seq<Grant>, g: Grant, p: Principal, capability: string, resourceType: string, resourceId: Id,
                             now: nat)
  {
    && g in grants && LiveRow(g, p.orgId, p.actorId, capability, resourceType, resourceId, now)
    && forall x :: x in grants && LiveRow(x, p.orgId, p.actorId, capability, resourceType, resourceId, now) ==> g.createdAt <= x.createdAt
  }

  /** A scope is free; otherwise one live grant, the oldest, is charged. */
  ghost predicate PaidBy(grants: seq<Grant>, charged: seq<Id>, p: Principal, capability: string, resourceType: string, resourceId: Id,
                         now: nat)
  {
    if capability in p.scopes then charged == []
    else exists g: Grant :: charged == [g.id] && OldestLive(grants, g, p, capability, resourceType, resourceId, now)
  }

  /** What each kind of transaction pays for. */
  ghost predicate PaysExactly(grants: seq<Grant>, tx: Tx, value: Value, charged: seq<Id>, now: nat) {
    match tx
    case TxAppend(p, streamId, streamType, parts, _) =>
      if value.Appended? && value.idempotent then charged == []
      else exists a, c ::
             && charged == a + c && PaidBy(grants, a, p, "message:append", Kind(streamType), streamId, now)
             && if Commands(parts) then PaidBy(grants, c, p, "command:invoke", Kind(streamType), streamId, now) else c == []
    case TxRedact(p, _, streamId, streamType, isAuthor, _) =>
      if isAuthor then charged == [] else PaidBy(grants, charged, p, "message:redact", Kind(streamType), streamId, now)
    case TxCreateChannel(p, _, _) => PaidBy(grants, charged, p, "channel:create", "org", p.orgId, now)
    case TxCreateThread(p, channelId, _, _) => PaidBy(grants, charged, p, "thread:create", "channel", channelId, now)
    case TxRegisterArtifact(p, streamId, streamType) =>
      || PaidBy(grants, charged, p, "artifact:register", Kind(streamType), streamId, now)
      || (&& "artifact:register" !in p.scopes
          && (forall g :: g in grants ==> !LiveRow(g, p.orgId, p.actorId, "artifact:register", Kind(streamType), streamId, now))
          && PaidBy(grants, charged, p, "message:append", Kind(streamType), streamId, now))
    case _ => charged == []
  }

  /** Main result: the lookup finds a live row that no live row is older than, exactly if there is a live row. */
  lemma OldestUsableIsLive(grants: seq<Grant>, p: Principal, capability: string, resourceType: string, resourceId: Id, now: nat)
    ensures var r := OldestUsable(grants, GrantQuery(p.orgId, p.actorId, capability, resourceType, Some(resourceId), now));
            && (r.Some? ==> r.value < |grants| && OldestLive(grants, grants[r.value], p, capability, resourceType, resourceId, now))
            && (r.None? ==> forall g :: g in grants ==> !LiveRow(g, p.orgId, p.actorId, capability, resourceType, resourceId, now))
  {
    var q := GrantQuery(p.orgId, p.actorId, capability, resourceType, Some(resourceId), now);
    forall g | g in grants
      ensures LiveRow(g, p.orgId, p.actorId, capability, resourceType, resourceId, now) ==>
                exists i :: 0 <= i < |grants| && grants[i] == g && Usable(grants[i], q)
    {
      var i :| 0 <= i < |grants| && grants[i] == g;
    }
  }

  lemma ConsumePaysBy(grants: seq<Grant>, p: Principal, capability: string, resourceType: string, resourceId: Id, now: nat)
    ensures var paid := Consume(grants, p, capability, resourceType, Some(resourceId), now);
            && (paid.Some? ==> PaidBy(grants, paid.value.charged, p, capability, resourceType, resourceId, now))
            && (paid.None? ==> capability !in p.scopes
                               && forall g :: g in grants ==> !LiveRow(g, p.orgId, p.actorId, capability, resourceType, resourceId, now))
  {
    hide AutoRevokeEvent, OldestLive, OldestUsable, LiveRow;
    OldestUsableIsLive(grants, p, capability, resourceType, resourceId, now);
  }

  // ---------- by kind of transaction ----------

  /** Charging one capability's grant changes no row of another capability. */
  lemma OtherRowsStay(grants: seq<Grant>, i: nat, charged: seq<Id>, p: Principal, capability: string, resourceType: string,
                      resourceId: Id, now: nat)
    requires i < |grants| && grants[i].capability != capability
    requires PaidBy(grants[i := Burn(grants[i])], charged, p, capability, resourceType, resourceId, now)
    ensures PaidBy(grants, charged, p, capability, resourceType, resourceId, now)
  {
    var after := grants[i := Burn(grants[i])];
    if capability !in p.scopes {
      var g: Grant :| charged == [g.id] && OldestLive(after, g, p, capability, resourceType, resourceId, now);
      var k :| 0 <= k < |after| && after[k] == g;
      assert grants[k] == g;
      forall x | x in grants && LiveRow(x, p.orgId, p.actorId, capability, resourceType, resourceId, now)
        ensures g.createdAt <= x.createdAt
      {
        var j :| 0 <= j < |grants| && grants[j] == x;
        assert after[j] == x;
      }
    }
  }

  lemma AppendPays(grants: seq<Grant>, p: Principal, streamId: Id, streamType: StreamType, parts: seq<MessagePart>, now: nat)
    ensures var paid := PayForAppend(grants, p, streamId, streamType, parts, now);
            paid.Ok? ==> exists a, c ::
              && paid.value.charged == a + c && PaidBy(grants, a, p, "message:append", Kind(streamType), streamId, now)
              && if Commands(parts) then PaidBy(grants, c, p, "command:invoke", Kind(streamType), streamId, now) else c == []
  {
    hide PaidBy, HasCommand, Commands, AutoRevokeEvent, OldestUsable, Burn;
    CommandsIff(parts);
    ConsumePaysBy(grants, p, "message:append", Kind(streamType), streamId, now);
    var paid := PayForAppend(grants, p, streamId, streamType, parts, now);
    if paid.Ok? {
      var one := Consume(grants, p, "message:append", Kind(streamType), Some(streamId), now).value;
      if HasCommand(parts) {
        ConsumePaysBy(one.grants, p, "command:invoke", Kind(streamType), streamId, now);
        var two := Consume(one.grants, p, "command:invoke", Kind(streamType), Some(streamId), now).value;
        SecondChargeStands(grants, p, Kind(streamType), streamId, now, two.charged);
        assert paid.value.charged == one.charged + two.charged;
      } else {
        assert paid.value.charged == one.charged + [];
      }
    }
  }

  lemma SecondChargeStands(grants: seq<Grant>, p: Principal, rt: string, streamId: Id, now: nat, charged: seq<Id>)
    requires var one := Consume(grants, p, "message:append", rt, Some(streamId), now);
             one.Some? && PaidBy(one.value.grants, charged, p, "command:invoke", rt, streamId, now)
    ensures PaidBy(grants, charged, p, "command:invoke", rt, streamId, now)
  {
    hide PaidBy, Burn, AutoRevokeEvent;
    if "message:append" !in p.scopes {
      var i := OldestUsable(grants, GrantQuery(p.orgId, p.actorId, "message:append", rt, Some(streamId), now)).value;
      OtherRowsStay(grants, i, charged, p, "command:invoke", rt, streamId, now);
    }
  }

  lemma PostPays(env: Env, t: Tables, tx: Tx, now: nat, id: Id)
    requires tx.TxAppend?
    ensures var r := AppendTx(env, t, tx.p, tx.streamId, tx.streamType, tx.parts, tx.key, now, id);
            r.Committed? ==> PaysExactly(t.grants, tx, r.value, r.charged, now)
  {
    hide PaidBy, AuditAll, PostEvents, PartRows, PayForAppend, Commands, FindByKey;
    AppendPays(t.grants, tx.p, tx.streamId, tx.streamType, tx.parts, now);
  }

  lemma RedactionPays(env: Env, t: Tables, tx: Tx, now: nat)
    requires tx.TxRedact?
    ensures var r := RedactTx(env, t, tx.p, tx.messageId, tx.streamId, tx.streamType, tx.isAuthor, tx.reason, now);
            r.Committed? ==> PaysExactly(t.grants, tx, r.value, r.charged, now)
  {
    hide PaidBy, AuditAll, RedactedEvent, Consume, MarkRedacted, Where;
    ConsumePaysBy(t.grants, tx.p, "message:redact", Kind(tx.streamType), tx.streamId, now);
  }

  lemma CreationPays(env: Env, t: Tables, tx: Tx, now: nat, id: Id)
    requires tx.TxCreateChannel? || tx.TxCreateThread?
    ensures var r := Commit(env, t, tx, now, id);
            r.Committed? ==> PaysExactly(t.grants, tx, r.value, r.charged, now)
  {
    hide PaidBy, AuditAll, ChannelCreatedEvent, OwnerEvent, ThreadCreatedEvent, Consume;
    if tx.TxCreateChannel? {
      ConsumePaysBy(t.grants, tx.p, "channel:create", "org", tx.p.orgId, now);
    } else {
      ConsumePaysBy(t.grants, tx.p, "thread:create", "channel", tx.channelId, now);
    }
  }

  lemma ArtifactPays(env: Env, t: Tables, tx: Tx, now: nat, id: Id)
    requires tx.TxRegisterArtifact?
    ensures var r := Commit(env, t, tx, now, id);
            r.Committed? ==> PaysExactly(t.grants, tx, r.value, r.charged, now)
  {
    hide PaidBy, AuditAll, ArtifactRegisteredEvent, Consume, LiveRow;
    ConsumePaysBy(t.grants, tx.p, "artifact:register", Kind(tx.streamType), tx.streamId, now);
    ConsumePaysBy(t.grants, tx.p, "message:append", Kind(tx.streamType), tx.streamId, now);
  }

  lemma GrantingIsFree(env: Env, t: Tables, tx: Tx, now: nat, id: Id)
    requires tx.TxCreateGrant? || tx.TxRevokeGrants? || tx.TxResolve? || tx.TxDeleteOrg?
    ensures var r := Commit(env, t, tx, now, id); r.Committed? ==> r.charged == []
  {
    hide EmitAll, Deactivate, RevokeEvents, GrantCreatedEvent, SetStatus, SetEnabled, ResolvedEvent, CommandRegisteredEvent, CommandIdOf,
         DeletesAllowed, AfterDeletes, OrgDeletedEvent;
  }

  /** Main result: a committed transaction charges exactly what it has to, to grants that are live when it commits. */
  lemma CommitPays(env: Env, t: Tables, tx: Tx, now: nat, id: Id)
    ensures var r := Commit(env, t, tx, now, id);
            r.Committed? ==> PaysExactly(t.grants, tx, r.value, r.charged, now)
  {
    hide PaidBy, Commit, Commands, AppendTx, RedactTx, CreateChannelTx, CreateThreadTx, ResolveTx, DeleteChannelTx, DeleteOrgTx,
         NoAutoRevoke;
    CommitIsItsTx(env, t, tx, now, id);
    match tx
    case TxAppend(_, _, _, _, _) => PostPays(env, t, tx, now, id);
    case TxRedact(_, _, _, _, _, _) => RedactionPays(env, t, tx, now);
    case TxCreateChannel(_, _, _) => CreationPays(env, t, tx, now, id);
    case TxCreateThread(_, _, _, _) => CreationPays(env, t, tx, now, id);
    case TxRegisterArtifact(_, _, _) => ArtifactPays(env, t, tx, now, id);
    case TxCreateGrant(_, _, _, _, _, _, _) => GrantingIsFree(env, t, tx, now, id);
    case TxRevokeGrants(_, _, _, _) => GrantingIsFree(env, t, tx, now, id);
    case TxResolve(_, _, _, _, _, _) => GrantingIsFree(env, t, tx, now, id);
    case TxDeleteOrg(_, _, _) => GrantingIsFree(env, t, tx, now, id);
    case _ => QuietCommit(env, t, tx, now, id);
  }

  // ---------- whether it is paid at all ----------

  /** The earlier message that an append with this key replays. */
  predicate Replayed(t: Tables, p: Principal, streamId: Id, key: string) {
    exists m :: m in t.messages && m.orgId == p.orgId && m.streamId == streamId && m.actorId == p.actorId && m.key == key
  }

  /** What a paying transaction needs when it commits. */
  ghost predicate Affords(t: Tables, tx: Tx, now: nat) {
    match tx
    case TxAppend(p, streamId, streamType, parts, key) =>
      || Replayed(t, p, streamId, key)
      || (&& Holds(t, p, "message:append", Kind(streamType), streamId, now)
          && (Commands(parts) ==> Holds(t, p, "command:invoke", Kind(streamType), streamId, now)))
    case TxRedact(p, _, streamId, streamType, isAuthor, _) => isAuthor || Holds(t, p, "message:redact", Kind(streamType), streamId, now)
    case TxCreateChannel(p, _, _) => Holds(t, p, "channel:create", "org", p.orgId, now)
    case TxCreateThread(p, channelId, _, _) => Holds(t, p, "thread:create", "channel", channelId, now)
    case TxRegisterArtifact(p, streamId, streamType) =>
      || Holds(t, p, "artifact:register", Kind(streamType), streamId, now)
      || Holds(t, p, "message:append", Kind(streamType), streamId, now)
    case _ => true
  }

  lemma ConsumesIff(t: Tables, p: Principal, capability: string, resourceType: string, resourceId: Id, now: nat)
    ensures Consume(t.grants, p, capability, resourceType, Some(resourceId), now).Some?
            <==> Holds(t, p, capability, resourceType, resourceId, now)
  {
    hide LiveRow, Consume;
    ConsumePaysBy(t.grants, p, capability, resourceType, resourceId, now);
    if Consume(t.grants, p, capability, resourceType, Some(resourceId), now).Some? && capability !in p.scopes {
      var paid := Consume(t.grants, p, capability, resourceType, Some(resourceId), now).value;
      var g: Grant :| paid.charged == [g.id] && OldestLive(t.grants, g, p, capability, resourceType, resourceId, now);
    }
  }

  /** Paying for the append leaves the grants for invoking as they are. */
  lemma InvokesIff(t: Tables, p: Principal, rt: string, streamId: Id, now: nat)
    requires Consume(t.grants, p, "message:append", rt, Some(streamId), now).Some?
    ensures var one := Consume(t.grants, p, "message:append", rt, Some(streamId), now).value;
            Consume(one.grants, p, "command:invoke", rt, Some(streamId), now).Some? <==> Holds(t, p, "command:invoke", rt, streamId, now)
  {
    hide AutoRevokeEvent, Holds;
    var one := Consume(t.grants, p, "message:append", rt, Some(streamId), now).value;
    ConsumesIff(t.(grants := one.grants), p, "command:invoke", rt, streamId, now);
    if "message:append" !in p.scopes {
      var i := OldestUsable(t.grants, GrantQuery(p.orgId, p.actorId, "message:append", rt, Some(streamId), now)).value;
      hide Consume, OldestUsable;
      SameRowsHold(t, t.(grants := one.grants), i, p, "command:invoke", rt, streamId, now);
    }
  }

  lemma SameRowsHold(t: Tables, t': Tables, i: nat, p: Principal, capability: string, rt: string, streamId: Id, now: nat)
    requires i < |t.grants| && t.grants[i].capability != capability && t'.grants == t.grants[i := Burn(t.grants[i])]
    ensures Holds(t', p, capability, rt, streamId, now) <==> Holds(t, p, capability, rt, streamId, now)
  {
    forall g | LiveRow(g, p.orgId, p.actorId, capability, rt, streamId, now)
      ensures g in t.grants <==> g in t'.grants
    {
      if g in t.grants {
        var j :| 0 <= j < |t.grants| && t.grants[j] == g;
        assert t'.grants[j] == g;
      }
      if g in t'.grants {
        var j :| 0 <= j < |t'.grants| && t'.grants[j] == g;
        assert t.grants[j] == g;
      }
    }
  }

  lemma AppendAffords(env: Env, t: Tables, tx: Tx, now: nat, id: Id)
    requires tx.TxAppend?
    ensures AppendTx(env, t, tx.p, tx.streamId, tx.streamType, tx.parts, tx.key, now, id).Committed? <==> Affords(t, tx, now)
  {
    hide AuditAll, PostEvents, PartRows, Consume, Holds, HasCommand, Commands;
    CommandsIff(tx.parts);
    ConsumesIff(t, tx.p, "message:append", Kind(tx.streamType), tx.streamId, now);
    if Consume(t.grants, tx.p, "message:append", Kind(tx.streamType), Some(tx.streamId), now).Some? {
      InvokesIff(t, tx.p, Kind(tx.streamType), tx.streamId, now);
    }
    var found := FindByKey(t.messages, AppendKey(tx.p.orgId, tx.streamId, tx.p.actorId, tx.key));
    assert found.Some? <==> Replayed(t, tx.p, tx.streamId, tx.key) by { ReplayedIff(t, tx.p, tx.streamId, tx.key); }
    hide FindByKey, Replayed;
  }

  lemma ReplayedIff(t: Tables, p: Principal, streamId: Id, key: string)
    ensures FindByKey(t.messages, AppendKey(p.orgId, streamId, p.actorId, key)).Some? <==> Replayed(t, p, streamId, key)
  {
  }

  lemma RedactionAffords(env: Env, t: Tables, tx: Tx, now: nat)
    requires tx.TxRedact?
    ensures RedactTx(env, t, tx.p, tx.messageId, tx.streamId, tx.streamType, tx.isAuthor, tx.reason, now).Committed? <==> Affords(t, tx, now)
  {
    hide AuditAll, RedactedEvent, Consume, MarkRedacted, Where, Holds;
    ConsumesIff(t, tx.p, "message:redact", Kind(tx.streamType), tx.streamId, now);
  }

  lemma CreationAffords(env: Env, t: Tables, tx: Tx, now: nat, id: Id)
    requires tx.TxCreateChannel? || tx.TxCreateThread?
    ensures Commit(env, t, tx, now, id).Committed? <==> Affords(t, tx, now)
  {
    hide AuditAll, ChannelCreatedEvent, OwnerEvent, ThreadCreatedEvent, Consume, Holds;
    if tx.TxCreateChannel? {
      ConsumesIff(t, tx.p, "channel:create", "org", tx.p.orgId, now);
    } else {
      ConsumesIff(t, tx.p, "thread:create", "channel", tx.channelId, now);
    }
  }

  lemma ArtifactAffords(env: Env, t: Tables, tx: Tx, now: nat, id: Id)
    requires tx.TxRegisterArtifact?
    ensures Commit(env, t, tx, now, id).Committed? <==> Affords(t, tx, now)
  {
    hide AuditAll, ArtifactRegisteredEvent, Consume, Holds;
    ConsumesIff(t, tx.p, "artifact:register", Kind(tx.streamType), tx.streamId, now);
    ConsumesIff(t, tx.p, "message:append", Kind(tx.streamType), tx.streamId, now);
  }

  /** Main result: a transaction that must pay commits exactly if, when it commits, it still can. */
  lemma CommitsIffAffords(env: Env, t: Tables, tx: Tx, now: nat, id: Id)
    requires tx.TxAppend? || tx.TxRedact? || tx.TxCreateChannel? || tx.TxCreateThread? || tx.TxRegisterArtifact?
    ensures Commit(env, t, tx, now, id).Committed? <==> Affords(t, tx, now)
  {
    hide Commit, Affords, AppendTx, RedactTx, CreateChannelTx, CreateThreadTx;
    CommitIsItsTx(env, t, tx, now, id);
    match tx
    case TxAppend(_, _, _, _, _) => AppendAffords(env, t, tx, now, id);
    case TxRedact(_, _, _, _, _, _) => RedactionAffords(env, t, tx, now);
    case TxRegisterArtifact(_, _, _) => ArtifactAffords(env, t, tx, now, id);
    case _ => CreationAffords(env, t, tx, now, id);
  }
}
