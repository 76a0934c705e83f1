// Use-counted grants under every interleaving: each committed charge is counted once, no grant is
// charged beyond its cap, and the step that burns the last use announces it exactly once.

module GrantLaws {
  import opened Prelude
  import opened CanonicalJson
  import opened AuditChain
  import opened Tables
  import opened ServiceSpec
  import opened ServiceRuns
  import opened MessageLaws

  // ---------- counting in the history ----------

  function CountId(ids: seq<Id>, id: Id): nat {
    multiset(ids)[id]
  }

  predicate IsAutoRevoke(e: DomainEvent, id: Id) {
    e.eventType == GrantRevoked && e.payload == AutoRevokePayload(e.orgId, id)
  }

  function CountAuto(es: seq<DomainEvent>, id: Id): nat {
    if es == [] then 0
    else CountAuto(es[..|es| - 1], id) + (if IsAutoRevoke(es[|es| - 1], id) then 1 else 0)
  }

  /** How often committed transactions charged a grant. */
  function Charges(log: seq<Done>, id: Id): nat {
    if log == [] then 0 else Charges(log[..|log| - 1], id) + CountId(log[|log| - 1].charged, id)
  }

  /** How often the automatic revocation of a grant was announced. */
  function AutoRevokes(log: seq<Done>, id: Id): nat {
    if log == [] then 0 else AutoRevokes(log[..|log| - 1], id) + CountAuto(log[|log| - 1].events, id)
  }

  lemma {:induction false} CountAutoAppend(a: seq<DomainEvent>, b: seq<DomainEvent>, id: Id)
    ensures CountAuto(a + b, id) == CountAuto(a, id) + CountAuto(b, id)
  {
    if b == [] {
      assert a + b == a;
    } else {
      var front, last := b[..|b| - 1], b[|b| - 1];
      assert a + b == (a + front) + [last];
      assert (a + b)[..|a + b| - 1] == a + front;
      CountAutoAppend(a, front, id);
    }
  }

  predicate NoAutoRevoke(es: seq<DomainEvent>) {
    forall i :: 0 <= i < |es| ==> es[i].eventType != GrantRevoked || !LooksAutomatic(es[i].payload)
  }

  predicate LooksAutomatic(payload: Json) {
    payload.Object? && |payload.entries| == 4 && payload.entries[2].key == "reason"
  }

  lemma {:induction false} NoAutoRevokeCounts(es: seq<DomainEvent>, id: Id)
    requires NoAutoRevoke(es)
    ensures CountAuto(es, id) == 0
  {
    if es != [] {
      NoAutoRevokeCounts(es[..|es| - 1], id);
    }
  }

  // ---------- the invariant ----------

  predicate UniqueIds(grants: seq<Grant>) {
    forall i, j :: 0 <= i < j < |grants| ==> grants[i].id != grants[j].id
  }

  /** One grant against its number of charges and of automatic revocations. */
  predicate Balanced(g: Grant, charges: nat, autoRevokes: nat) {
    && g.usesCount == charges
    && (g.maxUses.Some? ==> 1 <= g.maxUses.value && g.usesCount <= g.maxUses.value)
    && (g.active ==> HasUseLeft(g))
    && autoRevokes == (if g.maxUses == Some(g.usesCount) then 1 else 0)
  }

  /** The grant table against the history, counting one more unfinished transaction. */
  ghost predicate Accounted(grants: seq<Grant>, log: seq<Done>, charged: seq<Id>, events: seq<DomainEvent>) {
    && UniqueIds(grants)
    && forall g :: g in grants ==>
         Balanced(g, Charges(log, g.id) + CountId(charged, g.id), AutoRevokes(log, g.id) + CountAuto(events, g.id))
  }

  /** Ids nobody has drawn have no history. */
  ghost predicate FreshClean(log: seq<Done>, usedIds: set<Id>) {
    forall id :: id !in usedIds ==> Charges(log, id) == 0 && AutoRevokes(log, id) == 0
  }

  predicate PositiveCap(tx: Tx) {
    && (tx.TxCreateGrant? && tx.maxUses.Some? ==> tx.maxUses.value >= 1)
    && (tx.TxResolve? && tx.maxUses.Some? ==> tx.maxUses.value >= 1)
  }

  ghost predicate GrantInv(s: Sys) {
    && Accounted(s.tables.grants, s.log, [], [])
    && FreshClean(s.log, s.usedIds)
    && (forall g :: g in s.tables.grants ==> g.id in s.usedIds)
    && (forall n :: n in s.pending ==> PositiveCap(s.pending[n]))
  }

  // ---------- one charge ----------

  lemma BurnBalances(g: Grant, charges: nat, autoRevokes: nat)
    requires Balanced(g, charges, autoRevokes) && g.active
    ensures var b := Burn(g); Balanced(b, charges + 1, autoRevokes + (if b.active then 0 else 1))
  {
  }

  lemma CountOne(ids: seq<Id>, x: Id, id: Id)
    ensures CountId(ids + [x], id) == CountId(ids, id) + (if x == id then 1 else 0)
  {
  }

  lemma CountAutoOne(es: seq<DomainEvent>, orgId: Id, x: Id, now: nat, id: Id)
    ensures CountAuto(es + [AutoRevokeEvent(orgId, x, now)], id) == CountAuto(es, id) + (if x == id then 1 else 0)
  {
    var e := AutoRevokeEvent(orgId, x, now);
    assert (es + [e])[..|es|] == es;
    if IsAutoRevoke(e, id) {
      assert e.payload.entries[1] == AutoRevokePayload(orgId, id).entries[1];
    }
  }

  /** The grants `start` after the charges of a still running transaction. */
  ghost predicate Paid(start: seq<Grant>, log: seq<Done>, paid: Payment) {
    && Accounted(paid.grants, log, paid.charged, paid.events)
    && |paid.grants| == |start| && (forall i :: 0 <= i < |start| ==> paid.grants[i].id == start[i].id)
    && (forall x :: x in paid.charged ==> HasId(start, x))
    && (forall x :: !HasId(start, x) ==> CountAuto(paid.events, x) == 0)
  }

  predicate HasId(grants: seq<Grant>, id: Id) {
    exists i :: 0 <= i < |grants| && grants[i].id == id
  }

  /** Burning row `i` and booking the charge keeps the books. */
  lemma BurnAccounts(grants: seq<Grant>, i: nat, orgId: Id, now: nat, log: seq<Done>, charged: seq<Id>, events: seq<DomainEvent>)
    requires Accounted(grants, log, charged, events) && i < |grants| && grants[i].active
    ensures var b := Burn(grants[i]);
            Accounted(grants[i := b], log, charged + [b.id],
                      events + (if b.active then [] else [AutoRevokeEvent(orgId, b.id, now)]))
  {
    hide Charges, AutoRevokes, CountAuto, CountId, AutoRevokeEvent, Balanced;
    var g := grants[i];
    var b := Burn(g);
    var news := if b.active then [] else [AutoRevokeEvent(orgId, b.id, now)];
    assert g in grants;
    BurnBalances(g, Charges(log, g.id) + CountId(charged, g.id), AutoRevokes(log, g.id) + CountAuto(events, g.id));
    var after := grants[i := b];
    forall x | x in after
      ensures Balanced(x, Charges(log, x.id) + CountId(charged + [b.id], x.id),
                       AutoRevokes(log, x.id) + CountAuto(events + news, x.id))
    {
      var k :| 0 <= k < |after| && after[k] == x;
      CountOne(charged, b.id, x.id);
      if b.active { assert events + news == events; } else { CountAutoOne(events, orgId, b.id, now, x.id); }
      assert grants[k] in grants;
    }
  }

  /** A second charge on top of a first. */
  function Then(one: Payment, two: Payment): Payment {
    Payment(two.grants, one.charged + two.charged, one.events + two.events)
  }

  /** Charging through `consumeGrantInTx` keeps the books, whatever this transaction charged before. */
  lemma ConsumePays(start: seq<Grant>, log: seq<Done>, before: Payment, p: Principal, capability: string, rt: string,
                    rid: Option<Id>, now: nat)
    requires Paid(start, log, before)
    requires Consume(before.grants, p, capability, rt, rid, now).Some?
    ensures Paid(start, log, Then(before, Consume(before.grants, p, capability, rt, rid, now).value))
  {
    hide Accounted;
    var r := Consume(before.grants, p, capability, rt, rid, now).value;
    if capability in p.scopes {
      assert before.charged + [] == before.charged && before.events + [] == before.events;
    } else {
      var i := OldestUsable(before.grants, GrantQuery(p.orgId, p.actorId, capability, rt, rid, now)).value;
      BurnAccounts(before.grants, i, p.orgId, now, log, before.charged, before.events);
      var b := Burn(before.grants[i]);
      assert start[i].id == b.id;
      forall x | !HasId(start, x)
        ensures CountAuto(before.events + r.events, x) == 0
      {
        if b.active { assert before.events + r.events == before.events; }
        else { CountAutoOne(before.events, p.orgId, b.id, now, x); }
      }
    }
  }

  lemma NoPayment(grants: seq<Grant>, log: seq<Done>)
    requires Accounted(grants, log, [], [])
    ensures Paid(grants, log, Payment(grants, [], []))
  {
  }

  lemma OneCharge(grants: seq<Grant>, log: seq<Done>, p: Principal, capability: string, rt: string, rid: Option<Id>, now: nat)
    requires Accounted(grants, log, [], [])
    ensures var r := Consume(grants, p, capability, rt, rid, now); r.Some? ==> Paid(grants, log, r.value)
  {
    hide Accounted, Paid, Consume;
    var r := Consume(grants, p, capability, rt, rid, now);
    if r.Some? {
      NoPayment(grants, log);
      ConsumePays(grants, log, Payment(grants, [], []), p, capability, rt, rid, now);
      assert [] + r.value.charged == r.value.charged && [] + r.value.events == r.value.events;
    }
  }

  lemma TwoCharges(grants: seq<Grant>, log: seq<Done>, p: Principal, streamId: Id, streamType: StreamType,
                   parts: seq<MessagePart>, now: nat)
    requires Accounted(grants, log, [], [])
    ensures var r := PayForAppend(grants, p, streamId, streamType, parts, now); r.Ok? ==> Paid(grants, log, r.value)
  {
    hide Accounted, Paid, Consume, HasCommand;
    var rt := StreamTypeName(streamType);
    OneCharge(grants, log, p, "message:append", rt, Some(streamId), now);
    var r := PayForAppend(grants, p, streamId, streamType, parts, now);
    if r.Ok? && HasCommand(parts) {
      var one := Consume(grants, p, "message:append", rt, Some(streamId), now).value;
      ConsumePays(grants, log, one, p, "command:invoke", rt, Some(streamId), now);
    }
  }

  // ---------- transactions ----------

  ghost predicate Ready(t: Tables, log: seq<Done>, usedIds: set<Id>, id: Id) {
    && Accounted(t.grants, log, [], [])
    && FreshClean(log, usedIds)
    && (forall g :: g in t.grants ==> g.id in usedIds)
    && id !in usedIds
  }

  /** What a committed transaction may do to the grant table, seen from the books. */
  ghost predicate KeepsBooks(log: seq<Done>, usedIds: set<Id>, id: Id, r: Outcome) {
    r.Committed? ==>
      && Accounted(r.tables.grants, log, r.charged, r.events)
      && (forall g :: g in r.tables.grants ==> g.id in usedIds || g.id == id)
      && (forall x :: x in r.charged ==> x in usedIds)
      && (forall x :: x !in usedIds ==> CountAuto(r.events, x) == 0)
  }

  lemma SameCountsAccounted(grants: seq<Grant>, log: seq<Done>, charged: seq<Id>, events: seq<DomainEvent>, events': seq<DomainEvent>)
    requires Accounted(grants, log, charged, events) && forall x :: CountAuto(events', x) == CountAuto(events, x)
    ensures Accounted(grants, log, charged, events')
  {
    hide Balanced, Charges, AutoRevokes, CountId, CountAuto;
  }

  /** A paid transaction whose own events announce no automatic revocation keeps the books. */
  lemma PaidKeepsBooks(t: Tables, log: seq<Done>, usedIds: set<Id>, id: Id, paid: Payment, own: seq<DomainEvent>, r: Outcome)
    requires Ready(t, log, usedIds, id) && NoAutoRevoke(own)
    requires r.Committed? ==>
               && Paid(t.grants, log, paid)
               && r.tables.grants == paid.grants && r.charged == paid.charged
               && (r.events == own + paid.events || r.events == paid.events + own)
    ensures KeepsBooks(log, usedIds, id, r)
  {
    hide CountAuto, Accounted, FreshClean, NoAutoRevoke;
    if r.Committed? {
      forall x
        ensures CountAuto(r.events, x) == CountAuto(paid.events, x)
      {
        CountAutoAppend(own, paid.events, x);
        CountAutoAppend(paid.events, own, x);
        NoAutoRevokeCounts(own, x);
      }
      SameCountsAccounted(paid.grants, log, paid.charged, paid.events, r.events);
      forall g | g in r.tables.grants
        ensures g.id in usedIds
      {
        var i :| 0 <= i < |r.tables.grants| && r.tables.grants[i] == g;
        assert t.grants[i] in t.grants;
      }
      forall x | HasId(t.grants, x)
        ensures x in usedIds
      {
        var i :| 0 <= i < |t.grants| && t.grants[i].id == x;
        assert t.grants[i] in t.grants;
      }
    }
  }

  lemma {:induction false} MentionEventsQuiet(fields: seq<Entry>, p: Principal, streamId: Id, n: nat, parts: seq<MessagePart>, now: nat)
    ensures NoAutoRevoke(MentionEvents(fields, p, streamId, n, parts, now))
  {
    if parts != [] {
      MentionEventsQuiet(fields, p, streamId, n, parts[..|parts| - 1], now);
    }
  }

  lemma {:induction false} CommandEventsQuiet(fields: seq<Entry>, p: Principal, streamId: Id, n: nat, parts: seq<MessagePart>, now: nat)
    ensures NoAutoRevoke(CommandEvents(fields, p, streamId, n, parts, now))
  {
    if parts != [] {
      CommandEventsQuiet(fields, p, streamId, n, parts[..|parts| - 1], now);
    }
  }

  lemma PostQuiet(env: Env, p: Principal, m: Message, parts: seq<MessagePart>, now: nat)
    ensures NoAutoRevoke(PostEvents(env, p, m, parts, now))
  {
    hide MessageFields, MentionEvents, CommandEvents;
    var fields := MessageFields(p, m.streamId, m.streamType, m.id, m.streamSeq);
    MentionEventsQuiet(fields, p, m.streamId, m.streamSeq, parts, now);
    CommandEventsQuiet(fields, p, m.streamId, m.streamSeq, parts, now);
  }

  lemma NothingQuiet()
    ensures NoAutoRevoke([])
  {
  }

  lemma SingleQuiet(e: DomainEvent)
    requires e.eventType != GrantRevoked
    ensures NoAutoRevoke([e])
  {
  }

  lemma AppendKeepsBooks(env: Env, t: Tables, p: Principal, streamId: Id, streamType: StreamType, parts: seq<MessagePart>,
                         key: string, now: nat, id: Id, log: seq<Done>, usedIds: set<Id>)
    requires Ready(t, log, usedIds, id)
    ensures KeepsBooks(log, usedIds, id, AppendTx(env, t, p, streamId, streamType, parts, key, now, id))
  {
    hide AuditAll, Accounted, FreshClean, PayForAppend, PostEvents, PartRows, KeepsBooks, Paid, NoAutoRevoke;
    var r := AppendTx(env, t, p, streamId, streamType, parts, key, now, id);
    if FindByKey(t.messages, AppendKey(p.orgId, streamId, p.actorId, key)).Some? {
      assert NoAutoRevoke([]) by { NothingQuiet(); }
      UnpaidKeepsBooks(t, log, usedIds, id, [], r);
    } else {
      var m := NewMessage(t, p, streamId, streamType, key, now, id);
      TwoCharges(t.grants, log, p, streamId, streamType, parts, now);
      PostQuiet(env, p, m, parts, now);
      var paid := PayForAppend(t.grants, p, streamId, streamType, parts, now);
      PaidKeepsBooks(t, log, usedIds, id, if paid.Ok? then paid.value else Payment([], [], []), PostEvents(env, p, m, parts, now), r);
    }
  }

  /** Transactions that neither charge nor touch grants. */
  lemma UnpaidKeepsBooks(t: Tables, log: seq<Done>, usedIds: set<Id>, id: Id, own: seq<DomainEvent>, r: Outcome)
    requires Ready(t, log, usedIds, id) && NoAutoRevoke(own)
    requires r.Committed? ==> r.tables.grants == t.grants && r.charged == [] && r.events == own
    ensures KeepsBooks(log, usedIds, id, r)
  {
    hide Accounted, FreshClean, KeepsBooks;
    NoPayment(t.grants, log);
    assert own + [] == own;
    PaidKeepsBooks(t, log, usedIds, id, Payment(t.grants, [], []), own, r);
  }

  /** Grants may be deactivated, dropped, or joined by an unused one without a change in the books. */
  lemma EditedKeepsBooks(t: Tables, r: Outcome, log: seq<Done>, usedIds: set<Id>, id: Id)
    requires Ready(t, log, usedIds, id) && r.Committed?
    requires r.charged == [] && NoAutoRevoke(r.events) && UniqueIds(r.tables.grants)
    requires forall g :: g in r.tables.grants ==>
               || g in t.grants
               || (exists h :: h in t.grants && g == h.(active := false))
               || (g.id == id && g.usesCount == 0 && (g.maxUses.Some? ==> g.maxUses.value >= 1))
    ensures KeepsBooks(log, usedIds, id, r)
  {
    forall x
      ensures CountAuto(r.events, x) == 0
    {
      NoAutoRevokeCounts(r.events, x);
    }
  }

  lemma {:induction false} WhereKeepsUnique(grants: seq<Grant>, keep: Grant -> bool)
    requires UniqueIds(grants)
    ensures UniqueIds(Where(grants, keep))
  {
    if grants != [] {
      var front, last := grants[..|grants| - 1], grants[|grants| - 1];
      WhereKeepsUnique(front, keep);
      assert forall g :: g in front ==> g.id != last.id;
    }
  }

  lemma ReadyUnique(t: Tables, log: seq<Done>, usedIds: set<Id>, id: Id)
    requires Ready(t, log, usedIds, id)
    ensures UniqueIds(t.grants)
  {
  }

  lemma AddedKeepsBooks(t: Tables, g: Grant, r: Outcome, log: seq<Done>, usedIds: set<Id>, id: Id)
    requires Ready(t, log, usedIds, id) && r.Committed? && r.charged == [] && NoAutoRevoke(r.events)
    requires r.tables.grants == t.grants + [g]
    requires g.id == id && g.usesCount == 0 && (g.maxUses.Some? ==> g.maxUses.value >= 1)
    ensures KeepsBooks(log, usedIds, id, r)
  {
    hide Accounted, FreshClean;
    ReadyUnique(t, log, usedIds, id);
    assert forall i :: 0 <= i < |t.grants| ==> t.grants[i] in t.grants;
    EditedKeepsBooks(t, r, log, usedIds, id);
  }

  lemma CreateGrantKeepsBooks(env: Env, t: Tables, p: Principal, actorId: Id, rt: string, rid: Option<Id>, capability: string,
                              expiresAt: Option<nat>, maxUses: Option<nat>, now: nat, id: Id, log: seq<Done>, usedIds: set<Id>)
    requires Ready(t, log, usedIds, id) && (maxUses.Some? ==> maxUses.value >= 1)
    ensures KeepsBooks(log, usedIds, id, CreateGrantTx(env, t, p, actorId, rt, rid, capability, expiresAt, maxUses, now, id))
  {
    hide AuditAll, Ready, KeepsBooks, NoAutoRevoke;
    var g := Grant(id, p.orgId, actorId, rt, rid, capability, expiresAt, maxUses, 0, true, now);
    var e := GrantCreatedEvent(p, g, now);
    SingleQuiet(e);
    AddedKeepsBooks(t, g, CreateGrantTx(env, t, p, actorId, rt, rid, capability, expiresAt, maxUses, now, id), log, usedIds, id);
  }

  lemma RevokeEventsQuiet(p: Principal, ids: seq<Id>, actorId: Option<Id>, reason: string, now: nat)
    ensures NoAutoRevoke(RevokeEvents(p, ids, actorId, reason, now))
  {
  }

  lemma RevokeKeepsBooks(env: Env, t: Tables, p: Principal, ids: seq<Id>, actorId: Option<Id>, reason: string, now: nat, id: Id,
                         log: seq<Done>, usedIds: set<Id>)
    requires Ready(t, log, usedIds, id)
    ensures KeepsBooks(log, usedIds, id, RevokeGrantsTx(env, t, p, ids, actorId, reason, now))
  {
    hide AuditAll, Accounted, FreshClean, RevokeEvents, NoAutoRevoke;
    var r := RevokeGrantsTx(env, t, p, ids, actorId, reason, now);
    ReadyUnique(t, log, usedIds, id);
    RevokeEventsQuiet(p, ids, actorId, reason, now);
    forall g | g in r.tables.grants
      ensures g in t.grants || exists h :: h in t.grants && g == h.(active := false)
    {
      var i :| 0 <= i < |r.tables.grants| && r.tables.grants[i] == g;
      assert t.grants[i] in t.grants;
    }
    EditedKeepsBooks(t, r, log, usedIds, id);
  }

  lemma DeleteOrgKeepsBooks(env: Env, t: Tables, p: Principal, orgId: Id, streamIds: set<Id>, now: nat, id: Id,
                            log: seq<Done>, usedIds: set<Id>)
    requires Ready(t, log, usedIds, id)
    ensures KeepsBooks(log, usedIds, id, DeleteOrgTx(env, t, p, orgId, streamIds, now))
  {
    hide Accounted, FreshClean, DeletesAllowed, NoAutoRevoke;
    var r := DeleteOrgTx(env, t, p, orgId, streamIds, now);
    if r.Committed? {
      ReadyUnique(t, log, usedIds, id);
      WhereKeepsUnique(t.grants, GrantNotOf(orgId));
      SingleQuiet(OrgDeletedEvent(env, p, orgId, now));
      EditedKeepsBooks(t, r, log, usedIds, id);
    }
  }

  lemma CreateChannelKeepsBooks(env: Env, t: Tables, p: Principal, name: string, visibility: Visibility, now: nat, id: Id,
                                log: seq<Done>, usedIds: set<Id>)
    requires Ready(t, log, usedIds, id)
    ensures KeepsBooks(log, usedIds, id, CreateChannelTx(env, t, p, name, visibility, now, id))
  {
    hide AuditAll, Accounted, FreshClean, Consume, Paid, KeepsBooks;
    var c := Consume(t.grants, p, "channel:create", "org", Some(p.orgId), now);
    OneCharge(t.grants, log, p, "channel:create", "org", Some(p.orgId), now);
    PaidKeepsBooks(t, log, usedIds, id, if c.Some? then c.value else Payment([], [], []),
                   [ChannelCreatedEvent(p, id, name, visibility, now), OwnerEvent(p, id, now)],
                   CreateChannelTx(env, t, p, name, visibility, now, id));
  }

  lemma CreateThreadKeepsBooks(env: Env, t: Tables, p: Principal, channelId: Id, parentMessageId: Id, visibility: Visibility,
                               now: nat, id: Id, log: seq<Done>, usedIds: set<Id>)
    requires Ready(t, log, usedIds, id)
    ensures KeepsBooks(log, usedIds, id, CreateThreadTx(env, t, p, channelId, parentMessageId, visibility, now, id))
  {
    hide AuditAll, Accounted, FreshClean, Consume, Paid, KeepsBooks;
    var c := Consume(t.grants, p, "thread:create", "channel", Some(channelId), now);
    OneCharge(t.grants, log, p, "thread:create", "channel", Some(channelId), now);
    PaidKeepsBooks(t, log, usedIds, id, if c.Some? then c.value else Payment([], [], []),
                   [ThreadCreatedEvent(p, id, channelId, parentMessageId, visibility, now)],
                   CreateThreadTx(env, t, p, channelId, parentMessageId, visibility, now, id));
  }

  lemma ChoicePays(grants: seq<Grant>, log: seq<Done>, p: Principal, streamId: Id, streamType: StreamType, isAuthor: bool, now: nat)
    requires Accounted(grants, log, [], [])
    ensures var r := PayForRedact(grants, p, streamId, streamType, isAuthor, now); r.Some? ==> Paid(grants, log, r.value)
    ensures var r := PayForArtifact(grants, p, streamId, streamType, now); r.Some? ==> Paid(grants, log, r.value)
  {
    hide Accounted, Paid, Consume;
    var rt := StreamTypeName(streamType);
    NoPayment(grants, log);
    OneCharge(grants, log, p, "message:redact", rt, Some(streamId), now);
    OneCharge(grants, log, p, "artifact:register", rt, Some(streamId), now);
    OneCharge(grants, log, p, "message:append", rt, Some(streamId), now);
  }

  lemma RedactedQuiet(env: Env, p: Principal, messageId: Id, streamId: Id, reason: string, now: nat)
    ensures NoAutoRevoke([RedactedEvent(env, p, messageId, streamId, reason, now)])
  {
  }

  lemma RedactKeepsBooks(env: Env, t: Tables, p: Principal, messageId: Id, streamId: Id, streamType: StreamType, isAuthor: bool,
                         reason: string, now: nat, id: Id, log: seq<Done>, usedIds: set<Id>)
    requires Ready(t, log, usedIds, id)
    ensures KeepsBooks(log, usedIds, id, RedactTx(env, t, p, messageId, streamId, streamType, isAuthor, reason, now))
  {
    hide AuditAll, Accounted, FreshClean, Paid, KeepsBooks, MarkRedacted, Where, NoAutoRevoke, PayForRedact, RedactedEvent;
    var e := RedactedEvent(env, p, messageId, streamId, reason, now);
    RedactedQuiet(env, p, messageId, streamId, reason, now);
    var c := PayForRedact(t.grants, p, streamId, streamType, isAuthor, now);
    ChoicePays(t.grants, log, p, streamId, streamType, isAuthor, now);
    PaidKeepsBooks(t, log, usedIds, id, if c.Some? then c.value else Payment([], [], []), [e],
                   RedactTx(env, t, p, messageId, streamId, streamType, isAuthor, reason, now));
  }

  lemma RegisterArtifactKeepsBooks(env: Env, t: Tables, p: Principal, streamId: Id, streamType: StreamType, now: nat, id: Id,
                                   log: seq<Done>, usedIds: set<Id>)
    requires Ready(t, log, usedIds, id)
    ensures KeepsBooks(log, usedIds, id, RegisterArtifactTx(env, t, p, streamId, streamType, now, id))
  {
    hide AuditAll, Accounted, FreshClean, Paid, KeepsBooks, NoAutoRevoke, PayForArtifact;
    var e := ArtifactRegisteredEvent(p, id, streamId, streamType, now);
    SingleQuiet(e);
    var c := PayForArtifact(t.grants, p, streamId, streamType, now);
    ChoicePays(t.grants, log, p, streamId, streamType, true, now);
    PaidKeepsBooks(t, log, usedIds, id, if c.Some? then c.value else Payment([], [], []), [e],
                   RegisterArtifactTx(env, t, p, streamId, streamType, now, id));
  }

  lemma ResolveKeepsBooks(env: Env, t: Tables, p: Principal, requestId: Id, request: Request, approve: bool,
                          expiresAt: Option<nat>, maxUses: Option<nat>, now: nat, id: Id, log: seq<Done>, usedIds: set<Id>)
    requires Ready(t, log, usedIds, id) && (maxUses.Some? ==> maxUses.value >= 1)
    ensures KeepsBooks(log, usedIds, id, ResolveTx(env, t, p, requestId, request, approve, expiresAt, maxUses, now, id))
  {
    hide AuditAll, Ready, KeepsBooks, CommandIdOf, SetStatus, SetEnabled;
    var r := ResolveTx(env, t, p, requestId, request, approve, expiresAt, maxUses, now, id);
    if request.action == "command:register" || !approve {
      UnpaidKeepsBooks(t, log, usedIds, id, r.events, r);
    } else {
      var g := Grant(id, p.orgId, request.actorId, request.resourceType, request.resourceId, request.action, expiresAt, maxUses, 0, true, now);
      AddedKeepsBooks(t, g, r, log, usedIds, id);
    }
  }

  /** Transactions that neither touch grants nor announce a revocation. */
  predicate Quiet(tx: Tx) {
    || tx.TxCreateOrg? || tx.TxCreateActor? || tx.TxAddMember? || tx.TxRemoveMember? || tx.TxOpenRequest? || tx.TxDeleteArtifact?
    || tx.TxRegisterCommand? || tx.TxDeleteChannel? || tx.TxUpdateCursor? || tx.TxRegisterClient? || tx.TxOpenPluginRow?
  }

  predicate LeavesGrants(t: Tables, r: Outcome) {
    r.Committed? ==> r.tables.grants == t.grants && r.charged == [] && NoAutoRevoke(r.events)
  }

  lemma FoundingQuiet(env: Env, t: Tables, tx: Tx, now: nat, id: Id)
    requires tx.TxCreateOrg? || tx.TxCreateActor?
    ensures LeavesGrants(t, Commit(env, t, tx, now, id))
  {
    hide AuditAll, LooksAutomatic;
  }

  lemma MembershipQuiet(env: Env, t: Tables, tx: Tx, now: nat, id: Id)
    requires tx.TxAddMember? || tx.TxRemoveMember?
    ensures LeavesGrants(t, Commit(env, t, tx, now, id))
  {
    hide AuditAll, LooksAutomatic;
  }

  lemma RequestQuiet(env: Env, t: Tables, tx: Tx, now: nat, id: Id)
    requires tx.TxOpenRequest? || tx.TxRegisterCommand?
    ensures LeavesGrants(t, Commit(env, t, tx, now, id))
  {
    hide AuditAll, LooksAutomatic, CommandRequest;
  }

  lemma ArtifactQuiet(env: Env, t: Tables, tx: Tx, now: nat, id: Id)
    requires tx.TxDeleteArtifact? || tx.TxOpenPluginRow?
    ensures LeavesGrants(t, Commit(env, t, tx, now, id))
  {
    hide AuditAll, LooksAutomatic, MarkDeleted;
  }

  lemma ConsumerQuiet(env: Env, t: Tables, tx: Tx, now: nat, id: Id)
    requires tx.TxUpdateCursor? || tx.TxRegisterClient?
    ensures LeavesGrants(t, Commit(env, t, tx, now, id))
  {
    hide AuditAll, LooksAutomatic;
  }

  lemma DeleteChannelQuiet(env: Env, t: Tables, p: Principal, channelId: Id, now: nat)
    ensures LeavesGrants(t, DeleteChannelTx(env, t, p, channelId, now))
  {
    hide AuditAll, LooksAutomatic, Where, ChannelStreams, MessageIds, ForeignKeysHold, DisownArtifacts, MembersOutside,
         DisableCommands, ThreadsOutside, ChannelsOutside;
  }

  lemma QuietCommit(env: Env, t: Tables, tx: Tx, now: nat, id: Id)
    requires Quiet(tx)
    ensures LeavesGrants(t, Commit(env, t, tx, now, id))
  {
    hide Commit, LeavesGrants, DeleteChannelTx;
    match tx
    case TxCreateOrg(_) => FoundingQuiet(env, t, tx, now, id);
    case TxCreateActor(_) => FoundingQuiet(env, t, tx, now, id);
    case TxAddMember(_, _, _, _) => MembershipQuiet(env, t, tx, now, id);
    case TxRemoveMember(_, _, _) => MembershipQuiet(env, t, tx, now, id);
    case TxOpenRequest(_, _, _, _, _) => RequestQuiet(env, t, tx, now, id);
    case TxRegisterCommand(_, _, _) => RequestQuiet(env, t, tx, now, id);
    case TxDeleteArtifact(_, _, _, _) => ArtifactQuiet(env, t, tx, now, id);
    case TxOpenPluginRow(_) => ArtifactQuiet(env, t, tx, now, id);
    case TxDeleteChannel(p, c) =>
      CommitIsItsTx(env, t, tx, now, id);
      DeleteChannelQuiet(env, t, p, c, now);
    case _ => ConsumerQuiet(env, t, tx, now, id);
  }

  lemma CommitKeepsBooks(env: Env, t: Tables, tx: Tx, now: nat, id: Id, log: seq<Done>, usedIds: set<Id>)
    requires Ready(t, log, usedIds, id) && PositiveCap(tx)
    ensures KeepsBooks(log, usedIds, id, Commit(env, t, tx, now, id))
  {
    hide AuditAll, Accounted, FreshClean, KeepsBooks;
    hide AppendTx, RedactTx, CreateChannelTx, CreateThreadTx, ResolveTx, RegisterArtifactTx, DeleteOrgTx, RevokeGrantsTx;
    hide CreateOrgTx, CreateActorTx, AddMemberTx, RemoveMemberTx, OpenRequestTx, DeleteArtifactTx, RegisterCommandTx;
    hide DeleteChannelTx, CreateGrantTx, UpdateCursorTx, RegisterClientTx, OpenPluginRowTx;
    match tx
    case TxCreateChannel(p, name, visibility) => CreateChannelKeepsBooks(env, t, p, name, visibility, now, id, log, usedIds);
    case TxCreateThread(p, channelId, parent, visibility) =>
      CreateThreadKeepsBooks(env, t, p, channelId, parent, visibility, now, id, log, usedIds);
    case TxAppend(p, streamId, streamType, parts, key) =>
      AppendKeepsBooks(env, t, p, streamId, streamType, parts, key, now, id, log, usedIds);
    case TxRedact(p, messageId, streamId, streamType, isAuthor, reason) =>
      RedactKeepsBooks(env, t, p, messageId, streamId, streamType, isAuthor, reason, now, id, log, usedIds);
    case TxCreateGrant(p, actorId, rt, rid, capability, expiresAt, maxUses) =>
      CreateGrantKeepsBooks(env, t, p, actorId, rt, rid, capability, expiresAt, maxUses, now, id, log, usedIds);
    case TxRevokeGrants(p, ids, actorId, reason) => RevokeKeepsBooks(env, t, p, ids, actorId, reason, now, id, log, usedIds);
    case TxResolve(p, requestId, request, approve, expiresAt, maxUses) =>
      ResolveKeepsBooks(env, t, p, requestId, request, approve, expiresAt, maxUses, now, id, log, usedIds);
    case TxRegisterArtifact(p, streamId, streamType) =>
      RegisterArtifactKeepsBooks(env, t, p, streamId, streamType, now, id, log, usedIds);
    case TxDeleteOrg(p, orgId, streamIds) => DeleteOrgKeepsBooks(env, t, p, orgId, streamIds, now, id, log, usedIds);
    case _ =>
      var r := Commit(env, t, tx, now, id);
      QuietCommit(env, t, tx, now, id);
      UnpaidKeepsBooks(t, log, usedIds, id, if r.Committed? then r.events else [], r);
  }

  // ---------- runs ----------

  lemma LogOne(log: seq<Done>, d: Done, id: Id)
    ensures Charges(log + [d], id) == Charges(log, id) + CountId(d.charged, id)
    ensures AutoRevokes(log + [d], id) == AutoRevokes(log, id) + CountAuto(d.events, id)
  {
    assert (log + [d])[..|log|] == log;
  }

  lemma CheckedCapsPositive(t: Tables, call: Call, now: nat)
    ensures Check(t, call, now).Ok? ==> PositiveCap(Check(t, call, now).value)
  {
    hide KnownActor, MayResolve, Readable, PartsValid, HasGrant, AdministersChannel, FindById, OrgStreams, HasCommand;
  }

  lemma BookedInv(s: Sys, s': Sys, d: Done, id: Id)
    requires GrantInv(s) && id !in s.usedIds
    requires KeepsBooks(s.log, s.usedIds, id, Committed(s'.tables, d.events, d.charged, d.value))
    requires s'.log == s.log + [d] && s'.usedIds == s.usedIds + {id}
    requires forall n :: n in s'.pending ==> n in s.pending && s'.pending[n] == s.pending[n]
    ensures GrantInv(s')
  {
    forall x
      ensures Charges(s'.log, x) == Charges(s.log, x) + CountId(d.charged, x)
      ensures AutoRevokes(s'.log, x) == AutoRevokes(s.log, x) + CountAuto(d.events, x)
    {
      LogOne(s.log, d, x);
    }
  }

  lemma ExecKeepsGrantInv(env: Env, s: Sys, step: Step)
    requires GrantInv(s)
    ensures GrantInv(Exec(env, s, step))
  {
    hide Commit, Check, PositiveCap, DroppedStreams;
    match step
    case Begin(callNo, call, now) => CheckedCapsPositive(s.tables, call, now);
    case Finish(callNo, now, id) =>
      if callNo in s.pending && id !in s.usedIds {
        var tx := s.pending[callNo];
        CommitKeepsBooks(env, s.tables, tx, now, id, s.log, s.usedIds);
        var r := Commit(env, s.tables, tx, now, id);
        if r.Committed? {
          BookedInv(s, Exec(env, s, step), Done(tx, r.value, r.charged, r.events, DroppedStreams(s, tx)), id);
        }
      }
    case Abandon(callNo) =>
  }

  lemma {:induction false} RunKeepsGrantInv(env: Env, steps: seq<Step>)
    ensures GrantInv(Run(env, steps))
  {
    hide Exec, GrantInv;
    if steps == [] {
      StartGrantInv();
    } else {
      RunKeepsGrantInv(env, steps[..|steps| - 1]);
      ExecKeepsGrantInv(env, Run(env, steps[..|steps| - 1]), steps[|steps| - 1]);
    }
  }

  lemma StartGrantInv()
    ensures GrantInv(START)
  {
  }

  // ---------- main results ----------

  /** Main result: in every run a grant's counter is its number of committed charges, within its cap. */
  lemma GrantConservation(env: Env, steps: seq<Step>, g: Grant)
    requires g in Run(env, steps).tables.grants
    ensures g.usesCount == Charges(Run(env, steps).log, g.id)
    ensures g.maxUses.Some? ==> g.usesCount <= g.maxUses.value
  {
    hide Run;
    RunKeepsGrantInv(env, steps);
  }

  /** Main result: the last use is announced once, at the step that burns it, and never otherwise. */
  lemma AutoRevokeExactlyOnce(env: Env, steps: seq<Step>, g: Grant)
    requires g in Run(env, steps).tables.grants
    ensures AutoRevokes(Run(env, steps).log, g.id) == if g.maxUses == Some(g.usesCount) then 1 else 0
    ensures g.maxUses == Some(g.usesCount) ==> !g.active
  {
    hide Run;
    RunKeepsGrantInv(env, steps);
  }

  /** An append that does not post charges nothing: it aborts, or it replays an earlier message. */
  lemma OnlyPostsAreCharged(env: Env, t: Tables, p: Principal, streamId: Id, streamType: StreamType, parts: seq<MessagePart>,
                            key: string, now: nat, id: Id)
    ensures var r := AppendTx(env, t, p, streamId, streamType, parts, key, now, id);
            r.Committed? && r.value.idempotent ==> r.tables == t && r.charged == [] && r.events == []
    ensures var r := AppendTx(env, t, p, streamId, streamType, parts, key, now, id);
            r.Committed? && !r.value.idempotent ==>
              |r.charged| == (if "message:append" in p.scopes then 0 else 1)
                             + (if !HasCommand(parts) || "command:invoke" in p.scopes then 0 else 1)
  {
    hide AuditAll, PostEvents, PartRows;
  }

  /** Main result: in every reachable state the cheap check is exact, although it ignores the caps. */
  lemma CheapCheckIsExact(env: Env, steps: seq<Step>, orgId: Id, actorId: Id, capability: string, now: nat)
    ensures var grants := Run(env, steps).tables.grants;
            CheckGrant(grants, orgId, actorId, capability, now)
            <==> exists rt: string, rid: Option<Id> ::
                   AnyUsable(grants, GrantQuery(orgId, actorId, capability, rt, rid, now))
    ensures var grants := Run(env, steps).tables.grants;
            CheckGrant(grants, orgId, actorId, capability, now)
            <==> exists g :: g in grants && g.orgId == orgId && g.actorId == actorId && g.capability == capability && g.active
                             && (g.expiresAt.Some? ==> now < g.expiresAt.value)
                             && (g.maxUses.Some? ==> g.usesCount < g.maxUses.value)
  {
    hide Run;
    RunKeepsGrantInv(env, steps);
    var grants := Run(env, steps).tables.grants;
    if CheckGrant(grants, orgId, actorId, capability, now) {
      var i :| 0 <= i < |grants| && grants[i].orgId == orgId && grants[i].actorId == actorId
               && grants[i].capability == capability && grants[i].active && Unexpired(grants[i], now);
      assert grants[i] in grants;
      var q := GrantQuery(orgId, actorId, capability, grants[i].resourceType, grants[i].resourceId, now);
      assert Usable(grants[i], q);
      assert AnyUsable(grants, q);
    }
    forall g | g in grants && g.orgId == orgId && g.actorId == actorId && g.capability == capability && g.active
               && (g.expiresAt.Some? ==> now < g.expiresAt.value)
      ensures CheckGrant(grants, orgId, actorId, capability, now)
    {
      var i :| 0 <= i < |grants| && grants[i] == g;
    }
  }

  /** The WHERE clause of `listActorEffectiveGrants`. */
  function EffectiveFor(orgId: Id, actorId: Id, now: nat): Grant -> bool {
    (g: Grant) => g.orgId == orgId && g.actorId == actorId && g.active && Unexpired(g, now) && HasUseLeft(g)
  }

  function EffectiveGrants(grants: seq<Grant>, orgId: Id, actorId: Id, now: nat): seq<Grant> {
    Where(grants, EffectiveFor(orgId, actorId, now))
  }

  function RemainingUses(g: Grant): Option<int> {
    if g.maxUses == None then None
    else if g.usesCount <= g.maxUses.value then Some(g.maxUses.value - g.usesCount)
    else Some(0)
  }

  /**
   * Main result: in every reachable state the listing holds exactly the grants a charge could go to,
   * each with its cap less its committed charges still to spend, at least one.
   */
  lemma ListingIsExact(env: Env, steps: seq<Step>, g: Grant, orgId: Id, actorId: Id, now: nat)
    requires g in Run(env, steps).tables.grants
    ensures var s := Run(env, steps);
            var listed := g in EffectiveGrants(s.tables.grants, orgId, actorId, now);
            && (listed <==> Usable(g, GrantQuery(orgId, actorId, g.capability, g.resourceType, g.resourceId, now)))
            && (listed <==> g.orgId == orgId && g.actorId == actorId && g.active && (g.expiresAt.Some? ==> now < g.expiresAt.value))
            && (listed ==> g.maxUses.Some? ==> g.usesCount < g.maxUses.value)
            && (listed && g.maxUses.Some? ==>
                  RemainingUses(g) == Some(g.maxUses.value - Charges(s.log, g.id)) && RemainingUses(g).value > 0)
  {
    hide Run, Charges;
    RunKeepsGrantInv(env, steps);
  }
}
