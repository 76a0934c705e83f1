// The event log and the audit log against history: what is published is stored and audited, each as
// often as it was published, until its org, or for stored events its channel, is deleted.

module EventHistory {
  import opened Prelude
  import opened CanonicalJson
  import opened AuditChain
  import opened Tables
  import opened ServiceSpec
  import opened ServiceRuns
  import opened MessageLaws
  import opened AuditRuns
  import opened TableHistory

  // ---------- counting ----------

  /** Replays a count over a history. */
  function Tally<K>(rule: (Done, K, nat) -> nat, log: seq<Done>, k: K): nat {
    if log == [] then 0 else rule(log[|log| - 1], k, Tally(rule, log[..|log| - 1], k))
  }

  function Count<T(==)>(s: seq<T>, x: T): nat {
    if s == [] then 0 else Count(s[..|s| - 1], x) + (if s[|s| - 1] == x then 1 else 0)
  }

  lemma {:induction false} CountAppend<T>(a: seq<T>, b: seq<T>, x: T)
    ensures Count(a + b, x) == Count(a, x) + Count(b, x)
  {
    if b == [] {
      assert a + b == a;
    } else {
      assert (a + b)[..|a + b| - 1] == a + b[..|b| - 1];
      CountAppend(a, b[..|b| - 1], x);
    }
  }

  lemma {:induction false} CountWhere<T(!new)>(s: seq<T>, keep: T -> bool, x: T)
    ensures Count(Where(s, keep), x) == if keep(x) then Count(s, x) else 0
  {
    if s != [] {
      var front, last := s[..|s| - 1], s[|s| - 1];
      CountWhere(front, keep, x);
      CountAppend(Where(front, keep), if keep(last) then [last] else [], x);
      assert [last][..0] == [];
    }
  }

  // ---------- the rules ----------

  /** How often an event is stored: deleting a channel deletes its streams' events, deleting an org all of its own. */
  function StoredAfter(d: Done, e: DomainEvent, before: nat): nat {
    match d.tx
    case TxDeleteOrg(_, orgId, _) => if e.orgId == orgId then 0 else before
    case TxDeleteChannel(p, _) =>
      (if e.orgId == p.orgId && e.streamId.Some? && e.streamId.value in d.dropped then 0 else before) + Count(d.events, e)
    case _ => before + Count(d.events, e)
  }

  /** What an audit row says, its place in the chain aside. */
  datatype Record = Record(orgId: Id, eventType: string, payloadJson: string, createdAt: string)

  function RecordOf(env: Env, e: DomainEvent): Record {
    Record(e.orgId, TypeName(e.eventType), StableJson(env.keyOrder, e.payload), env.iso(e.createdAt))
  }

  function Records(env: Env, es: seq<DomainEvent>): (r: seq<Record>)
    ensures |r| == |es| && forall i :: 0 <= i < |es| ==> r[i] == RecordOf(env, es[i])
  {
    seq(|es|, i requires 0 <= i < |es| => RecordOf(env, es[i]))
  }

  function RecordOfRow(row: StoredRow): Record {
    Record(row.orgId, row.eventType, row.payloadJson, row.createdAt)
  }

  function RowRecords(rows: seq<StoredRow>): (r: seq<Record>)
    ensures |r| == |rows| && forall i :: 0 <= i < |rows| ==> r[i] == RecordOfRow(rows[i])
  {
    seq(|rows|, i requires 0 <= i < |rows| => RecordOfRow(rows[i]))
  }

  /** How often something is on record: only deleting its org takes it away. */
  function AuditedAfter(env: Env): (Done, Record, nat) -> nat {
    (d: Done, x: Record, before: nat) =>
      if d.tx.TxDeleteOrg? then (if x.orgId == d.tx.orgId then 0 else before) else before + Count(Records(env, d.events), x)
  }

  // ---------- one transaction ----------

  ghost predicate EventsFollow(t: Tables, t': Tables, d: Done) {
    forall e :: Count(t'.events, e) == StoredAfter(d, e, Count(t.events, e))
  }

  ghost predicate AuditFollows(env: Env, t: Tables, t': Tables, d: Done) {
    forall x :: Count(RowRecords(t'.audit), x) == AuditedAfter(env)(d, x, Count(RowRecords(t.audit), x))
  }

  lemma AuditEventRecords(env: Env, audit: seq<StoredRow>, e: DomainEvent)
    ensures RowRecords(AuditEvent(env, audit, e)) == RowRecords(audit) + [RecordOf(env, e)]
  {
    hide StableJson, OrgRows, Frame, TypeName;
    var row := AuditEvent(env, audit, e)[|audit|];
    assert AuditEvent(env, audit, e) == audit + [row];
    assert RecordOf(env, e) == Record(row.orgId, row.eventType, row.payloadJson, row.createdAt);
  }

  lemma {:induction false} AuditAllRecords(env: Env, audit: seq<StoredRow>, es: seq<DomainEvent>)
    ensures RowRecords(AuditAll(env, audit, es)) == RowRecords(audit) + Records(env, es)
  {
    hide AuditEvent, RecordOf;
    if es == [] {
      assert Records(env, es) == [];
    } else {
      var front, last := es[..|es| - 1], es[|es| - 1];
      AuditAllRecords(env, audit, front);
      AuditEventRecords(env, AuditAll(env, audit, front), last);
      assert Records(env, es) == Records(env, front) + [RecordOf(env, last)];
    }
  }

  lemma CountEitherWay<T>(a: seq<T>, b: seq<T>, x: T)
    ensures Count(a + b, x) == Count(b + a, x)
  {
    CountAppend(a, b, x);
    CountAppend(b, a, x);
  }

  lemma RecordsAppend(env: Env, a: seq<DomainEvent>, b: seq<DomainEvent>)
    ensures Records(env, a + b) == Records(env, a) + Records(env, b)
  {
  }

  lemma AddedFollows(env: Env, t: Tables, tx: Tx, r: Outcome, dropped: set<Id>)
    requires r.Committed? && Extended(env, t, KeptEvents(t, tx), r) && !tx.TxDeleteOrg?
    requires tx.TxDeleteChannel? ==> dropped == ChannelStreams(t, tx.p.orgId, tx.channelId)
    ensures EventsFollow(t, r.tables, Entered(tx, r, dropped)) && AuditFollows(env, t, r.tables, Entered(tx, r, dropped))
  {
    hide AuditAll, ChannelStreams, Count, RecordOf, Where;
    var kept := KeptEvents(t, tx);
    var a, b :| Adds(env, t, kept, r, a, b);
    forall e
      ensures Count(r.tables.events, e) == StoredAfter(Entered(tx, r, dropped), e, Count(t.events, e))
    {
      CountAppend(kept, a + b, e);
      CountEitherWay(a, b, e);
      if tx.TxDeleteChannel? { CountWhere(t.events, EventOutside(tx.p.orgId, dropped), e); }
    }
    AuditAllRecords(env, t.audit, a + b);
    RecordsAppend(env, a, b);
    RecordsAppend(env, b, a);
    forall x
      ensures Count(RowRecords(r.tables.audit), x) == Count(RowRecords(t.audit), x) + Count(Records(env, r.events), x)
    {
      CountAppend(RowRecords(t.audit), Records(env, a + b), x);
      CountEitherWay(Records(env, a), Records(env, b), x);
    }
  }

  lemma OneMoreRow(front: seq<StoredRow>, row: StoredRow, x: Record)
    ensures Count(RowRecords(front + [row]), x) == Count(RowRecords(front), x) + (if RecordOfRow(row) == x then 1 else 0)
  {
    assert RowRecords(front + [row]) == RowRecords(front) + [RecordOfRow(row)];
    assert (RowRecords(front) + [RecordOfRow(row)])[..|front|] == RowRecords(front);
  }

  lemma {:induction false} CountRowsWhere(rows: seq<StoredRow>, orgId: Id, x: Record)
    ensures Count(RowRecords(Where(rows, AuditNotOf(orgId))), x) == if x.orgId == orgId then 0 else Count(RowRecords(rows), x)
  {
    if rows == [] {
      assert RowRecords([]) == [];
    } else {
      var front, last := rows[..|rows| - 1], rows[|rows| - 1];
      assert rows == front + [last];
      CountRowsWhere(front, orgId, x);
      OneMoreRow(front, last, x);
      OneMoreRow(Where(front, AuditNotOf(orgId)), last, x);
      WhereSnoc(front, last, AuditNotOf(orgId));
      hide Count, RowRecords, Where;
      assert last.orgId == orgId ==> Where(rows, AuditNotOf(orgId)) == Where(front, AuditNotOf(orgId));
    }
  }

  lemma OrgDeletionFollows(env: Env, t: Tables, p: Principal, orgId: Id, streamIds: set<Id>, now: nat, dropped: set<Id>)
    ensures var r := DeleteOrgTx(env, t, p, orgId, streamIds, now);
            r.Committed? ==>
              && EventsFollow(t, r.tables, Entered(TxDeleteOrg(p, orgId, streamIds), r, dropped))
              && AuditFollows(env, t, r.tables, Entered(TxDeleteOrg(p, orgId, streamIds), r, dropped))
  {
    hide DeletesAllowed, OrgDeletedEvent, Where, ArtifactsNotOf, CommandsNotOf, ThreadsNotOf, ChannelsNotOf, MembersNotOf, RequestsNotOf,
         ActorsNotOf, CursorsNotOf, ClientsNotOf, OrgMessageIds, Count, Records, RowRecords;
    forall e
      ensures Count(Where(t.events, EventNotOf(orgId)), e) == if e.orgId == orgId then 0 else Count(t.events, e)
    {
      CountWhere(t.events, EventNotOf(orgId), e);
    }
    forall x
      ensures Count(RowRecords(Where(t.audit, AuditNotOf(orgId))), x) == if x.orgId == orgId then 0 else Count(RowRecords(t.audit), x)
    {
      CountRowsWhere(t.audit, orgId, x);
    }
  }

  /** Main result: a transaction stores and audits exactly what it publishes. */
  lemma CommitEventsFollow(env: Env, t: Tables, tx: Tx, now: nat, id: Id, dropped: set<Id>)
    requires tx.TxDeleteChannel? ==> dropped == ChannelStreams(t, tx.p.orgId, tx.channelId)
    ensures var r := Commit(env, t, tx, now, id);
            r.Committed? ==> EventsFollow(t, r.tables, Entered(tx, r, dropped)) && AuditFollows(env, t, r.tables, Entered(tx, r, dropped))
  {
    hide Commit, DeleteOrgTx, EventsFollow, AuditFollows, Extended, ChannelStreams, KeptEvents;
    CommitIsItsTx(env, t, tx, now, id);
    var r := Commit(env, t, tx, now, id);
    if tx.TxDeleteOrg? {
      OrgDeletionFollows(env, t, tx.p, tx.orgId, tx.streamIds, now, dropped);
    } else if r.Committed? {
      CommitExtends(env, t, tx, now, id);
      AddedFollows(env, t, tx, r, dropped);
    }
  }

  // ---------- runs ----------

  ghost predicate EventsTold(t: Tables, log: seq<Done>) {
    forall e :: Count(t.events, e) == Tally(StoredAfter, log, e)
  }

  ghost predicate AuditTold(env: Env, t: Tables, log: seq<Done>) {
    forall x :: Count(RowRecords(t.audit), x) == Tally(AuditedAfter(env), log, x)
  }

  lemma ToldNextEvents(env: Env, t: Tables, t': Tables, log: seq<Done>, d: Done)
    requires EventsTold(t, log) && EventsFollow(t, t', d) && AuditTold(env, t, log) && AuditFollows(env, t, t', d)
    ensures EventsTold(t', log + [d]) && AuditTold(env, t', log + [d])
  {
    hide Count, StoredAfter, AuditedAfter, RowRecords;
    assert (log + [d])[..|log|] == log;
    forall e
      ensures Count(t'.events, e) == Tally(StoredAfter, log + [d], e)
    {
      assert Count(t.events, e) == Tally(StoredAfter, log, e);
    }
    forall x
      ensures Count(RowRecords(t'.audit), x) == Tally(AuditedAfter(env), log + [d], x)
    {
      assert Count(RowRecords(t.audit), x) == Tally(AuditedAfter(env), log, x);
    }
  }

  lemma ExecTellsEvents(env: Env, s: Sys, step: Step)
    requires EventsTold(s.tables, s.log) && AuditTold(env, s.tables, s.log)
    ensures var s' := Exec(env, s, step); EventsTold(s'.tables, s'.log) && AuditTold(env, s'.tables, s'.log)
  {
    hide Check, Commit, EventsTold, AuditTold, EventsFollow, AuditFollows, ChannelStreams, NewStreams;
    if step.Finish? && step.callNo in s.pending && step.id !in s.usedIds {
      var tx := s.pending[step.callNo];
      var r := Commit(env, s.tables, tx, step.now, step.id);
      if r.Committed? {
        CommitEventsFollow(env, s.tables, tx, step.now, step.id, DroppedStreams(s, tx));
        ToldNextEvents(env, s.tables, r.tables, s.log, Entered(tx, r, DroppedStreams(s, tx)));
      }
    }
  }

  lemma StartTellsEvents(env: Env)
    ensures EventsTold(START.tables, START.log) && AuditTold(env, START.tables, START.log)
  {
    assert START.tables == EMPTY_TABLES && START.log == [];
    assert RowRecords([]) == [];
  }

  /**
   * Main result: in every run the event log and the audit log hold what was published, each event as
   * often as it was published; the audit log keeps it until its org is deleted.
   */
  lemma {:induction false} LogsAreHistory(env: Env, steps: seq<Step>)
    ensures var s := Run(env, steps); EventsTold(s.tables, s.log) && AuditTold(env, s.tables, s.log)
  {
    hide Exec, EventsTold, AuditTold;
    if steps == [] {
      StartTellsEvents(env);
    } else {
      var front := steps[..|steps| - 1];
      LogsAreHistory(env, front);
      ExecTellsEvents(env, Run(env, front), steps[|steps| - 1]);
    }
  }
}
