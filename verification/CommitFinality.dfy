// When a committed durable stream stays committed as the message it was first committed as.

module CommitFinality {
  import opened Prelude
  import opened AuditChain
  import opened Tables
  import opened ServiceSpec
  import opened ServiceRuns
  import opened Idempotency
  import opened DurableCommit
  import Cascades
  import Deletions
  import GrantLaws
  import MessageLaws
  import Source = SourceHistory
  import D = DurableChunks

  // ---------- history only grows ----------

  lemma HappenExtends(env: Env, c: Target, w: CommitState, e: Event)
    ensures var w' := Happen(env, c, w, e);
            |w.sys.log| <= |w'.sys.log| && w'.sys.log[..|w.sys.log|] == w.sys.log && (w.committedId.Some? ==> w'.committedId.Some?)
  {
    hide Exec, D.Next, Moves, IsCommitTx, PostCall;
    match e
    case CheckPost(no, now) =>
      if no in w.attempts && w.attempts[no].Reading? { ExecExtends(env, w.sys, Begin(no, PostCall(c, w.attempts[no].text), now)); }
    case PostCommit(no, now, id) => ExecExtends(env, w.sys, Finish(no, now, id));
    case CrashCommit(no) => ExecExtends(env, w.sys, Abandon(no));
    case Elsewhere(step) => ExecExtends(env, w.sys, step);
    case _ =>
  }

  lemma ExecExtends(env: Env, s: Sys, step: Step)
    ensures var s' := Exec(env, s, step); |s.log| <= |s'.log| && s'.log[..|s.log|] == s.log
  {
    hide Exec;
    ExecMoves(env, s, step);
  }

  lemma {:induction false} HistoryExtends(env: Env, c: Target, es: seq<Event>, more: seq<Event>)
    ensures var w, w' := History(env, c, es), History(env, c, es + more);
            |w.sys.log| <= |w'.sys.log| && w'.sys.log[..|w.sys.log|] == w.sys.log && (w.committedId.Some? ==> w'.committedId.Some?)
  {
    hide Happen;
    if more == [] {
      assert es + more == es;
    } else {
      var front := more[..|more| - 1];
      assert (es + more)[..|es + more| - 1] == es + front;
      HistoryExtends(env, c, es, front);
      HappenExtends(env, c, History(env, c, es + front), more[|more| - 1]);
    }
  }

  /** Main result: once set, `committed_message_id` never changes while the target stream stands. */
  lemma CommittedIdIsFinal(env: Env, c: Target, es: seq<Event>, more: seq<Event>)
    requires D.Plain(c.at.orgId) && D.Plain(c.at.streamId) && NoOverlaps(env, c, es) && NoOverlaps(env, c, es + more)
    requires History(env, c, es).committedId.Some? && TargetStands(c, History(env, c, es + more).sys.log)
    ensures History(env, c, es + more).committedId == History(env, c, es).committedId
  {
    hide History, NoOverlaps, D.Inv, IdemInv, Source.SourceInv, SysOk, AttemptOk, IsCommitTx, TargetStands;
    HistoryKeeps(env, c, es);
    HistoryKeeps(env, c, es + more);
    HistoryExtends(env, c, es, more);
    var w, w' := History(env, c, es), History(env, c, es + more);
    var i :| 0 <= i < |w.sys.log| && IsCommitTx(c, w.sys.log[i].tx) && IsAppend(w.sys.log[i])
             && w.sys.log[i].value.messageId == w.committedId.value;
    assert w'.sys.log[i] == w.sys.log[i];
    var j :| 0 <= j < |w'.sys.log| && IsCommitTx(c, w'.sys.log[j].tx) && IsAppend(w'.sys.log[j])
             && w'.sys.log[j].value.messageId == w'.committedId.value;
    if i < j {
      AnswersAgree(c, w'.sys, i, j);
    } else if j < i {
      AnswersAgree(c, w'.sys, j, i);
    }
  }

  /** With no other commit in flight the id is final whatever happens to the target: none can begin. */
  lemma {:induction false} CommittedAloneIsFinal(env: Env, c: Target, es: seq<Event>, more: seq<Event>)
    requires History(env, c, es).committedId.Some? && History(env, c, es).attempts == map[]
    ensures var w, w' := History(env, c, es), History(env, c, es + more); w'.committedId == w.committedId && w'.attempts == map[]
  {
    hide Exec, D.Next, Foreign;
    if more == [] {
      assert es + more == es;
    } else {
      var front := more[..|more| - 1];
      assert (es + more)[..|es + more| - 1] == es + front;
      CommittedAloneIsFinal(env, c, es, front);
    }
  }

  // ---------- where the target stands ----------

  /** The channel that the target is, or is a thread of; both belong to the commit's org. */
  predicate Homed(c: Target, t: Tables) {
    var info := ResolveStream(t, c.streamId, c.streamType);
    && info.Some? && info.value.orgId == c.p.orgId
    && info.value.channelId in t.channels && t.channels[info.value.channelId].orgId == c.p.orgId
  }

  function Home(c: Target, t: Tables): Id
    requires Homed(c, t)
  {
    ResolveStream(t, c.streamId, c.streamType).value.channelId
  }

  /** While no deletion took it, a target that was committed to is a stream of the org. */
  lemma TargetLives(c: Target, w: CommitState)
    requires CommitInv(c, w) && w.committedId.Some? && TargetStands(c, w.sys.log)
    ensures var info := ResolveStream(w.sys.tables, c.streamId, c.streamType); info.Some? && info.value.orgId == c.p.orgId
    ensures c.streamType == ChannelStream ==> Homed(c, w.sys.tables)
    ensures c.streamId != "" && w.committedId.value in w.sys.usedIds
  {
    hide D.Inv, AttemptOk, IsPrefixText, Deletions.KeyInv, UniqueKeys, Agreement, IsCommitTx, TargetStands;
    var s := w.sys;
    var i :| 0 <= i < |s.log| && IsCommitTx(c, s.log[i].tx) && IsAppend(s.log[i]) && s.log[i].value.messageId == w.committedId.value;
    assert TxOk(c, w.stream.log, s.log[i].tx);
    assert !DroppedBetween(s.log, i, |s.log|, c.streamId) by { NeverDropped(c, s.log, i); }
    assert Stored(s.tables.messages, s.log[i]);
    var m :| m in s.tables.messages && Answers(m, s.log[i]);
    MessageLives(c, w.stream.log, s, m);
  }

  lemma NeverDropped(c: Target, log: seq<Done>, i: nat)
    requires TargetStands(c, log)
    ensures !DroppedBetween(log, i, |log|, c.streamId)
  {
  }

  /** A message under the commit's key lies in the target, and that exists. */
  lemma MessageLives(c: Target, chunks: seq<string>, s: Sys, m: Message)
    requires Source.SourceInv(s) && MessageLaws.StreamInv(s) && SysOk(c, chunks, s) && TargetStands(c, s.log)
    requires m in s.tables.messages && KeyOf(m) == CommitIdentity(c)
    ensures Source.Lives(s.tables, c.streamId, c.streamType) && m.id in s.usedIds
    ensures var info := ResolveStream(s.tables, c.streamId, c.streamType); info.Some? && info.value.orgId == c.p.orgId
  {
    hide Source.PartsOf, Source.RedactedIn, IsPrefixText, Source.RedactionOk, Source.PendingOk, Source.DistinctPosts,
         MessageLaws.CheckedInOrg, CommitIdentity;
    assert Source.Sourced(s.log, s.tables.parts, m);
    var k :| 0 <= k < |s.log| && Source.Posted(s.log[k], m);
    assert Source.EntryOk(s.tables, s.log, s.usedIds, s.log[k]);
    assert IsCommitTx(c, s.log[k].tx) && TxOk(c, chunks, s.log[k].tx);
    assert Source.StreamKnown(s.tables, s.log, s.log[k].tx);
  }

  // ---------- all attempts have their answer ----------

  predicate AllLanded(w: CommitState) {
    forall no :: no in w.attempts ==> w.attempts[no].Landed?
  }

  predicate AllLandedAs(w: CommitState, id: Id) {
    w.committedId == Some(id) && forall no :: no in w.attempts ==> w.attempts[no] == Landed(id)
  }

  /** Then nothing can come of them but the id that is saved already. */
  lemma {:induction false} LandedIsFinal(env: Env, c: Target, es: seq<Event>, more: seq<Event>, id: Id)
    requires AllLandedAs(History(env, c, es), id)
    ensures AllLandedAs(History(env, c, es + more), id)
  {
    hide Exec, D.Next, Foreign;
    if more == [] {
      assert es + more == es;
    } else {
      var front := more[..|more| - 1];
      assert (es + more)[..|es + more| - 1] == es + front;
      LandedIsFinal(env, c, es, front, id);
    }
  }

  lemma LandedAgree(c: Target, w: CommitState)
    requires CommitInv(c, w) && w.committedId.Some? && TargetStands(c, w.sys.log) && AllLanded(w)
    ensures AllLandedAs(w, w.committedId.value)
  {
    hide D.Inv, SysOk, Source.SourceInv, Deletions.KeyInv, MessageLaws.StreamInv, UniqueKeys, Remembered, Agreement, TargetStands, IsCommitTx;
    forall no | no in w.attempts
      ensures w.attempts[no] == Landed(w.committedId.value)
    {
      assert AttemptOk(c, w, no, w.attempts[no]);
      SameAnswers(c, w.sys, w.attempts[no].messageId, w.committedId.value);
    }
  }

  lemma SameAnswers(c: Target, s: Sys, a: Id, b: Id)
    requires IdemInv(s) && TargetStands(c, s.log) && AnsweredWith(c, s.log, a) && AnsweredWith(c, s.log, b)
    ensures a == b
  {
    hide IdemInv, TargetStands, IsCommitTx;
    var i :| 0 <= i < |s.log| && IsCommitTx(c, s.log[i].tx) && IsAppend(s.log[i]) && s.log[i].value.messageId == a;
    var j :| 0 <= j < |s.log| && IsCommitTx(c, s.log[j].tx) && IsAppend(s.log[j]) && s.log[j].value.messageId == b;
    if i < j {
      AnswersAgree(c, s, i, j);
    } else if j < i {
      AnswersAgree(c, s, j, i);
    }
  }

  // ---------- a plugin row holds the target ----------

  /** Row `r` references the target's channel, which exists with the target. */
  predicate Held(c: Target, t: Tables, r: Id) {
    Homed(c, t) && r in t.plugins && t.plugins[r].channelId == Some(Home(c, t))
  }

  lemma HeldAgainstChannel(env: Env, c: Target, s: Sys, p: Principal, ch: Id, now: nat, r: Id)
    requires Cascades.OwnKeys(s.tables) && s.tables.channels.Keys !! s.tables.threads.Keys && Held(c, s.tables, r)
    requires (ch in s.tables.channels ==> s.tables.channels[ch].orgId == p.orgId) && ch !in s.tables.threads
    requires DeleteChannelTx(env, s.tables, p, ch, now).Committed?
    ensures c.streamId !in ChannelStreams(s.tables, p.orgId, ch)
  {
    hide DeleteChannelTx, Cascades.OwnKeys;
    Cascades.DeleteChannelCommitsIff(env, s.tables, p, ch, now);
    assert ch != Home(c, s.tables);
  }

  lemma HeldAgainstOrg(env: Env, c: Target, s: Sys, p: Principal, orgId: Id, streamIds: set<Id>, now: nat, r: Id)
    requires Cascades.OwnKeys(s.tables) && MessageLaws.StreamInv(s) && Held(c, s.tables, r)
    requires DeleteOrgTx(env, s.tables, p, orgId, streamIds, now).Committed?
    ensures c.streamId in s.streamOrg && s.streamOrg[c.streamId] != orgId
  {
    hide DeleteOrgTx, DeletesAllowed, MessageLaws.CheckedInOrg, Cascades.ActorsOk, Cascades.CommandsOk;
    var t := s.tables;
    assert Cascades.PluginOk(t.plugins[r], t.actors, t.channels);
    OrgCommitAllowed(env, t, p, orgId, streamIds, now);
    Cascades.DeleteOrgCommitsIff(t, orgId, streamIds);
    assert t.plugins[r].orgId == c.p.orgId != orgId;
  }

  lemma HeldIsNotDropped(env: Env, c: Target, s: Sys, tx: Tx, now: nat, id: Id, r: Id)
    requires Deletions.KeyInv(s) && MessageLaws.StreamInv(s) && s.tables.channels.Keys !! s.tables.threads.Keys
    requires Held(c, s.tables, r) && Deletions.KeysVouched(s.tables, s.usedIds, tx) && Commit(env, s.tables, tx, now, id).Committed?
    requires tx.TxDeleteChannel? ==> tx.channelId !in s.tables.threads
    ensures c.streamId !in DroppedStreams(s, tx)
  {
    hide Commit, DeleteChannelTx, DeleteOrgTx, MessageLaws.StreamInv, Cascades.OwnKeys, Held, ChannelStreams;
    if tx.TxDeleteChannel? {
      MessageLaws.CommitIsItsTx(env, s.tables, tx, now, id);
      HeldAgainstChannel(env, c, s, tx.p, tx.channelId, now, r);
    } else if tx.TxDeleteOrg? {
      MessageLaws.CommitIsItsTx(env, s.tables, tx, now, id);
      HeldAgainstOrg(env, c, s, tx.p, tx.orgId, tx.streamIds, now, r);
    }
  }

  lemma OrgCommitAllowed(env: Env, t: Tables, p: Principal, orgId: Id, streamIds: set<Id>, now: nat)
    requires DeleteOrgTx(env, t, p, orgId, streamIds, now).Committed?
    ensures DeletesAllowed(t, orgId, streamIds)
  {
    hide DeletesAllowed, AfterDeletes, OrgDeletedEvent;
  }

  /** A step keeps the row, the target and its channel. */
  lemma StepKeepsHeld(env: Env, c: Target, s: Sys, step: Step, r: Id)
    requires ServiceInv(s) && Held(c, s.tables, r) && TargetStands(c, s.log) && c.streamId in s.usedIds
    ensures var s' := Exec(env, s, step); Held(c, s'.tables, r) && TargetStands(c, s'.log) && c.streamId in s'.usedIds
  {
    hide Commit, Check, DroppedStreams, NewStreams, IdemInv, Source.SourceInv, Held, Deletions.KeysVouched, Cascades.OwnKeys,
         Deletions.OnlyNew;
    if step.Finish? && step.callNo in s.pending && step.id !in s.usedIds {
      var tx := s.pending[step.callNo];
      if Commit(env, s.tables, tx, step.now, step.id).Committed? {
        InvParts(s);
        PendingDeletion(s, step.callNo);
        HeldIsNotDropped(env, c, s, tx, step.now, step.id, r);
        CommitKeepsHeld(env, c, s, step.callNo, step.now, step.id, r);
      }
    }
  }

  lemma CommitKeepsHeld(env: Env, c: Target, s: Sys, callNo: nat, now: nat, id: Id, r: Id)
    requires ServiceInv(s) && Held(c, s.tables, r) && c.streamId in s.usedIds && callNo in s.pending && id !in s.usedIds
    requires Commit(env, s.tables, s.pending[callNo], now, id).Committed? && c.streamId !in DroppedStreams(s, s.pending[callNo])
    ensures Held(c, Commit(env, s.tables, s.pending[callNo], now, id).tables, r)
  {
    hide Commit, DroppedStreams, NewStreams, IdemInv, Source.SourceInv, Deletions.KeysVouched, Cascades.OwnKeys, Deletions.OnlyNew, Held;
    InvParts(s);
    var tx := s.pending[callNo];
    var s' := Exec(env, s, Finish(callNo, now, id));
    var d := s'.log[|s.log|];
    Deletions.CommitKeepsKeys(env, s.tables, s.usedIds, tx, now, id);
    assert Source.Finishes(env, s, s', d, callNo, now, id);
    Source.FinishKeeps(env, s, s', d, callNo, now, id);
    assert Source.Lives(s'.tables, c.streamId, c.streamType) by { HeldLives(c, s.tables, r); }
    assert r in s.usedIds by { HeldLives(c, s.tables, r); }
    HeldLater(c, s.tables, s'.tables, s.usedIds, id, r);
  }

  lemma HeldLives(c: Target, t: Tables, r: Id)
    requires Held(c, t, r)
    ensures Source.Lives(t, c.streamId, c.streamType) && r in t.plugins
  {
  }

  lemma HeldLater(c: Target, t: Tables, t': Tables, usedIds: set<Id>, id: Id, r: Id)
    requires Held(c, t, r) && Deletions.OnlyNew(t, t', id) && Cascades.OwnKeys(t) && Cascades.OwnKeys(t')
    requires r in usedIds && c.streamId in usedIds && id !in usedIds && Source.Lives(t', c.streamId, c.streamType)
    ensures Held(c, t', r)
  {
    hide Cascades.ActorsOk, Cascades.CommandsOk;
    assert Cascades.PluginOk(t.plugins[r], t.actors, t.channels);
    assert Cascades.PluginOk(t'.plugins[r], t'.actors, t'.channels);
  }

  lemma PendingDeletion(s: Sys, callNo: nat)
    requires Source.SourceInv(s) && callNo in s.pending
    ensures s.pending[callNo].TxDeleteChannel? ==> s.pending[callNo].channelId !in s.tables.threads
  {
    assert Source.PendingOk(s.tables, s.log, s.usedIds, s.pending[callNo]);
  }

  lemma InvParts(s: Sys)
    requires ServiceInv(s)
    ensures MessageLaws.StreamInv(s) && Source.SourceInv(s) && s.tables.channels.Keys !! s.tables.threads.Keys
  {
    hide MessageLaws.StreamInv, UniqueKeys, Remembered, Agreement, Deletions.KeyInv;
  }

  lemma {:induction false} HeldStays(env: Env, c: Target, es: seq<Event>, more: seq<Event>, r: Id)
    requires D.Plain(c.at.orgId) && D.Plain(c.at.streamId) && NoOverlaps(env, c, es + more)
    requires var s := History(env, c, es).sys; Held(c, s.tables, r) && TargetStands(c, s.log) && c.streamId in s.usedIds
    ensures var s := History(env, c, es + more).sys; Held(c, s.tables, r) && TargetStands(c, s.log) && c.streamId in s.usedIds
  {
    hide Happen, Held, TargetStands, CommitInv, Orderly;
    if more == [] {
      assert es + more == es;
    } else {
      var front := more[..|more| - 1];
      assert (es + more)[..|es + more| - 1] == es + front;
      HeldStays(env, c, es, front, r);
      HistoryKeeps(env, c, es + front);
      EventKeepsHeld(env, c, History(env, c, es + front), more[|more| - 1], r);
    }
  }

  lemma EventKeepsHeld(env: Env, c: Target, w: CommitState, e: Event, r: Id)
    requires CommitInv(c, w) && Held(c, w.sys.tables, r) && TargetStands(c, w.sys.log) && c.streamId in w.sys.usedIds
    ensures var s := Happen(env, c, w, e).sys; Held(c, s.tables, r) && TargetStands(c, s.log) && c.streamId in s.usedIds
  {
    hide Exec, D.Next, Held, TargetStands, D.Inv, ServiceInv, SysOk, AttemptOk, AnsweredWith, PostCall;
    match e
    case CheckPost(no, now) =>
      if no in w.attempts && w.attempts[no].Reading? { StepKeepsHeld(env, c, w.sys, Begin(no, PostCall(c, w.attempts[no].text), now), r); }
    case PostCommit(no, now, id) => StepKeepsHeld(env, c, w.sys, Finish(no, now, id), r);
    case CrashCommit(no) => StepKeepsHeld(env, c, w.sys, Abandon(no), r);
    case Elsewhere(step) => StepKeepsHeld(env, c, w.sys, step, r);
    case _ =>
  }

  // ---------- continuations ----------

  lemma HistorySnoc(env: Env, c: Target, es: seq<Event>, e: Event)
    ensures History(env, c, es + [e]) == Happen(env, c, History(env, c, es), e)
  {
    hide Happen;
    assert (es + [e])[..|es|] == es;
  }

  lemma HistoryTwo(env: Env, c: Target, es: seq<Event>, a: Event, b: Event)
    ensures History(env, c, es + [a, b]) == Happen(env, c, Happen(env, c, History(env, c, es), a), b)
  {
    hide Happen, History;
    assert es + [a, b] == (es + [a]) + [b];
    HistorySnoc(env, c, es, a);
    HistorySnoc(env, c, es + [a], b);
  }

  /** Events that leave the chunks alone. */
  predicate NoChunks(es: seq<Event>) {
    forall i :: 0 <= i < |es| ==> !es[i].Chunks?
  }

  lemma {:induction false} NoChunksNoOverlaps(env: Env, c: Target, es: seq<Event>, more: seq<Event>)
    requires NoOverlaps(env, c, es) && NoChunks(more)
    ensures NoOverlaps(env, c, es + more)
  {
    hide History;
    if more == [] {
      assert es + more == es;
    } else {
      var front := more[..|more| - 1];
      assert (es + more)[..|es + more| - 1] == es + front;
      NoChunksNoOverlaps(env, c, es, front);
    }
  }

  lemma {:induction false} BoundNumbers(s: set<nat>) returns (b: nat)
    ensures forall x :: x in s ==> x < b
  {
    if s == {} {
      b := 0;
    } else {
      var x :| x in s;
      b := BoundNumbers(s - {x});
      b := if b <= x then x + 1 else b;
      assert forall y :: y in s ==> y == x || y in s - {x};
    }
  }

  lemma {:induction false} BoundLengths(s: set<Id>) returns (b: nat)
    ensures forall x :: x in s ==> |x| < b
  {
    if s == {} {
      b := 0;
    } else {
      var x :| x in s;
      b := BoundLengths(s - {x});
      b := if b <= |x| then |x| + 1 else b;
      assert forall y :: y in s ==> y == x || y in s - {x};
    }
  }

  lemma FreshId(s: set<Id>) returns (id: Id)
    ensures id !in s
  {
    var b := BoundLengths(s);
    id := seq(b, i => 'x');
  }

  lemma FreshNumber(s: set<nat>) returns (n: nat)
    ensures n !in s
  {
    n := BoundNumbers(s);
  }

  /** The commit's own calls are where they were. */
  predicate SameFlight(w: CommitState, w': CommitState) {
    && w'.stream == w.stream && w'.committedId == w.committedId && w'.attempts == w.attempts
    && w'.sys.pending == w.sys.pending && w.sys.usedIds <= w'.sys.usedIds
  }

  /** Somebody makes a call, from check to transaction, between two steps of the commit. */
  lemma CallElsewhere(env: Env, c: Target, es: seq<Event>, call: Call) returns (more: seq<Event>, id: Id)
    requires var s := History(env, c, es).sys;
             && Check(s.tables, call, 0).Ok? && !call.AppendMessage?
             && forall id :: id !in s.usedIds ==> Commit(env, s.tables, Check(s.tables, call, 0).value, 0, id).Committed?
    ensures NoChunks(more) && id !in History(env, c, es).sys.usedIds
    ensures var w, w' := History(env, c, es), History(env, c, es + more);
            && SameFlight(w, w')
            && w'.sys.tables == Commit(env, w.sys.tables, Check(w.sys.tables, call, 0).value, 0, id).tables
  {
    hide History, Check, Commit, NewStreams, DroppedStreams;
    var w := History(env, c, es);
    var n := FreshNumber(w.attempts.Keys + w.sys.pending.Keys);
    id := FreshId(w.sys.usedIds);
    more := [Elsewhere(Begin(n, call, 0)), Elsewhere(Finish(n, 0, id))];
    HistoryTwo(env, c, es, more[0], more[1]);
    assert w.sys.pending[n := Check(w.sys.tables, call, 0).value] - {n} == w.sys.pending;
  }

  /** The committing actor with all rights over channels and grants; scopes come with a principal. */
  function Admin(c: Target): Principal {
    Principal(c.p.actorId, c.p.orgId, {"channel:admin", "grant:create"})
  }

  /** The charge of the commit's append can be paid. */
  predicate Payable(c: Target, grants: seq<Grant>) {
    MayUse(grants, c.p, "message:append", StreamTypeName(c.streamType), Some(c.streamId), 0)
  }

  lemma MoreGrantsPayable(c: Target, grants: seq<Grant>, id: Id)
    ensures var g := Grant(id, c.p.orgId, c.p.actorId, StreamTypeName(c.streamType), Some(c.streamId), "message:append", None, None, 0,
                           true, 0);
            Payable(c, grants + [g])
  {
    var g := Grant(id, c.p.orgId, c.p.actorId, StreamTypeName(c.streamType), Some(c.streamId), "message:append", None, None, 0, true, 0);
    assert (grants + [g])[|grants|] == g;
    assert Usable(g, GrantQuery(c.p.orgId, c.p.actorId, "message:append", StreamTypeName(c.streamType), Some(c.streamId), 0));
  }

  function GrantCall(c: Target): Call {
    CreateGrant(Admin(c), c.p.actorId, StreamTypeName(c.streamType), Some(c.streamId), "message:append", None, None)
  }

  lemma GrantChecks(c: Target, t: Tables)
    requires KnownActor(t, c.p) && c.p.actorId != ""
    ensures Check(t, GrantCall(c), 0)
            == Ok(TxCreateGrant(Admin(c), c.p.actorId, StreamTypeName(c.streamType), Some(c.streamId), "message:append", None, None))
  {
    hide AnyUsable;
    assert |StreamTypeName(c.streamType)| > 0;
  }

  lemma GrantLands(env: Env, c: Target, t: Tables, id: Id)
    ensures var r := CreateGrantTx(env, t, Admin(c), c.p.actorId, StreamTypeName(c.streamType), Some(c.streamId), "message:append", None,
                                   None, 0, id);
            && r.Committed? && Payable(c, r.tables.grants) && Deletions.SameKeys(t, r.tables) && r.tables.messages == t.messages
  {
    hide AuditAll, GrantCreatedEvent, MayUse;
    MoreGrantsPayable(c, t.grants, id);
  }

  /** Somebody grants the committing actor the append. */
  lemma GetsGrant(env: Env, c: Target, es: seq<Event>) returns (more: seq<Event>)
    requires KnownActor(History(env, c, es).sys.tables, c.p) && c.p.actorId != ""
    ensures NoChunks(more)
    ensures var w, w' := History(env, c, es), History(env, c, es + more);
            && SameFlight(w, w') && Payable(c, w'.sys.tables.grants)
            && Deletions.SameKeys(w.sys.tables, w'.sys.tables) && w'.sys.tables.messages == w.sys.tables.messages
  {
    hide History, Check, CreateGrantTx, MayUse;
    var t := History(env, c, es).sys.tables;
    GrantChecks(c, t);
    forall id
      ensures Commit(env, t, Check(t, GrantCall(c), 0).value, 0, id).Committed?
    {
      GrantLands(env, c, t, id);
    }
    var id: Id;
    more, id := CallElsewhere(env, c, es, GrantCall(c));
    GrantLands(env, c, t, id);
  }

  predicate Joined(c: Target, t: Tables)
    requires Homed(c, t)
  {
    IsMember(t, c.p.orgId, c.p.actorId, Home(c, t))
  }

  lemma JoinLands(env: Env, c: Target, t: Tables)
    requires Homed(c, t) && KnownActor(t, c.p)
    ensures Check(t, AddChannelMember(Admin(c), Home(c, t), c.p.actorId, "member"), 0)
            == Ok(TxAddMember(Admin(c), Home(c, t), c.p.actorId, "member"))
    ensures var r := AddMemberTx(env, t, Admin(c), Home(c, t), c.p.actorId, "member", 0);
            && r.Committed? && r.tables.grants == t.grants && Deletions.SameKeys(t, r.tables) && r.tables.messages == t.messages
            && Homed(c, r.tables) && Joined(c, r.tables)
  {
    hide AuditAll, MemberAddedEvent, HasGrant;
  }

  /** Somebody makes the committing actor a member. */
  lemma Joins(env: Env, c: Target, es: seq<Event>) returns (more: seq<Event>)
    requires var t := History(env, c, es).sys.tables; Homed(c, t) && KnownActor(t, c.p)
    ensures NoChunks(more)
    ensures var w, w' := History(env, c, es), History(env, c, es + more);
            && SameFlight(w, w') && w'.sys.tables.grants == w.sys.tables.grants && Deletions.SameKeys(w.sys.tables, w'.sys.tables)
            && w'.sys.tables.messages == w.sys.tables.messages && Homed(c, w'.sys.tables) && Joined(c, w'.sys.tables)
  {
    hide History, Check, AddMemberTx, Homed, Home, Joined;
    var t := History(env, c, es).sys.tables;
    JoinLands(env, c, t);
    var id: Id;
    more, id := CallElsewhere(env, c, es, AddChannelMember(Admin(c), Home(c, t), c.p.actorId, "member"));
  }

  // ---------- an attempt that is still reading ----------

  /** Reading on to the last chunk. */
  lemma {:induction false} ReadsOn(env: Env, c: Target, es: seq<Event>, no: nat) returns (more: seq<Event>)
    requires var w := History(env, c, es); no in w.attempts && w.attempts[no].Reading? && w.attempts[no].next <= w.attempts[no].total + 1
    ensures NoChunks(more)
    ensures var w, w' := History(env, c, es), History(env, c, es + more);
            && w'.stream == w.stream && w'.committedId == w.committedId && w'.sys == w.sys
            && no in w'.attempts && w'.attempts[no].Reading? && w'.attempts[no].next > w'.attempts[no].total
    decreases var a := History(env, c, es).attempts[no]; a.total + 1 - a.next
  {
    hide History, D.Key;
    var a := History(env, c, es).attempts[no];
    if a.next > a.total {
      more := [];
      assert es + more == es;
    } else {
      HistorySnoc(env, c, es, ReadChunk(no));
      var rest := ReadsOn(env, c, es + [ReadChunk(no)], no);
      more := [ReadChunk(no)] + rest;
      assert es + more == (es + [ReadChunk(no)]) + rest;
    }
  }

  /** A member with a grant may post the text. */
  lemma PostChecks(c: Target, t: Tables, text: string)
    requires Homed(c, t) && Joined(c, t) && KnownActor(t, c.p) && Payable(c, t.grants) && c.streamId != ""
    ensures Check(t, PostCall(c, text), 0) == Ok(TxAppend(c.p, c.streamId, c.streamType, [TextPart(text)], CommitKey(c)))
  {
    hide AnyUsable;
    assert [TextPart(text)][0].TextPart?;
    assert CommitKey(c)[0] == 'd';
  }

  /** The check passes, and the attempt waits for its transaction. */
  lemma Checks(env: Env, c: Target, es: seq<Event>, no: nat)
    requires var w := History(env, c, es);
             && no in w.attempts && w.attempts[no].Reading? && w.attempts[no].next > w.attempts[no].total && no !in w.sys.pending
             && Homed(c, w.sys.tables) && Joined(c, w.sys.tables) && KnownActor(w.sys.tables, c.p) && Payable(c, w.sys.tables.grants)
             && c.streamId != ""
    ensures var w, w' := History(env, c, es), History(env, c, es + [CheckPost(no, 0)]);
            && w'.stream == w.stream && w'.committedId == w.committedId && w'.sys.tables == w.sys.tables
            && w'.sys.log == w.sys.log && no in w'.attempts && w'.attempts[no] == Checked
  {
    hide History, Check, Homed, Joined, Payable, PostCall;
    var w := History(env, c, es);
    PostChecks(c, w.sys.tables, w.attempts[no].text);
    HistorySnoc(env, c, es, CheckPost(no, 0));
  }

  // ---------- the target goes, and the attempt lands ----------

  lemma TargetGone(env: Env, c: Target, t: Tables)
    requires Homed(c, t) && KnownActor(t, c.p) && Cascades.OwnKeys(t) && Cascades.Unbound(t.plugins, Home(c, t))
    ensures Check(t, DeleteChannel(Admin(c), Home(c, t)), 0) == Ok(TxDeleteChannel(Admin(c), Home(c, t)))
    ensures var r := DeleteChannelTx(env, t, Admin(c), Home(c, t), 0);
            r.Committed? && r.tables.grants == t.grants && forall m :: m in r.tables.messages ==> KeyOf(m) != CommitIdentity(c)
  {
    hide Cascades.OwnKeys, DeleteChannelTx, Cascades.Unbound, HasGrant, CommitKey;
    Cascades.DeleteChannelCommitsIff(env, t, Admin(c), Home(c, t), 0);
    MessageLaws.DeleteChannelEffect(env, t, Admin(c), Home(c, t), 0);
    GrantLaws.DeleteChannelQuiet(env, t, Admin(c), Home(c, t), 0);
    assert c.streamId in ChannelStreams(t, c.p.orgId, Home(c, t));
  }

  /** Somebody deletes the target's channel. */
  lemma TargetGoes(env: Env, c: Target, es: seq<Event>) returns (more: seq<Event>)
    requires var t := History(env, c, es).sys.tables;
             Homed(c, t) && KnownActor(t, c.p) && Cascades.OwnKeys(t) && Cascades.Unbound(t.plugins, Home(c, t))
    ensures NoChunks(more)
    ensures var w, w' := History(env, c, es), History(env, c, es + more);
            && SameFlight(w, w') && w'.sys.tables.grants == w.sys.tables.grants
            && forall m :: m in w'.sys.tables.messages ==> KeyOf(m) != CommitIdentity(c)
  {
    hide History, Check, Commit, DeleteChannelTx, Homed, Home, Cascades.OwnKeys, Cascades.Unbound, CommitIdentity;
    var t := History(env, c, es).sys.tables;
    TargetGone(env, c, t);
    forall id
      ensures Commit(env, t, TxDeleteChannel(Admin(c), Home(c, t)), 0, id) == DeleteChannelTx(env, t, Admin(c), Home(c, t), 0)
    {
      MessageLaws.CommitIsItsTx(env, t, TxDeleteChannel(Admin(c), Home(c, t)), 0, id);
    }
    var id: Id;
    more, id := CallElsewhere(env, c, es, DeleteChannel(Admin(c), Home(c, t)));
  }

  lemma PaysForCommit(c: Target, grants: seq<Grant>, parts: seq<MessagePart>)
    requires !HasCommand(parts) && Payable(c, grants)
    ensures PayForAppend(grants, c.p, c.streamId, c.streamType, parts, 0).Ok?
  {
    hide HasCommand, AnyUsable, Burn;
  }

  lemma NewPostCommits(env: Env, t: Tables, p: Principal, streamId: Id, streamType: StreamType, parts: seq<MessagePart>, key: string,
                       now: nat, id: Id)
    requires PayForAppend(t.grants, p, streamId, streamType, parts, now).Ok?
    requires FindByKey(t.messages, AppendKey(p.orgId, streamId, p.actorId, key)).None?
    ensures AppendTx(env, t, p, streamId, streamType, parts, key, now, id).Committed?
  {
    hide AuditAll, PayForAppend, PostEvents, PartRows;
  }

  /** With nothing stored under its key, a payable commit posts a new message. */
  lemma CommitLands(env: Env, c: Target, t: Tables, tx: Tx, id: Id)
    requires tx.TxAppend? && AsCommitted(c, tx) && !HasCommand(tx.parts) && Payable(c, t.grants)
    requires forall m :: m in t.messages ==> KeyOf(m) != CommitIdentity(c)
    ensures var r := Commit(env, t, tx, 0, id);
            && r.Committed? && r.value.Appended? && r.value.messageId == id && Deletions.SameKeys(t, r.tables)
            && r.tables.messages == t.messages + [NewMessage(t, c.p, c.streamId, c.streamType, CommitKey(c), 0, id)]
  {
    hide Commit, AppendTx, HasCommand, CommitKey, Payable, Deletions.SameKeys, PayForAppend;
    PaysForCommit(c, t.grants, tx.parts);
    MessageLaws.CommitIsItsTx(env, t, tx, 0, id);
    NewPostCommits(env, t, tx.p, tx.streamId, tx.streamType, tx.parts, tx.key, 0, id);
    MessageLaws.AppendEffect(env, t, tx.p, tx.streamId, tx.streamType, tx.parts, tx.key, 0, id);
    Deletions.AppendOffKeys(env, t, tx.p, tx.streamId, tx.streamType, tx.parts, tx.key, 0, id);
  }

  /** An attempt posts and saves its answer. */
  lemma PostAndSave(env: Env, c: Target, es: seq<Event>, no: nat, id: Id)
    requires var w := History(env, c, es);
             && no in w.attempts && w.attempts[no] == Checked && no in w.sys.pending && w.sys.pending[no].TxAppend?
             && AsCommitted(c, w.sys.pending[no]) && !HasCommand(w.sys.pending[no].parts) && Payable(c, w.sys.tables.grants)
             && id !in w.sys.usedIds && forall m :: m in w.sys.tables.messages ==> KeyOf(m) != CommitIdentity(c)
    ensures var w, w' := History(env, c, es), History(env, c, es + [PostCommit(no, 0, id), SaveCommit(no)]);
            && w'.committedId == Some(id) && w'.attempts == w.attempts - {no} && w'.sys.pending == w.sys.pending - {no}
            && w'.sys.usedIds == w.sys.usedIds + {id}
            && w'.sys.tables == Commit(env, w.sys.tables, w.sys.pending[no], 0, id).tables
  {
    hide History, Commit, D.Next, NewStreams, DroppedStreams, AsCommitted, HasCommand, Payable, CommitIdentity;
    HistoryTwo(env, c, es, PostCommit(no, 0, id), SaveCommit(no));
    CommitLands(env, c, History(env, c, es).sys.tables, History(env, c, es).sys.pending[no], id);
  }

  // ---------- exactly when the committed id is final ----------

  /** The target can be deleted: its channel exists and no plugin row holds it; the committing actor is still there. */
  ghost predicate Deletable(c: Target, t: Tables) {
    Homed(c, t) && KnownActor(t, c.p) && Cascades.Unbound(t.plugins, Home(c, t))
  }

  lemma SameKeysDeletable(c: Target, t: Tables, t': Tables)
    requires Deletable(c, t) && Deletions.SameKeys(t, t')
    ensures Deletable(c, t')
  {
  }

  /** Whatever still reads can be brought to its transaction, with the charge payable. */
  lemma GetsReady(env: Env, c: Target, es: seq<Event>, no: nat) returns (more: seq<Event>)
    requires var w := History(env, c, es);
             && no in w.attempts && !w.attempts[no].Landed? && AttemptOk(c, w, no, w.attempts[no])
             && Deletable(c, w.sys.tables) && c.p.actorId != "" && c.streamId != ""
    ensures NoChunks(more)
    ensures var w, w' := History(env, c, es), History(env, c, es + more);
            && w'.committedId == w.committedId && no in w'.attempts && w'.attempts[no] == Checked
            && Deletable(c, w'.sys.tables) && Payable(c, w'.sys.tables.grants)
  {
    hide History, Deletable, Homed, Home, Joined, Payable, IsCommitTx, AnsweredWith, Deletions.SameKeys;
    DeletableParts(c, History(env, c, es).sys.tables);
    var granted := GetsGrant(env, c, es);
    var es1 := es + granted;
    SameKeysDeletable(c, History(env, c, es).sys.tables, History(env, c, es1).sys.tables);
    if History(env, c, es).attempts[no] == Checked {
      more := granted;
    } else {
      DeletableParts(c, History(env, c, es1).sys.tables);
      var joined := Joins(env, c, es1);
      var es2 := es1 + joined;
      SameKeysDeletable(c, History(env, c, es1).sys.tables, History(env, c, es2).sys.tables);
      DeletableParts(c, History(env, c, es2).sys.tables);
      var read := ReadsOn(env, c, es2, no);
      Checks(env, c, es2 + read, no);
      more := granted + joined + read + [CheckPost(no, 0)];
      assert es + more == (es2 + read) + [CheckPost(no, 0)];
    }
  }

  lemma DeletableParts(c: Target, t: Tables)
    requires Deletable(c, t)
    ensures Homed(c, t) && KnownActor(t, c.p) && Cascades.Unbound(t.plugins, Home(c, t))
  {
  }

  /** What is known of an attempt that waits for its transaction. */
  lemma WaitingIsCommit(c: Target, w: CommitState, no: nat)
    requires CommitInv(c, w) && no in w.attempts && w.attempts[no] == Checked
    ensures no in w.sys.pending && w.sys.pending[no].TxAppend? && AsCommitted(c, w.sys.pending[no]) && !HasCommand(w.sys.pending[no].parts)
    ensures Cascades.OwnKeys(w.sys.tables)
  {
    hide D.Inv, IdemInv, Source.SourceInv, IsCommitTx, D.Concat, AsCommitted, Cascades.OwnKeys;
    assert AttemptOk(c, w, no, Checked);
    assert TxOk(c, w.stream.log, w.sys.pending[no]);
    CommitTxAppends(c, w.sys.pending[no]);
  }

  /** The target is deleted under a waiting attempt, and that posts and saves a new message. */
  lemma LandsAnew(env: Env, c: Target, es: seq<Event>, no: nat, earlier: Id) returns (more: seq<Event>, id: Id)
    requires var w := History(env, c, es);
             && CommitInv(c, w) && no in w.attempts && w.attempts[no] == Checked
             && Deletable(c, w.sys.tables) && Payable(c, w.sys.tables.grants)
    ensures NoChunks(more) && id != earlier && History(env, c, es + more).committedId == Some(id)
  {
    hide History, CommitInv, Deletable, Homed, Home, Payable, Cascades.OwnKeys, AsCommitted, HasCommand, CommitIdentity;
    WaitingIsCommit(c, History(env, c, es), no);
    DeletableParts(c, History(env, c, es).sys.tables);
    var gone := TargetGoes(env, c, es);
    id := FreshId(History(env, c, es + gone).sys.usedIds + {earlier});
    PostAndSave(env, c, es + gone, no, id);
    more := gone + [PostCommit(no, 0, id), SaveCommit(no)];
    assert es + more == (es + gone) + [PostCommit(no, 0, id), SaveCommit(no)];
  }

  /** No continuation changes the committed id. */
  ghost predicate IdStays(env: Env, c: Target, es: seq<Event>) {
    forall more :: NoOverlaps(env, c, es + more) ==> History(env, c, es + more).committedId == History(env, c, es).committedId
  }

  lemma UnlandedMoves(env: Env, c: Target, es: seq<Event>, no: nat)
    requires D.Plain(c.at.orgId) && D.Plain(c.at.streamId) && NoOverlaps(env, c, es)
    requires var w := History(env, c, es);
             && w.committedId.Some? && no in w.attempts && !w.attempts[no].Landed?
             && Deletable(c, w.sys.tables) && c.p.actorId != "" && c.streamId != ""
    ensures !IdStays(env, c, es)
  {
    hide History, NoOverlaps, CommitInv, Deletable, Payable;
    HistoryKeeps(env, c, es);
    assert AttemptOk(c, History(env, c, es), no, History(env, c, es).attempts[no]) by { EachAttemptOk(c, History(env, c, es), no); }
    var ready := GetsReady(env, c, es, no);
    NoChunksNoOverlaps(env, c, es, ready);
    HistoryKeeps(env, c, es + ready);
    var more, id := LandsAnew(env, c, es + ready, no, History(env, c, es).committedId.value);
    NoChunksNoOverlaps(env, c, es + ready, more);
    assert es + (ready + more) == (es + ready) + more;
    assert NoOverlaps(env, c, es + (ready + more));
  }

  lemma EachAttemptOk(c: Target, w: CommitState, no: nat)
    requires CommitInv(c, w) && no in w.attempts
    ensures AttemptOk(c, w, no, w.attempts[no])
  {
  }

  lemma HeldIdStays(env: Env, c: Target, es: seq<Event>, r: Id)
    requires D.Plain(c.at.orgId) && D.Plain(c.at.streamId) && NoOverlaps(env, c, es)
    requires var w := History(env, c, es);
             w.committedId.Some? && TargetStands(c, w.sys.log) && Held(c, w.sys.tables, r) && c.streamId in w.sys.usedIds
    ensures IdStays(env, c, es)
  {
    hide History, NoOverlaps, TargetStands, Held;
    forall more | NoOverlaps(env, c, es + more)
      ensures History(env, c, es + more).committedId == History(env, c, es).committedId
    {
      HeldStays(env, c, es, more, r);
      CommittedIdIsFinal(env, c, es, more);
    }
  }

  lemma LandedIdStays(env: Env, c: Target, es: seq<Event>)
    requires D.Plain(c.at.orgId) && D.Plain(c.at.streamId) && NoOverlaps(env, c, es)
    requires var w := History(env, c, es); w.committedId.Some? && TargetStands(c, w.sys.log) && AllLanded(w)
    ensures IdStays(env, c, es)
  {
    hide History, NoOverlaps, TargetStands, AllLanded, CommitInv;
    HistoryKeeps(env, c, es);
    var w := History(env, c, es);
    LandedAgree(c, w);
    forall more | NoOverlaps(env, c, es + more)
      ensures History(env, c, es + more).committedId == w.committedId
    {
      LandedIsFinal(env, c, es, more, w.committedId.value);
    }
  }

  lemma StandingFacts(c: Target, w: CommitState)
    requires CommitInv(c, w) && w.committedId.Some? && TargetStands(c, w.sys.log) && KnownActor(w.sys.tables, c.p)
    requires c.streamType == ThreadStream ==> Homed(c, w.sys.tables)
    ensures Homed(c, w.sys.tables) && c.streamId != "" && c.p.actorId != "" && c.streamId in w.sys.usedIds
  {
    hide D.Inv, SysOk, AttemptOk, AnsweredWith, Cascades.OwnKeys, Source.SourceInv, UniqueKeys, Remembered, Agreement, TargetStands,
         MessageLaws.CheckedInOrg, Deletions.KeysVouched;
    TargetLives(c, w);
  }

  /**
   * Main result: while the target stands and the committing actor is in the org, the committed id is
   * final, whatever may happen next, exactly if every commit in flight has its answer already or a
   * plugin's row holds the target's channel. Otherwise the channel can be deleted under a commit that
   * is still to post, and that one posts and saves a second message; one that is still reading can be
   * brought that far.
   */
  lemma CommittedIdStaysIff(env: Env, c: Target, es: seq<Event>)
    requires D.Plain(c.at.orgId) && D.Plain(c.at.streamId) && NoOverlaps(env, c, es)
    requires var w := History(env, c, es);
             && w.committedId.Some? && TargetStands(c, w.sys.log) && KnownActor(w.sys.tables, c.p)
             && (c.streamType == ThreadStream ==> Homed(c, w.sys.tables))
    ensures var w := History(env, c, es);
            && Homed(c, w.sys.tables)
            && (IdStays(env, c, es) <==> AllLanded(w) || !Cascades.Unbound(w.sys.tables.plugins, Home(c, w.sys.tables)))
  {
    hide History, NoOverlaps, TargetStands, CommitInv, Homed, Home, IdStays;
    HistoryKeeps(env, c, es);
    var w := History(env, c, es);
    StandingFacts(c, w);
    if AllLanded(w) {
      LandedIdStays(env, c, es);
    } else if !Cascades.Unbound(w.sys.tables.plugins, Home(c, w.sys.tables)) {
      var r :| r in w.sys.tables.plugins && w.sys.tables.plugins[r].channelId == Some(Home(c, w.sys.tables));
      HeldIdStays(env, c, es, r);
    } else {
      var no :| no in w.attempts && !w.attempts[no].Landed?;
      UnlandedMoves(env, c, es, no);
    }
  }

  // ---------- a run in which the committed id changes ----------

  const TARGET := Target(D.Place("o", "s"), Deletions.ADMIN, "c", ChannelStream)

  const SETUP: seq<Step> := Deletions.OPENING + [Begin(0, CreateChannel(Deletions.ADMIN, "x", Public), 0), Finish(0, 0, "c")]

  const COMMIT_TX := TxAppend(Deletions.ADMIN, "c", ChannelStream, [TextPart("")], CommitKey(TARGET))

  function AllElsewhere(steps: seq<Step>): (r: seq<Event>)
    ensures |r| == |steps| && forall i :: 0 <= i < |steps| ==> r[i] == Elsewhere(steps[i])
  {
    seq(|steps|, i requires 0 <= i < |steps| => Elsewhere(steps[i]))
  }

  lemma {:induction false} ServiceAlone(env: Env, c: Target, steps: seq<Step>)
    requires forall i :: 0 <= i < |steps| && steps[i].Begin? ==> !steps[i].call.AppendMessage?
    ensures History(env, c, AllElsewhere(steps)) == CommitState(D.FRESH, None, map[], Run(env, steps))
  {
    hide Exec;
    if steps == [] {
      assert AllElsewhere(steps) == [];
    } else {
      var front := steps[..|steps| - 1];
      ServiceAlone(env, c, front);
      assert AllElsewhere(steps)[..|steps| - 1] == AllElsewhere(front);
    }
  }

  /** A service with the target channel, no message in it, and nothing in flight but the given calls. */
  ghost predicate Awaits(s: Sys, pending: map<nat, Tx>, used: set<Id>) {
    && Deletions.Bare(s.tables, map["c" := Deletions.OPEN_CHANNEL], map[]) && Cascades.OwnKeys(s.tables)
    && s.pending == pending && s.usedIds == used
  }

  lemma SetupAwaits(env: Env)
    ensures Awaits(Run(env, SETUP), map[], {"", "o", "a", "c"})
  {
    hide Run, Commit, Check, Cascades.OwnKeys;
    Deletions.Opening(env);
    Deletions.ChannelOpened(env, Run(env, Deletions.OPENING).tables);
    Deletions.CallRuns(env, Deletions.OPENING, 0, CreateChannel(Deletions.ADMIN, "x", Public), "c");
    Deletions.RunKeepsKeys(env, SETUP);
  }

  lemma CommitChecks(t: Tables)
    requires Deletions.Bare(t, map["c" := Deletions.OPEN_CHANNEL], map[])
    ensures Check(t, PostCall(TARGET, ""), 0) == Ok(COMMIT_TX)
  {
    assert [TextPart("")][0].TextPart?;
    assert CommitKey(TARGET)[0] == 'd';
  }

  lemma BothBegin(env: Env, s: Sys, es: seq<Event>)
    requires s.pending == map[] && History(env, TARGET, es) == CommitState(D.FRESH, None, map[], s)
    ensures History(env, TARGET, es + [BeginCommit(1), BeginCommit(2)])
            == CommitState(D.FRESH, None, map[1 := Reading(0, 1, ""), 2 := Reading(0, 1, "")], s)
  {
    hide History;
    var one := es + [BeginCommit(1)];
    assert es + [BeginCommit(1), BeginCommit(2)] == one + [BeginCommit(2)];
    HistorySnoc(env, TARGET, es, BeginCommit(1));
    HistorySnoc(env, TARGET, one, BeginCommit(2));
  }

  lemma OneChecks(env: Env, w: CommitState, no: nat)
    requires no in w.attempts && w.attempts[no] == Reading(0, 1, "") && no !in w.sys.pending
    requires Deletions.Bare(w.sys.tables, map["c" := Deletions.OPEN_CHANNEL], map[])
    ensures Happen(env, TARGET, w, CheckPost(no, 0))
            == w.(sys := w.sys.(pending := w.sys.pending[no := COMMIT_TX]), attempts := w.attempts[no := Checked])
  {
    hide Check, PostCall;
    CommitChecks(w.sys.tables);
  }

  /** Two commits both check before either posts. */
  lemma BothCheck(env: Env, s: Sys, es: seq<Event>)
    requires Awaits(s, map[], {"", "o", "a", "c"}) && History(env, TARGET, es) == CommitState(D.FRESH, None, map[], s)
    ensures var w := History(env, TARGET, es + [BeginCommit(1), BeginCommit(2)] + [CheckPost(1, 0)] + [CheckPost(2, 0)]);
            w == CommitState(D.FRESH, None, map[1 := Checked, 2 := Checked], s.(pending := map[1 := COMMIT_TX, 2 := COMMIT_TX]))
  {
    hide History, Happen, Cascades.OwnKeys, Deletions.Bare;
    BothBegin(env, s, es);
    var begun := es + [BeginCommit(1), BeginCommit(2)];
    HistorySnoc(env, TARGET, begun, CheckPost(1, 0));
    HistorySnoc(env, TARGET, begun + [CheckPost(1, 0)], CheckPost(2, 0));
    OneChecks(env, History(env, TARGET, begun), 1);
    OneChecks(env, History(env, TARGET, begun + [CheckPost(1, 0)]), 2);
  }

  /** A fresh service's commit can be paid by scope and carries no command. */
  lemma CommitTxReady(grants: seq<Grant>)
    ensures Payable(TARGET, grants) && AsCommitted(TARGET, COMMIT_TX) && !HasCommand(COMMIT_TX.parts)
  {
  }

  lemma DeletionCommits(env: Env, t: Tables, m: Message)
    requires Cascades.OwnKeys(t) && t.plugins == map[] && t.messages == [m] && m.orgId == "o" && m.streamId == "c"
    requires t.channels == map["c" := Deletions.OPEN_CHANNEL]
    ensures var r := Commit(env, t, TxDeleteChannel(Deletions.ADMIN, "c"), 0, "d"); r.Committed? && r.tables.messages == []
  {
    hide Cascades.OwnKeys, DeleteChannelTx, Where;
    Cascades.DeleteChannelCommitsIff(env, t, Deletions.ADMIN, "c", 0);
    MessageLaws.DeleteChannelEffect(env, t, Deletions.ADMIN, "c", 0);
    WhereNone(t.messages, MessageOutside("o", ChannelStreams(t, "o", "c")));
  }

  lemma DeletionChecks(t: Tables)
    requires t.actors == map["a" := Actor("o")] && t.channels == map["c" := Deletions.OPEN_CHANNEL]
    ensures Check(t, DeleteChannel(Deletions.ADMIN, "c"), 0) == Ok(TxDeleteChannel(Deletions.ADMIN, "c"))
  {
  }

  const DELETION: seq<Event> := [Elsewhere(Begin(3, DeleteChannel(Deletions.ADMIN, "c"), 0)), Elsewhere(Finish(3, 0, "d"))]

  /** Somebody deletes the channel meanwhile. */
  lemma ChannelGoes(env: Env, es: seq<Event>, m: Message)
    requires var w := History(env, TARGET, es); var t := w.sys.tables;
             && 3 !in w.attempts && 3 !in w.sys.pending && "d" !in w.sys.usedIds
             && Cascades.OwnKeys(t) && t.plugins == map[] && t.messages == [m] && m.orgId == "o" && m.streamId == "c"
             && t.channels == map["c" := Deletions.OPEN_CHANNEL] && t.actors == map["a" := Actor("o")]
    ensures var w, w' := History(env, TARGET, es), History(env, TARGET, es + DELETION);
            && w'.attempts == w.attempts && w'.sys.pending == w.sys.pending && w'.sys.usedIds == w.sys.usedIds + {"d"}
            && w'.sys.tables.messages == [] && w'.committedId == w.committedId
  {
    hide History, Commit, Check, Cascades.OwnKeys, NewStreams, DroppedStreams;
    HistoryTwo(env, TARGET, es, DELETION[0], DELETION[1]);
    var w := History(env, TARGET, es);
    DeletionChecks(w.sys.tables);
    DeletionCommits(env, w.sys.tables, m);
    assert w.sys.pending[3 := TxDeleteChannel(Deletions.ADMIN, "c")] - {3} == w.sys.pending;
  }

  /** Two commits begin and check; the first posts and saves its message. */
  const FIRST_SAVED: seq<Event> :=
    AllElsewhere(SETUP) + [BeginCommit(1), BeginCommit(2)] + [CheckPost(1, 0)] + [CheckPost(2, 0)] + [PostCommit(1, 0, "m"), SaveCommit(1)]

  lemma FirstSaves(env: Env) returns (m: Message)
    ensures var w := History(env, TARGET, FIRST_SAVED);
            && w.committedId == Some("m") && w.attempts == map[2 := Checked] && w.sys.pending == map[2 := COMMIT_TX]
            && w.sys.usedIds == {"", "o", "a", "c", "m"} && w.sys.tables.messages == [m] && m.orgId == "o" && m.streamId == "c"
            && Cascades.OwnKeys(w.sys.tables) && w.sys.tables.plugins == map[]
            && w.sys.tables.channels == map["c" := Deletions.OPEN_CHANNEL] && w.sys.tables.actors == map["a" := Actor("o")]
  {
    hide History, Run, Commit, Cascades.OwnKeys, Payable, AsCommitted, HasCommand;
    var setup := AllElsewhere(SETUP);
    ServiceAlone(env, TARGET, SETUP);
    SetupAwaits(env);
    BothCheck(env, Run(env, SETUP), setup);
    var both := setup + [BeginCommit(1), BeginCommit(2)] + [CheckPost(1, 0)] + [CheckPost(2, 0)];
    var t := Run(env, SETUP).tables;
    CommitTxReady(t.grants);
    PostAndSave(env, TARGET, both, 1, "m");
    CommitLands(env, TARGET, t, COMMIT_TX, "m");
    m := NewMessage(t, Deletions.ADMIN, "c", ChannelStream, CommitKey(TARGET), 0, "m");
    assert [] + [m] == [m];
    SameKeysOwn(t, History(env, TARGET, FIRST_SAVED).sys.tables);
  }

  /**
   * The condition fails in a reachable state: once the first of two commits in flight has saved its
   * message, the channel is deleted, and the other posts a second message and saves that.
   */
  lemma CommittedIdCanChange(env: Env)
    ensures var w, w' := History(env, TARGET, FIRST_SAVED),
                         History(env, TARGET, FIRST_SAVED + (DELETION + [PostCommit(2, 0, "n"), SaveCommit(2)]));
            && w.committedId == Some("m") && w.attempts == map[2 := Checked]
            && w'.committedId == Some("n") && w'.attempts == map[]
  {
    hide History, Commit, Cascades.OwnKeys, Payable, AsCommitted, HasCommand;
    var m := FirstSaves(env);
    ChannelGoes(env, FIRST_SAVED, m);
    CommitTxReady(History(env, TARGET, FIRST_SAVED + DELETION).sys.tables.grants);
    PostAndSave(env, TARGET, FIRST_SAVED + DELETION, 2, "n");
    var last := [PostCommit(2, 0, "n"), SaveCommit(2)];
    assert (FIRST_SAVED + DELETION) + last == FIRST_SAVED + (DELETION + last);
  }

  lemma SameKeysOwn(t: Tables, r: Tables)
    requires Cascades.OwnKeys(t) && Deletions.SameKeys(t, r)
    ensures Cascades.OwnKeys(r)
  {
  }
}
