// Idempotent appends under every interleaving: until its stream is deleted, an append key answers
// with one and the same message, and only the first success has any effect.

module Idempotency {
  import opened Prelude
  import opened CanonicalJson
  import opened AuditChain
  import opened Tables
  import opened ServiceSpec
  import opened ServiceRuns
  import opened MessageLaws

  predicate UniqueKeys(messages: seq<Message>) {
    forall i, j :: 0 <= i < j < |messages| ==> KeyOf(messages[i]) != KeyOf(messages[j])
  }

  predicate IsAppend(d: Done) {
    d.tx.TxAppend? && d.value.Appended?
  }

  function KeyOfDone(d: Done): AppendKey
    requires IsAppend(d)
  {
    AppendKey(d.tx.p.orgId, d.tx.streamId, d.tx.p.actorId, d.tx.key)
  }

  /** The stored message that a successful append reported. */
  predicate Answers(m: Message, d: Done)
    requires IsAppend(d)
  {
    KeyOf(m) == KeyOfDone(d) && m.id == d.value.messageId && m.streamSeq == d.value.streamSeq
  }

  ghost predicate Stored(messages: seq<Message>, d: Done)
    requires IsAppend(d)
  {
    exists m :: m in messages && Answers(m, d)
  }

  predicate DroppedBetween(log: seq<Done>, i: nat, j: nat, streamId: Id)
    requires j <= |log|
  {
    exists k :: i < k < j && streamId in log[k].dropped
  }

  ghost predicate Remembered(log: seq<Done>, messages: seq<Message>) {
    forall i :: 0 <= i < |log| && IsAppend(log[i]) && !DroppedBetween(log, i, |log|, log[i].tx.streamId) ==>
                  Stored(messages, log[i])
  }

  /** A replay: the earlier answer again, and nothing else. */
  predicate Replays(later: Done, first: Done)
    requires IsAppend(later) && IsAppend(first)
  {
    && later.value == Appended(first.value.messageId, first.value.streamSeq, true)
    && later.charged == [] && later.events == []
  }

  ghost predicate Agreement(log: seq<Done>) {
    forall i, j |
      0 <= i < j < |log| && IsAppend(log[i]) && IsAppend(log[j]) && KeyOfDone(log[i]) == KeyOfDone(log[j])
      && !DroppedBetween(log, i, j, log[i].tx.streamId)
      :: Replays(log[j], log[i])
  }

  // ---------- one committed transaction ----------

  predicate SameAnswer(a: Message, b: Message) {
    KeyOf(a) == KeyOf(b) && a.id == b.id && a.streamSeq == b.streamSeq
  }

  ghost predicate HasAnswer(messages: seq<Message>, m: Message) {
    exists x :: x in messages && SameAnswer(x, m)
  }

  /** How the message table evolves under a committed transaction. */
  ghost predicate Evolves(before: seq<Message>, after: seq<Message>, d: Done) {
    && UniqueKeys(after)
    && (forall m :: m in before && m.streamId !in d.dropped ==> HasAnswer(after, m))
    && (IsAppend(d) ==> Stored(after, d))
    && (IsAppend(d) ==> forall m :: m in before && KeyOf(m) == KeyOfDone(d) ==>
                                      d.value == Appended(m.id, m.streamSeq, true) && d.charged == [] && d.events == [])
  }

  lemma SameEvolves(messages: seq<Message>, d: Done)
    requires UniqueKeys(messages) && !IsAppend(d)
    ensures Evolves(messages, messages, d)
  {
    forall m | m in messages
      ensures HasAnswer(messages, m)
    {
      assert SameAnswer(m, m);
    }
  }

  lemma AppendEvolves(env: Env, t: Tables, tx: Tx, now: nat, id: Id, d: Done)
    requires UniqueKeys(t.messages) && tx.TxAppend?
    requires var r := AppendTx(env, t, tx.p, tx.streamId, tx.streamType, tx.parts, tx.key, now, id);
             r.Committed? && d == Done(tx, r.value, r.charged, r.events, {})
    ensures Evolves(t.messages, AppendTx(env, t, tx.p, tx.streamId, tx.streamType, tx.parts, tx.key, now, id).tables.messages, d)
  {
    hide AppendTx;
    AppendEffect(env, t, tx.p, tx.streamId, tx.streamType, tx.parts, tx.key, now, id);
    var r := AppendTx(env, t, tx.p, tx.streamId, tx.streamType, tx.parts, tx.key, now, id);
    var found := FindByKey(t.messages, KeyOfDone(d));
    if found.Some? {
      ReplayEvolves(t.messages, found.value, d);
    } else {
      PostEvolves(t.messages, NewMessage(t, tx.p, tx.streamId, tx.streamType, tx.key, now, id), d);
    }
  }

  lemma ReplayEvolves(messages: seq<Message>, m: Message, d: Done)
    requires UniqueKeys(messages) && IsAppend(d) && m in messages && KeyOf(m) == KeyOfDone(d)
    requires d.value == Appended(m.id, m.streamSeq, true) && d.charged == [] && d.events == []
    ensures Evolves(messages, messages, d)
  {
    assert Answers(m, d);
    forall x | x in messages
      ensures HasAnswer(messages, x)
    {
      assert SameAnswer(x, x);
    }
  }

  lemma PostEvolves(messages: seq<Message>, m: Message, d: Done)
    requires UniqueKeys(messages) && IsAppend(d) && KeyOf(m) == KeyOfDone(d)
    requires forall x :: x in messages ==> KeyOf(x) != KeyOf(m)
    requires d.value == Appended(m.id, m.streamSeq, false)
    ensures Evolves(messages, messages + [m], d)
  {
    var after := messages + [m];
    assert after[|messages|] == m && Answers(m, d);
    assert forall i :: 0 <= i < |messages| ==> messages[i] in messages;
    forall x | x in messages
      ensures HasAnswer(after, x)
    {
      assert x in after && SameAnswer(x, x);
    }
  }

  lemma RedactEvolves(messages: seq<Message>, id: Id, d: Done)
    requires UniqueKeys(messages) && !IsAppend(d)
    ensures Evolves(messages, MarkRedacted(messages, id), d)
  {
    var after := MarkRedacted(messages, id);
    forall m | m in messages
      ensures HasAnswer(after, m)
    {
      var i :| 0 <= i < |messages| && messages[i] == m;
      assert after[i] in after && SameAnswer(after[i], m);
    }
  }

  lemma {:induction false} WhereKeepsUniqueKeys(messages: seq<Message>, keep: Message -> bool)
    requires UniqueKeys(messages)
    ensures UniqueKeys(Where(messages, keep))
  {
    if messages != [] {
      var front, last := messages[..|messages| - 1], messages[|messages| - 1];
      WhereKeepsUniqueKeys(front, keep);
      assert forall m :: m in front ==> KeyOf(m) != KeyOf(last);
    }
  }

  lemma DropEvolves(messages: seq<Message>, keep: Message -> bool, d: Done)
    requires UniqueKeys(messages) && !IsAppend(d)
    requires forall m :: m in messages && m.streamId !in d.dropped ==> keep(m)
    ensures Evolves(messages, Where(messages, keep), d)
  {
    WhereKeepsUniqueKeys(messages, keep);
    forall m | m in messages && m.streamId !in d.dropped
      ensures HasAnswer(Where(messages, keep), m)
    {
      assert m in Where(messages, keep) && SameAnswer(m, m);
    }
  }

  lemma CommitEvolves(env: Env, s: Sys, tx: Tx, now: nat, id: Id)
    requires UniqueKeys(s.tables.messages) && StreamInv(s)
    ensures var r := Commit(env, s.tables, tx, now, id);
            r.Committed? ==>
              Evolves(s.tables.messages, r.tables.messages, Done(tx, r.value, r.charged, r.events, DroppedStreams(s, tx)))
  {
    hide Commit, CreateChannelTx, CreateThreadTx, AppendTx, RedactTx, DeleteChannelTx, DeleteOrgTx, Evolves, UniqueKeys,
         MarkRedacted, ChannelStreams;
    var t := s.tables;
    CommitIsItsTx(env, t, tx, now, id);
    var r := Commit(env, t, tx, now, id);
    if r.Committed? {
      var d := Done(tx, r.value, r.charged, r.events, DroppedStreams(s, tx));
      match tx
      case TxCreateChannel(p, name, v) =>
        CreateChannelEffect(env, t, p, name, v, now, id);
        SameEvolves(t.messages, d);
      case TxCreateThread(p, c, m, v) =>
        CreateThreadEffect(env, t, p, c, m, v, now, id);
        SameEvolves(t.messages, d);
      case TxAppend(p, x, st, parts, key) => AppendEvolves(env, t, tx, now, id, d);
      case TxRedact(p, m, x, st, a, reason) =>
        RedactEffect(env, t, p, m, x, st, a, reason, now);
        RedactEvolves(t.messages, m, d);
      case TxDeleteChannel(p, c) =>
        DeleteChannelEffect(env, t, p, c, now);
        DropEvolves(t.messages, MessageOutside(p.orgId, ChannelStreams(t, p.orgId, c)), d);
      case TxDeleteOrg(p, o, ids) =>
        DeleteOrgEffect(env, t, p, o, ids, now);
        DropEvolves(t.messages, MessageNotOf(o), d);
      case _ =>
        OffStreamCommit(env, t, tx, now, id);
        SameEvolves(t.messages, d);
    }
  }

  // ---------- runs ----------

  ghost predicate IdemInv(s: Sys) {
    && StreamInv(s)
    && UniqueKeys(s.tables.messages)
    && Remembered(s.log, s.tables.messages)
    && Agreement(s.log)
  }

  lemma RememberedGrows(log: seq<Done>, before: seq<Message>, after: seq<Message>, d: Done)
    requires Remembered(log, before) && Evolves(before, after, d)
    ensures Remembered(log + [d], after)
  {
    var log' := log + [d];
    forall i | 0 <= i < |log'| && IsAppend(log'[i]) && !DroppedBetween(log', i, |log'|, log'[i].tx.streamId)
      ensures Stored(after, log'[i])
    {
      if i < |log| {
        assert log'[|log|] == d && log[i].tx.streamId !in d.dropped;
        assert !DroppedBetween(log, i, |log|, log[i].tx.streamId) by {
          assert forall k :: i < k < |log| ==> log'[k] == log[k];
        }
        assert Stored(before, log[i]);
        var m :| m in before && Answers(m, log[i]);
        assert HasAnswer(after, m);
        var x :| x in after && SameAnswer(x, m);
        assert Answers(x, log[i]);
      }
    }
  }

  lemma AgreementGrows(log: seq<Done>, before: seq<Message>, after: seq<Message>, d: Done)
    requires Remembered(log, before) && Evolves(before, after, d) && Agreement(log)
    ensures Agreement(log + [d])
  {
    var log' := log + [d];
    forall i, j | 0 <= i < j < |log'| && IsAppend(log'[i]) && IsAppend(log'[j]) && KeyOfDone(log'[i]) == KeyOfDone(log'[j])
                  && !DroppedBetween(log', i, j, log'[i].tx.streamId)
      ensures Replays(log'[j], log'[i])
    {
      assert forall k :: i < k < j ==> log'[k] == log[k];
      assert !DroppedBetween(log, i, j, log[i].tx.streamId);
      if j == |log| {
        assert Stored(before, log[i]);
        var m :| m in before && Answers(m, log[i]);
        assert KeyOf(m) == KeyOfDone(d);
      }
    }
  }

  lemma ExecKeepsIdemInv(env: Env, s: Sys, step: Step)
    requires IdemInv(s)
    ensures IdemInv(Exec(env, s, step))
  {
    hide Commit, Check, StreamInv, DroppedStreams, NewStreams, UniqueKeys, Remembered, Agreement;
    ExecKeepsStreamInv(env, s, step);
    if step.Finish? && step.callNo in s.pending && step.id !in s.usedIds {
      var tx := s.pending[step.callNo];
      var r := Commit(env, s.tables, tx, step.now, step.id);
      CommitEvolves(env, s, tx, step.now, step.id);
      if r.Committed? {
        var d := Done(tx, r.value, r.charged, r.events, DroppedStreams(s, tx));
        RememberedGrows(s.log, s.tables.messages, r.tables.messages, d);
        AgreementGrows(s.log, s.tables.messages, r.tables.messages, d);
      }
    }
  }

  lemma StartIdemInv()
    ensures IdemInv(START)
  {
    StartStreamInv();
  }

  lemma {:induction false} RunKeepsIdemInv(env: Env, steps: seq<Step>)
    ensures IdemInv(Run(env, steps))
  {
    hide Exec, IdemInv;
    if steps == [] {
      StartIdemInv();
    } else {
      RunKeepsIdemInv(env, steps[..|steps| - 1]);
      ExecKeepsIdemInv(env, Run(env, steps[..|steps| - 1]), steps[|steps| - 1]);
    }
  }

  /**
   * Main result: in every run, two successful appends with the same org, stream, actor and key give
   * the same id and number, unless the stream was deleted in between; the later one is a replay that
   * charges nothing and announces nothing.
   */
  lemma IdempotentAppend(env: Env, steps: seq<Step>, i: nat, j: nat)
    requires var log := Run(env, steps).log;
             && i < j < |log| && IsAppend(log[i]) && IsAppend(log[j]) && KeyOfDone(log[i]) == KeyOfDone(log[j])
             && !DroppedBetween(log, i, j, log[i].tx.streamId)
    ensures var log := Run(env, steps).log; Replays(log[j], log[i])
  {
    hide Run, StreamInv, Remembered;
    RunKeepsIdemInv(env, steps);
  }

  /** Main result: in every reachable state at most one message exists for an append key. */
  lemma OneMessagePerKey(env: Env, steps: seq<Step>)
    ensures UniqueKeys(Run(env, steps).tables.messages)
  {
    hide Run, UniqueKeys, StreamInv, Remembered, Agreement;
    RunKeepsIdemInv(env, steps);
  }
}
