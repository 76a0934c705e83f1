// The rules of `Rights` over whole runs: however calls interleave, every transaction was allowed at
// the step that checked it, every charge went to a grant that was live at the step that committed it,
// and every redaction was the author's own or was paid for.

module RightsRuns {
  import opened Prelude
  import opened CanonicalJson
  import opened AuditChain
  import opened Tables
  import opened ServiceSpec
  import opened ServiceRuns
  import opened MessageLaws
  import opened Cascades
  import opened SourceHistory
  import opened Rights
  import opened Charging

  // ---------- where a transaction comes from ----------

  /** Step `b` checked the call that this transaction belongs to. */
  ghost predicate CheckedAt(env: Env, steps: seq<Step>, b: nat, tx: Tx) {
    && b < |steps| && steps[b].Begin?
    && Check(Run(env, steps[..b]).tables, steps[b].call, steps[b].now) == Ok(tx)
  }

  /** Step `f` committed the history entry `d`, as number `k`. */
  ghost predicate FinishedAt(env: Env, steps: seq<Step>, f: nat, k: nat, d: Done) {
    && f < |steps| && steps[f].Finish?
    && var s := Run(env, steps[..f]);
    && |s.log| == k && steps[f].callNo in s.pending && s.pending[steps[f].callNo] == d.tx
    && var r := Commit(env, s.tables, d.tx, steps[f].now, steps[f].id);
    && r.Committed? && r.charged == d.charged && r.value == d.value && r.events == d.events
  }

  /** The entry was checked at an earlier step than the one that committed it. */
  ghost predicate Explained(env: Env, steps: seq<Step>, k: nat, d: Done) {
    exists b: nat, f: nat :: b < f && CheckedAt(env, steps, b, d.tx) && FinishedAt(env, steps, f, k, d)
  }

  lemma CheckedLater(env: Env, steps: seq<Step>, step: Step, b: nat, tx: Tx)
    requires CheckedAt(env, steps, b, tx)
    ensures CheckedAt(env, steps + [step], b, tx)
  {
    hide Run, Check;
    assert (steps + [step])[..b] == steps[..b];
  }

  lemma ExplainedLater(env: Env, steps: seq<Step>, step: Step, k: nat, d: Done)
    requires Explained(env, steps, k, d)
    ensures Explained(env, steps + [step], k, d)
  {
    hide Run, Commit, CheckedAt;
    var b: nat, f: nat :| b < f && CheckedAt(env, steps, b, d.tx) && FinishedAt(env, steps, f, k, d);
    CheckedLater(env, steps, step, b, d.tx);
    assert (steps + [step])[..f] == steps[..f];
    assert FinishedAt(env, steps + [step], f, k, d);
  }

  ghost predicate Traced(env: Env, steps: seq<Step>) {
    var s := Run(env, steps);
    && (forall n :: n in s.pending ==> exists b: nat :: CheckedAt(env, steps, b, s.pending[n]))
    && (forall k: nat :: k < |s.log| ==> Explained(env, steps, k, s.log[k]))
  }

  lemma RunStep(env: Env, steps: seq<Step>, step: Step)
    ensures Run(env, steps + [step]) == Exec(env, Run(env, steps), step)
  {
    hide Exec;
    assert (steps + [step])[..|steps|] == steps;
  }

  /** How a step moves pending calls and history. */
  lemma ExecTraces(env: Env, s: Sys, step: Step)
    ensures var s' := Exec(env, s, step);
            && (forall n :: n in s'.pending && (n !in s.pending || s'.pending[n] != s.pending[n]) ==>
                  step.Begin? && Check(s.tables, step.call, step.now) == Ok(s'.pending[n]))
            && (s'.log == s.log
                || (|s'.log| == |s.log| + 1 && s'.log[..|s.log|] == s.log && step.Finish? && Committing(env, s, step, s'.log[|s.log|])))
  {
    hide Check, Commit, DroppedStreams, NewStreams;
  }

  /** The step commits this entry. */
  predicate Committing(env: Env, s: Sys, step: Step, d: Done)
    requires step.Finish?
  {
    && step.callNo in s.pending && s.pending[step.callNo] == d.tx
    && var r := Commit(env, s.tables, d.tx, step.now, step.id);
    && r.Committed? && r.charged == d.charged && r.value == d.value && r.events == d.events
  }

  lemma TracedStep(env: Env, steps: seq<Step>, step: Step)
    requires Traced(env, steps)
    ensures Traced(env, steps + [step])
  {
    hide Run, Exec, Check, Commit, CheckedAt, FinishedAt, Explained;
    var after := steps + [step];
    var s, s' := Run(env, steps), Run(env, after);
    RunStep(env, steps, step);
    ExecTraces(env, s, step);
    forall n | n in s'.pending
      ensures exists b: nat :: CheckedAt(env, after, b, s'.pending[n])
    {
      if n in s.pending && s'.pending[n] == s.pending[n] {
        var b: nat :| CheckedAt(env, steps, b, s.pending[n]);
        CheckedLater(env, steps, step, b, s.pending[n]);
      } else {
        NewlyChecked(env, steps, step, s'.pending[n]);
      }
    }
    forall k: nat | k < |s'.log|
      ensures Explained(env, after, k, s'.log[k])
    {
      if k < |s.log| {
        assert s'.log[..|s.log|][k] == s.log[k];
        ExplainedLater(env, steps, step, k, s.log[k]);
      } else {
        NewlyExplained(env, steps, step, s'.log[k]);
      }
    }
  }

  lemma NewlyChecked(env: Env, steps: seq<Step>, step: Step, tx: Tx)
    requires step.Begin? && Check(Run(env, steps).tables, step.call, step.now) == Ok(tx)
    ensures CheckedAt(env, steps + [step], |steps|, tx)
  {
    hide Run, Check;
    assert (steps + [step])[..|steps|] == steps;
  }

  lemma NewlyExplained(env: Env, steps: seq<Step>, step: Step, d: Done)
    requires Traced(env, steps) && step.Finish? && Committing(env, Run(env, steps), step, d)
    ensures Explained(env, steps + [step], |Run(env, steps).log|, d)
  {
    hide Run, Check, Commit, Explained;
    var after := steps + [step];
    assert after[..|steps|] == steps;
    var b: nat :| CheckedAt(env, steps, b, d.tx);
    CheckedLater(env, steps, step, b, d.tx);
    assert FinishedAt(env, after, |steps|, |Run(env, steps).log|, d);
    Explains(env, after, b, |steps|, |Run(env, steps).log|, d);
  }

  lemma Explains(env: Env, steps: seq<Step>, b: nat, f: nat, k: nat, d: Done)
    requires b < f && CheckedAt(env, steps, b, d.tx) && FinishedAt(env, steps, f, k, d)
    ensures Explained(env, steps, k, d)
  {
    hide CheckedAt, FinishedAt;
  }

  /** Every pending call was checked, and every history entry was checked before it was committed. */
  lemma {:induction false} RunIsTraced(env: Env, steps: seq<Step>)
    ensures Traced(env, steps)
  {
    if steps == [] {
      hide CheckedAt, Explained;
    } else {
      hide Traced;
      var front := steps[..|steps| - 1];
      RunIsTraced(env, front);
      TracedStep(env, front, steps[|steps| - 1]);
      assert front + [steps[|steps| - 1]] == steps;
    }
  }

  // ---------- every transaction was allowed ----------

  /** Step `b` began a call that the rules allowed then, and that asks for this transaction. */
  ghost predicate AllowedAt(env: Env, steps: seq<Step>, b: nat, tx: Tx) {
    && b < |steps| && steps[b].Begin?
    && var t := Run(env, steps[..b]).tables;
    Allowed(t, steps[b].call, steps[b].now) && Carries(t, steps[b].call, tx)
  }

  lemma CheckedIsAllowed(env: Env, steps: seq<Step>, b: nat, tx: Tx)
    requires CheckedAt(env, steps, b, tx)
    ensures AllowedAt(env, steps, b, tx)
  {
    hide Run, Check, Allowed, Carries;
    var t := Run(env, steps[..b]).tables;
    CheckOkIff(t, steps[b].call, steps[b].now);
    CheckCarries(t, steps[b].call, steps[b].now);
  }

  ghost predicate WasAllowed(env: Env, steps: seq<Step>, tx: Tx) {
    exists b: nat :: AllowedAt(env, steps, b, tx)
  }

  /** Main result: in every run, whatever is pending or was committed was allowed when its call began. */
  lemma EveryTransactionWasAllowed(env: Env, steps: seq<Step>)
    ensures var s := Run(env, steps);
            && (forall n :: n in s.pending ==> WasAllowed(env, steps, s.pending[n]))
            && (forall d :: d in s.log ==> WasAllowed(env, steps, d.tx))
  {
    hide Run, CheckedAt, AllowedAt, FinishedAt;
    RunIsTraced(env, steps);
    var s := Run(env, steps);
    forall n | n in s.pending
      ensures WasAllowed(env, steps, s.pending[n])
    {
      var b: nat :| CheckedAt(env, steps, b, s.pending[n]);
      CheckedIsAllowed(env, steps, b, s.pending[n]);
    }
    forall d | d in s.log
      ensures WasAllowed(env, steps, d.tx)
    {
      var k: nat :| k < |s.log| && s.log[k] == d;
      var b: nat, f: nat :| b < f && CheckedAt(env, steps, b, d.tx) && FinishedAt(env, steps, f, k, d);
      CheckedIsAllowed(env, steps, b, d.tx);
    }
  }

  /** Step `b` found that the sender may post this message. */
  ghost predicate MayPostAt(env: Env, steps: seq<Step>, b: nat, tx: Tx)
    requires tx.TxAppend?
  {
    && b < |steps| && steps[b].Begin?
    && MayPost(Run(env, steps[..b]).tables, tx.p, tx.streamId, tx.streamType, tx.parts, tx.key, steps[b].now)
  }

  lemma CheckedMayPost(env: Env, steps: seq<Step>, b: nat, tx: Tx)
    requires CheckedAt(env, steps, b, tx) && tx.TxAppend?
    ensures MayPostAt(env, steps, b, tx)
  {
    hide Run, Check, MayPost;
    var t, call := Run(env, steps[..b]).tables, steps[b].call;
    CheckCarries(t, call, steps[b].now);
    assert call.AppendMessage?;
    AppendAllowedIff(t, call.p, call.streamId, call.streamType, call.parts, call.key, call.autoRequestOnDeny, steps[b].now);
  }

  ghost predicate WasPostable(env: Env, steps: seq<Step>, tx: Tx) {
    tx.TxAppend? ==> exists b: nat :: MayPostAt(env, steps, b, tx)
  }

  /** Main result: nobody posts where they may not: every append, pending or done, was its sender's right when it was checked. */
  lemma EveryPostWasAllowed(env: Env, steps: seq<Step>)
    ensures var s := Run(env, steps);
            && (forall n :: n in s.pending ==> WasPostable(env, steps, s.pending[n]))
            && (forall d :: d in s.log ==> WasPostable(env, steps, d.tx))
  {
    hide Run, CheckedAt, MayPostAt, FinishedAt;
    RunIsTraced(env, steps);
    var s := Run(env, steps);
    forall n | n in s.pending
      ensures WasPostable(env, steps, s.pending[n])
    {
      var b: nat :| CheckedAt(env, steps, b, s.pending[n]);
      if s.pending[n].TxAppend? { CheckedMayPost(env, steps, b, s.pending[n]); }
    }
    forall d | d in s.log
      ensures WasPostable(env, steps, d.tx)
    {
      var k: nat :| k < |s.log| && s.log[k] == d;
      var b: nat, f: nat :| b < f && CheckedAt(env, steps, b, d.tx) && FinishedAt(env, steps, f, k, d);
      if d.tx.TxAppend? { CheckedMayPost(env, steps, b, d.tx); }
    }
  }

  // ---------- every charge was live ----------

  /** Step `f` committed the entry and paid for it with grants that were live then. */
  ghost predicate PaidAt(env: Env, steps: seq<Step>, f: nat, k: nat, d: Done) {
    && f < |steps| && steps[f].Finish?
    && |Run(env, steps[..f]).log| == k
    && PaysExactly(Run(env, steps[..f]).tables.grants, d.tx, d.value, d.charged, steps[f].now)
  }

  /** Main result: in every run each committed transaction charged exactly what it had to, to grants live at its commit. */
  lemma EveryChargeWasLive(env: Env, steps: seq<Step>, k: nat)
    requires k < |Run(env, steps).log|
    ensures exists f: nat :: PaidAt(env, steps, f, k, Run(env, steps).log[k])
  {
    hide Run, CheckedAt, PaysExactly, Commit;
    RunIsTraced(env, steps);
    var d := Run(env, steps).log[k];
    var b: nat, f: nat :| b < f && CheckedAt(env, steps, b, d.tx) && FinishedAt(env, steps, f, k, d);
    CommitPays(env, Run(env, steps[..f]).tables, d.tx, steps[f].now, steps[f].id);
    assert PaidAt(env, steps, f, k, d);
  }

  // ---------- redactions ----------

  /** History only grows. */
  lemma {:induction false} LogGrows(env: Env, steps: seq<Step>, b: nat)
    requires b <= |steps|
    ensures Run(env, steps[..b]).log <= Run(env, steps).log
  {
    hide Exec;
    if b == |steps| {
      assert steps[..b] == steps;
    } else {
      var front := steps[..|steps| - 1];
      LogGrows(env, front, b);
      assert front[..b] == steps[..b];
      ExecLogGrows(env, Run(env, front), steps[|steps| - 1]);
    }
  }

  lemma ExecLogGrows(env: Env, s: Sys, step: Step)
    ensures s.log <= Exec(env, s, step).log
  {
    hide Check, Commit, DroppedStreams, NewStreams;
  }

  /** The redaction is of the message that entry `j` posted, by its author for free or by somebody who paid. */
  ghost predicate RedactionSettled(log: seq<Done>, k: nat, j: nat)
    requires k < |log| && log[k].tx.TxRedact?
  {
    var tx := log[k].tx;
    && j < k && IsPost(log[j]) && log[j].value.messageId == tx.messageId
    && log[j].tx.p.orgId == tx.p.orgId && log[j].tx.streamId == tx.streamId && log[j].tx.streamType == tx.streamType
    && (if log[j].tx.p.actorId == tx.p.actorId || "message:redact" in tx.p.scopes then log[k].charged == [] else |log[k].charged| == 1)
  }

  /** The message a checked redaction is about was posted before, and the check compared its author with the caller. */
  lemma CheckedRedaction(env: Env, steps: seq<Step>, b: nat, tx: Tx) returns (j: nat)
    requires CheckedAt(env, steps, b, tx) && tx.TxRedact?
    ensures var log := Run(env, steps[..b]).log;
            && j < |log| && IsPost(log[j]) && log[j].value.messageId == tx.messageId
            && log[j].tx.p.orgId == tx.p.orgId && log[j].tx.streamId == tx.streamId && log[j].tx.streamType == tx.streamType
            && (tx.isAuthor <==> log[j].tx.p.actorId == tx.p.actorId)
  {
    hide Run, Check, Holds, PartsOf, PartRows, RedactedIn, StreamInv, PartsOk, UniqueMessageIds, DistinctPosts, EntryOk, PendingOk;
    var s, call := Run(env, steps[..b]), steps[b].call;
    CheckCarries(s.tables, call, steps[b].now);
    assert call.RedactMessage?;
    RedactAllowedIff(s.tables, call.p, call.messageId, call.reason, steps[b].now);
    var i: nat :| FoundAt(s.tables.messages, call.messageId, i) && MayRedact(s.tables, call.p, s.tables.messages[i], steps[b].now);
    var m := s.tables.messages[i];
    RunKeepsSourceInv(env, steps[..b]);
    assert m in s.tables.messages && Sourced(s.log, s.tables.parts, m);
    j :| j < |s.log| && Posted(s.log[j], m);
  }

  lemma RedactionCharges(grants: seq<Grant>, tx: Tx, value: Value, charged: seq<Id>, now: nat)
    requires tx.TxRedact? && PaysExactly(grants, tx, value, charged, now)
    ensures if tx.isAuthor || "message:redact" in tx.p.scopes then charged == [] else |charged| == 1
  {
    hide OldestLive;
  }

  /**
   * Main result: in every run each redaction is of a message posted before it, in its stream; the
   * author and a holder of the scope redact for free, and anybody else paid with one live grant.
   */
  lemma EveryRedactionIsSettled(env: Env, steps: seq<Step>, k: nat)
    requires var log := Run(env, steps).log; k < |log| && log[k].tx.TxRedact?
    ensures exists j: nat :: RedactionSettled(Run(env, steps).log, k, j)
  {
    hide Run, Check, Commit, PaysExactly;
    RunIsTraced(env, steps);
    var log := Run(env, steps).log;
    var d := log[k];
    assert Explained(env, steps, k, d);
    var b: nat, f: nat :| b < f && CheckedAt(env, steps, b, d.tx) && FinishedAt(env, steps, f, k, d);
    var j := CheckedRedaction(env, steps, b, d.tx);
    LogGrows(env, steps, b);
    LogGrows(env, steps[..f], b);
    assert steps[..f][..b] == steps[..b];
    var t := Run(env, steps[..f]).tables;
    CommitPays(env, t, d.tx, steps[f].now, steps[f].id);
    RedactionCharges(t.grants, d.tx, d.value, d.charged, steps[f].now);
    assert log[j] == Run(env, steps[..b]).log[j];
    assert RedactionSettled(log, k, j);
  }
}
