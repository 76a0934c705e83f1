// Committing a durable stream: its chunks are read back and posted as one message through the
// service's idempotent append, by any number of attempts that may crash at any point.

module DurableCommit {
  import opened Prelude
  import opened AuditChain
  import opened Tables
  import opened ServiceSpec
  import opened ServiceRuns
  import opened Idempotency
  import MessageLaws
  import Source = SourceHistory
  import Deletions
  import D = DurableChunks

  /** The stream's place, and where and as whom it is committed. */
  datatype Target = Target(at: D.Place, p: Principal, streamId: Id, streamType: StreamType)

  /** The default idempotency key. */
  function CommitKey(c: Target): string {
    "dss-commit-" + c.at.streamId + "-" + c.p.actorId
  }

  function CommitIdentity(c: Target): AppendKey {
    AppendKey(c.p.orgId, c.streamId, c.p.actorId, CommitKey(c))
  }

  datatype Attempt =
    | Reading(total: nat, next: nat, text: string)
    | Checked
    | Landed(messageId: Id)

  /** The stream, its `committed_message_id`, commit attempts by call number, and the service. */
  datatype CommitState = CommitState(stream: D.Stream, committedId: Option<Id>, attempts: map<nat, Attempt>, sys: Sys)

  const BEGINNING := CommitState(D.FRESH, None, map[], START)

  datatype Event =
    | Chunks(step: D.ChunkStep)
    | BeginCommit(no: nat)
    | ReadChunk(no: nat)
    | CheckPost(no: nat, now: nat)
    | PostCommit(no: nat, now: nat, id: Id)
    | SaveCommit(no: nat)
    | CrashCommit(no: nat)
    | Elsewhere(call: Step)

  function PostCall(c: Target, text: string): Call {
    AppendMessage(c.p, c.streamId, c.streamType, [TextPart(text)], CommitKey(c), false)
  }

  predicate PostsUnderKey(c: Target, call: Call) {
    call.AppendMessage? && AppendKey(call.p.orgId, call.streamId, call.p.actorId, call.key) == CommitIdentity(c)
  }

  /** Other activity of the service: any step of other calls, except appends that use the commit's own key. */
  predicate Foreign(c: Target, w: CommitState, step: Step) {
    step.callNo !in w.attempts && (step.Begin? ==> !PostsUnderKey(c, step.call))
  }

  function Happen(env: Env, c: Target, w: CommitState, e: Event): CommitState {
    match e
    case Chunks(step) => if step.Leave? && step.status == D.Committed then w else w.(stream := D.Next(c.at, w.stream, step))
    case BeginCommit(no) =>
      if no in w.attempts || no in w.sys.pending || w.committedId.Some? then w
      else w.(attempts := w.attempts[no := Reading(w.stream.count, 1, "")])
    case ReadChunk(no) => if no in w.attempts then w.(attempts := w.attempts[no := ReadNext(c, w.stream, w.attempts[no])]) else w
    case CheckPost(no, now) =>
      if no !in w.attempts || !w.attempts[no].Reading? || w.attempts[no].next <= w.attempts[no].total then w
      else
        var sys := Exec(env, w.sys, Begin(no, PostCall(c, w.attempts[no].text), now));
        w.(sys := sys, attempts := if no in sys.pending then w.attempts[no := Checked] else w.attempts - {no})
    case PostCommit(no, now, id) =>
      if no !in w.attempts || !w.attempts[no].Checked? then w
      else Answered(w, no, Exec(env, w.sys, Finish(no, now, id)))
    case SaveCommit(no) =>
      if no !in w.attempts || !w.attempts[no].Landed? then w
      else
        w.(stream := D.Next(c.at, w.stream, D.Leave(D.Committed)), committedId := Some(w.attempts[no].messageId),
           attempts := w.attempts - {no})
    case CrashCommit(no) =>
      if no !in w.attempts then w else w.(sys := Exec(env, w.sys, Abandon(no)), attempts := w.attempts - {no})
    case Elsewhere(step) => if Foreign(c, w, step) then w.(sys := Exec(env, w.sys, step)) else w
  }

  function ReadNext(c: Target, stream: D.Stream, a: Attempt): Attempt {
    if !a.Reading? || a.next > a.total then a
    else
      var k := D.Key(c.at, a.next);
      a.(text := a.text + (if k in stream.blobs then stream.blobs[k] else ""), next := a.next + 1)
  }

  /** The attempt goes on with the id of the append's answer; an append that failed ends it. */
  function Answered(w: CommitState, no: nat, sys: Sys): CommitState {
    if |sys.log| > |w.sys.log| && sys.log[|sys.log| - 1].value.Appended? then
      w.(sys := sys, attempts := w.attempts[no := Landed(sys.log[|sys.log| - 1].value.messageId)])
    else if no in sys.pending then w.(sys := sys)
    else w.(sys := sys, attempts := w.attempts - {no})
  }

  function History(env: Env, c: Target, es: seq<Event>): CommitState {
    if es == [] then BEGINNING else Happen(env, c, History(env, c, es[..|es| - 1]), es[|es| - 1])
  }

  /** Appends of chunks do not overlap. */
  predicate Orderly(w: CommitState, e: Event) {
    e.Chunks? ==> D.Allowed(w.stream, e.step)
  }

  predicate NoOverlaps(env: Env, c: Target, es: seq<Event>) {
    es == []
    || (NoOverlaps(env, c, es[..|es| - 1]) && Orderly(History(env, c, es[..|es| - 1]), es[|es| - 1]))
  }

  // ---------- what every event keeps ----------

  /** The parts are one text: some first chunks of the stream, joined. */
  ghost predicate IsPrefixText(chunks: seq<string>, parts: seq<MessagePart>) {
    exists n: nat :: n <= |chunks| && parts == [TextPart(D.Concat(chunks[..n]))]
  }

  predicate IsCommitTx(c: Target, tx: Tx) {
    tx.TxAppend? && AppendKey(tx.p.orgId, tx.streamId, tx.p.actorId, tx.key) == CommitIdentity(c)
  }

  /** The append is the one that a commit makes, parts aside. */
  predicate AsCommitted(c: Target, tx: Tx)
    requires tx.TxAppend?
  {
    tx.p == c.p && tx.streamId == c.streamId && tx.streamType == c.streamType && tx.key == CommitKey(c) && c.streamId != ""
  }

  ghost predicate TxOk(c: Target, chunks: seq<string>, tx: Tx) {
    IsCommitTx(c, tx) ==> AsCommitted(c, tx) && IsPrefixText(chunks, tx.parts)
  }

  ghost predicate SysOk(c: Target, chunks: seq<string>, s: Sys) {
    && (forall no :: no in s.pending ==> TxOk(c, chunks, s.pending[no]))
    && (forall i :: 0 <= i < |s.log| ==> TxOk(c, chunks, s.log[i].tx))
  }

  /** The service has answered an append under the commit's key with this id. */
  ghost predicate AnsweredWith(c: Target, log: seq<Done>, messageId: Id) {
    exists i :: 0 <= i < |log| && IsCommitTx(c, log[i].tx) && IsAppend(log[i]) && log[i].value.messageId == messageId
  }

  ghost predicate AttemptOk(c: Target, w: CommitState, no: nat, a: Attempt) {
    match a
    case Reading(total, next, text) =>
      1 <= next <= total + 1 && total <= |w.stream.log| && text == D.Concat(w.stream.log[..next - 1]) && no !in w.sys.pending
    case Checked => no in w.sys.pending && IsCommitTx(c, w.sys.pending[no])
    case Landed(messageId) => AnsweredWith(c, w.sys.log, messageId) && no !in w.sys.pending
  }

  /** What is known of the service in every run. */
  ghost predicate ServiceInv(s: Sys) {
    IdemInv(s) && Source.SourceInv(s) && Deletions.KeyInv(s)
  }

  ghost predicate CommitInv(c: Target, w: CommitState) {
    && D.Inv(c.at, w.stream)
    && ServiceInv(w.sys)
    && SysOk(c, w.stream.log, w.sys)
    && (forall no :: no in w.attempts ==> AttemptOk(c, w, no, w.attempts[no]))
    && (w.committedId.Some? ==> AnsweredWith(c, w.sys.log, w.committedId.value))
  }

  // ---------- what one service step does ----------

  lemma ExecKeepsServiceInv(env: Env, s: Sys, step: Step)
    requires ServiceInv(s)
    ensures ServiceInv(Exec(env, s, step))
  {
    hide Exec, UniqueKeys, Remembered, Agreement, MessageLaws.StreamInv, Source.SourceInv, Source.HistoryMoves, Deletions.KeyInv;
    ExecKeepsIdemInv(env, s, step);
    Source.ExecKeepsSourceInv(env, s, step);
    Deletions.ExecKeepsKeys(env, s, step);
  }

  lemma AppendTxFromCall(t: Tables, call: Call, now: nat)
    requires Check(t, call, now).Ok? && Check(t, call, now).value.TxAppend?
    ensures var tx := Check(t, call, now).value;
            call.AppendMessage? && tx.p == call.p && tx.streamId == call.streamId && tx.key == call.key && tx.parts == call.parts
  {
    hide HasGrant, AdministersChannel, MayResolve, ActiveGrantIds, OrgHasGrant, OrgStreams, Readable, ReadDenial, PartsValid,
         HasCommand, KnownActor, ResolveStream;
  }

  /** How one step can change calls in flight and history. */
  ghost predicate Moves(s: Sys, s': Sys, step: Step) {
    && (s'.log == s.log
        || (step.Finish? && step.callNo in s.pending && |s'.log| == |s.log| + 1 && s'.log[..|s.log|] == s.log
            && s'.log[|s.log|].tx == s.pending[step.callNo] && step.callNo !in s'.pending))
    && (forall no :: no in s'.pending && no != step.callNo ==> no in s.pending && s'.pending[no] == s.pending[no])
    && (forall no :: no in s.pending && no != step.callNo ==> no in s'.pending)
    && (step.callNo in s'.pending && step.callNo in s.pending ==> s'.pending[step.callNo] == s.pending[step.callNo])
    && (step.Begin? || (step.callNo in s'.pending ==> step.callNo in s.pending))
    && (step.Abandon? ==> step.callNo !in s'.pending)
  }

  lemma ExecMoves(env: Env, s: Sys, step: Step)
    ensures Moves(s, Exec(env, s, step), step)
  {
    hide Commit, Check, NewStreams, DroppedStreams;
  }

  /** A committed append is recorded with its answer. */
  lemma CommitAppendAnswers(env: Env, s: Sys, step: Step)
    requires step.Finish? && step.callNo in s.pending && s.pending[step.callNo].TxAppend?
    ensures var s' := Exec(env, s, step); |s'.log| > |s.log| ==> IsAppend(s'.log[|s'.log| - 1])
  {
    hide AppendTx, NewStreams, DroppedStreams;
    var tx := s.pending[step.callNo];
    AppendReportsIt(env, s.tables, tx, step.now, step.id);
  }

  lemma AppendReportsIt(env: Env, t: Tables, tx: Tx, now: nat, id: Id)
    requires tx.TxAppend?
    ensures Commit(env, t, tx, now, id).Committed? ==> Commit(env, t, tx, now, id).value.Appended?
  {
    hide PayForAppend, PostEvents, PartRows, AuditAll;
  }

  lemma MovesKeepSysOk(c: Target, chunks: seq<string>, s: Sys, s': Sys, step: Step)
    requires SysOk(c, chunks, s) && Moves(s, s', step)
    requires step.callNo in s'.pending ==> TxOk(c, chunks, s'.pending[step.callNo])
    ensures SysOk(c, chunks, s')
  {
    hide TxOk;
    forall i | 0 <= i < |s'.log|
      ensures TxOk(c, chunks, s'.log[i].tx)
    {
      if i < |s.log| { assert s'.log[i] == s.log[i]; }
    }
  }

  lemma MovesKeepAnswers(c: Target, s: Sys, s': Sys, step: Step, messageId: Id)
    requires Moves(s, s', step) && AnsweredWith(c, s.log, messageId)
    ensures AnsweredWith(c, s'.log, messageId)
  {
    var i :| 0 <= i < |s.log| && IsCommitTx(c, s.log[i].tx) && IsAppend(s.log[i]) && s.log[i].value.messageId == messageId;
    assert s'.log[i] == s.log[i];
  }

  /** Attempts other than the one stepping are not disturbed. */
  lemma MovesKeepAttempts(c: Target, w: CommitState, w': CommitState, step: Step, no: nat)
    requires w'.stream == w.stream && Moves(w.sys, w'.sys, step)
    requires no in w.attempts && no != step.callNo && AttemptOk(c, w, no, w.attempts[no])
    ensures AttemptOk(c, w', no, w.attempts[no])
  {
    hide IsCommitTx;
    if w.attempts[no].Landed? { MovesKeepAnswers(c, w.sys, w'.sys, step, w.attempts[no].messageId); }
  }

  // ---------- one lemma per event ----------

  lemma LongerPrefix(chunks: seq<string>, longer: seq<string>, parts: seq<MessagePart>)
    requires chunks <= longer && IsPrefixText(chunks, parts)
    ensures IsPrefixText(longer, parts)
  {
    var n: nat :| n <= |chunks| && parts == [TextPart(D.Concat(chunks[..n]))];
    assert longer[..n] == chunks[..n];
  }

  lemma LongerSysOk(c: Target, chunks: seq<string>, longer: seq<string>, s: Sys)
    requires chunks <= longer && SysOk(c, chunks, s)
    ensures SysOk(c, longer, s)
  {
    hide IsCommitTx, IsPrefixText;
    forall tx | TxOk(c, chunks, tx)
      ensures TxOk(c, longer, tx)
    {
      if IsCommitTx(c, tx) {
        CommitTxAppends(c, tx);
        LongerPrefix(chunks, longer, tx.parts);
      }
    }
  }

  lemma StreamMovesKeep(c: Target, w: CommitState, step: D.ChunkStep)
    requires CommitInv(c, w) && D.Plain(c.at.orgId) && D.Plain(c.at.streamId) && D.Allowed(w.stream, step)
    ensures CommitInv(c, w.(stream := D.Next(c.at, w.stream, step)))
  {
    hide D.Inv, ServiceInv, D.Next, D.Allowed, SysOk, IsCommitTx;
    D.NextKeeps(c.at, w.stream, step);
    var w' := w.(stream := D.Next(c.at, w.stream, step));
    LongerSysOk(c, w.stream.log, w'.stream.log, w.sys);
    forall no | no in w.attempts
      ensures AttemptOk(c, w', no, w.attempts[no])
    {
      assert AttemptOk(c, w, no, w.attempts[no]);
      var a := w.attempts[no];
      if a.Reading? { assert w'.stream.log[..a.next - 1] == w.stream.log[..a.next - 1]; }
    }
  }

  lemma ReadKeeps(c: Target, w: CommitState, no: nat)
    requires CommitInv(c, w) && no in w.attempts
    ensures CommitInv(c, w.(attempts := w.attempts[no := ReadNext(c, w.stream, w.attempts[no])]))
  {
    hide ServiceInv, SysOk, IsCommitTx, D.WritersOk, D.TailOk, D.Key;
    var a := w.attempts[no];
    assert AttemptOk(c, w, no, a);
    if a.Reading? && a.next <= a.total {
      var log := w.stream.log;
      assert D.Holds(c.at, w.stream.blobs, a.next, log[a.next - 1]);
      assert log[..a.next][..a.next - 1] == log[..a.next - 1];
    }
  }

  lemma CheckedIsCommit(env: Env, c: Target, s: Sys, no: nat, text: string, now: nat)
    requires no !in s.pending
    ensures var s' := Exec(env, s, Begin(no, PostCall(c, text), now));
            no in s'.pending ==>
              IsCommitTx(c, s'.pending[no]) && AsCommitted(c, s'.pending[no]) && s'.pending[no].parts == [TextPart(text)]
  {
    hide HasGrant, KnownActor, Readable, ReadDenial, PartsValid, HasCommand, ResolveStream;
  }

  lemma CheckKeeps(env: Env, c: Target, w: CommitState, no: nat, now: nat)
    requires CommitInv(c, w) && no in w.attempts && w.attempts[no].Reading? && w.attempts[no].next > w.attempts[no].total
    ensures CommitInv(c, Happen(env, c, w, CheckPost(no, now)))
  {
    hide D.Inv, ServiceInv, Exec, SysOk, IsCommitTx, Moves;
    var a := w.attempts[no];
    assert AttemptOk(c, w, no, a);
    var step := Begin(no, PostCall(c, a.text), now);
    var w' := Happen(env, c, w, CheckPost(no, now));
    ExecMoves(env, w.sys, step);
    ExecKeepsServiceInv(env, w.sys, step);
    CheckedIsCommit(env, c, w.sys, no, a.text, now);
    assert no in w'.sys.pending ==> TxOk(c, w.stream.log, w'.sys.pending[no]) by {
      assert a.total <= |w.stream.log|;
      assert IsPrefixText(w.stream.log, [TextPart(D.Concat(w.stream.log[..a.total]))]);
    }
    MovesKeepSysOk(c, w.stream.log, w.sys, w'.sys, step);
    OthersKept(c, w, w', step, no);
  }

  /** The parts of the invariant that do not concern the attempt that moved. */
  lemma OthersKept(c: Target, w: CommitState, w': CommitState, step: Step, no: nat)
    requires CommitInv(c, w) && w'.stream == w.stream && w'.committedId == w.committedId && Moves(w.sys, w'.sys, step)
    requires step.callNo == no
    ensures forall k :: k in w.attempts && k != no ==> AttemptOk(c, w', k, w.attempts[k])
    ensures w'.committedId.Some? ==> AnsweredWith(c, w'.sys.log, w'.committedId.value)
  {
    hide D.Inv, ServiceInv, SysOk, AttemptOk, AnsweredWith, Moves;
    forall k | k in w.attempts && k != no
      ensures AttemptOk(c, w', k, w.attempts[k])
    {
      MovesKeepAttempts(c, w, w', step, k);
    }
    if w.committedId.Some? { MovesKeepAnswers(c, w.sys, w'.sys, step, w.committedId.value); }
  }

  lemma PostKeeps(env: Env, c: Target, w: CommitState, no: nat, now: nat, id: Id)
    requires CommitInv(c, w) && no in w.attempts && w.attempts[no].Checked?
    ensures CommitInv(c, Happen(env, c, w, PostCommit(no, now, id)))
  {
    hide D.Inv, ServiceInv, Exec, IsCommitTx, TxOk;
    assert AttemptOk(c, w, no, w.attempts[no]);
    var step := Finish(no, now, id);
    var sys := Exec(env, w.sys, step);
    var w' := Happen(env, c, w, PostCommit(no, now, id));
    ExecMoves(env, w.sys, step);
    ExecKeepsServiceInv(env, w.sys, step);
    MovesKeepSysOk(c, w.stream.log, w.sys, sys, step);
    OthersKept(c, w, w', step, no);
    if |sys.log| > |w.sys.log| {
      assert w.sys.pending[no].TxAppend? by { CommitTxAppends(c, w.sys.pending[no]); }
      CommitAppendAnswers(env, w.sys, step);
      assert IsCommitTx(c, sys.log[|sys.log| - 1].tx);
      assert AnsweredWith(c, sys.log, sys.log[|sys.log| - 1].value.messageId);
    }
  }

  lemma CommitTxAppends(c: Target, tx: Tx)
    requires IsCommitTx(c, tx)
    ensures tx.TxAppend?
  {
  }

  lemma CrashKeeps(env: Env, c: Target, w: CommitState, no: nat)
    requires CommitInv(c, w)
    ensures CommitInv(c, Happen(env, c, w, CrashCommit(no)))
  {
    hide D.Inv, ServiceInv, Exec, IsCommitTx, TxOk, AnsweredWith;
    var w' := Happen(env, c, w, CrashCommit(no));
    if no in w.attempts {
      ExecMoves(env, w.sys, Abandon(no));
      ExecKeepsServiceInv(env, w.sys, Abandon(no));
      MovesKeepSysOk(c, w.stream.log, w.sys, w'.sys, Abandon(no));
      OthersKept(c, w, w', Abandon(no), no);
    }
  }

  lemma ElsewhereKeeps(env: Env, c: Target, w: CommitState, step: Step)
    requires CommitInv(c, w)
    ensures CommitInv(c, Happen(env, c, w, Elsewhere(step)))
  {
    hide D.Inv, ServiceInv, Exec, AnsweredWith, AttemptOk, SysOk, Moves;
    if Foreign(c, w, step) {
      var w' := Happen(env, c, w, Elsewhere(step));
      ExecMoves(env, w.sys, step);
      ExecKeepsServiceInv(env, w.sys, step);
      ForeignTxOk(env, c, w.stream.log, w.sys, step);
      MovesKeepSysOk(c, w.stream.log, w.sys, w'.sys, step);
      OthersKept(c, w, w', step, step.callNo);
    }
  }

  /** A foreign call's transaction is not an append under the commit's key. */
  lemma ForeignTxOk(env: Env, c: Target, chunks: seq<string>, s: Sys, step: Step)
    requires SysOk(c, chunks, s) && (step.Begin? ==> !PostsUnderKey(c, step.call))
    ensures var s' := Exec(env, s, step); step.callNo in s'.pending ==> TxOk(c, chunks, s'.pending[step.callNo])
  {
    hide Check, Commit, NewStreams, DroppedStreams, IsPrefixText;
    if step.Begin? && step.callNo !in s.pending && Check(s.tables, step.call, step.now).Ok? {
      var tx := Check(s.tables, step.call, step.now).value;
      if tx.TxAppend? { AppendTxFromCall(s.tables, step.call, step.now); }
    }
  }

  lemma SaveKeeps(env: Env, c: Target, w: CommitState, no: nat)
    requires CommitInv(c, w) && D.Plain(c.at.orgId) && D.Plain(c.at.streamId)
    ensures CommitInv(c, Happen(env, c, w, SaveCommit(no)))
  {
    hide D.Inv, ServiceInv, SysOk, D.Next, AnsweredWith, Exec, IsCommitTx;
    if no in w.attempts && w.attempts[no].Landed? {
      StreamMovesKeep(c, w, D.Leave(D.Committed));
      assert AttemptOk(c, w, no, w.attempts[no]);
    }
  }

  lemma BeginKeeps(env: Env, c: Target, w: CommitState, no: nat)
    requires CommitInv(c, w)
    ensures CommitInv(c, Happen(env, c, w, BeginCommit(no)))
  {
    hide D.WritersOk, D.TailOk, D.Holds, ServiceInv, SysOk, AnsweredWith, Exec, IsCommitTx;
    assert w.stream.log[..0] == [];
    assert D.ChunksHeld(c.at, w.stream);
  }

  lemma HappenKeeps(env: Env, c: Target, w: CommitState, e: Event)
    requires CommitInv(c, w) && D.Plain(c.at.orgId) && D.Plain(c.at.streamId) && Orderly(w, e)
    ensures CommitInv(c, Happen(env, c, w, e))
  {
    hide CommitInv, Exec, D.Next, ReadNext, Answered, Foreign, D.Allowed;
    match e
    case Chunks(step) => StreamMovesKeep(c, w, step);
    case BeginCommit(no) => BeginKeeps(env, c, w, no);
    case ReadChunk(no) => if no in w.attempts { ReadKeeps(c, w, no); }
    case CheckPost(no, now) =>
      if no in w.attempts && w.attempts[no].Reading? && w.attempts[no].next > w.attempts[no].total { CheckKeeps(env, c, w, no, now); }
    case PostCommit(no, now, id) => if no in w.attempts && w.attempts[no].Checked? { PostKeeps(env, c, w, no, now, id); }
    case SaveCommit(no) => SaveKeeps(env, c, w, no);
    case CrashCommit(no) => CrashKeeps(env, c, w, no);
    case Elsewhere(step) => ElsewhereKeeps(env, c, w, step);
  }

  // ---------- main results ----------

  lemma BeginningInv(c: Target)
    ensures CommitInv(c, BEGINNING)
  {
    hide IdemInv, Source.SourceInv, Deletions.KeyInv;
    StartIdemInv();
    Source.StartSourceInv();
    Deletions.StartKeys();
    D.FreshInv(c.at);
  }

  lemma {:induction false} HistoryKeeps(env: Env, c: Target, es: seq<Event>)
    requires D.Plain(c.at.orgId) && D.Plain(c.at.streamId) && NoOverlaps(env, c, es)
    ensures CommitInv(c, History(env, c, es))
  {
    hide Happen, CommitInv, Orderly;
    if es == [] {
      BeginningInv(c);
    } else {
      HistoryKeeps(env, c, es[..|es| - 1]);
      HappenKeeps(env, c, History(env, c, es[..|es| - 1]), es[|es| - 1]);
    }
  }

  /** The target stream was not deleted so far. */
  predicate TargetStands(c: Target, log: seq<Done>) {
    forall i :: 0 <= i < |log| ==> c.streamId !in log[i].dropped
  }

  /** While the target stands, all answers under the commit's key name one message, posted once. */
  lemma AnswersAgree(c: Target, s: Sys, i: nat, j: nat)
    requires IdemInv(s) && TargetStands(c, s.log) && i < j < |s.log|
    requires IsAppend(s.log[i]) && IsAppend(s.log[j]) && IsCommitTx(c, s.log[i].tx) && IsCommitTx(c, s.log[j].tx)
    ensures s.log[i].value.messageId == s.log[j].value.messageId && s.log[j].value.idempotent
  {
    hide MessageLaws.StreamInv, UniqueKeys, Remembered;
    assert !DroppedBetween(s.log, i, j, s.log[i].tx.streamId);
    assert Replays(s.log[j], s.log[i]);
  }

  /** The message's stored parts are one text: some first chunks of the stream, joined. */
  ghost predicate HoldsPrefix(chunks: seq<string>, parts: seq<PartRow>, m: Message) {
    exists n: nat :: n <= |chunks| && Source.PartsOf(parts, m.id) == PartRows(m.id, [TextPart(D.Concat(chunks[..n]))])
  }

  lemma CommittedText(c: Target, chunks: seq<string>, s: Sys, m: Message)
    requires Source.SourceInv(s) && SysOk(c, chunks, s)
    requires m in s.tables.messages && KeyOf(m) == CommitIdentity(c) && !m.redacted
    ensures HoldsPrefix(chunks, s.tables.parts, m)
  {
    hide Source.EntryOk, Source.PendingOk, Source.PartsOf, Source.RedactedIn, PartRows, D.Concat, CommitIdentity;
    assert Source.Sourced(s.log, s.tables.parts, m);
    var k :| 0 <= k < |s.log| && Source.Posted(s.log[k], m)
             && Source.PartsOf(s.tables.parts, m.id) == PartRows(m.id, s.log[k].tx.parts);
    assert IsCommitTx(c, s.log[k].tx) && TxOk(c, chunks, s.log[k].tx);
    var n: nat :| n <= |chunks| && s.log[k].tx.parts == [TextPart(D.Concat(chunks[..n]))];
  }

  /**
   * Main result: however many commits are attempted and wherever they crash, the target holds at most
   * one message under the commit's key; its text, until it is redacted, is that of the chunks of some
   * first part of the stream, joined in offset order; every post under the key carried such a text; and
   * only one of them was more than a replay.
   */
  lemma CommitPostsOnce(env: Env, c: Target, es: seq<Event>, i: nat, j: nat)
    requires D.Plain(c.at.orgId) && D.Plain(c.at.streamId) && NoOverlaps(env, c, es)
    ensures var w := History(env, c, es);
            && UniqueKeys(w.sys.tables.messages)
            && (forall m :: m in w.sys.tables.messages && KeyOf(m) == CommitIdentity(c) && !m.redacted ==>
                  HoldsPrefix(w.stream.log, w.sys.tables.parts, m))
            && (i < |w.sys.log| && IsCommitTx(c, w.sys.log[i].tx) ==> IsPrefixText(w.stream.log, w.sys.log[i].tx.parts))
            && (TargetStands(c, w.sys.log) && i < j < |w.sys.log|
                && IsAppend(w.sys.log[i]) && IsAppend(w.sys.log[j]) && IsCommitTx(c, w.sys.log[i].tx) && IsCommitTx(c, w.sys.log[j].tx)
                ==> w.sys.log[i].value.messageId == w.sys.log[j].value.messageId && w.sys.log[j].value.idempotent)
  {
    hide History, NoOverlaps, D.Inv, MessageLaws.StreamInv, UniqueKeys, Remembered, Agreement, IsPrefixText, IsCommitTx, TargetStands;
    HistoryKeeps(env, c, es);
    var s := History(env, c, es).sys;
    forall m | m in s.tables.messages && KeyOf(m) == CommitIdentity(c) && !m.redacted
      ensures HoldsPrefix(History(env, c, es).stream.log, s.tables.parts, m)
    {
      CommittedText(c, History(env, c, es).stream.log, s, m);
    }
    if TargetStands(c, s.log) && i < j < |s.log|
       && IsAppend(s.log[i]) && IsAppend(s.log[j]) && IsCommitTx(c, s.log[i].tx) && IsCommitTx(c, s.log[j].tx) {
      AnswersAgree(c, s, i, j);
    }
  }

  // ---------- a commit posts the whole stream ----------

  function HappenAll(env: Env, c: Target, w: CommitState, es: seq<Event>): CommitState {
    if es == [] then w else Happen(env, c, HappenAll(env, c, w, es[..|es| - 1]), es[|es| - 1])
  }

  predicate OrderlyAll(env: Env, c: Target, w: CommitState, es: seq<Event>) {
    es == [] || (OrderlyAll(env, c, w, es[..|es| - 1]) && Orderly(HappenAll(env, c, w, es[..|es| - 1]), es[|es| - 1]))
  }

  /** How many objects these events read for the attempt. */
  function Reads(es: seq<Event>, no: nat): nat {
    if es == [] then 0 else Reads(es[..|es| - 1], no) + (if es[|es| - 1] == ReadChunk(no) then 1 else 0)
  }

  /** Anything may happen except that the attempt posts or crashes. */
  predicate StillReading(es: seq<Event>, no: nat) {
    forall e :: e in es ==> !(e.CheckPost? && e.no == no) && !(e.CrashCommit? && e.no == no)
  }

  predicate ReadsOn(a: Attempt, a': Attempt, n: nat)
    requires a.Reading?
  {
    a'.Reading? && a'.total == a.total && a'.next == if a.next + n <= a.total + 1 then a.next + n else a.total + 1
  }

  lemma EventReads(env: Env, c: Target, w: CommitState, no: nat, e: Event)
    requires no in w.attempts && w.attempts[no].Reading? && w.attempts[no].next <= w.attempts[no].total + 1
    requires !(e.CheckPost? && e.no == no) && !(e.CrashCommit? && e.no == no)
    ensures var w' := Happen(env, c, w, e);
            no in w'.attempts && ReadsOn(w.attempts[no], w'.attempts[no], if e == ReadChunk(no) then 1 else 0)
  {
    hide Exec, D.Next, D.Key, Foreign;
    match e
    case Chunks(_) =>
    case BeginCommit(_) =>
    case ReadChunk(_) =>
    case CheckPost(_, _) =>
    case PostCommit(_, _, _) =>
    case SaveCommit(_) =>
    case CrashCommit(_) =>
    case Elsewhere(_) =>
  }

  lemma EventGrowsLog(env: Env, c: Target, w: CommitState, e: Event)
    requires D.Inv(c.at, w.stream) && D.Plain(c.at.orgId) && D.Plain(c.at.streamId) && Orderly(w, e)
    ensures w.stream.log <= Happen(env, c, w, e).stream.log
  {
    hide Exec, D.Next, D.Inv, ReadNext, Foreign, D.Allowed;
    if e.Chunks? { D.NextKeeps(c.at, w.stream, e.step); }
    if e.SaveCommit? {
      LeaveIsOrderly(w.stream);
      D.NextKeeps(c.at, w.stream, D.Leave(D.Committed));
    }
  }

  lemma LeaveIsOrderly(s: D.Stream)
    ensures D.Allowed(s, D.Leave(D.Committed))
  {
  }

  lemma InvOfStream(c: Target, w: CommitState)
    requires CommitInv(c, w)
    ensures D.Inv(c.at, w.stream) && w.stream.count == |w.stream.log|
  {
    assert D.ChunksHeld(c.at, w.stream);
  }

  lemma {:induction false} EventsRead(env: Env, c: Target, w: CommitState, no: nat, es: seq<Event>)
    requires CommitInv(c, w) && D.Plain(c.at.orgId) && D.Plain(c.at.streamId) && OrderlyAll(env, c, w, es)
    requires no in w.attempts && w.attempts[no].Reading? && w.attempts[no].next <= w.attempts[no].total + 1 && StillReading(es, no)
    ensures var w' := HappenAll(env, c, w, es);
            && CommitInv(c, w') && w.stream.log <= w'.stream.log
            && no in w'.attempts && ReadsOn(w.attempts[no], w'.attempts[no], Reads(es, no))
  {
    hide Happen, CommitInv, Orderly, D.Inv;
    if es != [] {
      var front, last := es[..|es| - 1], es[|es| - 1];
      EventsRead(env, c, w, no, front);
      assert last in es;
      var before := HappenAll(env, c, w, front);
      InvOfStream(c, before);
      HappenKeeps(env, c, before, last);
      EventReads(env, c, before, no, last);
      EventGrowsLog(env, c, before, last);
    }
  }

  lemma ReadText(c: Target, w: CommitState, no: nat)
    requires CommitInv(c, w) && no in w.attempts && w.attempts[no].Reading? && w.attempts[no].next == w.attempts[no].total + 1
    ensures w.attempts[no].total <= |w.stream.log| && w.attempts[no].text == D.Concat(w.stream.log[..w.attempts[no].total])
  {
    hide ServiceInv, SysOk, AnsweredWith, D.Inv, D.Concat;
    assert AttemptOk(c, w, no, w.attempts[no]);
  }

  lemma Starts(env: Env, c: Target, w: CommitState, no: nat)
    requires no !in w.attempts && no !in w.sys.pending && w.committedId == None
    ensures var w' := Happen(env, c, w, BeginCommit(no));
            w'.stream == w.stream && no in w'.attempts && w'.attempts[no] == Reading(w.stream.count, 1, "")
  {
  }

  /**
   * Main result: after a commit began, and read as many objects as the stream then counted, whatever
   * else happened meanwhile it holds the text of every chunk counted at its beginning.
   */
  lemma CommitReadsAll(env: Env, c: Target, w: CommitState, no: nat, between: seq<Event>)
    requires CommitInv(c, w) && D.Plain(c.at.orgId) && D.Plain(c.at.streamId)
    requires no !in w.attempts && no !in w.sys.pending && w.committedId == None
    requires OrderlyAll(env, c, Happen(env, c, w, BeginCommit(no)), between)
    requires StillReading(between, no) && Reads(between, no) >= w.stream.count
    ensures var w' := HappenAll(env, c, Happen(env, c, w, BeginCommit(no)), between);
            && no in w'.attempts && CommitInv(c, w')
            && w'.attempts[no] == Reading(|w.stream.log|, |w.stream.log| + 1, D.Concat(w.stream.log))
  {
    hide Happen, CommitInv, OrderlyAll, StillReading, Reads, D.Inv, D.Concat;
    Starts(env, c, w, no);
    InvOfStream(c, w);
    BeginKeeps(env, c, w, no);
    var begun := Happen(env, c, w, BeginCommit(no));
    EventsRead(env, c, begun, no, between);
    var w' := HappenAll(env, c, begun, between);
    ReadText(c, w', no);
    assert w'.stream.log[..|w.stream.log|] == w.stream.log;
  }

  /** And what it then posts is that text: the call in flight is the append of it. */
  lemma CommitPostsAll(env: Env, c: Target, w: CommitState, no: nat, text: string, now: nat)
    requires CommitInv(c, w) && no in w.attempts && w.attempts[no].Reading? && w.attempts[no].next > w.attempts[no].total
    requires w.attempts[no].text == text
    ensures var w' := Happen(env, c, w, CheckPost(no, now));
            var r := Check(w.sys.tables, PostCall(c, text), now);
            && (r.Ok? && r.value.TxAppend? ==>
                  && no in w'.attempts && w'.attempts[no] == Checked && no in w'.sys.pending
                  && w'.sys.pending[no].TxAppend? && w'.sys.pending[no].parts == [TextPart(text)]
                  && w'.sys.pending[no].streamId == c.streamId
                  && w'.sys.pending[no].key == "dss-commit-" + c.at.streamId + "-" + c.p.actorId)
            && (r.Err? ==> no !in w'.attempts)
  {
    hide Check, ServiceInv, SysOk, AnsweredWith, D.Inv, D.Concat;
    assert AttemptOk(c, w, no, w.attempts[no]);
    var r := Check(w.sys.tables, PostCall(c, text), now);
    if r.Ok? && r.value.TxAppend? { AppendTxFromCall(w.sys.tables, PostCall(c, text), now); }
  }
}
