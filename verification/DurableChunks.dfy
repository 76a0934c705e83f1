// The storage-backed durable stream (src/plugins/durable-streams-storage.ts): chunks are stored one
// blob at a time and counted last, while tails read and servers crash in between.

module DurableChunks {
  import opened Prelude
  import opened Decimal

  type Id = string

  // ---------- keys ----------

  function Zeros(n: nat): (s: string)
    ensures |s| == n && forall i :: 0 <= i < n ==> s[i] == '0'
  {
    seq(n, i => '0')
  }

  function PadStart(s: string, width: nat): string {
    if |s| >= width then s else Zeros(width - |s|) + s
  }

  function ChunkKey(orgId: Id, streamId: Id, offset: nat): string {
    orgId + "/dss/" + streamId + "/chunk-" + PadStart(Digits(offset), 10)
  }

  /** Generated ids contain no slash. */
  predicate Plain(id: Id) {
    '/' !in id
  }

  lemma {:induction false} ZerosDoNotCount(n: nat, s: string)
    requires forall i :: 0 <= i < |s| ==> '0' <= s[i] <= '9'
    ensures DigitsValue(Zeros(n) + s) == DigitsValue(s)
  {
    if s == "" {
      if n > 0 {
        assert (Zeros(n) + s)[..n - 1] == Zeros(n - 1) + s;
        ZerosDoNotCount(n - 1, s);
      }
    } else {
      var front := s[..|s| - 1];
      assert (Zeros(n) + s)[..|Zeros(n) + s| - 1] == Zeros(n) + front;
      ZerosDoNotCount(n, front);
    }
  }

  lemma PaddedValue(n: nat, width: nat)
    ensures DigitsValue(PadStart(Digits(n), width)) == n
  {
    hide Digits, DigitsValue;
    DigitsRoundTrip(n);
    if |Digits(n)| < width { ZerosDoNotCount(width - |Digits(n)|, Digits(n)); }
  }

  lemma KeyGroups(orgId: Id, streamId: Id, offset: nat)
    ensures ChunkKey(orgId, streamId, offset)
            == orgId + "/" + ("dss" + "/" + (streamId + "/" + ("chunk-" + PadStart(Digits(offset), 10))))
  {
    var n := PadStart(Digits(offset), 10);
    assert "/dss/" == "/" + "dss" + "/" && "/chunk-" == "/" + "chunk-";
    assert ChunkKey(orgId, streamId, offset) == orgId + ("/" + "dss" + "/") + streamId + ("/" + "chunk-") + n;
  }

  /** No two chunks of any streams share a key. */
  lemma ChunkKeyInjective(orgId: Id, streamId: Id, offset: nat, orgId': Id, streamId': Id, offset': nat)
    requires Plain(orgId) && Plain(streamId) && Plain(orgId') && Plain(streamId')
    requires ChunkKey(orgId, streamId, offset) == ChunkKey(orgId', streamId', offset')
    ensures orgId == orgId' && streamId == streamId' && offset == offset'
  {
    KeyGroups(orgId, streamId, offset);
    KeyGroups(orgId', streamId', offset');
    var n, n' := PadStart(Digits(offset), 10), PadStart(Digits(offset'), 10);
    var tail, tail' := streamId + "/" + ("chunk-" + n), streamId' + "/" + ("chunk-" + n');
    SplitAt('/', orgId, orgId', "dss" + "/" + tail, "dss" + "/" + tail');
    SplitAt('/', "dss", "dss", tail, tail');
    SplitAt('/', streamId, streamId', "chunk-" + n, "chunk-" + n');
    assert n == ("chunk-" + n)[6..] && n' == ("chunk-" + n')[6..];
    PaddedValue(offset, 10);
    PaddedValue(offset', 10);
  }

  // ---------- one stream ----------

  datatype Status = Open | Closed | Committed

  datatype Item = Item(offset: nat, text: string)

  /** An append between its check and its count update. */
  datatype Writer = Writer(base: nat, chunks: seq<string>, done: nat)

  datatype Phase =
    | Looking
    | Fetching(total: nat, open: bool, batch: seq<Item>, next: nat)
    | Ended(eof: bool)

  datatype Tail = Tail(start: nat, offset: nat, emitted: seq<Item>, phase: Phase)

  datatype Place = Place(orgId: Id, streamId: Id)

  /**
   * The stream's row, the object store (shared with all other streams), appends and tails in progress,
   * and two notes for the record: the chunks acknowledged so far, and whether the stream was
   * closed while an append was in flight.
   */
  datatype Stream = Stream(
    count: nat, status: Status, blobs: map<string, string>,
    writers: map<nat, Writer>, tails: map<nat, Tail>,
    log: seq<string>, closedEarly: bool)

  const FRESH := Stream(0, Open, map[], map[], map[], [], false)

  datatype ChunkStep =
    | BeginAppend(no: nat, chunks: seq<string>)
    | PutChunk(no: nat)
    | FinishAppend(no: nat)
    | CrashAppend(no: nat)
    | OpenTail(no: nat, start: nat)
    | TailLoad(no: nat)
    | TailGet(no: nat)
    | TailEmit(no: nat)
    | AbortTail(no: nat)
    | Leave(status: Status)
    | PutElsewhere(other: Place, offset: nat, text: string)

  function Key(at: Place, offset: nat): string {
    ChunkKey(at.orgId, at.streamId, offset)
  }

  /** A tail's query: the count and the status in one snapshot. */
  function Load(s: Stream, t: Tail): Tail {
    if t.offset < s.count then t.(phase := Fetching(s.count, s.status == Open, [], t.offset + 1))
    else if s.status != Open then t.(phase := Ended(true))
    else t
  }

  /** One `storage.get`; a missing object is skipped. */
  function Get(at: Place, s: Stream, t: Tail): Tail
    requires t.phase.Fetching?
  {
    var k := Key(at, t.phase.next);
    var batch := t.phase.batch + (if k in s.blobs then [Item(t.phase.next, s.blobs[k])] else []);
    t.(phase := t.phase.(batch := batch, next := t.phase.next + 1))
  }

  /** Sends a batch; an empty one leaves only the status to act on. */
  function Send(t: Tail): Tail
    requires t.phase.Fetching?
  {
    var batch := t.phase.batch;
    if batch != [] then Tail(t.start, batch[|batch| - 1].offset, t.emitted + batch, Looking)
    else if !t.phase.open then t.(phase := Ended(true))
    else t.(phase := Looking)
  }

  function TailStep(at: Place, s: Stream, t: Tail, step: ChunkStep): Tail {
    match step
    case TailLoad(_) => if t.phase.Looking? then Load(s, t) else t
    case TailGet(_) => if t.phase.Fetching? && t.phase.next <= t.phase.total then Get(at, s, t) else t
    case TailEmit(_) => if t.phase.Fetching? && t.phase.next > t.phase.total then Send(t) else t
    case AbortTail(_) => if t.phase.Ended? then t else t.(phase := Ended(false))
    case _ => t
  }

  /** A step that cannot be taken changes nothing. */
  function Next(at: Place, s: Stream, step: ChunkStep): Stream {
    match step
    case BeginAppend(no, chunks) =>
      if no in s.writers || s.status != Open || chunks == [] then s
      else s.(writers := s.writers[no := Writer(s.count, chunks, 0)])
    case PutChunk(no) =>
      if no !in s.writers || s.writers[no].done >= |s.writers[no].chunks| then s
      else
        var w := s.writers[no];
        s.(blobs := s.blobs[Key(at, w.base + w.done + 1) := w.chunks[w.done]], writers := s.writers[no := w.(done := w.done + 1)])
    case FinishAppend(no) =>
      if no !in s.writers || s.writers[no].done < |s.writers[no].chunks| then s
      else
        var w := s.writers[no];
        s.(count := w.base + |w.chunks|, log := s.log + w.chunks, writers := s.writers - {no})
    case CrashAppend(no) => s.(writers := s.writers - {no})
    case OpenTail(no, start) => if no in s.tails then s else s.(tails := s.tails[no := Tail(start, start, [], Looking)])
    case Leave(status) =>
      if status == Open then s
      else s.(status := status, closedEarly := s.closedEarly || (s.status == Open && s.writers != map[]))
    case PutElsewhere(other, offset, text) =>
      if other == at || !Plain(other.orgId) || !Plain(other.streamId) then s else s.(blobs := s.blobs[Key(other, offset) := text])
    case _ =>
      if step.no in s.tails then s.(tails := s.tails[step.no := TailStep(at, s, s.tails[step.no], step)]) else s
  }

  function RunFrom(at: Place, s: Stream, steps: seq<ChunkStep>): Stream {
    if steps == [] then s else Next(at, RunFrom(at, s, steps[..|steps| - 1]), steps[|steps| - 1])
  }

  /** Appends do not overlap: one begins only when none is in flight. */
  predicate Allowed(s: Stream, step: ChunkStep) {
    step.BeginAppend? ==> s.writers == map[]
  }

  predicate OneWriter(at: Place, s: Stream, steps: seq<ChunkStep>) {
    steps == []
    || (OneWriter(at, s, steps[..|steps| - 1]) && Allowed(RunFrom(at, s, steps[..|steps| - 1]), steps[|steps| - 1]))
  }

  // ---------- what every step keeps ----------

  predicate Holds(at: Place, blobs: map<string, string>, offset: nat, text: string) {
    Key(at, offset) in blobs && blobs[Key(at, offset)] == text
  }

  /** Every counted offset holds the chunk appended there. */
  ghost predicate ChunksHeld(at: Place, s: Stream) {
    && s.count == |s.log|
    && forall i :: 0 <= i < |s.log| ==> Holds(at, s.blobs, i + 1, s.log[i])
  }

  ghost predicate WriterOk(at: Place, s: Stream, w: Writer) {
    && w.base == s.count && w.chunks != [] && w.done <= |w.chunks|
    && forall j :: 0 <= j < w.done ==> Holds(at, s.blobs, w.base + j + 1, w.chunks[j])
  }

  ghost predicate WritersOk(at: Place, s: Stream) {
    && (forall v, w :: v in s.writers && w in s.writers ==> v == w)
    && (forall w :: w in s.writers ==> WriterOk(at, s, s.writers[w]))
    && (s.status != Open && !s.closedEarly ==> s.writers == map[])
  }

  /** Chunks `from + 1` to `to` with their offsets. */
  function Items(log: seq<string>, from: nat, to: nat): (r: seq<Item>)
    requires from <= to <= |log|
    ensures |r| == to - from
    ensures forall i :: 0 <= i < |r| ==> r[i] == Item(from + i + 1, log[from + i])
  {
    seq(to - from, i requires 0 <= i < to - from => Item(from + i + 1, log[from + i]))
  }

  /** A tail has sent exactly the chunks after its start, in order; at end of file it has sent them all. */
  ghost predicate TailOk(s: Stream, t: Tail) {
    && t.start <= t.offset
    && (if t.offset <= |s.log| then t.emitted == Items(s.log, t.start, t.offset) else t.emitted == [] && t.offset == t.start)
    && (t.phase.Fetching? ==>
          && t.offset < t.phase.total <= |s.log| && t.offset + 1 <= t.phase.next <= t.phase.total + 1
          && t.phase.batch == Items(s.log, t.offset, t.phase.next - 1))
    && (t.phase == Ended(true) ==> s.status != Open && (s.closedEarly || |s.log| <= t.offset))
  }

  ghost predicate Inv(at: Place, s: Stream) {
    && ChunksHeld(at, s) && WritersOk(at, s)
    && forall r :: r in s.tails ==> TailOk(s, s.tails[r])
  }

  lemma PutKeeps(at: Place, s: Stream, no: nat)
    requires Plain(at.orgId) && Plain(at.streamId) && Inv(at, s)
    ensures Inv(at, Next(at, s, PutChunk(no)))
  {
    hide TailOk, ChunkKey;
    var s' := Next(at, s, PutChunk(no));
    if s' != s {
      var w := s.writers[no];
      var offset := w.base + w.done + 1;
      KeepsOtherOffsets(at, s.blobs, at, offset, w.chunks[w.done]);
      SameLogTails(s, s');
    }
  }

  lemma PutElsewhereKeeps(at: Place, s: Stream, other: Place, offset: nat, text: string)
    requires Plain(at.orgId) && Plain(at.streamId) && Inv(at, s)
    ensures Inv(at, Next(at, s, PutElsewhere(other, offset, text)))
  {
    hide TailOk, ChunkKey;
    var s' := Next(at, s, PutElsewhere(other, offset, text));
    if s' != s {
      KeepsOtherOffsets(at, s.blobs, other, offset, text);
      SameLogTails(s, s');
    }
  }

  lemma SameLogTails(s: Stream, s': Stream)
    requires s'.log == s.log && s'.status == s.status && s'.closedEarly == s.closedEarly && s'.tails == s.tails
    requires forall r :: r in s.tails ==> TailOk(s, s.tails[r])
    ensures forall r :: r in s'.tails ==> TailOk(s', s'.tails[r])
  {
  }

  lemma KeepsOtherOffsets(at: Place, blobs: map<string, string>, other: Place, offset: nat, text: string)
    requires Plain(at.orgId) && Plain(at.streamId) && Plain(other.orgId) && Plain(other.streamId)
    ensures var after := blobs[Key(other, offset) := text];
            && Holds(other, after, offset, text)
            && forall k: nat, x: string :: Holds(at, blobs, k, x) && (at != other || k != offset) ==> Holds(at, after, k, x)
  {
    hide ChunkKey;
    var after := blobs[Key(other, offset) := text];
    forall k: nat, x: string | Holds(at, blobs, k, x) && (at != other || k != offset)
      ensures Holds(at, after, k, x)
    {
      if Key(at, k) == Key(other, offset) {
        ChunkKeyInjective(at.orgId, at.streamId, k, other.orgId, other.streamId, offset);
      }
    }
  }

  lemma FinishKeeps(at: Place, s: Stream, no: nat)
    requires Inv(at, s)
    ensures Inv(at, Next(at, s, FinishAppend(no)))
  {
    hide ChunkKey, Holds;
    var s' := Next(at, s, FinishAppend(no));
    if s' != s {
      var w := s.writers[no];
      assert WriterOk(at, s, w);
      assert s'.writers == map[];
      forall i | 0 <= i < |s'.log|
        ensures Holds(at, s'.blobs, i + 1, s'.log[i])
      {
        if i >= |s.log| {
          assert s'.log[i] == w.chunks[i - |s.log|];
          assert Holds(at, s.blobs, w.base + (i - |s.log|) + 1, w.chunks[i - |s.log|]);
        }
      }
      forall r | r in s'.tails
        ensures TailOk(s', s'.tails[r])
      {
        GrowKeepsTail(s, s', s.tails[r]);
      }
    }
  }

  lemma GrowKeepsTail(s: Stream, s': Stream, t: Tail)
    requires TailOk(s, t) && s.log <= s'.log && s'.status == s.status && s'.closedEarly == s.closedEarly
    requires s.status == Open || s.closedEarly
    ensures TailOk(s', t)
  {
  }

  lemma TailKeeps(at: Place, s: Stream, t: Tail, step: ChunkStep)
    requires ChunksHeld(at, s) && TailOk(s, t) && WritersOk(at, s)
    ensures TailOk(s, TailStep(at, s, t, step))
  {
    hide ChunkKey;
    match step
    case TailLoad(_) =>
    case TailGet(_) =>
      if t.phase.Fetching? && t.phase.next <= t.phase.total {
        assert Holds(at, s.blobs, t.phase.next, s.log[t.phase.next - 1]);
        assert Items(s.log, t.offset, t.phase.next) == Items(s.log, t.offset, t.phase.next - 1) + [Item(t.phase.next, s.log[t.phase.next - 1])];
      }
    case TailEmit(_) =>
      if t.phase.Fetching? && t.phase.next > t.phase.total {
        assert Items(s.log, t.start, t.phase.total) == Items(s.log, t.start, t.offset) + Items(s.log, t.offset, t.phase.total);
      }
    case _ =>
  }

  lemma TailStepKeeps(at: Place, s: Stream, step: ChunkStep)
    requires Inv(at, s) && (step.TailLoad? || step.TailGet? || step.TailEmit? || step.AbortTail?)
    ensures Inv(at, Next(at, s, step))
  {
    hide ChunksHeld, TailStep, TailOk;
    if step.no in s.tails {
      TailKeeps(at, s, s.tails[step.no], step);
      var s' := Next(at, s, step);
      HeldSame(at, s, s');
      forall r | r in s'.tails
        ensures TailOk(s', s'.tails[r])
      {
        SameTail(s, s', s'.tails[r]);
      }
    }
  }

  lemma SameTail(s: Stream, s': Stream, t: Tail)
    requires TailOk(s, t) && s'.log == s.log && s'.status == s.status && s'.closedEarly == s.closedEarly
    ensures TailOk(s', t)
  {
  }

  lemma HeldSame(at: Place, s: Stream, s': Stream)
    requires ChunksHeld(at, s) && s'.log == s.log && s'.blobs == s.blobs && s'.count == s.count
    ensures ChunksHeld(at, s')
  {
  }

  lemma TurnKeeps(at: Place, s: Stream, step: ChunkStep)
    requires Inv(at, s) && Allowed(s, step)
    requires step.BeginAppend? || step.CrashAppend? || step.OpenTail? || step.Leave?
    ensures Inv(at, Next(at, s, step)) && Next(at, s, step).log == s.log
  {
    hide Holds;
    var s' := Next(at, s, step);
    assert step.Leave? && s.status == Open && s.writers == map[] ==> s'.writers == map[];
  }

  lemma NextKeeps(at: Place, s: Stream, step: ChunkStep)
    requires Plain(at.orgId) && Plain(at.streamId) && Inv(at, s) && Allowed(s, step)
    ensures Inv(at, Next(at, s, step))
    ensures s.log <= Next(at, s, step).log
  {
    hide Inv, Allowed;
    match step
    case PutChunk(no) => PutKeeps(at, s, no);
    case PutElsewhere(other, offset, text) => PutElsewhereKeeps(at, s, other, offset, text);
    case FinishAppend(no) => FinishKeeps(at, s, no);
    case TailLoad(_) => TailStepKeeps(at, s, step);
    case TailGet(_) => TailStepKeeps(at, s, step);
    case TailEmit(_) => TailStepKeeps(at, s, step);
    case AbortTail(_) => TailStepKeeps(at, s, step);
    case BeginAppend(no, chunks) => TurnKeeps(at, s, step);
    case CrashAppend(no) => TurnKeeps(at, s, step);
    case OpenTail(no, start) => TurnKeeps(at, s, step);
    case Leave(status) => TurnKeeps(at, s, step);
  }

  // ---------- runs ----------

  lemma {:induction false} RunKeeps(at: Place, s: Stream, steps: seq<ChunkStep>)
    requires Plain(at.orgId) && Plain(at.streamId) && Inv(at, s) && OneWriter(at, s, steps)
    ensures Inv(at, RunFrom(at, s, steps)) && s.log <= RunFrom(at, s, steps).log
  {
    hide Next, Inv, Allowed;
    if steps != [] {
      var front := steps[..|steps| - 1];
      RunKeeps(at, s, front);
      NextKeeps(at, RunFrom(at, s, front), steps[|steps| - 1]);
    }
  }

  lemma {:induction false} RunAppend(at: Place, s: Stream, a: seq<ChunkStep>, b: seq<ChunkStep>)
    ensures RunFrom(at, s, a + b) == RunFrom(at, RunFrom(at, s, a), b)
    ensures OneWriter(at, s, a + b) <==> OneWriter(at, s, a) && OneWriter(at, RunFrom(at, s, a), b)
  {
    hide Next, Allowed;
    if b == [] {
      assert a + b == a;
    } else {
      var front := b[..|b| - 1];
      assert (a + b)[..|a + b| - 1] == a + front;
      RunAppend(at, s, a, front);
    }
  }

  lemma FreshInv(at: Place)
    ensures Inv(at, FRESH)
  {
  }

  /**
   * Main result: with one writer at a time, whatever tails, crashes and other streams do in between,
   * every counted offset holds the chunk acknowledged there, and holds it ever after.
   */
  lemma ChunksStay(at: Place, steps: seq<ChunkStep>, more: seq<ChunkStep>)
    requires Plain(at.orgId) && Plain(at.streamId) && OneWriter(at, FRESH, steps + more)
    ensures var s, s' := RunFrom(at, FRESH, steps), RunFrom(at, FRESH, steps + more);
            && s.count == |s.log| && s.log <= s'.log
            && forall i :: 0 <= i < s.count ==> Holds(at, s.blobs, i + 1, s.log[i]) && Holds(at, s'.blobs, i + 1, s.log[i])
  {
    hide RunFrom, OneWriter, WritersOk, TailOk, Holds;
    FreshInv(at);
    RunAppend(at, FRESH, steps, more);
    RunKeeps(at, FRESH, steps);
    RunKeeps(at, RunFrom(at, FRESH, steps), more);
  }

  /** A run in which two acknowledged appends share an offset, and the first chunk is lost. */
  lemma OverlappingAppendsOverwrite(at: Place)
    ensures var s := RunFrom(at, FRESH, [BeginAppend(0, ["a"]), BeginAppend(1, ["b"]), PutChunk(0), PutChunk(1), FinishAppend(0), FinishAppend(1)]);
            s.log == ["a", "b"] && s.count == 1 && Holds(at, s.blobs, 1, "b")
  {
    hide Key, RunFrom, OneWriter;
    var all := [BeginAppend(0, ["a"]), BeginAppend(1, ["b"]), PutChunk(0), PutChunk(1), FinishAppend(0), FinishAppend(1)];
    var s1 := Next(at, FRESH, all[0]);
    var s2 := Next(at, s1, all[1]);
    assert s2.writers == map[0 := Writer(0, ["a"], 0), 1 := Writer(0, ["b"], 0)];
    var s3 := Next(at, s2, all[2]);
    var s4 := Next(at, s3, all[3]);
    var s5 := Next(at, s4, all[4]);
    var s6 := Next(at, s5, all[5]);
    assert s5.log == ["a"] && s6.log == ["a"] + ["b"];
    assert all[..1] == [all[0]] && all[..2] == all[..1] + [all[1]] && all[..3] == all[..2] + [all[2]];
    assert all[..4] == all[..3] + [all[3]] && all[..5] == all[..4] + [all[4]] && all == all[..5] + [all[5]];
    OneStep(at, FRESH, all[0]);
    OneMoreStep(at, FRESH, all[..1], all[1]);
    OneMoreStep(at, FRESH, all[..2], all[2]);
    OneMoreStep(at, FRESH, all[..3], all[3]);
    OneMoreStep(at, FRESH, all[..4], all[4]);
    OneMoreStep(at, FRESH, all[..5], all[5]);
  }

  lemma OneMoreStep(at: Place, s: Stream, steps: seq<ChunkStep>, step: ChunkStep)
    ensures RunFrom(at, s, steps + [step]) == Next(at, RunFrom(at, s, steps), step)
  {
    hide Next;
    assert (steps + [step])[..|steps|] == steps;
  }

  /** Main result: a tail opened at k sends chunks k + 1, k + 2, ... once each, in order, with their texts. */
  lemma TailSendsInOrder(at: Place, steps: seq<ChunkStep>, no: nat)
    requires Plain(at.orgId) && Plain(at.streamId) && OneWriter(at, FRESH, steps) && no in RunFrom(at, FRESH, steps).tails
    ensures var s := RunFrom(at, FRESH, steps); var t := s.tails[no];
            && t.start <= t.offset && |t.emitted| == t.offset - t.start
            && forall i :: 0 <= i < |t.emitted| ==>
                 t.start + i < |s.log| && t.emitted[i] == Item(t.start + i + 1, s.log[t.start + i])
  {
    hide RunFrom, OneWriter, WritersOk, ChunksHeld;
    FreshInv(at);
    RunKeeps(at, FRESH, steps);
    var s := RunFrom(at, FRESH, steps);
    assert TailOk(s, s.tails[no]);
  }

  /** Once a stream is closed with no append in flight, its chunks are final. */
  lemma {:induction false} ClosedIsFinal(at: Place, s: Stream, steps: seq<ChunkStep>)
    requires s.status != Open && s.writers == map[]
    ensures var s' := RunFrom(at, s, steps);
            s'.log == s.log && s'.status != Open && s'.writers == map[] && s'.closedEarly == s.closedEarly
  {
    hide TailStep;
    if steps != [] {
      ClosedIsFinal(at, s, steps[..|steps| - 1]);
    }
  }

  /**
   * Main result: unless the stream was closed while an append was in flight, a tail that reports end
   * of file has sent every chunk after its start, and no chunk will ever follow.
   */
  lemma EofIsComplete(at: Place, steps: seq<ChunkStep>, more: seq<ChunkStep>, no: nat)
    requires Plain(at.orgId) && Plain(at.streamId) && OneWriter(at, FRESH, steps)
    requires no in RunFrom(at, FRESH, steps).tails && RunFrom(at, FRESH, steps).tails[no].phase == Ended(true)
    requires !RunFrom(at, FRESH, steps).closedEarly
    ensures var s := RunFrom(at, FRESH, steps);
            RunFrom(at, FRESH, steps + more).log == s.log && |s.log| <= s.tails[no].offset
  {
    hide RunFrom, OneWriter, ChunksHeld, WriterOk;
    FreshInv(at);
    RunKeeps(at, FRESH, steps);
    var s := RunFrom(at, FRESH, steps);
    assert TailOk(s, s.tails[no]);
    RunAppend(at, FRESH, steps, more);
    ClosedIsFinal(at, s, more);
  }

  // ---------- a tail's progress ----------

  /** How many objects these steps fetch for the tail. */
  function Gets(steps: seq<ChunkStep>, no: nat): nat {
    if steps == [] then 0
    else Gets(steps[..|steps| - 1], no) + (if steps[|steps| - 1] == TailGet(no) then 1 else 0)
  }

  /** Everybody else may do anything; the tail itself neither sends nor is aborted. */
  predicate StillFetching(steps: seq<ChunkStep>, no: nat) {
    TailEmit(no) !in steps && AbortTail(no) !in steps
  }

  /** The tail is fetching the same batch, `k` objects further on. */
  predicate Further(t: Tail, t': Tail, k: nat)
    requires t.phase.Fetching?
  {
    && t'.phase.Fetching? && t'.start == t.start && t'.offset == t.offset && t'.emitted == t.emitted
    && t'.phase.total == t.phase.total && t'.phase.open == t.phase.open
    && t'.phase.next == (if t.phase.next + k <= t.phase.total + 1 then t.phase.next + k else t.phase.total + 1)
  }

  lemma StepFetches(at: Place, s: Stream, no: nat, step: ChunkStep)
    requires no in s.tails && s.tails[no].phase.Fetching? && s.tails[no].phase.next <= s.tails[no].phase.total + 1
    requires step != TailEmit(no) && step != AbortTail(no)
    ensures var s' := Next(at, s, step);
            no in s'.tails && Further(s.tails[no], s'.tails[no], if step == TailGet(no) then 1 else 0)
  {
    hide Key, Plain;
    match step
    case PutChunk(_) =>
    case FinishAppend(_) =>
    case CrashAppend(_) =>
    case Leave(_) =>
    case BeginAppend(_, _) =>
    case OpenTail(_, _) =>
    case PutElsewhere(_, _, _) =>
    case _ =>
  }

  lemma {:induction false} StepsFetch(at: Place, s: Stream, no: nat, steps: seq<ChunkStep>)
    requires no in s.tails && s.tails[no].phase.Fetching? && s.tails[no].phase.next <= s.tails[no].phase.total + 1
    requires StillFetching(steps, no)
    ensures var s' := RunFrom(at, s, steps);
            no in s'.tails && Further(s.tails[no], s'.tails[no], Gets(steps, no))
  {
    hide Next;
    if steps != [] {
      var front, last := steps[..|steps| - 1], steps[|steps| - 1];
      StepsFetch(at, s, no, front);
      assert last in steps;
      StepFetches(at, RunFrom(at, s, front), no, last);
    }
  }

  /** A tail that looks and finds chunks it has not sent takes them all into its batch. */
  lemma LoadTakesAll(at: Place, s: Stream, no: nat)
    requires no in s.tails && s.tails[no].phase == Looking && s.tails[no].offset < s.count
    ensures var t := s.tails[no];
            Next(at, s, TailLoad(no)) == s.(tails := s.tails[no := t.(phase := Fetching(s.count, s.status == Open, [], t.offset + 1))])
  {
  }

  lemma EmitSends(at: Place, s: Stream, no: nat)
    requires no in s.tails && TailOk(s, s.tails[no])
    requires s.tails[no].phase.Fetching? && s.tails[no].phase.next == s.tails[no].phase.total + 1
    ensures var t := s.tails[no];
            Next(at, s, TailEmit(no)).tails[no] == Tail(t.start, t.phase.total, t.emitted + Items(s.log, t.offset, t.phase.total), Looking)
  {
    var batch := s.tails[no].phase.batch;
    assert batch[|batch| - 1].offset == s.tails[no].phase.total;
  }

  /** One pass of a tail: it looks, fetches what it saw while anything else goes on, and sends. */
  function Pass(no: nat, between: seq<ChunkStep>): seq<ChunkStep> {
    [TailLoad(no)] + between + [TailEmit(no)]
  }

  /**
   * Main result: a tail makes progress. A pass that begins with chunks to send ends with exactly those
   * sent and the tail beyond them, whatever else happens during the pass.
   */
  lemma TailPassSends(at: Place, s: Stream, no: nat, between: seq<ChunkStep>)
    requires Plain(at.orgId) && Plain(at.streamId) && Inv(at, s) && OneWriter(at, s, [TailLoad(no)] + between)
    requires no in s.tails && s.tails[no].phase == Looking && s.tails[no].offset < s.count
    requires StillFetching(between, no) && Gets(between, no) >= s.count - s.tails[no].offset
    ensures var t, s' := s.tails[no], RunFrom(at, s, Pass(no, between));
            && no in s'.tails && s'.tails[no] == Tail(t.start, s.count, t.emitted + Items(s.log, t.offset, s.count), Looking)
  {
    hide OneWriter, RunFrom, Key, Holds;
    var t := s.tails[no];
    var upTo := [TailLoad(no)] + between;
    var s1, s2 := Next(at, s, TailLoad(no)), RunFrom(at, s, upTo);
    LoadTakesAll(at, s, no);
    OneStep(at, s, TailLoad(no));
    RunAppend(at, s, [TailLoad(no)], between);
    StepsFetch(at, s1, no, between);
    RunKeeps(at, s, upTo);
    OneMoreStep(at, s, upTo, TailEmit(no));
    hide WritersOk, ChunksHeld;
    EmitSends(at, s2, no);
    assert Items(s2.log, t.offset, s.count) == Items(s.log, t.offset, s.count);
    hide Next;
    assert no in Next(at, s2, TailEmit(no)).tails by { TailStays(at, s2, TailEmit(no), no); }
  }

  lemma TailStays(at: Place, s: Stream, step: ChunkStep, no: nat)
    requires no in s.tails
    ensures no in Next(at, s, step).tails
  {
  }

  /** A tail with nothing to send ends exactly if the stream is no longer open, and else keeps looking. */
  lemma TailLoadEndsIff(at: Place, s: Stream, no: nat)
    requires no in s.tails && s.tails[no].phase == Looking && s.tails[no].offset >= s.count
    ensures Next(at, s, TailLoad(no)).tails[no] == s.tails[no].(phase := if s.status == Open then Looking else Ended(true))
  {
  }

  /** Main result: a tail on a stream closed for good reaches its end of file, with every later chunk sent. */
  lemma ClosedStreamIsDrained(at: Place, s: Stream, no: nat, between: seq<ChunkStep>)
    requires Plain(at.orgId) && Plain(at.streamId) && Inv(at, s) && OneWriter(at, s, [TailLoad(no)] + between)
    requires no in s.tails && s.tails[no].phase == Looking && s.tails[no].offset < s.count
    requires StillFetching(between, no) && Gets(between, no) >= s.count - s.tails[no].offset
    requires s.status != Open && s.writers == map[]
    ensures var t, s' := s.tails[no], RunFrom(at, s, Pass(no, between) + [TailLoad(no)]);
            && no in s'.tails && s'.log == s.log
            && s'.tails[no] == Tail(t.start, |s.log|, Items(s.log, t.start, |s.log|), Ended(true))
  {
    hide OneWriter, RunFrom, Key, Holds, Next;
    var t, pass := s.tails[no], Pass(no, between);
    TailPassSends(at, s, no, between);
    assert TailOk(s, t);
    assert Items(s.log, t.start, s.count) == t.emitted + Items(s.log, t.offset, s.count);
    ClosedIsFinal(at, s, pass);
    ClosedIsFinal(at, s, pass + [TailLoad(no)]);
    var s1 := RunFrom(at, s, pass);
    EmittingPassAllowed(at, s, no, between);
    RunKeeps(at, s, pass);
    TailLoadEndsIff(at, s1, no);
    OneMoreStep(at, s, pass, TailLoad(no));
    TailStays(at, s1, TailLoad(no), no);
  }

  lemma EmittingPassAllowed(at: Place, s: Stream, no: nat, between: seq<ChunkStep>)
    requires OneWriter(at, s, [TailLoad(no)] + between)
    ensures OneWriter(at, s, Pass(no, between))
  {
    hide RunFrom;
    var upTo := [TailLoad(no)] + between;
    assert Pass(no, between)[..|upTo|] == upTo;
  }

  // ---------- finishing an append ----------

  /** Finishing an append in flight: its remaining puts, then its count update. */
  function Finishing(no: nat, puts: nat): seq<ChunkStep> {
    seq(puts, i => PutChunk(no)) + [FinishAppend(no)]
  }

  lemma OneStep(at: Place, s: Stream, step: ChunkStep)
    ensures RunFrom(at, s, [step]) == Next(at, s, step)
    ensures OneWriter(at, s, [step]) <==> Allowed(s, step)
  {
    hide Next, Allowed;
    assert [step][..0] == [];
    assert OneWriter(at, s, []) && RunFrom(at, s, []) == s;
  }

  /** The append's chunks were acknowledged and counted, and nothing else was. */
  predicate Acknowledged(s: Stream, s': Stream, no: nat)
    requires no in s.writers
  {
    var w := s.writers[no];
    s'.log == s.log + w.chunks && s'.count == w.base + |w.chunks| && s'.writers == s.writers - {no}
  }

  lemma FinishingNow(at: Place, s: Stream, no: nat)
    requires no in s.writers && s.writers[no].done == |s.writers[no].chunks|
    ensures Acknowledged(s, RunFrom(at, s, Finishing(no, 0)), no)
    ensures OneWriter(at, s, Finishing(no, 0))
  {
    hide RunFrom, OneWriter;
    assert Finishing(no, 0) == [FinishAppend(no)];
    OneStep(at, s, FinishAppend(no));
  }

  lemma FinishingLater(at: Place, s: Stream, no: nat, puts: nat)
    requires puts > 0
    ensures RunFrom(at, s, Finishing(no, puts)) == RunFrom(at, Next(at, s, PutChunk(no)), Finishing(no, puts - 1))
    ensures OneWriter(at, Next(at, s, PutChunk(no)), Finishing(no, puts - 1)) ==> OneWriter(at, s, Finishing(no, puts))
  {
    hide RunFrom, OneWriter, Next;
    assert Finishing(no, puts) == [PutChunk(no)] + Finishing(no, puts - 1);
    OneStep(at, s, PutChunk(no));
    RunAppend(at, s, [PutChunk(no)], Finishing(no, puts - 1));
  }

  lemma {:induction false} FinishingAcknowledges(at: Place, s: Stream, no: nat)
    requires no in s.writers && s.writers[no].done <= |s.writers[no].chunks|
    ensures var w := s.writers[no];
            Acknowledged(s, RunFrom(at, s, Finishing(no, |w.chunks| - w.done)), no)
    ensures OneWriter(at, s, Finishing(no, |s.writers[no].chunks| - s.writers[no].done))
    decreases |s.writers[no].chunks| - s.writers[no].done
  {
    hide RunFrom, OneWriter, Finishing, Key;
    var w := s.writers[no];
    if w.done == |w.chunks| {
      FinishingNow(at, s, no);
    } else {
      FinishingLater(at, s, no, |w.chunks| - w.done);
      FinishingAcknowledges(at, Next(at, s, PutChunk(no)), no);
    }
  }

  // ---------- exactly when an append may begin ----------

  /** Nothing that can still happen takes an acknowledged chunk away, overwrites it or miscounts. */
  ghost predicate SafeFrom(at: Place, s: Stream) {
    forall more :: OneWriter(at, s, more) ==> ChunksHeld(at, RunFrom(at, s, more))
  }

  /** Two appends in flight at once: both can be acknowledged, and the later count hides the earlier. */
  lemma TwoWritersMiscount(at: Place, s: Stream, first: nat, second: nat)
    requires first != second && first in s.writers && second in s.writers
    requires forall no :: no in s.writers ==> s.writers[no].done <= |s.writers[no].chunks| && s.writers[no].base == |s.log|
    requires s.writers[first].chunks != []
    ensures !SafeFrom(at, s)
  {
    hide RunFrom, OneWriter, Finishing;
    var one := Finishing(first, |s.writers[first].chunks| - s.writers[first].done);
    FinishingAcknowledges(at, s, first);
    var mid := RunFrom(at, s, one);
    var two := Finishing(second, |mid.writers[second].chunks| - mid.writers[second].done);
    FinishingAcknowledges(at, mid, second);
    RunAppend(at, s, one, two);
    var end := RunFrom(at, s, one + two);
    assert end.count == |s.log| + |s.writers[second].chunks| && end.log == s.log + s.writers[first].chunks + s.writers[second].chunks;
    assert !ChunksHeld(at, end);
  }

  /**
   * Main result: an append that begins leaves every acknowledged chunk safe, whatever happens next,
   * exactly when no other append is in flight. The handler does not check for one.
   */
  lemma BeginSafeIff(at: Place, s: Stream, no: nat, chunks: seq<string>)
    requires Plain(at.orgId) && Plain(at.streamId) && Inv(at, s)
    requires s.status == Open && chunks != [] && no !in s.writers
    ensures SafeFrom(at, Next(at, s, BeginAppend(no, chunks))) <==> s.writers == map[]
  {
    hide RunFrom, OneWriter, TailOk, Holds;
    var s' := Next(at, s, BeginAppend(no, chunks));
    if s.writers == map[] {
      NextKeeps(at, s, BeginAppend(no, chunks));
      forall more | OneWriter(at, s', more)
        ensures ChunksHeld(at, RunFrom(at, s', more))
      {
        RunKeeps(at, s', more);
      }
    } else {
      var other :| other in s.writers;
      assert WriterOk(at, s, s.writers[other]);
      TwoWritersMiscount(at, s', other, no);
    }
  }

  // ---------- exactly when end of file is the end ----------

  /** Nothing that can still happen brings a chunk beyond `offset`. */
  ghost predicate FinalAt(at: Place, s: Stream, offset: nat) {
    forall more :: OneWriter(at, s, more) ==> |RunFrom(at, s, more).log| <= offset
  }

  /** `offset` covers the acknowledged chunks and those of an append still in flight. */
  predicate CoversInFlight(s: Stream, offset: nat) {
    |s.log| <= offset && forall w :: w in s.writers ==> |s.log| + |s.writers[w].chunks| <= offset
  }

  lemma FinalCovers(at: Place, s: Stream, offset: nat)
    requires Inv(at, s) && FinalAt(at, s, offset)
    ensures CoversInFlight(s, offset)
  {
    hide ChunksHeld, Holds, TailOk;
    assert OneWriter(at, s, []) && RunFrom(at, s, []) == s;
    forall w | w in s.writers
      ensures |s.log| + |s.writers[w].chunks| <= offset
    {
      assert WriterOk(at, s, s.writers[w]);
      FinishingAcknowledges(at, s, w);
    }
  }

  /**
   * Main result: an end of file is final exactly when it covers the acknowledged chunks and those of
   * every append still in flight.
   */
  lemma EofFinalIff(at: Place, s: Stream, no: nat)
    requires Inv(at, s) && no in s.tails && s.tails[no].phase == Ended(true)
    ensures FinalAt(at, s, s.tails[no].offset) <==> CoversInFlight(s, s.tails[no].offset)
  {
    hide ChunksHeld, Holds;
    var offset := s.tails[no].offset;
    if FinalAt(at, s, offset) {
      FinalCovers(at, s, offset);
    }
    if CoversInFlight(s, offset) {
      assert TailOk(s, s.tails[no]);
      assert Bounded(s, offset);
      forall more | OneWriter(at, s, more)
        ensures |RunFrom(at, s, more).log| <= offset
      {
        ClosedGrowsAtMostOnce(at, s, more, offset);
      }
    }
  }

  /** What is in flight when a stream is closed is all that can still arrive. */
  ghost predicate Bounded(s: Stream, offset: nat) {
    && s.status != Open && |s.log| <= offset
    && (forall v, w :: v in s.writers && w in s.writers ==> v == w)
    && (forall w :: w in s.writers ==> |s.log| + |s.writers[w].chunks| <= offset)
  }

  lemma ClosedStep(at: Place, s: Stream, step: ChunkStep, offset: nat)
    requires Bounded(s, offset)
    ensures Bounded(Next(at, s, step), offset)
  {
    hide TailStep, Key, Plain;
    match step
    case PutChunk(no) =>
    case FinishAppend(no) =>
    case CrashAppend(no) =>
    case Leave(status) =>
    case BeginAppend(no, chunks) =>
    case OpenTail(no, start) =>
    case PutElsewhere(other, k, text) =>
    case _ =>
  }

  lemma {:induction false} ClosedGrowsAtMostOnce(at: Place, s: Stream, more: seq<ChunkStep>, offset: nat)
    requires Bounded(s, offset)
    ensures Bounded(RunFrom(at, s, more), offset)
  {
    hide Next, Bounded;
    if more != [] {
      ClosedGrowsAtMostOnce(at, s, more[..|more| - 1], offset);
      ClosedStep(at, RunFrom(at, s, more[..|more| - 1]), more[|more| - 1], offset);
    }
  }

  /** The bad case in full: a close meets an append in flight, a tail ends, and the append is acknowledged after all. */
  lemma EofBeforeLastChunk(at: Place)
    ensures var seen := [BeginAppend(0, ["a"]), OpenTail(0, 0), Leave(Closed), TailLoad(0)];
            var s, s' := RunFrom(at, FRESH, seen), RunFrom(at, FRESH, seen + [PutChunk(0), FinishAppend(0)]);
            && s.log == [] && s.tails == map[0 := Tail(0, 0, [], Ended(true))]
            && s'.log == ["a"] && s'.tails == s.tails
  {
    hide Key, RunFrom, OneWriter;
    var seen := [BeginAppend(0, ["a"]), OpenTail(0, 0), Leave(Closed), TailLoad(0)];
    var s3 := Next(at, Next(at, Next(at, FRESH, seen[0]), seen[1]), seen[2]);
    assert s3.writers == map[0 := Writer(0, ["a"], 0)] && s3.tails == map[0 := Tail(0, 0, [], Looking)];
    var s4 := Next(at, s3, seen[3]);
    assert s4.tails == map[0 := Tail(0, 0, [], Ended(true))];
    assert seen[..1] == [seen[0]] && seen[..2] == seen[..1] + [seen[1]] && seen[..3] == seen[..2] + [seen[2]];
    assert seen == seen[..3] + [seen[3]];
    OneStep(at, FRESH, seen[0]);
    OneMoreStep(at, FRESH, seen[..1], seen[1]);
    OneMoreStep(at, FRESH, seen[..2], seen[2]);
    OneMoreStep(at, FRESH, seen[..3], seen[3]);
    FinishingAcknowledges(at, s4, 0);
    assert Finishing(0, 1) == [PutChunk(0), FinishAppend(0)];
    RunAppend(at, FRESH, seen, Finishing(0, 1));
    PutsKeepTails(at, s4);
  }

  lemma PutsKeepTails(at: Place, s: Stream)
    ensures RunFrom(at, s, [PutChunk(0), FinishAppend(0)]).tails == s.tails
  {
    hide Next, Key;
    var two := [PutChunk(0), FinishAppend(0)];
    assert two == [PutChunk(0)] + [FinishAppend(0)];
    OneStep(at, s, PutChunk(0));
    OneMoreStep(at, s, [PutChunk(0)], FinishAppend(0));
    SameTails(at, s, PutChunk(0));
    SameTails(at, Next(at, s, PutChunk(0)), FinishAppend(0));
  }

  lemma SameTails(at: Place, s: Stream, step: ChunkStep)
    requires step.PutChunk? || step.FinishAppend?
    ensures Next(at, s, step).tails == s.tails
  {
  }

  // ---------- the handlers themselves ----------

  function Concat(chunks: seq<string>): string {
    if chunks == [] then "" else Concat(chunks[..|chunks| - 1]) + chunks[|chunks| - 1]
  }

  /** The assembled text is the chunks one after the other. */
  lemma {:induction false} ConcatInOrder(a: seq<string>, b: seq<string>, x: string)
    ensures Concat([]) == "" && Concat([x]) == x && Concat(a + b) == Concat(a) + Concat(b)
  {
    assert [x][..0] == [];
    if b == [] {
      assert a + b == a;
    } else {
      assert (a + b)[..|a + b| - 1] == a + b[..|b| - 1];
      ConcatInOrder(a, b[..|b| - 1], x);
    }
  }

  function Clamp(low: int, x: int, high: int): (r: int)
    ensures low <= high ==> low <= r <= high
  {
    if x < low then low else if x > high then high else x
  }

  /** A batch read: at most `limit` chunks after `from`. */
  function Page(log: seq<string>, from: nat, limit: nat): seq<Item> {
    if from >= |log| then []
    else if from + limit <= |log| then Items(log, from, from + limit)
    else Items(log, from, |log|)
  }

  /** Reading on from each page's last offset. */
  function AllBatches(log: seq<string>, from: nat, limit: nat): seq<Item>
    requires limit >= 1
    decreases |log| - from
  {
    var page := Page(log, from, limit);
    if page == [] then [] else page + AllBatches(log, page[|page| - 1].offset, limit)
  }

  lemma ItemsSplit(log: seq<string>, a: nat, b: nat, c: nat)
    requires a <= b <= c <= |log|
    ensures Items(log, a, c) == Items(log, a, b) + Items(log, b, c)
  {
  }

  /** Main result: paged reads see every chunk after `from` once, in order, whatever the page size. */
  lemma {:induction false} PagesCoverLog(log: seq<string>, from: nat, limit: nat)
    requires limit >= 1 && from <= |log|
    ensures AllBatches(log, from, limit) == Items(log, from, |log|)
    decreases |log| - from
  {
    var page := Page(log, from, limit);
    if from < |log| {
      var next := if from + limit <= |log| then from + limit else |log|;
      assert page == Items(log, from, next);
      assert page[|page| - 1] == Item(next, log[next - 1]);
      PagesCoverLog(log, next, limit);
      ItemsSplit(log, from, next, |log|);
    } else {
      assert Items(log, from, |log|) == [];
    }
  }

  class DurableStream {
    const at: Place
    var chunkCount: nat
    var status: Status
    var blobs: map<string, string>
    ghost var log: seq<string>

    /** Holds at every await point, so a crash anywhere leaves a readable stream. */
    ghost predicate Valid()
      reads this
    {
      && Plain(at.orgId) && Plain(at.streamId)
      && chunkCount == |log| && forall i :: 0 <= i < |log| ==> Holds(at, blobs, i + 1, log[i])
    }

    constructor (at: Place)
      requires Plain(at.orgId) && Plain(at.streamId)
      ensures Valid() && this.at == at && log == [] && status == Open
    {
      this.at, chunkCount, status, blobs, log := at, 0, Open, map[], [];
    }

    method AppendChunks(chunks: seq<string>) returns (ok: bool)
      requires Valid()
      modifies this
      ensures Valid() && status == old(status)
      ensures ok == (status == Open && chunks != [])
      ensures log == if ok then old(log) + chunks else old(log)
    {
      if status != Open || chunks == [] {
        return false;
      }
      var offset := chunkCount;
      var i := 0;
      while i < |chunks|
        invariant 0 <= i <= |chunks| && offset == chunkCount + i
        invariant Valid() && log == old(log) && status == old(status)
        invariant forall j :: 0 <= j < i ==> Holds(at, blobs, chunkCount + j + 1, chunks[j])
      {
        offset := offset + 1;
        KeepsOtherOffsets(at, blobs, at, offset, chunks[i]);
        blobs := blobs[Key(at, offset) := chunks[i]];
        i := i + 1;
      }
      chunkCount, log := offset, log + chunks;
      return true;
    }

    method ReadBatch(requestedOffset: int, requestedLimit: int) returns (batch: seq<Item>, nextOffset: nat, upToDate: bool)
      requires Valid()
      ensures var from: nat := if requestedOffset < 0 then 0 else requestedOffset;
              && batch == Page(log, from, Clamp(1, requestedLimit, 2000))
              && nextOffset == (if batch == [] then from else batch[|batch| - 1].offset)
              && (upToDate <==> nextOffset >= |log|)
      ensures var from: nat := if requestedOffset < 0 then 0 else requestedOffset;
              var most := if requestedLimit < 1 then 1 else if requestedLimit > 2000 then 2000 else requestedLimit;
              && |batch| <= most && (|batch| == most || from + |batch| >= |log|)
              && forall i :: 0 <= i < |batch| ==> from + i < |log| && batch[i] == Item(from + i + 1, log[from + i])
    {
      hide Key;
      var from: nat := if requestedOffset < 0 then 0 else requestedOffset;
      var limit := Clamp(1, requestedLimit, 2000);
      var last := if from + limit <= chunkCount then from + limit else chunkCount;
      batch := [];
      var i := from + 1;
      assert from <= last ==> Items(log, from, from) == [];
      while i <= last
        invariant from <= last ==> from + 1 <= i <= last + 1 && batch == Items(log, from, i - 1)
        invariant from > last ==> batch == []
      {
        var k := Key(at, i);
        assert Holds(at, blobs, i, log[i - 1]);
        if k in blobs {
          ItemsSplit(log, from, i - 1, i);
          assert Items(log, i - 1, i) == [Item(i, blobs[k])];
          batch := batch + [Item(i, blobs[k])];
        }
        i := i + 1;
      }
      nextOffset := if batch == [] then from else batch[|batch| - 1].offset;
      upToDate := nextOffset >= chunkCount;
    }

    /** The text a commit posts. */
    method Assemble() returns (text: string)
      requires Valid()
      ensures text == Concat(log)
    {
      text := "";
      var i := 1;
      while i <= chunkCount
        invariant 1 <= i <= chunkCount + 1
        invariant text == Concat(log[..i - 1])
      {
        var k := Key(at, i);
        assert Holds(at, blobs, i, log[i - 1]);
        if k in blobs {
          text := text + blobs[k];
        }
        assert log[..i][..i - 1] == log[..i - 1];
        i := i + 1;
      }
      assert log[..i - 1] == log;
    }

    method Close()
      requires Valid()
      modifies `status
      ensures Valid() && status == if old(status) == Open then Closed else old(status)
    {
      if status == Open { status := Closed; }
    }
  }
}
