// The memory and search plugins beside the service: they are told of committed posts and redactions
// in order, each at its own pace, and read the tables as they find them at that moment.

module Projections {
  import opened Prelude
  import opened AuditChain
  import opened Tables
  import opened ServiceSpec
  import opened ServiceRuns
  import opened MessageLaws
  import opened Cascades
  import opened SourceHistory
  import opened MemoryText
  import opened Memory

  // ---------- reading a message's text ----------

  /** The text parts' texts, in order. */
  function Texts(rows: seq<PartRow>): seq<string> {
    if rows == [] then []
    else
      var last := rows[|rows| - 1];
      Texts(rows[..|rows| - 1]) + (if last.part.TextPart? then [last.part.text] else [])
  }

  function NotBlank(): string -> bool {
    (s: string) => Trim(s) != ""
  }

  /** `hydrateTextParts`: what memory reads. */
  function Hydrate(rows: seq<PartRow>): seq<string> {
    Where(Texts(rows), NotBlank())
  }

  /** `firstTextOfMessage`, and only if it is not empty: what search indexes. */
  function FirstText(rows: seq<PartRow>): Option<string> {
    var texts := Texts(rows);
    if texts == [] || texts[0] == "" then None else Some(texts[0])
  }

  /** Row `i` is the first text part, and says `x`. */
  predicate FirstTextAt(rows: seq<PartRow>, i: nat, x: string) {
    i < |rows| && rows[i].part == TextPart(x) && forall j :: 0 <= j < i ==> !rows[j].part.TextPart?
  }

  lemma {:induction false} FirstOfTexts(rows: seq<PartRow>, i: nat, x: string)
    requires FirstTextAt(rows, i, x)
    ensures Texts(rows) != [] && Texts(rows)[0] == x
  {
    var front := rows[..|rows| - 1];
    if i < |front| {
      FirstOfTexts(front, i, x);
    } else {
      NoTexts(front);
    }
  }

  lemma {:induction false} NoTexts(rows: seq<PartRow>)
    requires forall i :: 0 <= i < |rows| ==> !rows[i].part.TextPart?
    ensures Texts(rows) == []
  {
    if rows != [] { NoTexts(rows[..|rows| - 1]); }
  }

  /** The first text part, if there is one. */
  lemma {:induction false} FindFirstText(rows: seq<PartRow>) returns (i: nat)
    ensures i <= |rows| && (i < |rows| ==> rows[i].part.TextPart?) && forall j :: 0 <= j < i ==> !rows[j].part.TextPart?
  {
    i := 0;
    while i < |rows| && !rows[i].part.TextPart?
      invariant i <= |rows| && forall j :: 0 <= j < i ==> !rows[j].part.TextPart?
    {
      i := i + 1;
    }
  }

  /** Search reads the text of the first text part in part order, unless it is empty. */
  lemma FirstTextIff(rows: seq<PartRow>, x: string)
    ensures FirstText(rows) == Some(x) <==> x != "" && exists i: nat :: FirstTextAt(rows, i, x)
  {
    var k := FindFirstText(rows);
    if k < |rows| {
      FirstOfTexts(rows, k, rows[k].part.text);
      assert FirstTextAt(rows, k, rows[k].part.text);
      assert forall i: nat :: FirstTextAt(rows, i, x) ==> i == k;
    } else {
      NoTexts(rows);
    }
  }

  /** Memory reads every text part that says something, in part order. */
  lemma HydrateOneMore(rows: seq<PartRow>, row: PartRow)
    ensures Hydrate([]) == []
    ensures Hydrate(rows + [row]) == Hydrate(rows) + (if row.part.TextPart? && Words(row.part.text) != [] then [row.part.text] else [])
  {
    assert (rows + [row])[..|rows|] == rows;
    if row.part.TextPart? {
      WhereSnoc(Texts(rows), row.part.text, NotBlank());
      BlankIffWordless(row.part.text);
    } else {
      assert Texts(rows + [row]) == Texts(rows);
    }
  }

  // ---------- message documents ----------

  datatype DocKey = DocKey(orgId: Id, messageId: Id)

  datatype MessageDoc = MessageDoc(
    streamId: Id, streamType: StreamType, visibility: Visibility, title: string, body: string, actorId: Id, streamSeq: nat)

  /** A `message.appended` event, as far as the plugins look at it. */
  datatype Appending = Appending(orgId: Id, streamId: Id, streamType: StreamType, messageId: Id, actorId: Id, streamSeq: nat)

  function EventOfPost(d: Done): Appending
    requires IsPost(d)
  {
    Appending(d.tx.p.orgId, d.tx.streamId, d.tx.streamType, d.value.messageId, d.tx.p.actorId, d.value.streamSeq)
  }

  /** The event that backfill makes up for a stored message. */
  function EventOfMessage(m: Message): Appending {
    Appending(m.orgId, m.streamId, m.streamType, m.id, m.actorId, m.streamSeq)
  }

  function DocOf(e: Appending, visibility: Visibility, text: string): MessageDoc {
    MessageDoc(e.streamId, e.streamType, visibility, if |text| > 80 then text[..77] + "\U{2026}" else text, text, e.actorId, e.streamSeq)
  }

  function IndexMessage(t: Tables, docs: map<DocKey, MessageDoc>, e: Appending): map<DocKey, MessageDoc> {
    match FirstText(PartsOf(t.parts, e.messageId))
    case None => docs
    case Some(text) => docs[DocKey(e.orgId, e.messageId) := DocOf(e, VisibilityOf(t, e.streamId, e.streamType), text)]
  }

  /** `backfillExisting`, message by message. */
  function Backfill(t: Tables, messages: seq<Message>): map<DocKey, MessageDoc> {
    if messages == [] then map[]
    else
      var before, last := Backfill(t, messages[..|messages| - 1]), messages[|messages| - 1];
      if last.redacted then before else IndexMessage(t, before, EventOfMessage(last))
  }

  // ---------- the plugins beside the service ----------

  /** The service, how much of its history each plugin has been told, and what they keep. */
  datatype World = World(
    sys: Sys, memoryTold: nat, searchTold: nat,
    memory: Memory, memoryDocs: map<nat, MemoryDoc>, messageDocs: map<DocKey, MessageDoc>)

  const NEW_WORLD := World(START, 0, 0, EMPTY_MEMORY, map[], map[])

  datatype Turn =
    | Serve(step: Step)
    | TellMemory
    | TellSearch
    | PromoteUnit(orgId: Id, unitId: nat, summary: Option<string>)

  function SourceOf(e: Appending, streamType: StreamType, visibility: Visibility): Source {
    Source(e.orgId, e.streamId, streamType, visibility, e.messageId, e.actorId)
  }

  /** `resolveSourceStream`: the stream by id alone, channels first. */
  function ResolveSource(t: Tables, streamId: Id): Option<(StreamType, Visibility)> {
    if streamId in t.channels then Some((ChannelStream, t.channels[streamId].visibility))
    else if streamId in t.threads then Some((ThreadStream, t.threads[streamId].visibility))
    else None
  }

  /** What memory does with one history entry. */
  function MemoryHandles(w: Wording, t: Tables, m: Memory, d: Done): Told {
    if IsPost(d) then
      var e := EventOfPost(d);
      var texts := Hydrate(PartsOf(t.parts, e.messageId));
      var found := ResolveSource(t, e.streamId);
      if texts == [] || found.None? then Told(m, []) else Ingest(w, m, SourceOf(e, found.value.0, found.value.1), texts)
    else if d.tx.TxRedact? then Forget(m, d.tx.p.orgId, d.tx.messageId)
    else Told(m, [])
  }

  function SearchHandles(t: Tables, docs: map<DocKey, MessageDoc>, d: Done): map<DocKey, MessageDoc> {
    if IsPost(d) then IndexMessage(t, docs, EventOfPost(d))
    else if d.tx.TxRedact? then docs - {DocKey(d.tx.p.orgId, d.tx.messageId)}
    else docs
  }

  function Reacted(world: World, told: Told): World {
    world.(memory := told.memory, memoryDocs := ApplyAll(world.memoryDocs, told.notices))
  }

  function TakeTurn(env: Env, w: Wording, world: World, turn: Turn): World {
    match turn
    case Serve(step) => world.(sys := Exec(env, world.sys, step))
    case TellMemory =>
      if world.memoryTold >= |world.sys.log| then world
      else
        Reacted(world.(memoryTold := world.memoryTold + 1),
                   MemoryHandles(w, world.sys.tables, world.memory, world.sys.log[world.memoryTold]))
    case TellSearch =>
      if world.searchTold >= |world.sys.log| then world
      else
        world.(searchTold := world.searchTold + 1,
               messageDocs := SearchHandles(world.sys.tables, world.messageDocs, world.sys.log[world.searchTold]))
    case PromoteUnit(orgId, unitId, summary) => Reacted(world, Promote(world.memory, orgId, unitId, summary))
  }

  function Turns(env: Env, w: Wording, turns: seq<Turn>): World {
    if turns == [] then NEW_WORLD else TakeTurn(env, w, Turns(env, w, turns[..|turns| - 1]), turns[|turns| - 1])
  }

  // ---------- what a plugin finds when it is told of a post ----------

  /** Either the message is gone or redacted and has no parts, or it has all of them. */
  lemma FoundParts(s: Sys, k: nat)
    requires SourceInv(s) && k < |s.log| && IsPost(s.log[k])
    ensures var id := s.log[k].value.messageId; var rows := PartsOf(s.tables.parts, id);
            && (rows != [] ==> rows == PartRows(id, s.log[k].tx.parts) && HasMessage(s.tables.messages, id) && !RedactedIn(s.log, id))
            && (forall m :: m in s.tables.messages && m.id == id ==>
                              Posted(s.log[k], m) && m.redacted == RedactedIn(s.log, id)
                              && (!m.redacted ==> rows == PartRows(id, s.log[k].tx.parts)))
  {
    hide EntryOk, PendingOk, RedactedIn, DistinctPosts, UniqueMessageIds, PartRows;
    var id := s.log[k].value.messageId;
    var rows := PartsOf(s.tables.parts, id);
    forall m | m in s.tables.messages && m.id == id
      ensures Posted(s.log[k], m) && m.redacted == RedactedIn(s.log, id)
              && (!m.redacted ==> rows == PartRows(id, s.log[k].tx.parts))
    {
      PostOfMessage(s, k, m);
      assert Sourced(s.log, s.tables.parts, m);
    }
    if rows != [] {
      assert rows[0] in rows && PartOk(rows[0], s.tables.messages);
    }
  }

  // ---------- memory ----------

  /** The link comes from the `k`-th history entry. */
  ghost predicate LinkFrom(w: Wording, log: seq<Done>, k: nat, l: Link)
    requires k < |log|
  {
    && IsPost(log[k]) && log[k].value.messageId == l.messageId
    && Calls(w, SourceOf(EventOfPost(log[k]), ChannelStream, Private),
             Candidates(Hydrate(PartRows(l.messageId, log[k].tx.parts))), l)
  }

  predicate RedactedBy(log: seq<Done>, told: nat, messageId: Id)
    requires told <= |log|
  {
    exists r :: 0 <= r < told && IsRedaction(log[r], messageId)
  }

  /** Every link goes back to a post that memory was told of, and not told to forget. */
  ghost predicate LinksExplained(w: Wording, world: World)
    requires world.memoryTold <= |world.sys.log|
  {
    forall l :: HasLink(world.memory, l) ==>
      (exists k :: 0 <= k < world.memoryTold && LinkFrom(w, world.sys.log, k, l))
      && !RedactedBy(world.sys.log, world.memoryTold, l.messageId)
  }

  predicate Live(s: Sys, k: nat)
    requires k < |s.log| && IsPost(s.log[k])
  {
    Lives(s.tables, s.log[k].tx.streamId, s.log[k].tx.streamType) && !RedactedIn(s.log, s.log[k].value.messageId)
  }

  /** No link of a post it was told of is missing while the message is there. */
  ghost predicate LinksComplete(w: Wording, world: World)
    requires world.memoryTold <= |world.sys.log|
  {
    forall k, l :: 0 <= k < world.memoryTold && LinkFrom(w, world.sys.log, k, l) && Live(world.sys, k) ==> HasLink(world.memory, l)
  }

  ghost predicate MemoryInv(w: Wording, world: World) {
    && world.memoryTold <= |world.sys.log|
    && MemoryOk(w, world.memory) && Mirrors(world.memoryDocs, world.memory, {})
    && LinksExplained(w, world) && LinksComplete(w, world)
  }

  lemma RedactedLater(s: Sys, s': Sys, id: Id)
    requires s.log <= s'.log
    ensures RedactedIn(s.log, id) ==> RedactedIn(s'.log, id)
  {
    if RedactedIn(s.log, id) {
      var i :| 0 <= i < |s.log| && IsRedaction(s.log[i], id);
      assert IsRedaction(s'.log[i], id);
    }
  }

  /** A post alive after a service step was alive before. */
  lemma LiveBefore(s: Sys, s': Sys, k: nat)
    requires SourceInv(s) && HistoryMoves(s, s') && k < |s.log| && IsPost(s.log[k]) && Live(s', k)
    ensures Live(s, k)
    ensures VisibilityOf(s'.tables, s.log[k].tx.streamId, s.log[k].tx.streamType)
            == VisibilityOf(s.tables, s.log[k].tx.streamId, s.log[k].tx.streamType)
  {
    hide PendingOk, Sourced, PartsOk, UniqueMessageIds, DistinctPosts, PostOk, RedactionOk;
    assert EntryOk(s.tables, s.log, s.usedIds, s.log[k]);
    assert s'.log[k] == s.log[k];
    RedactedLater(s, s', s.log[k].value.messageId);
  }

  lemma ServeKeepsMemory(w: Wording, world: World, sys': Sys)
    requires MemoryInv(w, world) && SourceInv(world.sys) && HistoryMoves(world.sys, sys')
    ensures MemoryInv(w, world.(sys := sys'))
  {
    hide MemoryOk, Mirrors, SourceInv, HasLink, Calls, Live;
    var world' := world.(sys := sys');
    var log, log' := world.sys.log, sys'.log;
    assert forall k :: 0 <= k < |log| ==> log'[k] == log[k];
    forall k, l | 0 <= k < world.memoryTold && LinkFrom(w, log', k, l) && Live(sys', k)
      ensures HasLink(world.memory, l)
    {
      assert LinkFrom(w, log, k, l);
      LiveBefore(world.sys, sys', k);
    }
    forall l | HasLink(world.memory, l)
      ensures exists k :: 0 <= k < world.memoryTold && LinkFrom(w, log', k, l)
      ensures !RedactedBy(log', world.memoryTold, l.messageId)
    {
      var k :| 0 <= k < world.memoryTold && LinkFrom(w, log, k, l);
      assert LinkFrom(w, log', k, l);
    }
  }

  lemma CallsByMessage(w: Wording, a: Source, b: Source, candidates: seq<string>, l: Link)
    requires a.orgId == b.orgId && a.streamId == b.streamId && a.messageId == b.messageId
    ensures Calls(w, a, candidates, l) <==> Calls(w, b, candidates, l)
  {
    hide IsFiller, ContentHash;
    assert forall c :: LinkOf(w, a, c) == LinkOf(w, b, c);
  }

  lemma RedactedByMore(log: seq<Done>, told: nat, id: Id)
    requires told < |log|
    ensures RedactedBy(log, told + 1, id) <==> RedactedBy(log, told, id) || IsRedaction(log[told], id)
    ensures RedactedBy(log, told, id) ==> RedactedIn(log, id)
  {
  }

  /** Told of a post whose parts and stream it finds, memory ingests it; otherwise nothing is called for. */
  lemma PostTold(w: Wording, world: World)
    requires MemoryInv(w, world) && SourceInv(world.sys) && world.memoryTold < |world.sys.log|
    requires IsPost(world.sys.log[world.memoryTold])
    ensures var k := world.memoryTold;
            var r := MemoryHandles(w, world.sys.tables, world.memory, world.sys.log[k]);
            && MemoryOk(w, r.memory) && Mirrors(ApplyAll(world.memoryDocs, r.notices), r.memory, {})
            && (forall l :: HasLink(r.memory, l) ==>
                  HasLink(world.memory, l) || (LinkFrom(w, world.sys.log, k, l) && !RedactedIn(world.sys.log, l.messageId)))
            && (forall l :: HasLink(world.memory, l) ==> HasLink(r.memory, l))
            && (forall l :: LinkFrom(w, world.sys.log, k, l) && Live(world.sys, k) ==> HasLink(r.memory, l))
  {
    hide MemoryOk, Mirrors, HasLink, Calls, Ingest, LinksExplained, LinksComplete, PartsOf, Candidates, PartRows, RedactedIn,
         Sourced, PendingOk, DistinctPosts, PartsOk, UniqueMessageIds;
    var s, k := world.sys, world.memoryTold;
    var e := EventOfPost(s.log[k]);
    var texts := Hydrate(PartsOf(s.tables.parts, e.messageId));
    var found := ResolveSource(s.tables, e.streamId);
    FoundParts(s, k);
    if texts != [] && found.Some? {
      var src := SourceOf(e, found.value.0, found.value.1);
      IngestLinks(w, world.memory, src, texts);
      IngestMirrors(w, world.memoryDocs, world.memory, src, texts);
      forall l
        ensures Calls(w, src, Candidates(texts), l) <==> LinkFrom(w, s.log, k, l)
      {
        CallsByMessage(w, src, SourceOf(e, ChannelStream, Private), Candidates(texts), l);
        CallsNamesMessage(w, src, Candidates(texts), l);
      }
    } else {
      assert EntryOk(s.tables, s.log, s.usedIds, s.log[k]);
      NothingCalled(w, SourceOf(e, ChannelStream, Private));
    }
  }

  lemma CallsNamesMessage(w: Wording, src: Source, candidates: seq<string>, l: Link)
    ensures Calls(w, src, candidates, l) ==> l.messageId == src.messageId && l.orgId == src.orgId && l.streamId == src.streamId
  {
    hide IsFiller, ContentHash;
  }

  lemma NothingCalled(w: Wording, src: Source)
    ensures forall l :: !Calls(w, src, Candidates([]), l)
  {
    hide IsFiller, ContentHash;
  }

  lemma TellPostKeeps(w: Wording, world: World)
    requires MemoryInv(w, world) && SourceInv(world.sys) && world.memoryTold < |world.sys.log|
    requires IsPost(world.sys.log[world.memoryTold])
    ensures MemoryInv(w, Reacted(world.(memoryTold := world.memoryTold + 1),
                                    MemoryHandles(w, world.sys.tables, world.memory, world.sys.log[world.memoryTold])))
  {
    hide MemoryOk, Mirrors, HasLink, LinkFrom, MemoryHandles, ApplyAll, SourceInv, Live, RedactedIn, RedactedBy;
    PostTold(w, world);
    var log, k := world.sys.log, world.memoryTold;
    var r := MemoryHandles(w, world.sys.tables, world.memory, log[k]);
    forall l | HasLink(r.memory, l)
      ensures exists j :: 0 <= j < k + 1 && LinkFrom(w, log, j, l)
      ensures !RedactedBy(log, k + 1, l.messageId)
    {
      RedactedByMore(log, k, l.messageId);
      if HasLink(world.memory, l) {
        var j :| 0 <= j < k && LinkFrom(w, log, j, l);
      } else {
        assert LinkFrom(w, log, k, l);
      }
    }
  }

  lemma TellRedactionKeeps(w: Wording, world: World)
    requires MemoryInv(w, world) && SourceInv(world.sys) && world.memoryTold < |world.sys.log|
    requires world.sys.log[world.memoryTold].tx.TxRedact?
    ensures MemoryInv(w, Reacted(world.(memoryTold := world.memoryTold + 1),
                                    MemoryHandles(w, world.sys.tables, world.memory, world.sys.log[world.memoryTold])))
  {
    hide MemoryOk, Mirrors, HasLink, Forget, ApplyAll, Calls, Candidates, PartRows, Hydrate, RedactedBy,
         Sourced, PendingOk, DistinctPosts, PartsOk, UniqueMessageIds, PostOk;
    var log, k := world.sys.log, world.memoryTold;
    var orgId, id := log[k].tx.p.orgId, log[k].tx.messageId;
    ForgetLinks(w, world.memory, orgId, id);
    ForgetMirrors(w, world.memoryDocs, world.memory, orgId, id);
    var r := Forget(world.memory, orgId, id);
    assert EntryOk(world.sys.tables, log, world.sys.usedIds, log[k]);
    forall l | HasLink(r.memory, l)
      ensures exists j :: 0 <= j < k + 1 && LinkFrom(w, log, j, l)
      ensures !RedactedBy(log, k + 1, l.messageId)
    {
      var j :| 0 <= j < k && LinkFrom(w, log, j, l);
      CallsNamesMessage(w, SourceOf(EventOfPost(log[j]), ChannelStream, Private),
                        Candidates(Hydrate(PartRows(l.messageId, log[j].tx.parts))), l);
      RedactedByMore(log, k, l.messageId);
    }
    forall j, l | 0 <= j < k + 1 && LinkFrom(w, log, j, l) && Live(world.sys, j)
      ensures HasLink(r.memory, l)
    {
      assert IsRedaction(log[k], id);
      assert l.messageId != id;
      assert j != k;
    }
  }

  lemma NoLinkFrom(w: Wording, log: seq<Done>, k: nat)
    requires k < |log| && !IsPost(log[k])
    ensures forall l :: !LinkFrom(w, log, k, l)
  {
    hide Calls;
  }

  lemma OtherIsIgnored(w: Wording, t: Tables, m: Memory, d: Done, docs: map<nat, MemoryDoc>)
    requires !IsPost(d) && !d.tx.TxRedact?
    ensures MemoryHandles(w, t, m, d) == Told(m, []) && ApplyAll(docs, []) == docs
  {
  }

  lemma TellOtherKeeps(w: Wording, world: World)
    requires MemoryInv(w, world) && world.memoryTold < |world.sys.log|
    requires !IsPost(world.sys.log[world.memoryTold]) && !world.sys.log[world.memoryTold].tx.TxRedact?
    ensures MemoryInv(w, Reacted(world.(memoryTold := world.memoryTold + 1),
                                    MemoryHandles(w, world.sys.tables, world.memory, world.sys.log[world.memoryTold])))
  {
    hide MemoryOk, Mirrors, HasLink, LinkFrom, Live, RedactedBy, ApplyAll, MemoryHandles;
    var log, k := world.sys.log, world.memoryTold;
    OtherIsIgnored(w, world.sys.tables, world.memory, log[k], world.memoryDocs);
    NoLinkFrom(w, log, k);
    forall l | HasLink(world.memory, l)
      ensures exists j :: 0 <= j < k + 1 && LinkFrom(w, log, j, l)
      ensures !RedactedBy(log, k + 1, l.messageId)
    {
      var j :| 0 <= j < k && LinkFrom(w, log, j, l);
      RedactedByMore(log, k, l.messageId);
    }
  }

  lemma PromotionKeeps(w: Wording, world: World, orgId: Id, unitId: nat, summary: Option<string>)
    requires MemoryInv(w, world)
    ensures MemoryInv(w, Reacted(world, Promote(world.memory, orgId, unitId, summary)))
  {
    hide MemoryOk, Mirrors, HasLink, Promote, ApplyAll, LinkFrom, Live, RedactedBy;
    PromoteLinks(w, world.memory, orgId, unitId, summary);
    PromoteMirrors(w, world.memoryDocs, world.memory, orgId, unitId, summary);
  }

  // ---------- runs ----------

  ghost predicate WorldInv(w: Wording, world: World) {
    SourceInv(world.sys) && StreamInv(world.sys) && MemoryInv(w, world)
  }

  lemma MemoryOnly(w: Wording, world: World, told: nat, docs: map<DocKey, MessageDoc>)
    requires MemoryInv(w, world)
    ensures MemoryInv(w, world.(searchTold := told, messageDocs := docs))
  {
    hide MemoryOk, Mirrors, HasLink, LinkFrom, Live, RedactedBy;
  }

  lemma TurnKeeps(env: Env, w: Wording, world: World, turn: Turn)
    requires WorldInv(w, world)
    ensures WorldInv(w, TakeTurn(env, w, world, turn))
  {
    hide SourceInv, StreamInv, MemoryInv, Exec, Reacted, MemoryHandles, SearchHandles, Promote;
    assert world.memoryTold <= |world.sys.log| by { ToldInHistory(w, world); }
    match turn
    case Serve(step) =>
      ExecKeepsSourceInv(env, world.sys, step);
      ExecKeepsStreamInv(env, world.sys, step);
      ServeKeepsMemory(w, world, Exec(env, world.sys, step));
    case TellMemory =>
      if world.memoryTold < |world.sys.log| {
        ReactedSys(world.(memoryTold := world.memoryTold + 1),
                      MemoryHandles(w, world.sys.tables, world.memory, world.sys.log[world.memoryTold]));
        if IsPost(world.sys.log[world.memoryTold]) {
          TellPostKeeps(w, world);
        } else if world.sys.log[world.memoryTold].tx.TxRedact? {
          TellRedactionKeeps(w, world);
        } else {
          TellOtherKeeps(w, world);
        }
      }
    case TellSearch =>
      if world.searchTold < |world.sys.log| {
        MemoryOnly(w, world, world.searchTold + 1, SearchHandles(world.sys.tables, world.messageDocs, world.sys.log[world.searchTold]));
      }
    case PromoteUnit(orgId, unitId, summary) =>
      ReactedSys(world, Promote(world.memory, orgId, unitId, summary));
      PromotionKeeps(w, world, orgId, unitId, summary);
  }

  lemma ToldInHistory(w: Wording, world: World)
    requires MemoryInv(w, world)
    ensures world.memoryTold <= |world.sys.log|
  {
  }

  lemma ReactedSys(world: World, told: Told)
    ensures Reacted(world, told).sys == world.sys
  {
  }

  lemma {:induction false} TurnsKeep(env: Env, w: Wording, turns: seq<Turn>)
    ensures WorldInv(w, Turns(env, w, turns))
  {
    hide TakeTurn, WorldInv;
    if turns == [] {
      NewWorldInv(w);
    } else {
      TurnsKeep(env, w, turns[..|turns| - 1]);
      TurnKeeps(env, w, Turns(env, w, turns[..|turns| - 1]), turns[|turns| - 1]);
    }
  }

  lemma NewWorldInv(w: Wording)
    ensures WorldInv(w, NEW_WORLD)
  {
    hide SourceInv, StreamInv, ContentHash;
    StartSourceInv();
    StartStreamInv();
    assert NEW_WORLD.memory == EMPTY_MEMORY && NEW_WORLD.sys == START && NEW_WORLD.memoryDocs == map[];
  }

  // ---------- memory equals recomputation ----------

  /** The message, as it stands in the tables now, calls for the link. */
  ghost predicate CalledBy(w: Wording, t: Tables, m: Message, l: Link) {
    && m.id == l.messageId && !m.redacted
    && Calls(w, SourceOf(EventOfMessage(m), ChannelStream, Private), Candidates(Hydrate(PartsOf(t.parts, m.id))), l)
  }

  ghost predicate Called(w: Wording, t: Tables, l: Link) {
    exists m :: m in t.messages && CalledBy(w, t, m, l)
  }

  lemma LinkIsCalled(w: Wording, world: World, l: Link)
    requires WorldInv(w, world) && world.memoryTold == |world.sys.log| && !Dropped(world.sys.log, l.streamId)
    requires HasLink(world.memory, l)
    ensures Called(w, world.sys.tables, l)
  {
    hide MemoryOk, Mirrors, HasLink, LinksComplete, Calls, PartsOf, Candidates, Hydrate, Dropped, StreamInv, PartRows,
         Sourced, PendingOk, DistinctPosts, PartsOk, UniqueMessageIds, RedactionOk;
    var s := world.sys;
    var k :| 0 <= k < world.memoryTold && LinkFrom(w, s.log, k, l);
    assert EntryOk(s.tables, s.log, s.usedIds, s.log[k]);
    CallsNamesMessage(w, SourceOf(EventOfPost(s.log[k]), ChannelStream, Private),
                      Candidates(Hydrate(PartRows(l.messageId, s.log[k].tx.parts))), l);
    assert HasMessage(s.tables.messages, l.messageId);
    var m :| m in s.tables.messages && m.id == l.messageId;
    FoundParts(s, k);
    assert EventOfMessage(m) == EventOfPost(s.log[k]);
    assert CalledBy(w, s.tables, m, l);
  }

  lemma CalledIsLink(w: Wording, world: World, m: Message, l: Link)
    requires WorldInv(w, world) && world.memoryTold == |world.sys.log| && !Dropped(world.sys.log, l.streamId)
    requires m in world.sys.tables.messages && CalledBy(w, world.sys.tables, m, l)
    ensures HasLink(world.memory, l)
  {
    hide MemoryOk, Mirrors, HasLink, LinksExplained, Calls, PartsOf, Candidates, Hydrate, Dropped, StreamInv, PartRows,
         PendingOk, DistinctPosts, PartsOk, UniqueMessageIds, RedactionOk, RedactedIn;
    var s := world.sys;
    CallsNamesMessage(w, SourceOf(EventOfMessage(m), ChannelStream, Private), Candidates(Hydrate(PartsOf(s.tables.parts, m.id))), l);
    assert Sourced(s.log, s.tables.parts, m);
    var k :| 0 <= k < |s.log| && Posted(s.log[k], m)
             && (!m.redacted ==> PartsOf(s.tables.parts, m.id) == PartRows(m.id, s.log[k].tx.parts));
    assert EntryOk(s.tables, s.log, s.usedIds, s.log[k]);
    assert EventOfMessage(m) == EventOfPost(s.log[k]);
    assert LinkFrom(w, s.log, k, l) && Live(s, k);
  }

  /**
   * Main result: once memory has been told everything, the links of every stream that was never deleted
   * are exactly those that its unredacted messages call for, whatever interleaved before.
   */
  lemma MemoryEqualsRecomputation(env: Env, w: Wording, turns: seq<Turn>, l: Link)
    requires var world := Turns(env, w, turns); world.memoryTold == |world.sys.log| && !Dropped(world.sys.log, l.streamId)
    ensures var world := Turns(env, w, turns); HasLink(world.memory, l) <==> Called(w, world.sys.tables, l)
  {
    hide Turns, HasLink, Dropped, CalledBy, WorldInv;
    TurnsKeep(env, w, turns);
    var world := Turns(env, w, turns);
    if HasLink(world.memory, l) { LinkIsCalled(w, world, l); }
    if Called(w, world.sys.tables, l) {
      var m :| m in world.sys.tables.messages && CalledBy(w, world.sys.tables, m, l);
      CalledIsLink(w, world, m, l);
    }
  }

  /** Memory was told of post `k`, which is still there, and part `i` of it is a short text that is no trifle. */
  predicate ToldShortText(w: Wording, world: World, k: nat, i: nat) {
    && k < world.memoryTold <= |world.sys.log| && IsPost(world.sys.log[k]) && Live(world.sys, k)
    && i < |world.sys.log[k].tx.parts| && world.sys.log[k].tx.parts[i].TextPart?
    && var raw := world.sys.log[k].tx.parts[i].text;
    Words(raw) != [] && Recallable(w, raw)
  }

  lemma {:induction false} HydrateHolds(rows: seq<PartRow>, i: nat)
    requires i < |rows| && rows[i].part.TextPart? && Words(rows[i].part.text) != []
    ensures rows[i].part.text in Hydrate(rows)
  {
    hide Hydrate, Words;
    var front, last := rows[..|rows| - 1], rows[|rows| - 1];
    assert rows == front + [last];
    HydrateOneMore(front, last);
    if i < |front| { HydrateHolds(front, i); }
  }

  /**
   * Main result: in every state, each short text memory was told of, and whose message is still there,
   * can be recalled: a unit of its stream has its words, and names the message among its sources.
   */
  lemma PostsAreRecalled(env: Env, w: Wording, turns: seq<Turn>, k: nat, i: nat)
    requires ToldShortText(w, Turns(env, w, turns), k, i)
    ensures var world := Turns(env, w, turns); var d := world.sys.log[k];
            Recalled(w, world.memory, SourceOf(EventOfPost(d), ChannelStream, Private), d.tx.parts[i].text)
  {
    hide Turns, SourceInv, StreamInv, LinksExplained, Mirrors, HasLink, MemoryOk, Hydrate, Recalls, Live;
    TurnsKeep(env, w, turns);
    var world := Turns(env, w, turns);
    var d := world.sys.log[k];
    var raw, rows := d.tx.parts[i].text, PartRows(d.value.messageId, d.tx.parts);
    var src, text := SourceOf(EventOfPost(d), ChannelStream, Private), Join(Words(raw));
    NormalizeJoinsWords(raw);
    assert Words(raw) != [];
    hide Join, Words, IsFiller, ContentHash;
    HydrateHolds(rows, i);
    var j :| 0 <= j < |Hydrate(rows)| && Hydrate(rows)[j] == raw;
    ChunkIsCandidate(Hydrate(rows), j, text);
    NoTrifle(w, text);
    var l := LinkOf(w, src, text);
    assert LinkFrom(w, world.sys.log, k, l);
    LinkRecalls(w, world.memory, src, text);
  }

  lemma NoTrifle(w: Wording, text: string)
    requires !Trifling(w, text)
    ensures !IsFiller(w.lower, text)
  {
  }

  /** Main result: in every state, units are unique per stream and wording, and none is without a source. */
  lemma UnitsAreUniqueAndSourced(env: Env, w: Wording, turns: seq<Turn>, i: nat, j: nat)
    requires i < |Turns(env, w, turns).memory.units| && j < |Turns(env, w, turns).memory.units|
    ensures var m := Turns(env, w, turns).memory; var u, v := m.units[i], m.units[j];
            && Sources(m.edges, u.id) != []
            && (u.orgId == v.orgId && u.streamId == v.streamId && w.lower(u.canonicalText) == w.lower(v.canonicalText) ==> i == j)
  {
    hide Turns, SourceInv, StreamInv, LinksExplained, LinksComplete, Mirrors;
    TurnsKeep(env, w, turns);
    var m := Turns(env, w, turns).memory;
    assert m.units[i] in m.units && m.units[j] in m.units;
    assert i < j ==> Apart(m.units[i], m.units[j]);
    assert j < i ==> Apart(m.units[j], m.units[i]);
  }

  /** Main result: in every state, however far search lags, its memory documents mirror the units and their sources. */
  lemma SearchMirrorsMemory(env: Env, w: Wording, turns: seq<Turn>)
    ensures var world := Turns(env, w, turns);
            && (forall u :: u in world.memory.units ==>
                  u.id in world.memoryDocs && world.memoryDocs[u.id] == MemoryDoc(u, Sources(world.memory.edges, u.id)))
            && (forall id :: id in world.memoryDocs ==> IsUnitId(world.memory.units, id))
  {
    hide Turns, SourceInv, StreamInv, LinksExplained, LinksComplete, MemoryOk, IsUnitId, Sources;
    TurnsKeep(env, w, turns);
  }

  /** The working hypothesis on the digest. */
  ghost predicate NoCollisions(w: Wording) {
    forall a, b :: w.digest(a) == w.digest(b) ==> a == b
  }

  ghost predicate HasUnitWorded(w: Wording, m: Memory, orgId: Id, streamId: Id, key: string) {
    exists u :: u in m.units && u.orgId == orgId && u.streamId == streamId && w.lower(u.canonicalText) == key
  }

  /** An unredacted message of the stream produces the key, and the key is no filler. */
  ghost predicate Produced(w: Wording, t: Tables, orgId: Id, streamId: Id, key: string) {
    exists m, c :: m in t.messages && Produces(w, t, m, orgId, streamId, key, c)
  }

  ghost predicate Produces(w: Wording, t: Tables, m: Message, orgId: Id, streamId: Id, key: string, c: string) {
    && !m.redacted && m.orgId == orgId && m.streamId == streamId
    && c in Candidates(Hydrate(PartsOf(t.parts, m.id))) && !IsFiller(w.lower, c) && w.lower(c) == key
  }

  lemma HashTellsWording(w: Wording, orgId: Id, streamId: Id, a: string, b: string)
    requires NoCollisions(w) && ContentHash(w, orgId, streamId, a) == ContentHash(w, orgId, streamId, b)
    ensures w.lower(a) == w.lower(b)
  {
    var head := orgId + "|" + streamId + "|";
    assert (head + w.lower(a))[|head|..] == w.lower(a) && (head + w.lower(b))[|head|..] == w.lower(b);
  }

  lemma UnitHasLink(w: Wording, m: Memory, u: Unit) returns (l: Link)
    requires MemoryOk(w, m) && u in m.units
    ensures HasLink(m, l) && l.orgId == u.orgId && l.streamId == u.streamId
            && l.hash == ContentHash(w, u.orgId, u.streamId, u.canonicalText)
  {
    hide ContentHash, DistinctUnits, HasUnit;
    assert Sources(m.edges, u.id) != [];
    var e :| e in m.edges && e.unitId == u.id;
    l := Link(u.orgId, u.streamId, u.hash, e.messageId);
    assert Joins(u, e, l);
  }

  /**
   * Main result: once memory has been told everything, a stream that was never deleted has a unit for a
   * wording exactly if one of its unredacted messages has a candidate of that wording that is no filler.
   */
  lemma UnitsAreCandidateKeys(env: Env, w: Wording, turns: seq<Turn>, orgId: Id, streamId: Id, key: string)
    requires NoCollisions(w)
    requires var world := Turns(env, w, turns); world.memoryTold == |world.sys.log| && !Dropped(world.sys.log, streamId)
    ensures var world := Turns(env, w, turns);
            HasUnitWorded(w, world.memory, orgId, streamId, key) <==> Produced(w, world.sys.tables, orgId, streamId, key)
  {
    hide Turns, ContentHash, IsFiller, Dropped, Candidates, Hydrate, PartsOf, SourceInv, StreamInv, LinksExplained, LinksComplete,
         Mirrors, HasLink, NoCollisions, DistinctUnits;
    TurnsKeep(env, w, turns);
    var world := Turns(env, w, turns);
    var t := world.sys.tables;
    if HasUnitWorded(w, world.memory, orgId, streamId, key) {
      var u :| u in world.memory.units && u.orgId == orgId && u.streamId == streamId && w.lower(u.canonicalText) == key;
      var l := UnitHasLink(w, world.memory, u);
      MemoryEqualsRecomputation(env, w, turns, l);
      var m :| m in t.messages && CalledBy(w, t, m, l);
      var src := SourceOf(EventOfMessage(m), ChannelStream, Private);
      var c :| c in Candidates(Hydrate(PartsOf(t.parts, m.id))) && !IsFiller(w.lower, c) && l == LinkOf(w, src, c);
      HashTellsWording(w, orgId, streamId, c, u.canonicalText);
      assert Produces(w, t, m, orgId, streamId, key, c);
    }
    if Produced(w, t, orgId, streamId, key) {
      var m, c :| m in t.messages && Produces(w, t, m, orgId, streamId, key, c);
      var src := SourceOf(EventOfMessage(m), ChannelStream, Private);
      var l := LinkOf(w, src, c);
      assert CalledBy(w, t, m, l);
      MemoryEqualsRecomputation(env, w, turns, l);
      var u := LinkedUnit(w, world.memory, l);
      HashTellsWording(w, orgId, streamId, c, u.canonicalText);
    }
  }

  lemma LinkedUnit(w: Wording, m: Memory, l: Link) returns (u: Unit)
    requires MemoryOk(w, m) && HasLink(m, l)
    ensures u in m.units && u.orgId == l.orgId && u.streamId == l.streamId
            && l.hash == ContentHash(w, u.orgId, u.streamId, u.canonicalText)
  {
    hide ContentHash, DistinctUnits, HasUnit, Sources;
    var v, e :| v in m.units && e in m.edges && Joins(v, e, l);
    u := v;
  }

  // ---------- what a unit says about its stream ----------

  /** While its stream exists, the unit names its type and visibility; the stream's id is a used one. */
  predicate ShowsStream(s: Sys, u: Unit) {
    && u.streamId in s.usedIds
    && (u.streamId in s.tables.channels ==> u.streamType == ChannelStream && u.visibility == s.tables.channels[u.streamId].visibility)
    && (u.streamId in s.tables.threads ==> u.streamType == ThreadStream && u.visibility == s.tables.threads[u.streamId].visibility)
  }

  predicate UnitsShow(world: World) {
    forall u :: u in world.memory.units ==> ShowsStream(world.sys, u)
  }

  lemma ServeKeepsShowing(s: Sys, s': Sys, u: Unit)
    requires ShowsStream(s, u) && HistoryMoves(s, s') && s.usedIds <= s'.usedIds
    ensures ShowsStream(s', u)
  {
    var x := u.streamId;
    if x in s'.tables.channels { assert Lives(s'.tables, x, ChannelStream); assert Lives(s.tables, x, ChannelStream); }
    if x in s'.tables.threads { assert Lives(s'.tables, x, ThreadStream); assert Lives(s.tables, x, ThreadStream); }
  }

  lemma ExecUsesIds(env: Env, s: Sys, step: Step)
    ensures s.usedIds <= Exec(env, s, step).usedIds
  {
    hide Check, Commit, DroppedStreams, NewStreams;
  }

  lemma IngestShows(w: Wording, s: Sys, m: Memory, d: Done)
    requires SourceInv(s) && d in s.log && forall u :: u in m.units ==> ShowsStream(s, u)
    ensures forall u :: u in MemoryHandles(w, s.tables, m, d).memory.units ==> ShowsStream(s, u)
  {
    hide Sourced, PendingOk, PartsOk, UniqueMessageIds, DistinctPosts, PostOk, RedactionOk, Hydrate, Candidates, RememberAll, SettleAll, Where;
    if IsPost(d) {
      var k :| 0 <= k < |s.log| && s.log[k] == d;
      assert EntryOk(s.tables, s.log, s.usedIds, s.log[k]);
      var e := EventOfPost(d);
      var found := ResolveSource(s.tables, e.streamId);
      var texts := Hydrate(PartsOf(s.tables.parts, e.messageId));
      if texts != [] && found.Some? {
        RememberedUnits(w, Told(m, []), SourceOf(e, found.value.0, found.value.1), Candidates(texts));
        assert s.tables.channels.Keys !! s.tables.threads.Keys;
      }
    } else if d.tx.TxRedact? {
      var orgId, id := d.tx.p.orgId, d.tx.messageId;
      SettledUnits(Told(m.(edges := Where(m.edges, NotFrom(orgId, id))), []), orgId, UnitIds(Where(m.edges, From(orgId, id))));
    }
  }

  lemma PromoteShows(s: Sys, m: Memory, orgId: Id, id: nat, summary: Option<string>)
    requires forall u :: u in m.units ==> ShowsStream(s, u)
    ensures forall u :: u in Promote(m, orgId, id, summary).memory.units ==> ShowsStream(s, u)
  {
    var units := MarkPromoted(m.units, orgId, id, summary);
    forall u | u in units
      ensures ShowsStream(s, u)
    {
      var i :| 0 <= i < |units| && units[i] == u;
      assert m.units[i] in m.units;
    }
  }

  lemma TurnKeepsShowing(env: Env, w: Wording, world: World, turn: Turn)
    requires WorldInv(w, world) && UnitsShow(world)
    ensures UnitsShow(TakeTurn(env, w, world, turn))
  {
    hide SourceInv, StreamInv, MemoryInv, Exec, MemoryHandles, SearchHandles, Promote, ApplyAll, ShowsStream;
    match turn
    case Serve(step) =>
      ExecKeepsSourceInv(env, world.sys, step);
      ExecUsesIds(env, world.sys, step);
      forall u | u in world.memory.units
        ensures ShowsStream(Exec(env, world.sys, step), u)
      {
        ServeKeepsShowing(world.sys, Exec(env, world.sys, step), u);
      }
    case TellMemory =>
      if world.memoryTold < |world.sys.log| { IngestShows(w, world.sys, world.memory, world.sys.log[world.memoryTold]); }
    case PromoteUnit(orgId, unitId, summary) => PromoteShows(world.sys, world.memory, orgId, unitId, summary);
    case TellSearch =>
  }

  /** Main result: in every state each unit of an existing stream carries that stream's type and visibility. */
  lemma {:induction false} UnitsShowTheirStream(env: Env, w: Wording, turns: seq<Turn>)
    ensures UnitsShow(Turns(env, w, turns))
  {
    hide TakeTurn, WorldInv, UnitsShow;
    if turns == [] {
      NothingShown();
    } else {
      var front := turns[..|turns| - 1];
      TurnsKeep(env, w, front);
      UnitsShowTheirStream(env, w, front);
      TurnKeepsShowing(env, w, Turns(env, w, front), turns[|turns| - 1]);
    }
  }

  lemma NothingShown()
    ensures UnitsShow(NEW_WORLD)
  {
    assert NEW_WORLD.memory == EMPTY_MEMORY;
  }
}
