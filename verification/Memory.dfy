// The memory plugin (src/plugins/memory.ts): deduplicated text units derived from messages, with
// edges back to the messages they came from, and the notices it sends to the search index.

module Memory {
  import opened Prelude
  import opened Tables
  import opened MemoryText

  /** Lower-casing and SHA-256 as the runtime provides them. */
  datatype Wording = Wording(lower: string -> string, digest: string -> string)

  /** The message a text comes from, and its stream as found when the message is ingested. */
  datatype Source = Source(orgId: Id, streamId: Id, streamType: StreamType, visibility: Visibility, messageId: Id, actorId: Id)

  datatype Unit = Unit(
    id: nat, orgId: Id, streamId: Id, streamType: StreamType, visibility: Visibility, hash: string,
    canonicalText: string, createdBy: Id, promoted: bool, promotionSummary: Option<string>)

  datatype Edge = Edge(unitId: nat, orgId: Id, messageId: Id)

  datatype Memory = Memory(units: seq<Unit>, edges: seq<Edge>, nextId: nat)

  datatype Notice = Upsert(memoryUnit: Unit, sources: seq<Id>) | Delete(orgId: Id, unitId: nat)

  /** Memory after some work, and the notices the work sent. */
  datatype Told = Told(memory: Memory, notices: seq<Notice>)

  const EMPTY_MEMORY := Memory([], [], 0)

  // ---------- ingestion ----------

  function ContentHash(w: Wording, orgId: Id, streamId: Id, text: string): string {
    w.digest(orgId + "|" + streamId + "|" + w.lower(text))
  }

  function FindUnit(units: seq<Unit>, orgId: Id, streamId: Id, hash: string): (r: Option<Unit>)
    ensures r.None? <==> forall u :: u in units ==> !(u.orgId == orgId && u.streamId == streamId && u.hash == hash)
    ensures r.Some? ==> r.value in units && r.value.orgId == orgId && r.value.streamId == streamId && r.value.hash == hash
  {
    if units == [] then None
    else if units[0].orgId == orgId && units[0].streamId == streamId && units[0].hash == hash then Some(units[0])
    else FindUnit(units[1..], orgId, streamId, hash)
  }

  function UnitById(units: seq<Unit>, orgId: Id, id: nat): (r: Option<Unit>)
    ensures r.None? <==> forall u :: u in units ==> !(u.id == id && u.orgId == orgId)
    ensures r.Some? ==> r.value in units && r.value.id == id && r.value.orgId == orgId
  {
    if units == [] then None
    else if units[0].id == id && units[0].orgId == orgId then Some(units[0])
    else UnitById(units[1..], orgId, id)
  }

  /** The messages a unit comes from. */
  function Sources(edges: seq<Edge>, id: nat): (r: seq<Id>)
    ensures r == [] <==> forall e :: e in edges ==> e.unitId != id
  {
    if edges == [] then []
    else
      var last := edges[|edges| - 1];
      Sources(edges[..|edges| - 1], id) + (if last.unitId == id then [last.messageId] else [])
  }

  function AddEdge(edges: seq<Edge>, e: Edge): seq<Edge> {
    if e in edges then edges else edges + [e]
  }

  /** One candidate: a new unit, or one more edge to the unit that has the same content. */
  function Remember(w: Wording, t: Told, src: Source, text: string): Told {
    if IsFiller(w.lower, text) then t
    else
      var hash := ContentHash(w, src.orgId, src.streamId, text);
      match FindUnit(t.memory.units, src.orgId, src.streamId, hash)
      case Some(u) =>
        var edges := AddEdge(t.memory.edges, Edge(u.id, src.orgId, src.messageId));
        Told(t.memory.(edges := edges), t.notices + [Upsert(u, Sources(edges, u.id))])
      case None =>
        var id := t.memory.nextId;
        var u := Unit(id, src.orgId, src.streamId, src.streamType, src.visibility, hash, text, src.actorId, false, None);
        Told(Memory(t.memory.units + [u], t.memory.edges + [Edge(id, src.orgId, src.messageId)], id + 1),
             t.notices + [Upsert(u, [src.messageId])])
  }

  function RememberAll(w: Wording, t: Told, src: Source, texts: seq<string>): Told {
    if texts == [] then t
    else Remember(w, RememberAll(w, t, src, texts[..|texts| - 1]), src, texts[|texts| - 1])
  }

  /** What all text parts of a message are cut into. */
  function Candidates(texts: seq<string>): seq<string> {
    if texts == [] then [] else Candidates(texts[..|texts| - 1]) + Chunk(NormalizeText(texts[|texts| - 1]))
  }

  function Ingest(w: Wording, m: Memory, src: Source, texts: seq<string>): Told {
    RememberAll(w, Told(m, []), src, Candidates(texts))
  }

  // ---------- redaction and promotion ----------

  function NotFrom(orgId: Id, messageId: Id): Edge -> bool {
    (e: Edge) => !(e.messageId == messageId && e.orgId == orgId)
  }

  function From(orgId: Id, messageId: Id): Edge -> bool {
    (e: Edge) => e.messageId == messageId && e.orgId == orgId
  }

  function NotUnit(orgId: Id, id: nat): Unit -> bool {
    (u: Unit) => !(u.id == id && u.orgId == orgId)
  }

  function UnitIds(edges: seq<Edge>): (r: seq<nat>)
    ensures |r| == |edges| && forall i :: 0 <= i < |edges| ==> r[i] == edges[i].unitId
  {
    seq(|edges|, i requires 0 <= i < |edges| => edges[i].unitId)
  }

  /** A unit that lost an edge goes if that was its last one. */
  function Settle(t: Told, orgId: Id, id: nat): Told {
    if Sources(t.memory.edges, id) == [] then
      Told(t.memory.(units := Where(t.memory.units, NotUnit(orgId, id))), t.notices + [Delete(orgId, id)])
    else
      match UnitById(t.memory.units, orgId, id)
      case Some(u) => t.(notices := t.notices + [Upsert(u, Sources(t.memory.edges, id))])
      case None => t
  }

  function SettleAll(t: Told, orgId: Id, ids: seq<nat>): Told {
    if ids == [] then t else Settle(SettleAll(t, orgId, ids[..|ids| - 1]), orgId, ids[|ids| - 1])
  }

  function Forget(m: Memory, orgId: Id, messageId: Id): Told {
    SettleAll(Told(m.(edges := Where(m.edges, NotFrom(orgId, messageId))), []), orgId,
              UnitIds(Where(m.edges, From(orgId, messageId))))
  }

  function Promoted(u: Unit, orgId: Id, id: nat, summary: Option<string>): Unit {
    if u.id == id && u.orgId == orgId then u.(promoted := true, promotionSummary := summary) else u
  }

  function MarkPromoted(units: seq<Unit>, orgId: Id, id: nat, summary: Option<string>): (r: seq<Unit>)
    ensures |r| == |units| && forall i :: 0 <= i < |units| ==> r[i] == Promoted(units[i], orgId, id, summary)
  {
    seq(|units|, i requires 0 <= i < |units| => Promoted(units[i], orgId, id, summary))
  }

  function Promote(m: Memory, orgId: Id, id: nat, summary: Option<string>): Told {
    var units := MarkPromoted(m.units, orgId, id, summary);
    Told(m.(units := units),
         match UnitById(units, orgId, id)
         case Some(u) => [Upsert(u, Sources(m.edges, id))]
         case None => [])
  }

  // ---------- links ----------

  /** A unit of a stream, by its content hash, and a message it comes from. */
  datatype Link = Link(orgId: Id, streamId: Id, hash: string, messageId: Id)

  predicate Joins(u: Unit, e: Edge, l: Link) {
    && u.id == e.unitId && u.orgId == l.orgId && u.streamId == l.streamId && u.hash == l.hash
    && e.messageId == l.messageId
  }

  ghost predicate HasLink(m: Memory, l: Link) {
    exists u, e :: u in m.units && e in m.edges && Joins(u, e, l)
  }

  function LinkOf(w: Wording, src: Source, text: string): Link {
    Link(src.orgId, src.streamId, ContentHash(w, src.orgId, src.streamId, text), src.messageId)
  }

  /** The links a message's texts call for. */
  predicate Calls(w: Wording, src: Source, candidates: seq<string>, l: Link) {
    exists c :: c in candidates && !IsFiller(w.lower, c) && l == LinkOf(w, src, c)
  }

  predicate Apart(u: Unit, v: Unit) {
    u.id != v.id && !(u.orgId == v.orgId && u.streamId == v.streamId && u.hash == v.hash)
  }

  ghost predicate DistinctUnits(units: seq<Unit>, nextId: nat) {
    && (forall i, j :: 0 <= i < j < |units| ==> Apart(units[i], units[j]))
    && (forall u :: u in units ==> u.id < nextId)
  }

  predicate HasUnit(units: seq<Unit>, e: Edge) {
    exists u :: u in units && u.id == e.unitId && u.orgId == e.orgId
  }

  /** Units are unique, hashed correctly and never without an edge; edges lead to units of their org. */
  ghost predicate MemoryOk(w: Wording, m: Memory) {
    && DistinctUnits(m.units, m.nextId)
    && (forall u :: u in m.units ==> u.hash == ContentHash(w, u.orgId, u.streamId, u.canonicalText))
    && (forall e :: e in m.edges ==> HasUnit(m.units, e))
    && (forall u :: u in m.units ==> Sources(m.edges, u.id) != [])
  }

  lemma SameIdSameUnit(units: seq<Unit>, nextId: nat, u: Unit, v: Unit)
    requires DistinctUnits(units, nextId) && u in units && v in units && u.id == v.id
    ensures u == v
  {
  }

  lemma EdgeKeeps(w: Wording, m: Memory, u: Unit, messageId: Id)
    requires MemoryOk(w, m) && u in m.units
    ensures MemoryOk(w, m.(edges := AddEdge(m.edges, Edge(u.id, u.orgId, messageId))))
  {
    hide ContentHash, DistinctUnits;
    var edges := AddEdge(m.edges, Edge(u.id, u.orgId, messageId));
    forall v | v in m.units
      ensures Sources(edges, v.id) != []
    {
      assert Sources(m.edges, v.id) != [];
    }
  }

  lemma DistinctGrows(units: seq<Unit>, nextId: nat, u: Unit)
    requires DistinctUnits(units, nextId) && u.id == nextId && FindUnit(units, u.orgId, u.streamId, u.hash) == None
    ensures DistinctUnits(units + [u], nextId + 1)
  {
    assert forall i :: 0 <= i < |units| ==> units[i] in units;
  }

  lemma EdgesStillLead(units: seq<Unit>, edges: seq<Edge>, u: Unit)
    requires forall e :: e in edges ==> HasUnit(units, e)
    ensures forall e :: e in edges ==> HasUnit(units + [u], e)
  {
    forall e | e in edges
      ensures HasUnit(units + [u], e)
    {
      assert HasUnit(units, e);
      var v :| v in units && v.id == e.unitId && v.orgId == e.orgId;
      assert v in units + [u];
    }
  }

  lemma UnitKeeps(w: Wording, m: Memory, u: Unit, messageId: Id)
    requires MemoryOk(w, m) && u.id == m.nextId && u.hash == ContentHash(w, u.orgId, u.streamId, u.canonicalText)
    requires FindUnit(m.units, u.orgId, u.streamId, u.hash) == None
    ensures MemoryOk(w, Memory(m.units + [u], m.edges + [Edge(u.id, u.orgId, messageId)], m.nextId + 1))
  {
    hide ContentHash, Sources, HasUnit;
    DistinctGrows(m.units, m.nextId, u);
    hide DistinctUnits, FindUnit;
    UnitEdges(m.units, m.edges, u, messageId);
    UnitSources(m.units, m.edges, u, messageId);
  }

  lemma UnitEdges(units: seq<Unit>, edges: seq<Edge>, u: Unit, messageId: Id)
    requires forall e :: e in edges ==> HasUnit(units, e)
    ensures forall e :: e in edges + [Edge(u.id, u.orgId, messageId)] ==> HasUnit(units + [u], e)
  {
    EdgesStillLead(units, edges, u);
    assert (units + [u])[|units|] == u;
  }

  lemma UnitSources(units: seq<Unit>, edges: seq<Edge>, u: Unit, messageId: Id)
    requires forall v :: v in units ==> Sources(edges, v.id) != []
    ensures forall v :: v in units + [u] ==> Sources(edges + [Edge(u.id, u.orgId, messageId)], v.id) != []
  {
    hide Sources;
    var e := Edge(u.id, u.orgId, messageId);
    forall v | v in units + [u]
      ensures Sources(edges + [e], v.id) != []
    {
      SourcesSnoc(edges, e, v.id);
    }
  }

  lemma SourcesSnoc(edges: seq<Edge>, e: Edge, id: nat)
    ensures Sources(edges + [e], id) == Sources(edges, id) + (if e.unitId == id then [e.messageId] else [])
  {
    assert (edges + [e])[..|edges|] == edges;
  }

  lemma RememberKeeps(w: Wording, t: Told, src: Source, text: string)
    requires MemoryOk(w, t.memory)
    ensures MemoryOk(w, Remember(w, t, src, text).memory)
  {
    hide IsFiller, ContentHash, MemoryOk, AddEdge;
    if !IsFiller(w.lower, text) {
      var hash := ContentHash(w, src.orgId, src.streamId, text);
      var found := FindUnit(t.memory.units, src.orgId, src.streamId, hash);
      if found.Some? {
        EdgeKeeps(w, t.memory, found.value, src.messageId);
      } else {
        var u := Unit(t.memory.nextId, src.orgId, src.streamId, src.streamType, src.visibility, hash, text, src.actorId, false, None);
        UnitKeeps(w, t.memory, u, src.messageId);
      }
    }
  }

  lemma RememberLinks(w: Wording, t: Told, src: Source, text: string, l: Link)
    requires MemoryOk(w, t.memory)
    ensures HasLink(Remember(w, t, src, text).memory, l)
            <==> HasLink(t.memory, l) || (!IsFiller(w.lower, text) && l == LinkOf(w, src, text))
  {
    hide IsFiller, ContentHash, MemoryOk;
    var m, m' := t.memory, Remember(w, t, src, text).memory;
    if HasLink(m, l) {
      var u, e :| u in m.units && e in m.edges && Joins(u, e, l);
      assert u in m'.units && e in m'.edges;
    }
    if !IsFiller(w.lower, text) {
      LinkMade(w, t, src, text);
      if HasLink(m', l) {
        var v, f :| v in m'.units && f in m'.edges && Joins(v, f, l);
        NoOtherLink(w, t, src, text, v, f, l);
      }
    }
  }

  lemma LinkMade(w: Wording, t: Told, src: Source, text: string)
    requires !IsFiller(w.lower, text)
    ensures HasLink(Remember(w, t, src, text).memory, LinkOf(w, src, text))
  {
    hide IsFiller, ContentHash;
    var m, m' := t.memory, Remember(w, t, src, text).memory;
    var found := FindUnit(m.units, src.orgId, src.streamId, ContentHash(w, src.orgId, src.streamId, text));
    var u := if found.Some? then found.value else m'.units[|m.units|];
    assert u in m'.units && Edge(u.id, src.orgId, src.messageId) in m'.edges;
    assert Joins(u, Edge(u.id, src.orgId, src.messageId), LinkOf(w, src, text));
  }

  lemma NoOtherLink(w: Wording, t: Told, src: Source, text: string, v: Unit, f: Edge, l: Link)
    requires MemoryOk(w, t.memory) && !IsFiller(w.lower, text)
    requires var m' := Remember(w, t, src, text).memory; v in m'.units && f in m'.edges && Joins(v, f, l)
    ensures HasLink(t.memory, l) || l == LinkOf(w, src, text)
  {
    hide IsFiller, ContentHash;
    var m := t.memory;
    if f in m.edges {
      assert HasUnit(m.units, f);
      assert v in m.units;
    } else {
      var found := FindUnit(m.units, src.orgId, src.streamId, ContentHash(w, src.orgId, src.streamId, text));
      if found.Some? { SameIdSameUnit(m.units, m.nextId, v, found.value); }
    }
  }

  /** The unit was there before, promotion aside, or is of the source's stream. */
  predicate FromBeforeOr(units: seq<Unit>, src: Source, u: Unit) {
    u in units || (u.orgId == src.orgId && u.streamId == src.streamId && u.streamType == src.streamType && u.visibility == src.visibility)
  }

  lemma {:induction false} RememberedUnits(w: Wording, t: Told, src: Source, texts: seq<string>)
    ensures forall u :: u in RememberAll(w, t, src, texts).memory.units ==> FromBeforeOr(t.memory.units, src, u)
  {
    hide IsFiller, ContentHash, Sources, AddEdge;
    if texts != [] { RememberedUnits(w, t, src, texts[..|texts| - 1]); }
  }

  lemma {:induction false} SettledUnits(t: Told, orgId: Id, ids: seq<nat>)
    ensures forall u :: u in SettleAll(t, orgId, ids).memory.units ==> u in t.memory.units
  {
    hide Sources;
    if ids != [] { SettledUnits(t, orgId, ids[..|ids| - 1]); }
  }

  lemma {:induction false} RememberAllLinks(w: Wording, t: Told, src: Source, texts: seq<string>)
    requires MemoryOk(w, t.memory)
    ensures var m' := RememberAll(w, t, src, texts).memory;
            MemoryOk(w, m') && forall l :: HasLink(m', l) <==> HasLink(t.memory, l) || Calls(w, src, texts, l)
  {
    hide IsFiller, ContentHash, Remember, MemoryOk, HasLink, LinkOf;
    if texts != [] {
      var front, last := texts[..|texts| - 1], texts[|texts| - 1];
      RememberAllLinks(w, t, src, front);
      var before := RememberAll(w, t, src, front);
      RememberKeeps(w, before, src, last);
      forall l
        ensures HasLink(Remember(w, before, src, last).memory, l) <==> HasLink(t.memory, l) || Calls(w, src, texts, l)
      {
        RememberLinks(w, before, src, last, l);
        assert texts == front + [last];
      }
    }
  }

  /** Main result: ingesting a message adds exactly the links its non-filler candidates call for. */
  lemma IngestLinks(w: Wording, m: Memory, src: Source, texts: seq<string>)
    requires MemoryOk(w, m)
    ensures var m' := Ingest(w, m, src, texts).memory;
            MemoryOk(w, m') && forall l :: HasLink(m', l) <==> HasLink(m, l) || Calls(w, src, Candidates(texts), l)
  {
    hide MemoryOk, HasLink, Calls, RememberAll, Candidates;
    RememberAllLinks(w, Told(m, []), src, Candidates(texts));
  }

  // ---------- what a reader finds after an ingestion ----------

  /** Texts a memory is not made of: short ones and the listed phrases. */
  predicate Trifling(w: Wording, text: string) {
    w.lower(text) in FILLERS || |w.lower(text)| < 3
  }

  /** A text whose words fit one unit and are no trifle. */
  predicate Recallable(w: Wording, raw: string) {
    |Join(Words(raw))| <= 280 && !Trifling(w, Join(Words(raw)))
  }

  /** The unit has this wording, up to case, and the message among its sources. */
  predicate Recalls(w: Wording, m: Memory, src: Source, text: string, u: Unit) {
    && u in m.units && u.orgId == src.orgId && u.streamId == src.streamId
    && u.hash == w.digest(src.orgId + "|" + src.streamId + "|" + w.lower(text))
    && Edge(u.id, src.orgId, src.messageId) in m.edges
  }

  ghost predicate Recalled(w: Wording, m: Memory, src: Source, raw: string) {
    exists u :: Recalls(w, m, src, Join(Words(raw)), u)
  }

  lemma OneText(raw: string)
    requires |Join(Words(raw))| <= 280
    ensures Candidates([raw]) == [Join(Words(raw))]
  {
    NormalizeJoinsWords(raw);
    assert [raw][..0] == [];
    assert Candidates([]) == [];
  }

  lemma OneRemembered(w: Wording, t: Told, src: Source, text: string)
    ensures RememberAll(w, t, src, [text]) == Remember(w, t, src, text)
  {
    hide Remember;
    assert [text][..0] == [];
    assert RememberAll(w, t, src, []) == t;
  }

  /**
   * Main result: what one short text leaves behind. Its words, single-spaced, become a unit of their
   * own, or one more source of the unit that has them already; only a trifle leaves nothing.
   */
  lemma ShortTextIsKept(w: Wording, m: Memory, src: Source, raw: string)
    requires |Join(Words(raw))| <= 280
    ensures var text, r := Join(Words(raw)), Ingest(w, m, src, [raw]);
            var hash := w.digest(src.orgId + "|" + src.streamId + "|" + w.lower(text));
            var known := exists u :: u in m.units && u.orgId == src.orgId && u.streamId == src.streamId && u.hash == hash;
            if Trifling(w, text) then r == Told(m, [])
            else if known then r.memory.units == m.units && exists u :: Recalls(w, r.memory, src, text, u)
            else
              var u := Unit(m.nextId, src.orgId, src.streamId, src.streamType, src.visibility, hash, text, src.actorId, false, None);
              r == Told(Memory(m.units + [u], m.edges + [Edge(u.id, src.orgId, src.messageId)], m.nextId + 1),
                        [Upsert(u, [src.messageId])])
  {
    var text := Join(Words(raw));
    OneText(raw);
    OneRemembered(w, Told(m, []), src, text);
    hide Words, Join, Candidates, RememberAll;
    var found := FindUnit(m.units, src.orgId, src.streamId, ContentHash(w, src.orgId, src.streamId, text));
    if !Trifling(w, text) && found.Some? {
      assert Recalls(w, Remember(w, Told(m, []), src, text).memory, src, text, found.value);
    }
  }

  /** Every short text of a message that is no trifle can be recalled afterwards, whatever else the message says. */
  lemma EveryShortTextIsRecalled(w: Wording, m: Memory, src: Source, texts: seq<string>, i: nat)
    requires MemoryOk(w, m) && i < |texts| && Recallable(w, texts[i])
    ensures Recalled(w, Ingest(w, m, src, texts).memory, src, texts[i])
  {
    var text := Join(Words(texts[i]));
    NormalizeJoinsWords(texts[i]);
    ChunkIsCandidate(texts, i, text);
    IngestLinks(w, m, src, texts);
    assert Calls(w, src, Candidates(texts), LinkOf(w, src, text));
    hide Ingest, Candidates, MemoryOk, Words, Join, Calls, Recalls;
    LinkRecalls(w, Ingest(w, m, src, texts).memory, src, text);
  }

  lemma LinkRecalls(w: Wording, m: Memory, src: Source, text: string)
    requires MemoryOk(w, m) && HasLink(m, LinkOf(w, src, text))
    ensures exists u :: Recalls(w, m, src, text, u)
  {
    hide MemoryOk;
    var l := LinkOf(w, src, text);
    var u, e :| u in m.units && e in m.edges && Joins(u, e, l);
    assert HasUnit(m.units, e) by { EdgesLead(w, m, e); }
    var v :| v in m.units && v.id == e.unitId && v.orgId == e.orgId;
    OneUnit(w, m, u, v);
    assert e == Edge(u.id, src.orgId, src.messageId);
    assert Recalls(w, m, src, text, u);
  }

  lemma EdgesLead(w: Wording, m: Memory, e: Edge)
    requires MemoryOk(w, m) && e in m.edges
    ensures HasUnit(m.units, e)
  {
  }

  lemma OneUnit(w: Wording, m: Memory, u: Unit, v: Unit)
    requires MemoryOk(w, m) && u in m.units && v in m.units && u.id == v.id
    ensures u == v
  {
    SameIdSameUnit(m.units, m.nextId, u, v);
  }

  lemma {:induction false} ChunkIsCandidate(texts: seq<string>, i: nat, c: string)
    requires i < |texts| && c in Chunk(NormalizeText(texts[i]))
    ensures c in Candidates(texts)
  {
    if i < |texts| - 1 { ChunkIsCandidate(texts[..|texts| - 1], i, c); }
  }

  // ---------- forgetting ----------

  function IdSet(ids: seq<nat>): (r: set<nat>)
    ensures forall id :: id in r <==> id in ids
  {
    set id | id in ids
  }

  /** While settling, only the units still to be settled may have lost their last edge. */
  ghost predicate Settling(w: Wording, m: Memory, orgId: Id, pending: set<nat>) {
    && DistinctUnits(m.units, m.nextId)
    && (forall u :: u in m.units ==> u.hash == ContentHash(w, u.orgId, u.streamId, u.canonicalText))
    && (forall e :: e in m.edges ==> HasUnit(m.units, e))
    && (forall u :: u in m.units && Sources(m.edges, u.id) == [] ==> u.id in pending && u.orgId == orgId)
  }

  lemma {:induction false} WhereKeepsDistinct(units: seq<Unit>, nextId: nat, keep: Unit -> bool)
    requires DistinctUnits(units, nextId)
    ensures DistinctUnits(Where(units, keep), nextId)
  {
    hide Apart;
    if units != [] {
      var front, last := units[..|units| - 1], units[|units| - 1];
      assert forall u :: u in front ==> u in units && Apart(u, last);
      WhereKeepsDistinct(front, nextId, keep);
    }
  }

  lemma OrphanGoes(w: Wording, m: Memory, orgId: Id, id: nat, pending: set<nat>)
    requires Settling(w, m, orgId, pending) && Sources(m.edges, id) == []
    ensures Settling(w, m.(units := Where(m.units, NotUnit(orgId, id))), orgId, pending - {id})
  {
    WhereKeepsDistinct(m.units, m.nextId, NotUnit(orgId, id));
    hide ContentHash, DistinctUnits;
    var units := Where(m.units, NotUnit(orgId, id));
    forall e | e in m.edges
      ensures HasUnit(units, e)
    {
      assert HasUnit(m.units, e);
      var u :| u in m.units && u.id == e.unitId && u.orgId == e.orgId;
      assert u in units;
    }
    hide HasUnit, Sources;
  }

  lemma OrphanHasNoLinks(m: Memory, orgId: Id, id: nat, l: Link)
    requires Sources(m.edges, id) == []
    ensures HasLink(m.(units := Where(m.units, NotUnit(orgId, id))), l) <==> HasLink(m, l)
  {
    hide Sources;
    if HasLink(m, l) {
      var u, e :| u in m.units && e in m.edges && Joins(u, e, l);
      assert u in Where(m.units, NotUnit(orgId, id));
    }
  }

  lemma SettleKeeps(w: Wording, t: Told, orgId: Id, id: nat, pending: set<nat>)
    requires Settling(w, t.memory, orgId, pending)
    ensures Settling(w, Settle(t, orgId, id).memory, orgId, pending - {id})
    ensures Settle(t, orgId, id).memory.edges == t.memory.edges
    ensures forall l :: HasLink(Settle(t, orgId, id).memory, l) <==> HasLink(t.memory, l)
  {
    hide ContentHash, DistinctUnits, HasLink, HasUnit;
    if Sources(t.memory.edges, id) == [] {
      OrphanGoes(w, t.memory, orgId, id, pending);
      forall l
        ensures HasLink(Settle(t, orgId, id).memory, l) <==> HasLink(t.memory, l)
      {
        OrphanHasNoLinks(t.memory, orgId, id, l);
      }
    }
  }

  lemma {:induction false} SettleAllKeeps(w: Wording, t: Told, orgId: Id, ids: seq<nat>, pending: set<nat>)
    requires Settling(w, t.memory, orgId, pending)
    ensures var m' := SettleAll(t, orgId, ids).memory;
            && Settling(w, m', orgId, pending - IdSet(ids))
            && m'.edges == t.memory.edges
            && forall l :: HasLink(m', l) <==> HasLink(t.memory, l)
  {
    hide Settle, Settling, HasLink;
    if ids == [] {
      assert IdSet(ids) == {} && pending - {} == pending;
    } else {
      var front, last := ids[..|ids| - 1], ids[|ids| - 1];
      SettleAllKeeps(w, t, orgId, front, pending);
      var left := pending - IdSet(front);
      SettleKeeps(w, SettleAll(t, orgId, front), orgId, last, left);
      assert left - {last} == pending - IdSet(ids);
    }
  }

  lemma EdgesGone(w: Wording, m: Memory, orgId: Id, messageId: Id)
    requires MemoryOk(w, m)
    ensures var gone := UnitIds(Where(m.edges, From(orgId, messageId)));
            Settling(w, m.(edges := Where(m.edges, NotFrom(orgId, messageId))), orgId, IdSet(gone))
  {
    var edges, gone := Where(m.edges, NotFrom(orgId, messageId)), Where(m.edges, From(orgId, messageId));
    hide ContentHash, DistinctUnits, HasUnit, IdSet, UnitIds;
    forall u | u in m.units && Sources(edges, u.id) == []
      ensures u.id in IdSet(UnitIds(gone)) && u.orgId == orgId
    {
      assert Sources(m.edges, u.id) != [];
      var e :| e in m.edges && e.unitId == u.id;
      assert e in gone;
      GoneIds(gone);
      OwnOrg(w, m, u, e);
    }
    hide Where, Sources;
  }

  lemma LinksWithout(w: Wording, m: Memory, orgId: Id, messageId: Id, l: Link)
    requires MemoryOk(w, m)
    ensures HasLink(m.(edges := Where(m.edges, NotFrom(orgId, messageId))), l)
            <==> HasLink(m, l) && !(l.orgId == orgId && l.messageId == messageId)
  {
    hide ContentHash;
    var m' := m.(edges := Where(m.edges, NotFrom(orgId, messageId)));
    if HasLink(m', l) {
      var u, e :| u in m.units && e in m'.edges && Joins(u, e, l);
      OwnOrg(w, m, u, e);
    }
    if HasLink(m, l) && !(l.orgId == orgId && l.messageId == messageId) {
      var u, e :| u in m.units && e in m.edges && Joins(u, e, l);
      OwnOrg(w, m, u, e);
      assert e in m'.edges;
    }
  }

  lemma OwnOrg(w: Wording, m: Memory, u: Unit, e: Edge)
    requires MemoryOk(w, m) && u in m.units && e in m.edges && u.id == e.unitId
    ensures u.orgId == e.orgId
  {
    assert HasUnit(m.units, e);
    var v :| v in m.units && v.id == e.unitId && v.orgId == e.orgId;
    SameIdSameUnit(m.units, m.nextId, u, v);
  }

  /** Main result: forgetting a message removes exactly its links, and the units left without any. */
  lemma ForgetLinks(w: Wording, m: Memory, orgId: Id, messageId: Id)
    requires MemoryOk(w, m)
    ensures var m' := Forget(m, orgId, messageId).memory;
            && MemoryOk(w, m')
            && forall l :: HasLink(m', l) <==> HasLink(m, l) && !(l.orgId == orgId && l.messageId == messageId)
  {
    hide ContentHash, DistinctUnits, HasLink, SettleAll, HasUnit;
    var ids := UnitIds(Where(m.edges, From(orgId, messageId)));
    var start := Told(m.(edges := Where(m.edges, NotFrom(orgId, messageId))), []);
    EdgesGone(w, m, orgId, messageId);
    var all := IdSet(ids);
    SettleAllKeeps(w, start, orgId, ids, all);
    assert all - all == {};
    forall l
      ensures HasLink(start.memory, l) <==> HasLink(m, l) && !(l.orgId == orgId && l.messageId == messageId)
    {
      LinksWithout(w, m, orgId, messageId, l);
    }
  }

  lemma PromotedIn(units: seq<Unit>, orgId: Id, id: nat, summary: Option<string>, u: Unit)
    requires u in units
    ensures Promoted(u, orgId, id, summary) in MarkPromoted(units, orgId, id, summary)
  {
    var i :| 0 <= i < |units| && units[i] == u;
    assert MarkPromoted(units, orgId, id, summary)[i] == Promoted(u, orgId, id, summary);
  }

  lemma PromoteDistinct(units: seq<Unit>, nextId: nat, orgId: Id, id: nat, summary: Option<string>)
    requires DistinctUnits(units, nextId)
    ensures DistinctUnits(MarkPromoted(units, orgId, id, summary), nextId)
  {
    var after := MarkPromoted(units, orgId, id, summary);
    forall u | u in after
      ensures u.id < nextId
    {
      var i :| 0 <= i < |after| && after[i] == u;
      assert units[i] in units;
    }
  }

  lemma PromoteKeeps(w: Wording, m: Memory, orgId: Id, id: nat, summary: Option<string>)
    requires MemoryOk(w, m)
    ensures MemoryOk(w, Promote(m, orgId, id, summary).memory)
  {
    hide ContentHash, DistinctUnits, Sources, UnitById;
    var units := MarkPromoted(m.units, orgId, id, summary);
    PromoteDistinct(m.units, m.nextId, orgId, id, summary);
    forall u | u in units
      ensures u.hash == ContentHash(w, u.orgId, u.streamId, u.canonicalText) && Sources(m.edges, u.id) != []
    {
      var i :| 0 <= i < |units| && units[i] == u;
      assert m.units[i] in m.units;
    }
    forall e | e in m.edges
      ensures HasUnit(units, e)
    {
      assert HasUnit(m.units, e);
      var u :| u in m.units && u.id == e.unitId && u.orgId == e.orgId;
      PromotedIn(m.units, orgId, id, summary, u);
    }
  }

  lemma PromoteKeepsLink(m: Memory, orgId: Id, id: nat, summary: Option<string>, l: Link)
    ensures HasLink(Promote(m, orgId, id, summary).memory, l) <==> HasLink(m, l)
  {
    hide Sources, UnitById;
    var m' := Promote(m, orgId, id, summary).memory;
    if HasLink(m, l) {
      var u, e :| u in m.units && e in m.edges && Joins(u, e, l);
      PromotedIn(m.units, orgId, id, summary, u);
      assert Joins(Promoted(u, orgId, id, summary), e, l);
    }
    if HasLink(m', l) {
      var u, e :| u in m'.units && e in m.edges && Joins(u, e, l);
      var i :| 0 <= i < |m'.units| && m'.units[i] == u;
      assert Joins(m.units[i], e, l) && m.units[i] in m.units;
    }
  }

  /** Promotion marks a unit and changes no link. */
  /** Promoting marks the one unit, with the summary given, and announces it with its sources; all else stays. */
  lemma PromoteMarksOne(m: Memory, orgId: Id, id: nat, summary: Option<string>, i: nat)
    requires i < |m.units|
    ensures var r, u := Promote(m, orgId, id, summary), m.units[i];
            && |r.memory.units| == |m.units| && r.memory.edges == m.edges && r.memory.nextId == m.nextId
            && (u.id != id || u.orgId != orgId ==> r.memory.units[i] == u)
            && (u.id == id && u.orgId == orgId ==>
                  && r.memory.units[i]
                     == Unit(id, orgId, u.streamId, u.streamType, u.visibility, u.hash, u.canonicalText, u.createdBy, true, summary)
                  && |r.notices| == 1 && r.notices[0].Upsert? && r.notices[0].memoryUnit.id == id
                  && r.notices[0].sources == Sources(m.edges, id))
  {
    var units := Promote(m, orgId, id, summary).memory.units;
    assert units[i] in units;
  }

  lemma PromoteLinks(w: Wording, m: Memory, orgId: Id, id: nat, summary: Option<string>)
    requires MemoryOk(w, m)
    ensures var m' := Promote(m, orgId, id, summary).memory;
            MemoryOk(w, m') && forall l :: HasLink(m', l) <==> HasLink(m, l)
  {
    hide MemoryOk, HasLink, Promote;
    PromoteKeeps(w, m, orgId, id, summary);
    forall l
      ensures HasLink(Promote(m, orgId, id, summary).memory, l) <==> HasLink(m, l)
    {
      PromoteKeepsLink(m, orgId, id, summary, l);
    }
  }

  // ---------- the search index's copy ----------

  /** What the search index keeps of a unit (`memoryUnitToDoc`). */
  datatype MemoryDoc = MemoryDoc(memoryUnit: Unit, sources: seq<Id>)

  function Applied(docs: map<nat, MemoryDoc>, n: Notice): map<nat, MemoryDoc> {
    match n
    case Upsert(u, sources) => docs[u.id := MemoryDoc(u, sources)]
    case Delete(_, id) => docs - {id}
  }

  function ApplyAll(docs: map<nat, MemoryDoc>, ns: seq<Notice>): map<nat, MemoryDoc> {
    if ns == [] then docs else Applied(ApplyAll(docs, ns[..|ns| - 1]), ns[|ns| - 1])
  }

  lemma ApplyOneMore(docs: map<nat, MemoryDoc>, ns: seq<Notice>, n: Notice)
    ensures ApplyAll(docs, ns + [n]) == Applied(ApplyAll(docs, ns), n)
  {
    assert (ns + [n])[..|ns|] == ns;
  }

  predicate IsUnitId(units: seq<Unit>, id: nat) {
    exists u :: u in units && u.id == id
  }

  /** The copy matches the units, units under repair aside. */
  ghost predicate Mirrors(docs: map<nat, MemoryDoc>, m: Memory, except: set<nat>) {
    && (forall u :: u in m.units && u.id !in except ==> u.id in docs && docs[u.id] == MemoryDoc(u, Sources(m.edges, u.id)))
    && (forall id :: id in docs && id !in except ==> IsUnitId(m.units, id))
  }

  lemma EdgeMirrors(w: Wording, docs: map<nat, MemoryDoc>, m: Memory, u: Unit, messageId: Id)
    requires MemoryOk(w, m) && Mirrors(docs, m, {}) && u in m.units
    ensures var edges := AddEdge(m.edges, Edge(u.id, u.orgId, messageId));
            Mirrors(Applied(docs, Upsert(u, Sources(edges, u.id))), m.(edges := edges), {})
  {
    hide ContentHash;
    var edges := AddEdge(m.edges, Edge(u.id, u.orgId, messageId));
    forall v | v in m.units && v.id != u.id
      ensures Sources(edges, v.id) == Sources(m.edges, v.id)
    {
      assert edges != m.edges ==> edges[..|m.edges|] == m.edges;
    }
    forall v | v in m.units && v.id == u.id
      ensures v == u
    {
      SameIdSameUnit(m.units, m.nextId, u, v);
    }
    assert IsUnitId(m.units, u.id);
  }

  lemma FreshHasNoSources(w: Wording, m: Memory)
    requires MemoryOk(w, m)
    ensures Sources(m.edges, m.nextId) == []
  {
    hide ContentHash;
    forall e | e in m.edges
      ensures e.unitId < m.nextId
    {
      assert HasUnit(m.units, e);
    }
  }

  /** A new unit with its document; the others keep their sources. */
  lemma AddDoc(docs: map<nat, MemoryDoc>, m: Memory, u: Unit, edges: seq<Edge>, nextId: nat)
    requires Mirrors(docs, m, {})
    requires forall v :: v in m.units ==> v.id != u.id && Sources(edges, v.id) == Sources(m.edges, v.id)
    ensures Mirrors(Applied(docs, Upsert(u, Sources(edges, u.id))), Memory(m.units + [u], edges, nextId), {})
  {
    MoreUnitIds(m.units, u);
    hide Sources, IsUnitId;
  }

  /** A new unit's first edge is its only source, and nobody else's. */
  lemma NewUnitSources(w: Wording, m: Memory, u: Unit, messageId: Id)
    requires MemoryOk(w, m) && u.id == m.nextId
    ensures var edges := m.edges + [Edge(u.id, u.orgId, messageId)];
            && Sources(edges, u.id) == [messageId]
            && forall v :: v in m.units ==> v.id != u.id && Sources(edges, v.id) == Sources(m.edges, v.id)
  {
    FreshHasNoSources(w, m);
    hide ContentHash, Sources, HasUnit, MemoryOk;
    var e := Edge(u.id, u.orgId, messageId);
    forall v | v in m.units
      ensures v.id != u.id && Sources(m.edges + [e], v.id) == Sources(m.edges, v.id)
    {
      SourcesSnoc(m.edges, e, v.id);
    }
    SourcesSnoc(m.edges, e, u.id);
  }

  lemma UnitMirrors(w: Wording, docs: map<nat, MemoryDoc>, m: Memory, u: Unit, messageId: Id)
    requires MemoryOk(w, m) && Mirrors(docs, m, {}) && u.id == m.nextId
    ensures Mirrors(Applied(docs, Upsert(u, [messageId])),
                    Memory(m.units + [u], m.edges + [Edge(u.id, u.orgId, messageId)], m.nextId + 1), {})
  {
    hide Sources, Mirrors, Applied, MemoryOk;
    NewUnitSources(w, m, u, messageId);
    AddDoc(docs, m, u, m.edges + [Edge(u.id, u.orgId, messageId)], m.nextId + 1);
  }

  lemma MoreUnitIds(units: seq<Unit>, u: Unit)
    ensures IsUnitId(units + [u], u.id) && forall id :: IsUnitId(units, id) ==> IsUnitId(units + [u], id)
  {
    assert (units + [u])[|units|] == u;
    forall id | IsUnitId(units, id)
      ensures IsUnitId(units + [u], id)
    {
      var v :| v in units && v.id == id;
      assert v in units + [u];
    }
  }

  lemma RememberMirrors(w: Wording, docs: map<nat, MemoryDoc>, t: Told, src: Source, text: string)
    requires MemoryOk(w, t.memory) && Mirrors(ApplyAll(docs, t.notices), t.memory, {})
    ensures var r := Remember(w, t, src, text); Mirrors(ApplyAll(docs, r.notices), r.memory, {})
  {
    hide IsFiller, ContentHash, MemoryOk, AddEdge, Mirrors, ApplyAll, Applied, Sources;
    if !IsFiller(w.lower, text) {
      var hash := ContentHash(w, src.orgId, src.streamId, text);
      var found := FindUnit(t.memory.units, src.orgId, src.streamId, hash);
      var r := Remember(w, t, src, text);
      ApplyOneMore(docs, t.notices, r.notices[|t.notices|]);
      if found.Some? {
        EdgeMirrors(w, ApplyAll(docs, t.notices), t.memory, found.value, src.messageId);
      } else {
        var u := Unit(t.memory.nextId, src.orgId, src.streamId, src.streamType, src.visibility, hash, text, src.actorId, false, None);
        UnitMirrors(w, ApplyAll(docs, t.notices), t.memory, u, src.messageId);
      }
    }
  }

  lemma {:induction false} RememberAllMirrors(w: Wording, docs: map<nat, MemoryDoc>, t: Told, src: Source, texts: seq<string>)
    requires MemoryOk(w, t.memory) && Mirrors(ApplyAll(docs, t.notices), t.memory, {})
    ensures var r := RememberAll(w, t, src, texts); Mirrors(ApplyAll(docs, r.notices), r.memory, {})
  {
    hide MemoryOk, Mirrors, ApplyAll, Remember;
    if texts != [] {
      var front, last := texts[..|texts| - 1], texts[|texts| - 1];
      RememberAllMirrors(w, docs, t, src, front);
      RememberAllLinks(w, t, src, front);
      RememberMirrors(w, docs, RememberAll(w, t, src, front), src, last);
    }
  }

  /** Main result: after an ingestion and its notices, the search index still mirrors the units. */
  lemma IngestMirrors(w: Wording, docs: map<nat, MemoryDoc>, m: Memory, src: Source, texts: seq<string>)
    requires MemoryOk(w, m) && Mirrors(docs, m, {})
    ensures var r := Ingest(w, m, src, texts); Mirrors(ApplyAll(docs, r.notices), r.memory, {})
  {
    hide MemoryOk, Mirrors, RememberAll, Candidates;
    RememberAllMirrors(w, docs, Told(m, []), src, Candidates(texts));
  }

  /** Ids to settle belong to units of one org. */
  ghost predicate OfOneOrg(units: seq<Unit>, orgId: Id, ids: set<nat>) {
    forall u :: u in units && u.id in ids ==> u.orgId == orgId
  }

  lemma GoneMirrors(docs: map<nat, MemoryDoc>, m: Memory, orgId: Id, id: nat, except: set<nat>)
    requires Mirrors(docs, m, except) && OfOneOrg(m.units, orgId, {id})
    ensures Mirrors(Applied(docs, Delete(orgId, id)), m.(units := Where(m.units, NotUnit(orgId, id))), except - {id})
  {
    hide Sources;
    var units := Where(m.units, NotUnit(orgId, id));
    forall k | k in docs - {id} && k !in except - {id}
      ensures IsUnitId(units, k)
    {
      assert k != id && IsUnitId(m.units, k);
      var u :| u in m.units && u.id == k;
      assert u in units;
    }
  }

  lemma UpsertMirrors(docs: map<nat, MemoryDoc>, m: Memory, u: Unit, except: set<nat>)
    requires DistinctUnits(m.units, m.nextId) && Mirrors(docs, m, except) && u in m.units
    ensures Mirrors(Applied(docs, Upsert(u, Sources(m.edges, u.id))), m, except - {u.id})
  {
    hide Sources;
    forall v | v in m.units && v.id == u.id
      ensures v == u
    {
      SameIdSameUnit(m.units, m.nextId, v, u);
    }
    assert IsUnitId(m.units, u.id);
  }

  lemma SettleMirrors(w: Wording, docs: map<nat, MemoryDoc>, t: Told, orgId: Id, id: nat, except: set<nat>)
    requires Settling(w, t.memory, orgId, except) && Mirrors(ApplyAll(docs, t.notices), t.memory, except)
    requires OfOneOrg(t.memory.units, orgId, {id})
    ensures var r := Settle(t, orgId, id); Mirrors(ApplyAll(docs, r.notices), r.memory, except - {id})
  {
    hide ContentHash, Mirrors, DistinctUnits, ApplyAll, Applied;
    var m := t.memory;
    if Sources(m.edges, id) == [] {
      ApplyOneMore(docs, t.notices, Delete(orgId, id));
      GoneMirrors(ApplyAll(docs, t.notices), m, orgId, id, except);
    } else {
      var e :| e in m.edges && e.unitId == id;
      assert HasUnit(m.units, e);
      var found := UnitById(m.units, orgId, id);
      ApplyOneMore(docs, t.notices, Upsert(found.value, Sources(m.edges, id)));
      UpsertMirrors(ApplyAll(docs, t.notices), m, found.value, except);
    }
  }

  lemma {:induction false} SettleAllMirrors(w: Wording, docs: map<nat, MemoryDoc>, t: Told, orgId: Id, ids: seq<nat>, except: set<nat>)
    requires Settling(w, t.memory, orgId, except) && Mirrors(ApplyAll(docs, t.notices), t.memory, except)
    requires OfOneOrg(t.memory.units, orgId, IdSet(ids))
    ensures var r := SettleAll(t, orgId, ids);
            && Mirrors(ApplyAll(docs, r.notices), r.memory, except - IdSet(ids))
            && (forall u :: u in r.memory.units ==> u in t.memory.units)
  {
    hide Settling, Mirrors, ApplyAll, HasLink;
    if ids == [] {
      assert IdSet(ids) == {} && except - {} == except;
    } else {
      var front, last := ids[..|ids| - 1], ids[|ids| - 1];
      SettleAllMirrors(w, docs, t, orgId, front, except);
      SettleAllKeeps(w, t, orgId, front, except);
      SettleMirrors(w, docs, SettleAll(t, orgId, front), orgId, last, except - IdSet(front));
      assert (except - IdSet(front)) - {last} == except - IdSet(ids);
    }
  }

  /** With the message's edges gone, only documents of its units are out of date. */
  lemma StaleOnlyGone(w: Wording, docs: map<nat, MemoryDoc>, m: Memory, orgId: Id, messageId: Id)
    requires MemoryOk(w, m) && Mirrors(docs, m, {})
    ensures var ids := IdSet(UnitIds(Where(m.edges, From(orgId, messageId))));
            && OfOneOrg(m.units, orgId, ids)
            && Mirrors(docs, m.(edges := Where(m.edges, NotFrom(orgId, messageId))), ids)
  {
    var gone := Where(m.edges, From(orgId, messageId));
    GoneIds(gone);
    hide ContentHash, DistinctUnits, HasUnit, Sources, UnitIds, IsUnitId;
    forall u | u in m.units && u.id in IdSet(UnitIds(gone))
      ensures u.orgId == orgId
    {
      var e := GoneEdge(gone, u.id);
      OwnOrg(w, m, u, e);
    }
    forall u | u in m.units && u.id !in IdSet(UnitIds(gone))
      ensures Sources(Where(m.edges, NotFrom(orgId, messageId)), u.id) == Sources(m.edges, u.id)
    {
      SourcesWithout(m.edges, NotFrom(orgId, messageId), u.id);
    }
  }

  lemma GoneEdge(gone: seq<Edge>, id: nat) returns (e: Edge)
    requires id in IdSet(UnitIds(gone))
    ensures e in gone && e.unitId == id
  {
    var i :| 0 <= i < |gone| && UnitIds(gone)[i] == id;
    e := gone[i];
  }

  /** Main result: after a redaction and its notices, the search index still mirrors the units. */
  lemma ForgetMirrors(w: Wording, docs: map<nat, MemoryDoc>, m: Memory, orgId: Id, messageId: Id)
    requires MemoryOk(w, m) && Mirrors(docs, m, {})
    ensures var r := Forget(m, orgId, messageId); Mirrors(ApplyAll(docs, r.notices), r.memory, {})
  {
    hide ContentHash, DistinctUnits, SettleAll, Settling, Mirrors, MemoryOk, Where, IdSet, UnitIds;
    var ids := UnitIds(Where(m.edges, From(orgId, messageId)));
    var start := Told(m.(edges := Where(m.edges, NotFrom(orgId, messageId))), []);
    EdgesGone(w, m, orgId, messageId);
    StaleOnlyGone(w, docs, m, orgId, messageId);
    SettleAllMirrors(w, docs, start, orgId, ids, IdSet(ids));
    assert IdSet(ids) - IdSet(ids) == {};
  }

  lemma GoneIds(gone: seq<Edge>)
    ensures forall e :: e in gone ==> e.unitId in IdSet(UnitIds(gone))
  {
    forall e | e in gone
      ensures e.unitId in IdSet(UnitIds(gone))
    {
      var i :| 0 <= i < |gone| && gone[i] == e;
      assert UnitIds(gone)[i] == e.unitId;
    }
  }

  lemma SourcesWithoutSnoc(front: seq<Edge>, last: Edge, keep: Edge -> bool, id: nat)
    requires Sources(Where(front, keep), id) == Sources(front, id) && (last.unitId == id ==> keep(last))
    ensures Sources(Where(front + [last], keep), id) == Sources(front + [last], id)
  {
    hide Sources, Where;
    WhereSnoc(front, last, keep);
    SourcesSnoc(front, last, id);
    if keep(last) {
      SourcesSnoc(Where(front, keep), last, id);
    } else {
      assert Where(front, keep) + [] == Where(front, keep);
    }
  }

  lemma {:induction false} SourcesWithout(edges: seq<Edge>, keep: Edge -> bool, id: nat)
    requires forall e :: e in edges && e.unitId == id ==> keep(e)
    ensures Sources(Where(edges, keep), id) == Sources(edges, id)
  {
    if edges != [] {
      hide Sources, Where;
      var front, last := edges[..|edges| - 1], edges[|edges| - 1];
      assert edges == front + [last];
      SourcesWithout(front, keep, id);
      SourcesWithoutSnoc(front, last, keep, id);
    }
  }

  /** A promotion is passed on to the search index too. */
  lemma PromoteMirrors(w: Wording, docs: map<nat, MemoryDoc>, m: Memory, orgId: Id, id: nat, summary: Option<string>)
    requires MemoryOk(w, m) && Mirrors(docs, m, {})
    ensures var r := Promote(m, orgId, id, summary); Mirrors(ApplyAll(docs, r.notices), r.memory, {})
  {
    hide ContentHash, Sources, Mirrors, HasUnit, Applied;
    var m' := m.(units := MarkPromoted(m.units, orgId, id, summary));
    var found := UnitById(m'.units, orgId, id);
    if found.Some? {
      MarkedMirrors(docs, m, orgId, id, summary);
      PromoteDistinct(m.units, m.nextId, orgId, id, summary);
      ApplyOneMore(docs, [], Upsert(found.value, Sources(m.edges, id)));
      UpsertMirrors(docs, m', found.value, {id});
      assert {id} - {id} == {};
    } else {
      forall i | 0 <= i < |m.units|
        ensures m'.units[i] == m.units[i]
      {
        assert m'.units[i] in m'.units;
      }
      assert m'.units == m.units;
    }
  }

  lemma MarkedMirrors(docs: map<nat, MemoryDoc>, m: Memory, orgId: Id, id: nat, summary: Option<string>)
    requires Mirrors(docs, m, {})
    ensures Mirrors(docs, m.(units := MarkPromoted(m.units, orgId, id, summary)), {id})
  {
    hide Sources, IsUnitId;
    var units := MarkPromoted(m.units, orgId, id, summary);
    forall u | u in units && u.id != id
      ensures u in m.units
    {
      var i :| 0 <= i < |units| && units[i] == u;
      assert m.units[i] in m.units;
    }
    PromotedIds(m.units, orgId, id, summary);
  }

  lemma PromotedIds(units: seq<Unit>, orgId: Id, id: nat, summary: Option<string>)
    ensures forall k :: IsUnitId(units, k) ==> IsUnitId(MarkPromoted(units, orgId, id, summary), k)
  {
    forall k | IsUnitId(units, k)
      ensures IsUnitId(MarkPromoted(units, orgId, id, summary), k)
    {
      var u :| u in units && u.id == k;
      PromotedIn(units, orgId, id, summary, u);
    }
  }
}
