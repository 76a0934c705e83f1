// The event handlers of the memory and search plugins as they run: loops over texts, candidates,
// linked units and messages, changing the plugins' tables in place.

module PluginHandlers {
  import opened Prelude
  import opened Tables
  import opened MemoryText
  import opened Memory
  import opened SourceHistory
  import opened Projections

  lemma RememberOneMore(w: Wording, t: Told, src: Source, texts: seq<string>, text: string)
    ensures RememberAll(w, t, src, texts + [text]) == Remember(w, RememberAll(w, t, src, texts), src, text)
  {
    assert (texts + [text])[..|texts|] == texts;
  }

  lemma {:induction false} RememberAppend(w: Wording, t: Told, src: Source, a: seq<string>, b: seq<string>)
    ensures RememberAll(w, RememberAll(w, t, src, a), src, b) == RememberAll(w, t, src, a + b)
  {
    hide Remember;
    if b == [] {
      assert a + b == a;
    } else {
      var front, last := b[..|b| - 1], b[|b| - 1];
      RememberAppend(w, t, src, a, front);
      assert a + b == (a + front) + [last];
      RememberOneMore(w, t, src, a + front, last);
    }
  }

  lemma NothingToRemember(w: Wording, t: Told, src: Source)
    ensures RememberAll(w, t, src, Candidates([])) == t
  {
  }

  lemma CandidatesOneMore(texts: seq<string>, i: nat)
    requires i < |texts|
    ensures Candidates(texts[..i + 1]) == Candidates(texts[..i]) + Chunk(NormalizeText(texts[i]))
  {
    assert texts[..i + 1][..i] == texts[..i];
  }

  lemma SettleOneMore(t: Told, orgId: Id, ids: seq<nat>, id: nat)
    ensures SettleAll(t, orgId, ids + [id]) == Settle(SettleAll(t, orgId, ids), orgId, id)
  {
    assert (ids + [id])[..|ids|] == ids;
  }

  lemma ReadsAs(rows: seq<PartRow>, text: Option<string>)
    requires text.Some? ==> exists i: nat :: FirstTextAt(rows, i, text.value)
    requires text.None? ==> forall i :: 0 <= i < |rows| ==> !rows[i].part.TextPart?
    ensures FirstText(rows) == if text.Some? && text.value != "" then text else None
  {
    if text.Some? {
      FirstTextIff(rows, text.value);
      if text.value == "" && FirstText(rows).Some? { FirstTextIff(rows, FirstText(rows).value); }
    } else {
      NoTexts(rows);
    }
  }

  /** The parts of a message that say something, as memory reads them. */
  method HydrateTextParts(rows: seq<PartRow>) returns (texts: seq<string>)
    ensures texts == Hydrate(rows)
    ensures forall x :: x in texts <==> exists row :: row in rows && row.part == TextPart(x) && Words(x) != []
  {
    texts := [];
    var i := 0;
    while i < |rows|
      invariant 0 <= i <= |rows|
      invariant texts == Hydrate(rows[..i])
      invariant forall x :: x in texts <==> exists row :: row in rows[..i] && row.part == TextPart(x) && Words(x) != []
    {
      HydrateOneMore(rows[..i], rows[i]);
      assert rows[..i + 1] == rows[..i] + [rows[i]];
      if rows[i].part.TextPart? {
        BlankIffWordless(rows[i].part.text);
        if Trim(rows[i].part.text) != "" {
          texts := texts + [rows[i].part.text];
        }
      }
      i := i + 1;
    }
    assert rows[..i] == rows;
  }

  /** The first text part of a message, as search reads it. */
  method FirstTextOfMessage(rows: seq<PartRow>) returns (text: Option<string>)
    ensures text.Some? ==> exists i: nat :: FirstTextAt(rows, i, text.value)
    ensures text.None? ==> forall i :: 0 <= i < |rows| ==> !rows[i].part.TextPart?
  {
    var i := 0;
    while i < |rows|
      invariant 0 <= i <= |rows|
      invariant forall j :: 0 <= j < i ==> !rows[j].part.TextPart?
    {
      if rows[i].part.TextPart? {
        assert FirstTextAt(rows, i, rows[i].part.text);
        return Some(rows[i].part.text);
      }
      i := i + 1;
    }
    return None;
  }

  lemma AllRecalled(w: Wording, m: Memory, src: Source, texts: seq<string>)
    requires MemoryOk(w, m)
    ensures forall i :: 0 <= i < |texts| && Recallable(w, texts[i]) ==> Recalled(w, Ingest(w, m, src, texts).memory, src, texts[i])
  {
    hide MemoryOk, Recallable, Recalled, Ingest;
    forall i | 0 <= i < |texts| && Recallable(w, texts[i])
      ensures Recalled(w, Ingest(w, m, src, texts).memory, src, texts[i])
    {
      EveryShortTextIsRecalled(w, m, src, texts, i);
    }
  }

  class MemoryPlugin {
    const w: Wording
    var units: seq<Unit>
    var edges: seq<Edge>
    var nextId: nat

    function State(): Memory
      reads this
    {
      Memory(units, edges, nextId)
    }

    constructor (w: Wording)
      ensures this.w == w && State() == EMPTY_MEMORY && MemoryOk(w, State())
    {
      this.w, units, edges, nextId := w, [], [], 0;
    }

    method RememberCandidate(src: Source, text: string, notices: seq<Notice>) returns (more: seq<Notice>)
      modifies this
      ensures Told(State(), more) == Remember(w, Told(old(State()), notices), src, text)
    {
      hide ContentHash, IsFiller;
      if IsFiller(w.lower, text) {
        return notices;
      }
      var hash := ContentHash(w, src.orgId, src.streamId, text);
      var existing := FindUnit(units, src.orgId, src.streamId, hash);
      if existing.Some? {
        edges := AddEdge(edges, Edge(existing.value.id, src.orgId, src.messageId));
        return notices + [Upsert(existing.value, Sources(edges, existing.value.id))];
      }
      var u := Unit(nextId, src.orgId, src.streamId, src.streamType, src.visibility, hash, text, src.actorId, false, None);
      units, edges, nextId := units + [u], edges + [Edge(nextId, src.orgId, src.messageId)], nextId + 1;
      return notices + [Upsert(u, [src.messageId])];
    }

    method RememberTexts(src: Source, candidates: seq<string>, notices: seq<Notice>) returns (more: seq<Notice>)
      modifies this
      ensures Told(State(), more) == RememberAll(w, Told(old(State()), notices), src, candidates)
    {
      hide Remember;
      more := notices;
      var j := 0;
      while j < |candidates|
        invariant 0 <= j <= |candidates|
        invariant Told(State(), more) == RememberAll(w, Told(old(State()), notices), src, candidates[..j])
      {
        more := RememberCandidate(src, candidates[j], more);
        RememberOneMore(w, Told(old(State()), notices), src, candidates[..j], candidates[j]);
        assert candidates[..j + 1] == candidates[..j] + [candidates[j]];
        j := j + 1;
      }
      assert candidates[..j] == candidates;
    }

    method IngestMessageAppended(src: Source, texts: seq<string>) returns (notices: seq<Notice>)
      modifies this
      ensures Told(State(), notices) == Ingest(w, old(State()), src, texts)
      ensures MemoryOk(w, old(State())) ==>
                forall i :: 0 <= i < |texts| && Recallable(w, texts[i]) ==> Recalled(w, State(), src, texts[i])
    {
      hide RememberAll, Candidates, MemoryOk, Recallable, Recalled;
      notices := [];
      ghost var start := Told(State(), []);
      NothingToRemember(w, start, src);
      var i := 0;
      while i < |texts|
        invariant 0 <= i <= |texts|
        invariant Told(State(), notices) == RememberAll(w, start, src, Candidates(texts[..i]))
      {
        var candidates := Chunk(NormalizeText(texts[i]));
        notices := RememberTexts(src, candidates, notices);
        RememberAppend(w, start, src, Candidates(texts[..i]), candidates);
        CandidatesOneMore(texts, i);
        i := i + 1;
      }
      assert texts[..i] == texts;
      ghost var before := old(State());
      assert Told(State(), notices) == Ingest(w, before, src, texts);
      if MemoryOk(w, before) { AllRecalled(w, before, src, texts); }
    }

    method SettleUnit(orgId: Id, id: nat, notices: seq<Notice>) returns (more: seq<Notice>)
      modifies this
      ensures Told(State(), more) == Settle(Told(old(State()), notices), orgId, id)
    {
      var remaining := Sources(edges, id);
      if remaining == [] {
        units := Where(units, NotUnit(orgId, id));
        return notices + [Delete(orgId, id)];
      }
      var found := UnitById(units, orgId, id);
      if found.Some? {
        return notices + [Upsert(found.value, remaining)];
      }
      return notices;
    }

    method ApplyMessageRedaction(orgId: Id, messageId: Id) returns (notices: seq<Notice>)
      modifies this
      ensures Told(State(), notices) == Forget(old(State()), orgId, messageId)
    {
      hide Settle, Where;
      var linked := UnitIds(Where(edges, From(orgId, messageId)));
      edges := Where(edges, NotFrom(orgId, messageId));
      notices := [];
      ghost var start := Told(State(), []);
      var i := 0;
      while i < |linked|
        invariant 0 <= i <= |linked|
        invariant Told(State(), notices) == SettleAll(start, orgId, linked[..i])
      {
        notices := SettleUnit(orgId, linked[i], notices);
        SettleOneMore(start, orgId, linked[..i], linked[i]);
        assert linked[..i + 1] == linked[..i] + [linked[i]];
        i := i + 1;
      }
      assert linked[..i] == linked;
    }

    method ApplyPromotion(orgId: Id, id: nat, summary: Option<string>) returns (notices: seq<Notice>)
      modifies this
      ensures Told(State(), notices) == Promote(old(State()), orgId, id, summary)
    {
      units := MarkPromoted(units, orgId, id, summary);
      var found := UnitById(units, orgId, id);
      return if found.Some? then [Upsert(found.value, Sources(edges, id))] else [];
    }
  }

  class SearchIndex {
    var messageDocs: map<DocKey, MessageDoc>
    var memoryDocs: map<nat, MemoryDoc>

    constructor ()
      ensures messageDocs == map[] && memoryDocs == map[]
    {
      messageDocs, memoryDocs := map[], map[];
    }

    method IndexMessage(t: Tables, e: Appending)
      modifies `messageDocs
      ensures messageDocs == Projections.IndexMessage(t, old(messageDocs), e)
    {
      hide PartsOf, FirstText, DocOf, VisibilityOf;
      var rows := PartsOf(t.parts, e.messageId);
      var text := FirstTextOfMessage(rows);
      ReadsAs(rows, text);
      if text.Some? && text.value != "" {
        messageDocs := messageDocs[DocKey(e.orgId, e.messageId) := DocOf(e, VisibilityOf(t, e.streamId, e.streamType), text.value)];
      }
    }

    method ApplyMessageRedaction(orgId: Id, messageId: Id)
      modifies `messageDocs
      ensures messageDocs == old(messageDocs) - {DocKey(orgId, messageId)}
    {
      messageDocs := messageDocs - {DocKey(orgId, messageId)};
    }

    /** The provider registered with the memory plugin, for a batch of its notices. */
    method ReceiveNotices(notices: seq<Notice>)
      modifies `memoryDocs
      ensures memoryDocs == ApplyAll(old(memoryDocs), notices)
    {
      var i := 0;
      while i < |notices|
        invariant 0 <= i <= |notices|
        invariant memoryDocs == ApplyAll(old(memoryDocs), notices[..i])
      {
        match notices[i] {
          case Upsert(u, sources) => memoryDocs := memoryDocs[u.id := MemoryDoc(u, sources)];
          case Delete(_, id) => memoryDocs := memoryDocs - {id};
        }
        assert notices[..i + 1][..i] == notices[..i];
        i := i + 1;
      }
      assert notices[..i] == notices;
    }

    /** Upserts a document for every stored message; on an empty index this is the rebuild. */
    method BackfillMessages(t: Tables)
      modifies `messageDocs
      ensures messageDocs == old(messageDocs) + Backfill(t, t.messages)
    {
      hide PartsOf, FirstText, DocOf, VisibilityOf;
      var i := 0;
      while i < |t.messages|
        invariant 0 <= i <= |t.messages|
        invariant messageDocs == old(messageDocs) + Backfill(t, t.messages[..i])
      {
        assert t.messages[..i + 1][..i] == t.messages[..i];
        if !t.messages[i].redacted {
          IndexMessage(t, EventOfMessage(t.messages[i]));
        }
        i := i + 1;
      }
      assert t.messages[..i] == t.messages;
    }
  }
}
