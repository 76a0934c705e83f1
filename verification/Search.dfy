// The search plugin's message documents (src/plugins/search.ts): the incremental index against a
// rebuild from the tables, and what a visible hit is worth.

module Search {
  import opened Prelude
  import opened AuditChain
  import opened Tables
  import opened ServiceSpec
  import opened ServiceRuns
  import opened MessageLaws
  import opened Cascades
  import opened SourceHistory
  import opened Memory
  import opened Projections
  import opened Rights

  function KeyOfPost(d: Done): DocKey
    requires IsPost(d)
  {
    DocKey(d.tx.p.orgId, d.value.messageId)
  }

  function PostedText(d: Done): Option<string>
    requires IsPost(d)
  {
    FirstText(PartRows(d.value.messageId, d.tx.parts))
  }

  /** The document was made of this post, under some visibility. */
  predicate MadeOf(doc: MessageDoc, d: Done)
    requires IsPost(d)
  {
    PostedText(d).Some? && doc == DocOf(EventOfPost(d), doc.visibility, PostedText(d).value)
  }

  predicate DocFrom(s: Sys, k: nat, key: DocKey, doc: MessageDoc)
    requires k < |s.log|
  {
    IsPost(s.log[k]) && key == KeyOfPost(s.log[k]) && MadeOf(doc, s.log[k])
  }

  /** Every document goes back to a post search was told of, and not told to drop. */
  ghost predicate DocsExplained(s: Sys, told: nat, docs: map<DocKey, MessageDoc>)
    requires told <= |s.log|
  {
    forall key :: key in docs ==>
      (exists k :: 0 <= k < told && DocFrom(s, k, key, docs[key])) && !RedactedBy(s.log, told, key.messageId)
  }

  /** The document of a post that is still there, with its stream's visibility. */
  predicate UpToDate(s: Sys, docs: map<DocKey, MessageDoc>, d: Done)
    requires IsPost(d)
  {
    PostedText(d).Some? ==>
      && KeyOfPost(d) in docs
      && docs[KeyOfPost(d)] == DocOf(EventOfPost(d), VisibilityOf(s.tables, d.tx.streamId, d.tx.streamType), PostedText(d).value)
  }

  ghost predicate DocsComplete(s: Sys, told: nat, docs: map<DocKey, MessageDoc>)
    requires told <= |s.log|
  {
    forall k :: 0 <= k < told && IsPost(s.log[k]) && Live(s, k) ==> UpToDate(s, docs, s.log[k])
  }

  ghost predicate SearchInv(s: Sys, told: nat, docs: map<DocKey, MessageDoc>) {
    told <= |s.log| && DocsExplained(s, told, docs) && DocsComplete(s, told, docs)
  }

  lemma ServeKeepsSearch(s: Sys, s': Sys, told: nat, docs: map<DocKey, MessageDoc>)
    requires SourceInv(s) && HistoryMoves(s, s') && SearchInv(s, told, docs)
    ensures SearchInv(s', told, docs)
  {
    hide SourceInv, Live, PostedText, DocOf;
    assert forall k :: 0 <= k < |s.log| ==> s'.log[k] == s.log[k];
    forall k | 0 <= k < told && IsPost(s'.log[k]) && Live(s', k)
      ensures UpToDate(s', docs, s'.log[k])
    {
      LiveBefore(s, s', k);
      assert UpToDate(s, docs, s.log[k]);
    }
    forall key | key in docs
      ensures exists k :: 0 <= k < told && DocFrom(s', k, key, docs[key])
      ensures !RedactedBy(s'.log, told, key.messageId)
    {
      var k :| 0 <= k < told && DocFrom(s, k, key, docs[key]);
      assert DocFrom(s', k, key, docs[key]);
    }
  }

  /** What indexing a post does, given what the plugin finds. */
  lemma IndexedPost(s: Sys, k: nat, docs: map<DocKey, MessageDoc>)
    requires SourceInv(s) && k < |s.log| && IsPost(s.log[k])
    ensures var d := s.log[k]; var docs' := SearchHandles(s.tables, docs, d);
            var doc := if PostedText(d).Some? then
                         DocOf(EventOfPost(d), VisibilityOf(s.tables, d.tx.streamId, d.tx.streamType), PostedText(d).value)
                       else DocOf(EventOfPost(d), Private, "");
            && (docs' == docs || (docs' == docs[KeyOfPost(d) := doc] && PostedText(d).Some? && !RedactedIn(s.log, d.value.messageId)))
            && (Live(s, k) && PostedText(d).Some? ==> docs' == docs[KeyOfPost(d) := doc])
  {
    FoundParts(s, k);
    assert EntryOk(s.tables, s.log, s.usedIds, s.log[k]);
    hide PartsOf, PartRows, Texts, DocOf, RedactedIn, Sourced, PendingOk, DistinctPosts, PartsOk, UniqueMessageIds, SourceInv, RedactionOk;
    assert PartsOf(s.tables.parts, s.log[k].value.messageId) == [] ==> FirstText(PartsOf(s.tables.parts, s.log[k].value.messageId)) == None by {
      NoRowsNoText();
    }
  }

  lemma NoRowsNoText()
    ensures FirstText([]) == None
  {
  }

  lemma KeysDiffer(s: Sys, j: nat, k: nat)
    requires SourceInv(s) && j < |s.log| && k < |s.log| && IsPost(s.log[j]) && IsPost(s.log[k]) && j != k
    ensures s.log[j].value.messageId != s.log[k].value.messageId
  {
    hide Sourced, PendingOk, PartsOk, UniqueMessageIds, EntryOk;
    if j < k {
      assert DistinctPosts(s.log);
    } else {
      assert DistinctPosts(s.log);
    }
  }

  lemma DocIsMade(d: Done, visibility: Visibility)
    requires IsPost(d) && PostedText(d).Some?
    ensures MadeOf(DocOf(EventOfPost(d), visibility, PostedText(d).value), d)
  {
  }

  lemma TellPostKeepsSearch(s: Sys, told: nat, docs: map<DocKey, MessageDoc>)
    requires SourceInv(s) && SearchInv(s, told, docs) && told < |s.log| && IsPost(s.log[told])
    ensures SearchInv(s, told + 1, SearchHandles(s.tables, docs, s.log[told]))
  {
    hide SourceInv, PostedText, DocOf, SearchHandles, RedactedBy, RedactedIn, VisibilityOf, Live;
    IndexedPost(s, told, docs);
    var docs' := SearchHandles(s.tables, docs, s.log[told]);
    forall key | key in docs'
      ensures exists k :: 0 <= k < told + 1 && DocFrom(s, k, key, docs'[key])
      ensures !RedactedBy(s.log, told + 1, key.messageId)
    {
      RedactedByMore(s.log, told, key.messageId);
      if docs' != docs && key == KeyOfPost(s.log[told]) {
        DocIsMade(s.log[told], VisibilityOf(s.tables, s.log[told].tx.streamId, s.log[told].tx.streamType));
        assert DocFrom(s, told, key, docs'[key]);
      } else {
        var k :| 0 <= k < told && DocFrom(s, k, key, docs[key]);
      }
    }
    forall k | 0 <= k < told + 1 && IsPost(s.log[k]) && Live(s, k)
      ensures UpToDate(s, docs', s.log[k])
    {
      if k < told { KeysDiffer(s, k, told); }
    }
  }

  lemma TellRedactionKeepsSearch(s: Sys, told: nat, docs: map<DocKey, MessageDoc>)
    requires SourceInv(s) && SearchInv(s, told, docs) && told < |s.log| && s.log[told].tx.TxRedact?
    ensures SearchInv(s, told + 1, SearchHandles(s.tables, docs, s.log[told]))
  {
    hide PostedText, DocOf, RedactedBy, VisibilityOf, Sourced, PendingOk, DistinctPosts, PartsOk, UniqueMessageIds, PostOk;
    var id := s.log[told].tx.messageId;
    var docs' := SearchHandles(s.tables, docs, s.log[told]);
    assert EntryOk(s.tables, s.log, s.usedIds, s.log[told]);
    assert IsRedaction(s.log[told], id);
    forall key | key in docs'
      ensures exists k :: 0 <= k < told + 1 && DocFrom(s, k, key, docs'[key])
      ensures !RedactedBy(s.log, told + 1, key.messageId)
    {
      var k :| 0 <= k < told && DocFrom(s, k, key, docs[key]);
      RedactedByMore(s.log, told, key.messageId);
    }
    forall k | 0 <= k < told + 1 && IsPost(s.log[k]) && Live(s, k)
      ensures UpToDate(s, docs', s.log[k])
    {
      assert k < told && s.log[k].value.messageId != id;
      assert UpToDate(s, docs, s.log[k]);
    }
  }

  lemma TellOtherKeepsSearch(s: Sys, told: nat, docs: map<DocKey, MessageDoc>)
    requires SearchInv(s, told, docs) && told < |s.log| && !IsPost(s.log[told]) && !s.log[told].tx.TxRedact?
    ensures SearchInv(s, told + 1, SearchHandles(s.tables, docs, s.log[told]))
  {
    hide PostedText, DocOf, RedactedBy, VisibilityOf, Live;
    forall key | key in docs
      ensures exists k :: 0 <= k < told + 1 && DocFrom(s, k, key, docs[key])
      ensures !RedactedBy(s.log, told + 1, key.messageId)
    {
      var k :| 0 <= k < told && DocFrom(s, k, key, docs[key]);
      RedactedByMore(s.log, told, key.messageId);
    }
  }

  lemma TurnKeepsSearch(env: Env, w: Wording, world: World, turn: Projections.Turn)
    requires WorldInv(w, world) && SearchInv(world.sys, world.searchTold, world.messageDocs)
    ensures var world' := TakeTurn(env, w, world, turn); SearchInv(world'.sys, world'.searchTold, world'.messageDocs)
  {
    hide SourceInv, StreamInv, MemoryInv, SearchInv, Exec, MemoryHandles, SearchHandles, Promote, ApplyAll;
    assert world.memoryTold <= |world.sys.log| by { ToldInHistory(w, world); }
    match turn
    case Serve(step) =>
      ExecKeepsSourceInv(env, world.sys, step);
      ServeKeepsSearch(world.sys, Exec(env, world.sys, step), world.searchTold, world.messageDocs);
    case TellSearch =>
      if world.searchTold < |world.sys.log| {
        var d := world.sys.log[world.searchTold];
        if IsPost(d) {
          TellPostKeepsSearch(world.sys, world.searchTold, world.messageDocs);
        } else if d.tx.TxRedact? {
          TellRedactionKeepsSearch(world.sys, world.searchTold, world.messageDocs);
        } else {
          TellOtherKeepsSearch(world.sys, world.searchTold, world.messageDocs);
        }
      }
    case TellMemory =>
    case PromoteUnit(_, _, _) =>
  }

  lemma {:induction false} TurnsKeepSearch(env: Env, w: Wording, turns: seq<Projections.Turn>)
    ensures var world := Turns(env, w, turns); SearchInv(world.sys, world.searchTold, world.messageDocs)
  {
    hide TakeTurn, WorldInv, SearchInv;
    if turns == [] {
      NewWorldSearchInv();
    } else {
      var front := turns[..|turns| - 1];
      TurnsKeep(env, w, front);
      TurnsKeepSearch(env, w, front);
      TurnKeepsSearch(env, w, Turns(env, w, front), turns[|turns| - 1]);
    }
  }

  lemma NewWorldSearchInv()
    ensures SearchInv(NEW_WORLD.sys, NEW_WORLD.searchTold, NEW_WORLD.messageDocs)
  {
    assert NEW_WORLD.searchTold == 0 && NEW_WORLD.messageDocs == map[];
  }

  // ---------- rebuilding ----------

  function KeyOfMessage(m: Message): DocKey {
    DocKey(m.orgId, m.id)
  }

  /** What a rebuild says about one message. */
  function Rebuilt(t: Tables, m: Message): Option<MessageDoc> {
    match FirstText(PartsOf(t.parts, m.id))
    case None => None
    case Some(text) => Some(DocOf(EventOfMessage(m), VisibilityOf(t, m.streamId, m.streamType), text))
  }

  predicate RebuildsTo(t: Tables, messages: seq<Message>, key: DocKey, doc: MessageDoc) {
    exists m :: m in messages && !m.redacted && KeyOfMessage(m) == key && Rebuilt(t, m) == Some(doc)
  }

  /** Backfill holds exactly the documents of the unredacted messages with text. */
  lemma {:induction false} BackfillHolds(t: Tables, messages: seq<Message>)
    requires UniqueMessageIds(messages)
    ensures var docs := Backfill(t, messages);
            && (forall key :: key in docs ==> RebuildsTo(t, messages, key, docs[key]))
            && (forall m :: m in messages && !m.redacted && Rebuilt(t, m).Some? ==>
                  KeyOfMessage(m) in docs && docs[KeyOfMessage(m)] == Rebuilt(t, m).value)
  {
    hide FirstText, PartsOf, DocOf, VisibilityOf;
    if messages != [] {
      var front, last := messages[..|messages| - 1], messages[|messages| - 1];
      BackfillHolds(t, front);
      var docs := Backfill(t, messages);
      forall m | m in messages && !m.redacted && Rebuilt(t, m).Some?
        ensures KeyOfMessage(m) in docs && docs[KeyOfMessage(m)] == Rebuilt(t, m).value
      {
        assert m in front ==> m.id != last.id;
      }
      forall key | key in docs
        ensures RebuildsTo(t, messages, key, docs[key])
      {
        if key in Backfill(t, front) {
          var doc := Backfill(t, front)[key];
          assert RebuildsTo(t, front, key, doc);
          var m :| m in front && !m.redacted && KeyOfMessage(m) == key && Rebuilt(t, m) == Some(doc);
          assert m.id != last.id && m in messages;
        } else {
          assert last in messages;
        }
      }
    }
  }

  lemma RebuiltKey(t: Tables, messages: seq<Message>, key: DocKey) returns (m: Message)
    requires UniqueMessageIds(messages) && key in Backfill(t, messages)
    ensures m in messages && !m.redacted && KeyOfMessage(m) == key && Rebuilt(t, m) == Some(Backfill(t, messages)[key])
  {
    hide Backfill, Rebuilt;
    BackfillHolds(t, messages);
    var doc := Backfill(t, messages)[key];
    assert RebuildsTo(t, messages, key, doc);
    m :| m in messages && !m.redacted && KeyOfMessage(m) == key && Rebuilt(t, m) == Some(doc);
  }

  predicate NothingDropped(log: seq<Done>) {
    forall i :: 0 <= i < |log| ==> log[i].dropped == {}
  }

  /** A message in a stream that was never deleted: its post is live unless redacted. */
  lemma PostIsLive(s: Sys, m: Message) returns (k: nat)
    requires SourceInv(s) && m in s.tables.messages && !Dropped(s.log, m.streamId)
    ensures k < |s.log| && Posted(s.log[k], m) && (!m.redacted ==> Live(s, k))
    ensures KeyOfPost(s.log[k]) == KeyOfMessage(m) && EventOfPost(s.log[k]) == EventOfMessage(m)
    ensures !m.redacted ==> PartsOf(s.tables.parts, m.id) == PartRows(m.id, s.log[k].tx.parts)
  {
    hide Dropped, PartsOf, PartRows, RedactedIn, PendingOk, DistinctPosts, PartsOk, UniqueMessageIds, RedactionOk;
    assert Sourced(s.log, s.tables.parts, m);
    k :| 0 <= k < |s.log| && Posted(s.log[k], m)
         && (!m.redacted ==> PartsOf(s.tables.parts, m.id) == PartRows(m.id, s.log[k].tx.parts));
    assert EntryOk(s.tables, s.log, s.usedIds, s.log[k]);
  }

  /** A document of a stream that was never deleted, once search was told everything. */
  lemma DocIsRebuilt(s: Sys, docs: map<DocKey, MessageDoc>, key: DocKey)
    requires SourceInv(s) && SearchInv(s, |s.log|, docs) && key in docs && NothingDropped(s.log)
    ensures RebuildsTo(s.tables, s.tables.messages, key, docs[key])
  {
    hide PartsOf, PartRows, Sourced, PendingOk, DistinctPosts, PartsOk, UniqueMessageIds, RedactionOk, FirstText, DocOf, VisibilityOf;
    var k :| 0 <= k < |s.log| && DocFrom(s, k, key, docs[key]);
    assert EntryOk(s.tables, s.log, s.usedIds, s.log[k]);
    assert !Dropped(s.log, s.log[k].tx.streamId);
    var m :| m in s.tables.messages && m.id == key.messageId;
    FoundParts(s, k);
    assert !RedactedIn(s.log, key.messageId) && Live(s, k);
    assert UpToDate(s, docs, s.log[k]);
    assert EventOfMessage(m) == EventOfPost(s.log[k]);
    assert Rebuilt(s.tables, m) == Some(docs[key]);
  }

  lemma RebuiltIsDoc(s: Sys, docs: map<DocKey, MessageDoc>, m: Message)
    requires SourceInv(s) && SearchInv(s, |s.log|, docs) && NothingDropped(s.log)
    requires m in s.tables.messages && !m.redacted && Rebuilt(s.tables, m).Some?
    ensures KeyOfMessage(m) in docs && docs[KeyOfMessage(m)] == Rebuilt(s.tables, m).value
  {
    hide PartsOf, PartRows, SourceInv, FirstText, DocOf, VisibilityOf, DocsExplained;
    assert !Dropped(s.log, m.streamId);
    var k := PostIsLive(s, m);
    assert UpToDate(s, docs, s.log[k]);
  }

  /**
   * Main result: over any run in which no stream was deleted, once search has been told everything its
   * message documents are those a rebuild from the tables would make.
   */
  lemma IndexEqualsBackfill(env: Env, w: Wording, turns: seq<Projections.Turn>)
    requires var world := Turns(env, w, turns); world.searchTold == |world.sys.log| && NothingDropped(world.sys.log)
    ensures var world := Turns(env, w, turns); world.messageDocs == Backfill(world.sys.tables, world.sys.tables.messages)
  {
    hide Turns, SearchInv, MemoryInv, StreamInv, NothingDropped, Rebuilt, Backfill, Sourced, PendingOk, EntryOk, PartsOk, DistinctPosts;
    TurnsKeep(env, w, turns);
    TurnsKeepSearch(env, w, turns);
    var world := Turns(env, w, turns);
    var s, docs := world.sys, world.messageDocs;
    var rebuilt := Backfill(s.tables, s.tables.messages);
    BackfillHolds(s.tables, s.tables.messages);
    forall key | key in docs
      ensures key in rebuilt && rebuilt[key] == docs[key]
    {
      DocIsRebuilt(s, docs, key);
    }
    forall key | key in rebuilt
      ensures key in docs
    {
      var m := RebuiltKey(s.tables, s.tables.messages, key);
      RebuiltIsDoc(s, docs, m);
    }
  }

  // ---------- what may be shown ----------

  /** `isVisibleToPrincipal` for a message document. */
  predicate Visible(t: Tables, p: Principal, key: DocKey, doc: MessageDoc) {
    key.orgId == p.orgId && KnownActor(t, p) && Readable(t, p, doc.streamId, doc.streamType)
  }

  /** A document is shown exactly to the actors of its org who can read its stream. */
  lemma VisibleIff(t: Tables, p: Principal, key: DocKey, doc: MessageDoc)
    ensures Visible(t, p, key, doc)
            <==> key.orgId == p.orgId && IsActor(t, p.orgId, p.actorId) && CanRead(t, p.orgId, p.actorId, doc.streamId, doc.streamType)
  {
    ReadsIff(t, p, doc.streamId, doc.streamType);
  }

  /** Part `i` of the post is its first text part, and says something. */
  predicate SaysFirst(d: Done, i: nat)
    requires IsPost(d)
  {
    && i < |d.tx.parts| && d.tx.parts[i].TextPart? && d.tx.parts[i].text != ""
    && forall j :: 0 <= j < i ==> !d.tx.parts[j].TextPart?
  }

  /** Search was told of post `k`, whose message and stream are still there. */
  predicate ToldAndLive(world: World, k: nat) {
    k < world.searchTold <= |world.sys.log| && IsPost(world.sys.log[k]) && Live(world.sys, k)
  }

  lemma PostedTextIs(d: Done, i: nat)
    requires IsPost(d) && SaysFirst(d, i)
    ensures PostedText(d) == Some(d.tx.parts[i].text)
  {
    var rows := PartRows(d.value.messageId, d.tx.parts);
    assert FirstTextAt(rows, i, d.tx.parts[i].text);
    FirstTextIff(rows, d.tx.parts[i].text);
  }

  /**
   * Main result: in every state, each post search was told of, and whose message is still there, can be
   * found by its first text part, under its author, number, stream and the stream's visibility.
   */
  lemma PostsAreFound(env: Env, w: Wording, turns: seq<Projections.Turn>, k: nat, i: nat)
    requires var world := Turns(env, w, turns); ToldAndLive(world, k) && SaysFirst(world.sys.log[k], i)
    ensures var world := Turns(env, w, turns); var d := world.sys.log[k]; var key := DocKey(d.tx.p.orgId, d.value.messageId);
            && key in world.messageDocs
            && ShowsPost(world.messageDocs[key], world.sys.tables, d, d.tx.parts[i].text)
  {
    hide Turns, SourceInv, StreamInv, MemoryInv, DocsExplained, PostedText, Live, DocOf, VisibilityOf, ShowsPost;
    TurnsKeepSearch(env, w, turns);
    var world := Turns(env, w, turns);
    var d := world.sys.log[k];
    assert UpToDate(world.sys, world.messageDocs, d);
    PostedTextIs(d, i);
    ShowsIts(world.sys, k, d.tx.parts[i].text);
  }

  /** The document in full. */
  predicate ShowsPost(doc: MessageDoc, t: Tables, d: Done, text: string)
    requires IsPost(d)
  {
    && doc.body == text && (|text| <= 80 ==> doc.title == text)
    && (|text| > 80 ==> |doc.title| == 78 && doc.title[..77] == text[..77] && doc.title[77] == '\U{2026}')
    && doc.actorId == d.tx.p.actorId && doc.streamId == d.tx.streamId && doc.streamType == d.tx.streamType
    && doc.streamSeq == d.value.streamSeq
    && (if d.tx.streamType == ThreadStream then d.tx.streamId in t.threads && t.threads[d.tx.streamId].visibility == doc.visibility
        else d.tx.streamId in t.channels && t.channels[d.tx.streamId].visibility == doc.visibility)
  }

  lemma ShowsIts(s: Sys, k: nat, text: string)
    requires k < |s.log| && IsPost(s.log[k]) && Live(s, k)
    ensures var d := s.log[k];
            ShowsPost(DocOf(EventOfPost(d), VisibilityOf(s.tables, d.tx.streamId, d.tx.streamType), text), s.tables, d, text)
  {
    hide RedactedIn;
  }

  predicate RedactionToCome(log: seq<Done>, told: nat, messageId: Id) {
    exists r :: told <= r < |log| && IsRedaction(log[r], messageId)
  }

  /**
   * Main result: in every state, deletions of channels and orgs included, a message document the asker
   * is shown is of an existing message of that stream, which the asker can read, and shows its current
   * text, unless the message was redacted and search has yet to be told.
   */
  lemma VisibleHitsAreCurrent(env: Env, w: Wording, turns: seq<Projections.Turn>, p: Principal, key: DocKey)
    requires key in Turns(env, w, turns).messageDocs
    requires Visible(Turns(env, w, turns).sys.tables, p, key, Turns(env, w, turns).messageDocs[key])
    ensures var world := Turns(env, w, turns); var s, doc := world.sys, world.messageDocs[key];
            && key.orgId == p.orgId && IsActor(s.tables, p.orgId, p.actorId)
            && CanRead(s.tables, p.orgId, p.actorId, doc.streamId, doc.streamType)
            && exists m :: m in s.tables.messages && KeyOfMessage(m) == key && m.streamId == doc.streamId && m.streamType == doc.streamType
                        && (if m.redacted then RedactionToCome(s.log, world.searchTold, m.id)
                            else FirstText(PartsOf(s.tables.parts, m.id)) == Some(doc.body))
  {
    hide Turns, MemoryInv, StreamInv, PartsOf, PartRows, Sourced, PendingOk, DistinctPosts, PartsOk, UniqueMessageIds, RedactionOk,
         Texts, IsMember;
    TurnsKeep(env, w, turns);
    TurnsKeepSearch(env, w, turns);
    var world := Turns(env, w, turns);
    var s, doc := world.sys, world.messageDocs[key];
    var k :| 0 <= k < world.searchTold && DocFrom(s, k, key, doc);
    assert EntryOk(s.tables, s.log, s.usedIds, s.log[k]);
    assert Lives(s.tables, doc.streamId, doc.streamType);
    var m :| m in s.tables.messages && m.id == key.messageId;
    VisibleIff(s.tables, p, key, doc);
    FoundParts(s, k);
    if m.redacted {
      var r :| 0 <= r < |s.log| && IsRedaction(s.log[r], m.id);
      assert r >= world.searchTold;
    }
  }
}
