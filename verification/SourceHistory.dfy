// What the service's history says about its messages: every message was posted once, its parts are
// those it was posted with until it is redacted, and it stays as long as its stream does. This is
// what projections of the event stream can rely on, under every interleaving.

module SourceHistory {
  import opened Prelude
  import opened AuditChain
  import opened Tables
  import opened ServiceSpec
  import opened ServiceRuns
  import opened MessageLaws
  import opened Cascades

  /** A stream of this type exists. */
  predicate Lives(t: Tables, streamId: Id, streamType: StreamType) {
    match streamType
    case ChannelStream => streamId in t.channels
    case ThreadStream => streamId in t.threads
  }

  /** A stream's visibility as plugins look it up; a missing stream counts as private. */
  function VisibilityOf(t: Tables, streamId: Id, streamType: StreamType): Visibility {
    match streamType
    case ChannelStream => if streamId in t.channels then t.channels[streamId].visibility else Private
    case ThreadStream => if streamId in t.threads then t.threads[streamId].visibility else Private
  }

  /** The history entry of a posted message. */
  predicate IsPost(d: Done) {
    d.tx.TxAppend? && d.value.Appended? && !d.value.idempotent
  }

  predicate IsRedaction(d: Done, messageId: Id) {
    d.tx.TxRedact? && d.tx.messageId == messageId
  }

  predicate Posted(d: Done, m: Message) {
    && IsPost(d) && d.value.messageId == m.id && d.value.streamSeq == m.streamSeq
    && d.tx.p.orgId == m.orgId && d.tx.p.actorId == m.actorId
    && d.tx.streamId == m.streamId && d.tx.streamType == m.streamType && d.tx.key == m.key
    && d.events != [] && d.events[0].createdAt == m.createdAt
  }

  function PartOf(messageId: Id): PartRow -> bool {
    (row: PartRow) => row.messageId == messageId
  }

  /** `SELECT ... FROM message_parts WHERE message_id=? ORDER BY part_index` */
  function PartsOf(parts: seq<PartRow>, messageId: Id): seq<PartRow> {
    Where(parts, PartOf(messageId))
  }

  predicate Dropped(log: seq<Done>, streamId: Id) {
    exists i :: 0 <= i < |log| && streamId in log[i].dropped
  }

  predicate RedactedIn(log: seq<Done>, messageId: Id) {
    exists i :: 0 <= i < |log| && IsRedaction(log[i], messageId)
  }

  predicate HasMessage(messages: seq<Message>, messageId: Id) {
    exists m :: m in messages && m.id == messageId
  }

  /** The message was posted by a history entry, is flagged exactly if redacted, and has its parts. */
  ghost predicate Sourced(log: seq<Done>, parts: seq<PartRow>, m: Message) {
    && (exists k :: 0 <= k < |log| && Posted(log[k], m)
                    && (!m.redacted ==> PartsOf(parts, m.id) == PartRows(m.id, log[k].tx.parts)))
    && (m.redacted <==> RedactedIn(log, m.id))
  }

  /** A redaction names a known message, and its org. */
  ghost predicate RedactionOk(log: seq<Done>, usedIds: set<Id>, tx: Tx)
    requires tx.TxRedact?
  {
    && tx.messageId in usedIds
    && forall k :: 0 <= k < |log| && IsPost(log[k]) && log[k].value.messageId == tx.messageId ==> log[k].tx.p.orgId == tx.p.orgId
  }

  predicate StreamKnown(t: Tables, log: seq<Done>, tx: Tx)
    requires tx.TxAppend?
  {
    Lives(t, tx.streamId, tx.streamType) || Dropped(log, tx.streamId)
  }

  ghost predicate PostOk(t: Tables, log: seq<Done>, usedIds: set<Id>, d: Done)
    requires IsPost(d)
  {
    && d.value.messageId in usedIds
    && StreamKnown(t, log, d.tx)
    && (Lives(t, d.tx.streamId, d.tx.streamType) ==> HasMessage(t.messages, d.value.messageId))
  }

  ghost predicate PendingOk(t: Tables, log: seq<Done>, usedIds: set<Id>, tx: Tx) {
    && (tx.TxAppend? ==> StreamKnown(t, log, tx) && tx.streamId in usedIds)
    && (tx.TxRedact? ==> RedactionOk(log, usedIds, tx))
    && (tx.TxDeleteChannel? ==> tx.channelId !in t.threads && tx.channelId in usedIds)
  }

  ghost predicate EntryOk(t: Tables, log: seq<Done>, usedIds: set<Id>, d: Done) {
    && (IsPost(d) ==> PostOk(t, log, usedIds, d) && d.tx.streamId in usedIds)
    && (d.tx.TxRedact? ==> RedactionOk(log, usedIds, d.tx))
  }

  ghost predicate DistinctPosts(log: seq<Done>) {
    forall j, k :: 0 <= j < k < |log| && IsPost(log[j]) && IsPost(log[k]) ==> log[j].value.messageId != log[k].value.messageId
  }

  ghost predicate SourceInv(s: Sys) {
    && s.tables.channels.Keys !! s.tables.threads.Keys
    && UniqueMessageIds(s.tables.messages)
    && (forall m :: m in s.tables.messages ==> m.id in s.usedIds && Sourced(s.log, s.tables.parts, m))
    && PartsOk(s.tables.parts, s.tables.messages)
    && DistinctPosts(s.log)
    && (forall k :: 0 <= k < |s.log| ==> EntryOk(s.tables, s.log, s.usedIds, s.log[k]))
    && (forall n :: n in s.pending ==> PendingOk(s.tables, s.log, s.usedIds, s.pending[n]))
  }

  // ---------- how a committed transaction moves history ----------

  /** Streams disappear only if the entry says so, and appear only under fresh ids. */
  ghost predicate StreamsMove(t: Tables, t': Tables, usedIds: set<Id>, d: Done) {
    && t'.channels.Keys !! t'.threads.Keys
    && (forall x, k :: Lives(t, x, k) && !Lives(t', x, k) ==> x in d.dropped)
    && (forall x, k :: !Lives(t, x, k) && Lives(t', x, k) ==> x !in usedIds)
    && (forall x, k :: Lives(t, x, k) && Lives(t', x, k) ==> VisibilityOf(t', x, k) == VisibilityOf(t, x, k))
  }

  /** The entry, if it is a post, has a fresh id and a known stream; if a redaction, a known message. */
  ghost predicate EntryFits(s: Sys, d: Done) {
    && (IsPost(d) ==> d.value.messageId !in s.usedIds && StreamKnown(s.tables, s.log, d.tx) && d.tx.streamId in s.usedIds)
    && (d.tx.TxRedact? ==> RedactionOk(s.log, s.usedIds, d.tx))
  }

  ghost predicate Moved(s: Sys, s': Sys, d: Done) {
    && s'.log == s.log + [d] && s.usedIds <= s'.usedIds
    && (forall n :: n in s'.pending ==> n in s.pending && s'.pending[n] == s.pending[n])
    && EntryFits(s, d)
    && StreamsMove(s.tables, s'.tables, s.usedIds, d)
    && (IsPost(d) ==> d.value.messageId in s'.usedIds)
  }

  lemma DroppedGrows(log: seq<Done>, d: Done, x: Id)
    ensures Dropped(log, x) || x in d.dropped ==> Dropped(log + [d], x)
  {
    var log' := log + [d];
    assert log'[|log|] == d && forall i :: 0 <= i < |log| ==> log'[i] == log[i];
  }

  lemma StreamStaysKnown(s: Sys, s': Sys, d: Done, tx: Tx)
    requires Moved(s, s', d) && tx.TxAppend? && StreamKnown(s.tables, s.log, tx)
    ensures StreamKnown(s'.tables, s'.log, tx)
  {
    DroppedGrows(s.log, d, tx.streamId);
  }

  lemma RedactionStaysOk(s: Sys, s': Sys, d: Done, tx: Tx)
    requires Moved(s, s', d) && tx.TxRedact? && RedactionOk(s.log, s.usedIds, tx)
    ensures RedactionOk(s'.log, s'.usedIds, tx)
  {
  }

  lemma PendingStaysOk(s: Sys, s': Sys, d: Done, tx: Tx)
    requires Moved(s, s', d) && PendingOk(s.tables, s.log, s.usedIds, tx)
    ensures PendingOk(s'.tables, s'.log, s'.usedIds, tx)
  {
    hide StreamKnown, RedactionOk;
    if tx.TxAppend? { StreamStaysKnown(s, s', d, tx); }
    if tx.TxRedact? { RedactionStaysOk(s, s', d, tx); }
    if tx.TxDeleteChannel? { assert !Lives(s.tables, tx.channelId, ThreadStream); assert !Lives(s'.tables, tx.channelId, ThreadStream); }
  }

  /** Messages only go when their stream does. */
  ghost predicate KeepsLiving(s: Sys, s': Sys, d: Done) {
    forall k | 0 <= k < |s.log| && IsPost(s.log[k])
      :: HasMessage(s.tables.messages, s.log[k].value.messageId) && Lives(s'.tables, s.log[k].tx.streamId, s.log[k].tx.streamType)
         ==> HasMessage(s'.tables.messages, s.log[k].value.messageId)
  }

  lemma EntryStaysOk(s: Sys, s': Sys, d: Done, k: nat)
    requires Moved(s, s', d) && KeepsLiving(s, s', d)
    requires k < |s.log| && EntryOk(s.tables, s.log, s.usedIds, s.log[k])
    ensures EntryOk(s'.tables, s'.log, s'.usedIds, s'.log[k])
  {
    hide StreamKnown, RedactionOk, HasMessage;
    var e := s.log[k];
    assert s'.log[k] == e;
    if IsPost(e) {
      StreamStaysKnown(s, s', d, e.tx);
      if Lives(s'.tables, e.tx.streamId, e.tx.streamType) { assert Lives(s.tables, e.tx.streamId, e.tx.streamType); }
    }
    if e.tx.TxRedact? { RedactionStaysOk(s, s', d, e.tx); }
  }

  /** The new entry itself. */
  lemma NewEntryOk(s: Sys, s': Sys, d: Done)
    requires Moved(s, s', d)
    requires IsPost(d) ==> HasMessage(s'.tables.messages, d.value.messageId)
    ensures EntryOk(s'.tables, s'.log, s'.usedIds, d)
  {
    hide HasMessage;
    if IsPost(d) { StreamStaysKnown(s, s', d, d.tx); }
    if d.tx.TxRedact? { RedactionStaysOk(s, s', d, d.tx); }
  }

  lemma PostsStayDistinct(s: Sys, s': Sys, d: Done)
    requires Moved(s, s', d) && DistinctPosts(s.log)
    requires forall k :: 0 <= k < |s.log| ==> EntryOk(s.tables, s.log, s.usedIds, s.log[k])
    ensures DistinctPosts(s'.log)
  {
    hide RedactionOk, StreamKnown, HasMessage, StreamsMove;
    forall j, k | 0 <= j < k < |s'.log| && IsPost(s'.log[j]) && IsPost(s'.log[k])
      ensures s'.log[j].value.messageId != s'.log[k].value.messageId
    {
      assert EntryOk(s.tables, s.log, s.usedIds, s.log[j]);
    }
  }

  /** Entries and pending calls after a move; what remains is each message's source. */
  lemma MoveKeeps(s: Sys, s': Sys, d: Done)
    requires SourceInv(s) && Moved(s, s', d) && KeepsLiving(s, s', d)
    requires IsPost(d) ==> HasMessage(s'.tables.messages, d.value.messageId)
    requires UniqueMessageIds(s'.tables.messages) && PartsOk(s'.tables.parts, s'.tables.messages)
    requires forall m :: m in s'.tables.messages ==> m.id in s'.usedIds && Sourced(s'.log, s'.tables.parts, m)
    ensures SourceInv(s')
  {
    hide EntryOk, PendingOk, UniqueMessageIds, PartsOk, Sourced, DistinctPosts, HasMessage, KeepsLiving;
    PostsStayDistinct(s, s', d);
    NewEntryOk(s, s', d);
    forall k | 0 <= k < |s'.log|
      ensures EntryOk(s'.tables, s'.log, s'.usedIds, s'.log[k])
    {
      if k < |s.log| { EntryStaysOk(s, s', d, k); }
    }
    forall n | n in s'.pending
      ensures PendingOk(s'.tables, s'.log, s'.usedIds, s'.pending[n])
    {
      PendingStaysOk(s, s', d, s.pending[n]);
    }
  }

  // ---------- messages and their sources, by kind of transaction ----------

  lemma RedactedGrows(log: seq<Done>, d: Done, id: Id)
    ensures RedactedIn(log + [d], id) <==> RedactedIn(log, id) || IsRedaction(d, id)
  {
    var log' := log + [d];
    assert log'[|log|] == d && forall i :: 0 <= i < |log| ==> log'[i] == log[i];
    if RedactedIn(log, id) {
      var i :| 0 <= i < |log| && IsRedaction(log[i], id);
      assert IsRedaction(log'[i], id);
    }
  }

  lemma SourcedLater(log: seq<Done>, d: Done, parts: seq<PartRow>, parts': seq<PartRow>, m: Message)
    requires Sourced(log, parts, m) && PartsOf(parts', m.id) == PartsOf(parts, m.id) && !IsRedaction(d, m.id)
    ensures Sourced(log + [d], parts', m)
  {
    hide PartsOf, RedactedIn, IsRedaction;
    RedactedGrows(log, d, m.id);
    var k :| 0 <= k < |log| && Posted(log[k], m) && (!m.redacted ==> PartsOf(parts, m.id) == PartRows(m.id, log[k].tx.parts));
    assert (log + [d])[k] == log[k];
  }

  lemma SameMessagesKeep(s: Sys, s': Sys, d: Done)
    requires SourceInv(s) && Moved(s, s', d) && !IsPost(d) && !d.tx.TxRedact?
    requires s'.tables.messages == s.tables.messages && s'.tables.parts == s.tables.parts
    ensures SourceInv(s')
  {
    hide UniqueMessageIds, PartsOk, Sourced, DistinctPosts, EntryOk, PendingOk, EntryFits, StreamsMove, HasMessage;
    forall m | m in s.tables.messages
      ensures m.id in s'.usedIds && Sourced(s'.log, s'.tables.parts, m)
    {
      SourcedLater(s.log, d, s.tables.parts, s'.tables.parts, m);
    }
    MoveKeeps(s, s', d);
  }

  lemma NoPartsYet(s: Sys, id: Id)
    requires SourceInv(s) && id !in s.usedIds
    ensures PartsOf(s.tables.parts, id) == [] && !RedactedIn(s.log, id)
  {
    hide Sourced, DistinctPosts, PendingOk, PostOk, StreamKnown;
    forall row | row in s.tables.parts
      ensures row.messageId != id
    {
      assert PartOk(row, s.tables.messages);
    }
    WhereNone(s.tables.parts, PartOf(id));
    forall i | 0 <= i < |s.log| && s.log[i].tx.TxRedact?
      ensures s.log[i].tx.messageId != id
    {
      assert EntryOk(s.tables, s.log, s.usedIds, s.log[i]);
    }
  }

  lemma NewParts(parts: seq<PartRow>, id: Id, more: seq<MessagePart>, x: Id)
    ensures PartsOf(parts + PartRows(id, more), x) == PartsOf(parts, x) + (if x == id then PartRows(id, more) else [])
  {
    WhereAppend(parts, PartRows(id, more), PartOf(x));
    if x == id {
      WhereAll(PartRows(id, more), PartOf(x));
    } else {
      WhereNone(PartRows(id, more), PartOf(x));
    }
  }

  lemma PostKeepsSource(s: Sys, s': Sys, d: Done, m: Message)
    requires SourceInv(s) && Moved(s, s', d) && Posted(d, m) && m.id !in s.usedIds && !m.redacted
    requires s'.tables.messages == s.tables.messages + [m] && s'.tables.parts == s.tables.parts + PartRows(m.id, d.tx.parts)
    ensures SourceInv(s')
  {
    hide DistinctPosts, EntryOk, PendingOk, EntryFits, StreamsMove, PartsOf, RedactedIn, PartRows;
    NoPartsYet(s, m.id);
    NewParts(s.tables.parts, m.id, d.tx.parts, m.id);
    RedactedGrows(s.log, d, m.id);
    assert s'.log[|s.log|] == d && s'.tables.messages[|s.tables.messages|] == m;
    forall x | x in s'.tables.messages
      ensures x.id in s'.usedIds && Sourced(s'.log, s'.tables.parts, x)
    {
      if x in s.tables.messages {
        NewParts(s.tables.parts, m.id, d.tx.parts, x.id);
        SourcedLater(s.log, d, s.tables.parts, s'.tables.parts, x);
      }
    }
    OneMoreMessage(s.tables.messages, s.tables.parts, m, d.tx.parts);
    hide Sourced, UniqueMessageIds, PartsOk;
    MoveKeeps(s, s', d);
  }

  lemma OneMoreMessage(messages: seq<Message>, parts: seq<PartRow>, m: Message, more: seq<MessagePart>)
    requires UniqueMessageIds(messages) && PartsOk(parts, messages) && !m.redacted
    requires forall x :: x in messages ==> x.id != m.id
    ensures UniqueMessageIds(messages + [m]) && PartsOk(parts + PartRows(m.id, more), messages + [m])
  {
    var ms := messages + [m];
    assert ms[|messages|] == m;
    forall row | row in parts + PartRows(m.id, more)
      ensures PartOk(row, ms)
    {
      if row in parts {
        assert PartOk(row, messages);
        var x :| x in messages && x.id == row.messageId && !x.redacted;
        assert x in ms;
      }
    }
  }

  lemma RedactKeepsSource(s: Sys, s': Sys, d: Done, id: Id)
    requires SourceInv(s) && Moved(s, s', d) && !IsPost(d) && IsRedaction(d, id)
    requires s'.tables.messages == MarkRedacted(s.tables.messages, id) && s'.tables.parts == Where(s.tables.parts, NotPartOf(id))
    ensures SourceInv(s')
  {
    hide DistinctPosts, EntryOk, PendingOk, EntryFits, StreamsMove, PartsOf, RedactedIn, UniqueMessageIds, PartsOk, Sourced;
    var ms, ms' := s.tables.messages, s'.tables.messages;
    forall m | m in ms'
      ensures m.id in s'.usedIds && Sourced(s'.log, s'.tables.parts, m)
    {
      var i :| 0 <= i < |ms'| && ms'[i] == m;
      assert ms[i] in ms && Sourced(s.log, s.tables.parts, ms[i]);
      if m.id == id {
        FlaggedIsSourced(s.log, d, s.tables.parts, s'.tables.parts, ms[i]);
      } else {
        OtherParts(s.tables.parts, id, m.id);
        SourcedLater(s.log, d, s.tables.parts, s'.tables.parts, m);
      }
    }
    RedactionKeepsRows(ms, s.tables.parts, id);
    MoveKeeps(s, s', d);
  }

  lemma FlaggedIsSourced(log: seq<Done>, d: Done, parts: seq<PartRow>, parts': seq<PartRow>, m: Message)
    requires Sourced(log, parts, m) && IsRedaction(d, m.id)
    ensures Sourced(log + [d], parts', m.(redacted := true))
  {
    hide PartsOf, RedactedIn;
    RedactedGrows(log, d, m.id);
    var k :| 0 <= k < |log| && Posted(log[k], m);
    assert Posted((log + [d])[k], m.(redacted := true));
  }

  lemma OtherParts(parts: seq<PartRow>, id: Id, x: Id)
    requires x != id
    ensures PartsOf(Where(parts, NotPartOf(id)), x) == PartsOf(parts, x)
  {
    WhereWhere(parts, NotPartOf(id), PartOf(x), PartOf(x));
  }

  lemma RedactionKeepsRows(messages: seq<Message>, parts: seq<PartRow>, id: Id)
    requires UniqueMessageIds(messages) && PartsOk(parts, messages)
    ensures UniqueMessageIds(MarkRedacted(messages, id))
    ensures PartsOk(Where(parts, NotPartOf(id)), MarkRedacted(messages, id))
    ensures forall x :: HasMessage(messages, x) ==> HasMessage(MarkRedacted(messages, id), x)
  {
    var ms := MarkRedacted(messages, id);
    forall row | row in Where(parts, NotPartOf(id))
      ensures PartOk(row, ms)
    {
      assert PartOk(row, messages);
      var m :| m in messages && m.id == row.messageId && !m.redacted;
      var i :| 0 <= i < |messages| && messages[i] == m;
      assert ms[i] == m && ms[i] in ms;
    }
    forall x | HasMessage(messages, x)
      ensures HasMessage(ms, x)
    {
      var m :| m in messages && m.id == x;
      var i :| 0 <= i < |messages| && messages[i] == m;
      assert ms[i] in ms;
    }
  }

  /** Deleted messages take their parts along, and only theirs. */
  ghost predicate Removes(messages: seq<Message>, keep: Message -> bool, gone: set<Id>) {
    && (forall m :: m in messages && !keep(m) ==> m.id in gone)
    && (forall id :: id in gone ==> exists m :: m in messages && m.id == id && !keep(m))
  }

  lemma DropKeepsSource(s: Sys, s': Sys, d: Done, keep: Message -> bool, gone: set<Id>)
    requires SourceInv(s) && Moved(s, s', d) && !IsPost(d) && !d.tx.TxRedact?
    requires s'.tables.messages == Where(s.tables.messages, keep) && s'.tables.parts == Where(s.tables.parts, PartOutside(gone))
    requires Removes(s.tables.messages, keep, gone)
    requires forall m :: m in s.tables.messages && Lives(s'.tables, m.streamId, m.streamType) ==> keep(m)
    ensures SourceInv(s')
  {
    hide EntryOk, PendingOk, EntryFits, StreamsMove, PartsOf, RedactedIn, Sourced;
    var ms, ms' := s.tables.messages, s'.tables.messages;
    KeptAreNotGone(ms, keep, gone);
    forall m | m in ms'
      ensures m.id in s'.usedIds && Sourced(s'.log, s'.tables.parts, m)
    {
      KeptParts(s.tables.parts, gone, m.id);
      SourcedLater(s.log, d, s.tables.parts, s'.tables.parts, m);
    }
    WhereKeepsUniqueMessageIds(ms, keep);
    assert PartsOk(s'.tables.parts, ms') by { KeptPartsOk(ms, s.tables.parts, keep, gone); }
    LivingKept(s, s', d, keep);
    hide UniqueMessageIds, PartsOk, DistinctPosts, HasMessage, Lives;
    MoveKeeps(s, s', d);
  }

  lemma KeptAreNotGone(messages: seq<Message>, keep: Message -> bool, gone: set<Id>)
    requires UniqueMessageIds(messages) && Removes(messages, keep, gone)
    ensures forall m :: m in Where(messages, keep) ==> m.id !in gone
  {
    forall m | m in Where(messages, keep)
      ensures m.id !in gone
    {
      forall x | x in messages && x.id == m.id
        ensures keep(x)
      {
        SameIdSameMessage(messages, x, m);
      }
    }
  }

  lemma KeptParts(parts: seq<PartRow>, gone: set<Id>, x: Id)
    requires x !in gone
    ensures PartsOf(Where(parts, PartOutside(gone)), x) == PartsOf(parts, x)
  {
    WhereWhere(parts, PartOutside(gone), PartOf(x), PartOf(x));
  }

  lemma KeptPartsOk(messages: seq<Message>, parts: seq<PartRow>, keep: Message -> bool, gone: set<Id>)
    requires PartsOk(parts, messages) && Removes(messages, keep, gone)
    ensures PartsOk(Where(parts, PartOutside(gone)), Where(messages, keep))
  {
    forall row | row in Where(parts, PartOutside(gone))
      ensures PartOk(row, Where(messages, keep))
    {
      assert PartOk(row, messages);
      var m :| m in messages && m.id == row.messageId && !m.redacted;
      assert m in Where(messages, keep);
    }
  }

  lemma LivingKept(s: Sys, s': Sys, d: Done, keep: Message -> bool)
    requires SourceInv(s) && s'.tables.messages == Where(s.tables.messages, keep)
    requires forall m :: m in s.tables.messages && Lives(s'.tables, m.streamId, m.streamType) ==> keep(m)
    ensures KeepsLiving(s, s', d)
  {
    hide EntryOk, PendingOk, PartsOf, RedactedIn, PartsOk, UniqueMessageIds, Lives;
    forall k | 0 <= k < |s.log| && IsPost(s.log[k]) && HasMessage(s.tables.messages, s.log[k].value.messageId)
               && Lives(s'.tables, s.log[k].tx.streamId, s.log[k].tx.streamType)
      ensures HasMessage(s'.tables.messages, s.log[k].value.messageId)
    {
      var m :| m in s.tables.messages && m.id == s.log[k].value.messageId;
      PostOfMessage(s, k, m);
      assert m in s'.tables.messages;
    }
  }

  /** A message's post is the one that has its id. */
  lemma PostOfMessage(s: Sys, k: nat, m: Message)
    requires SourceInv(s) && k < |s.log| && IsPost(s.log[k]) && m in s.tables.messages && m.id == s.log[k].value.messageId
    ensures Posted(s.log[k], m)
    ensures !m.redacted ==> PartsOf(s.tables.parts, m.id) == PartRows(m.id, s.log[k].tx.parts)
  {
    hide EntryOk, PendingOk, PartsOf, RedactedIn, PartsOk, UniqueMessageIds, Lives;
    assert Sourced(s.log, s.tables.parts, m);
    var j :| 0 <= j < |s.log| && Posted(s.log[j], m)
             && (!m.redacted ==> PartsOf(s.tables.parts, m.id) == PartRows(m.id, s.log[j].tx.parts));
    assert j == k;
  }

  // ---------- every step ----------

  /** What a finished call's history entry looks like. */
  ghost predicate Finishes(env: Env, s: Sys, s': Sys, d: Done, callNo: nat, now: nat, id: Id) {
    && callNo in s.pending && id !in s.usedIds
    && var tx := s.pending[callNo];
    var r := Commit(env, s.tables, tx, now, id);
    && r.Committed? && s'.tables == r.tables && d == Done(tx, r.value, r.charged, r.events, DroppedStreams(s, tx))
    && s'.log == s.log + [d] && s'.pending == s.pending - {callNo} && s'.usedIds == s.usedIds + {id}
  }

  lemma FinishMoves(env: Env, s: Sys, s': Sys, d: Done, callNo: nat, now: nat, id: Id)
    requires SourceInv(s) && Finishes(env, s, s', d, callNo, now, id)
    requires IsPost(d) ==> d.value.messageId == id
    requires StreamsMove(s.tables, s'.tables, s.usedIds, d)
    ensures Moved(s, s', d)
  {
    hide Commit, StreamKnown, RedactionOk, StreamsMove, UniqueMessageIds, PartsOk, Sourced, DistinctPosts, EntryOk, DroppedStreams;
    assert PendingOk(s.tables, s.log, s.usedIds, s.pending[callNo]);
  }

  lemma SameStreamsMove(t: Tables, t': Tables, usedIds: set<Id>, d: Done)
    requires t.channels.Keys !! t.threads.Keys && t'.channels == t.channels && t'.threads == t.threads
    ensures StreamsMove(t, t', usedIds, d)
  {
  }

  lemma OffStreamKeeps(env: Env, s: Sys, s': Sys, d: Done, callNo: nat, now: nat, id: Id)
    requires SourceInv(s) && Finishes(env, s, s', d, callNo, now, id) && OffStream(d.tx)
    ensures SourceInv(s') && Moved(s, s', d)
  {
    hide Commit, SourceInv, StreamsMove, DroppedStreams;
    OffStreamCommit(env, s.tables, d.tx, now, id);
    assert s.tables.channels.Keys !! s.tables.threads.Keys by { Disjoint(s); }
    SameStreamsMove(s.tables, s'.tables, s.usedIds, d);
    FinishMoves(env, s, s', d, callNo, now, id);
    SameMessagesKeep(s, s', d);
  }

  lemma Disjoint(s: Sys)
    requires SourceInv(s)
    ensures s.tables.channels.Keys !! s.tables.threads.Keys
  {
  }

  lemma CreatedStreamMoves(s: Sys, s': Sys, d: Done, id: Id)
    requires s.tables.channels.Keys !! s.tables.threads.Keys && OwnStreams(s.tables, s.streamOrg) && id !in s.usedIds
    requires forall x :: x in s.streamOrg ==> x in s.usedIds
    requires s'.tables.channels.Keys <= s.tables.channels.Keys + {id} && s'.tables.threads.Keys <= s.tables.threads.Keys + {id}
    requires s'.tables.channels == s.tables.channels || s'.tables.threads == s.tables.threads
    requires forall c :: c in s.tables.channels ==> c in s'.tables.channels && s'.tables.channels[c] == s.tables.channels[c]
    requires forall h :: h in s.tables.threads ==> h in s'.tables.threads && s'.tables.threads[h] == s.tables.threads[h]
    ensures StreamsMove(s.tables, s'.tables, s.usedIds, d)
  {
  }

  lemma CreationKeeps(env: Env, s: Sys, s': Sys, d: Done, callNo: nat, now: nat, id: Id)
    requires SourceInv(s) && StreamInv(s) && Finishes(env, s, s', d, callNo, now, id)
    requires d.tx.TxCreateChannel? || d.tx.TxCreateThread?
    ensures SourceInv(s') && Moved(s, s', d)
  {
    hide Commit, CreateChannelTx, CreateThreadTx, SourceInv, CheckedInOrg, StreamsMove, Moved;
    CommitIsItsTx(env, s.tables, d.tx, now, id);
    Disjoint(s);
    if d.tx.TxCreateChannel? {
      CreateChannelEffect(env, s.tables, d.tx.p, d.tx.name, d.tx.visibility, now, id);
    } else {
      CreateThreadEffect(env, s.tables, d.tx.p, d.tx.channelId, d.tx.parentMessageId, d.tx.visibility, now, id);
    }
    CreatedStreamMoves(s, s', d, id);
    FinishMoves(env, s, s', d, callNo, now, id);
    SameMessagesKeep(s, s', d);
  }

  lemma AppendKeepsSource(env: Env, s: Sys, s': Sys, d: Done, callNo: nat, now: nat, id: Id)
    requires SourceInv(s) && Finishes(env, s, s', d, callNo, now, id) && d.tx.TxAppend?
    ensures SourceInv(s') && Moved(s, s', d)
  {
    hide Commit, AppendTx, SourceInv, StreamsMove, DroppedStreams, PartRows;
    CommitIsItsTx(env, s.tables, d.tx, now, id);
    var tx := d.tx;
    AppendEffect(env, s.tables, tx.p, tx.streamId, tx.streamType, tx.parts, tx.key, now, id);
    Disjoint(s);
    SameStreamsMove(s.tables, s'.tables, s.usedIds, d);
    FinishMoves(env, s, s', d, callNo, now, id);
    if d.value.idempotent {
      SameMessagesKeep(s, s', d);
    } else {
      PostIsDated(env, s.tables, tx, now, id);
      PostKeepsSource(s, s', d, NewMessage(s.tables, tx.p, tx.streamId, tx.streamType, tx.key, now, id));
    }
  }

  /** The message carries the time of its first event. */
  lemma PostIsDated(env: Env, t: Tables, tx: Tx, now: nat, id: Id)
    requires tx.TxAppend?
    ensures var r := AppendTx(env, t, tx.p, tx.streamId, tx.streamType, tx.parts, tx.key, now, id);
            r.Committed? && r.value.Appended? && !r.value.idempotent ==> r.events != [] && r.events[0].createdAt == now
  {
    hide AuditAll, PayForAppend, PartRows, FindByKey, MentionEvents, CommandEvents;
  }

  lemma RedactionKeepsSource(env: Env, s: Sys, s': Sys, d: Done, callNo: nat, now: nat, id: Id)
    requires SourceInv(s) && Finishes(env, s, s', d, callNo, now, id) && d.tx.TxRedact?
    ensures SourceInv(s') && Moved(s, s', d)
  {
    hide Commit, RedactTx, SourceInv, StreamsMove, DroppedStreams, MarkRedacted, Where;
    CommitIsItsTx(env, s.tables, d.tx, now, id);
    var tx := d.tx;
    RedactEffect(env, s.tables, tx.p, tx.messageId, tx.streamId, tx.streamType, tx.isAuthor, tx.reason, now);
    Disjoint(s);
    SameStreamsMove(s.tables, s'.tables, s.usedIds, d);
    FinishMoves(env, s, s', d, callNo, now, id);
    RedactKeepsSource(s, s', d, tx.messageId);
  }

  lemma ChannelStreamsMove(s: Sys, t': Tables, d: Done, orgId: Id, channelId: Id)
    requires StreamInv(s) && s.tables.channels.Keys !! s.tables.threads.Keys
    requires channelId in s.streamOrg && s.streamOrg[channelId] == orgId && channelId !in s.tables.threads
    requires t'.channels == ChannelsOutside(s.tables.channels, orgId, channelId)
    requires t'.threads == ThreadsOutside(s.tables.threads, orgId, channelId)
    requires d.dropped == ChannelStreams(s.tables, orgId, channelId)
    ensures StreamsMove(s.tables, t', s.usedIds, d)
    ensures var keep := MessageOutside(orgId, d.dropped);
            forall m :: m in s.tables.messages && Lives(t', m.streamId, m.streamType) ==> keep(m)
    ensures Removes(s.tables.messages, MessageOutside(orgId, d.dropped), MessageIds(s.tables.messages, orgId, d.dropped))
  {
    hide CheckedInOrg;
  }

  lemma DeleteChannelKeeps(env: Env, s: Sys, s': Sys, d: Done, callNo: nat, now: nat, id: Id)
    requires SourceInv(s) && StreamInv(s) && Finishes(env, s, s', d, callNo, now, id) && d.tx.TxDeleteChannel?
    ensures SourceInv(s') && Moved(s, s', d)
  {
    CommitIsItsTx(env, s.tables, d.tx, now, id);
    var p, channelId := d.tx.p, d.tx.channelId;
    DeleteChannelEffect(env, s.tables, p, channelId, now);
    hide Commit, DeleteChannelTx, Where, UniqueMessageIds, PartsOk, Sourced, DistinctPosts, EntryOk, ChannelStreams, ChannelsOutside,
         ThreadsOutside, MessageIds, StreamsMove, Removes;
    assert PendingOk(s.tables, s.log, s.usedIds, s.pending[callNo]) && CheckedInOrg(s.streamOrg, s.pending[callNo]);
    ChannelStreamsMove(s, s'.tables, d, p.orgId, channelId);
    hide SourceInv, Moved, StreamInv, DroppedStreams;
    FinishMoves(env, s, s', d, callNo, now, id);
    DropKeepsSource(s, s', d, MessageOutside(p.orgId, d.dropped), MessageIds(s.tables.messages, p.orgId, d.dropped));
  }

  lemma OrgStreamsMove(s: Sys, t': Tables, d: Done, orgId: Id)
    requires StreamInv(s) && s.tables.channels.Keys !! s.tables.threads.Keys
    requires t'.channels == ChannelsNotOf(s.tables.channels, orgId) && t'.threads == ThreadsNotOf(s.tables.threads, orgId)
    requires d.dropped == set x | x in s.streamOrg && s.streamOrg[x] == orgId
    ensures StreamsMove(s.tables, t', s.usedIds, d)
    ensures var keep := MessageNotOf(orgId); forall m :: m in s.tables.messages && Lives(t', m.streamId, m.streamType) ==> keep(m)
    ensures Removes(s.tables.messages, MessageNotOf(orgId), OrgMessageIds(s.tables.messages, orgId))
  {
    hide CheckedInOrg;
  }

  lemma OrgRowsAfter(t: Tables, orgId: Id, streamIds: set<Id>)
    ensures var t' := AfterDeletes(t, orgId, streamIds, DELETES);
            && t'.channels == ChannelsNotOf(t.channels, orgId) && t'.threads == ThreadsNotOf(t.threads, orgId)
            && t'.messages == Where(t.messages, MessageNotOf(orgId))
            && t'.parts == Where(t.parts, PartOutside(OrgMessageIds(t.messages, orgId)))
  {
    hide Where, ArtifactsNotOf, CommandsNotOf, ThreadsNotOf, ChannelsNotOf, MembersNotOf, RequestsNotOf, ActorsNotOf, CursorsNotOf, ClientsNotOf, OrgMessageIds;
  }

  lemma DeleteOrgKeeps(env: Env, s: Sys, s': Sys, d: Done, callNo: nat, now: nat, id: Id)
    requires SourceInv(s) && StreamInv(s) && Finishes(env, s, s', d, callNo, now, id) && d.tx.TxDeleteOrg?
    ensures SourceInv(s') && Moved(s, s', d)
  {
    var orgId := d.tx.orgId;
    CommitIsItsTx(env, s.tables, d.tx, now, id);
    DeleteOrgEffect(env, s.tables, d.tx.p, orgId, d.tx.streamIds, now);
    OrgRowsAfter(s.tables, orgId, d.tx.streamIds);
    Disjoint(s);
    hide Commit, DeleteOrgTx, Where, AfterDeletes, ThreadsNotOf, ChannelsNotOf, OrgMessageIds, StreamsMove, Removes, StreamInv, SourceInv;
    OrgStreamsMove(s, s'.tables, d, orgId);
    hide DroppedStreams, Moved;
    FinishMoves(env, s, s', d, callNo, now, id);
    DropKeepsSource(s, s', d, MessageNotOf(orgId), OrgMessageIds(s.tables.messages, orgId));
  }

  lemma FinishKeeps(env: Env, s: Sys, s': Sys, d: Done, callNo: nat, now: nat, id: Id)
    requires SourceInv(s) && StreamInv(s) && Finishes(env, s, s', d, callNo, now, id)
    ensures SourceInv(s') && Moved(s, s', d)
  {
    hide SourceInv, StreamInv, Finishes, Moved;
    match d.tx
    case TxCreateChannel(_, _, _) => CreationKeeps(env, s, s', d, callNo, now, id);
    case TxCreateThread(_, _, _, _) => CreationKeeps(env, s, s', d, callNo, now, id);
    case TxAppend(_, _, _, _, _) => AppendKeepsSource(env, s, s', d, callNo, now, id);
    case TxRedact(_, _, _, _, _, _) => RedactionKeepsSource(env, s, s', d, callNo, now, id);
    case TxDeleteChannel(_, _) => DeleteChannelKeeps(env, s, s', d, callNo, now, id);
    case TxDeleteOrg(_, _, _) => DeleteOrgKeeps(env, s, s', d, callNo, now, id);
    case _ => OffStreamKeeps(env, s, s', d, callNo, now, id);
  }

  // ---------- checks, and runs ----------

  lemma CheckedAppendLives(t: Tables, p: Principal, streamId: Id, streamType: StreamType, parts: seq<MessagePart>, key: string,
                           ask: bool, now: nat)
    ensures var r := CheckAppend(t, p, streamId, streamType, parts, key, ask, now);
            r.Ok? && r.value.TxAppend? ==> Lives(t, r.value.streamId, r.value.streamType)
    ensures var r := CheckAppend(t, p, streamId, streamType, parts, key, ask, now);
            r.Ok? ==> r.value.TxAppend? || r.value.TxOpenRequest?
  {
    hide HasGrant, PartsValid, HasCommand, IsMember, KnownActor;
  }

  /** What a check finds about the call's transaction. */
  lemma CheckFinds(t: Tables, call: Call, now: nat)
    requires Check(t, call, now).Ok?
    ensures var tx := Check(t, call, now).value;
            && (tx.TxAppend? ==> Lives(t, tx.streamId, tx.streamType))
            && (tx.TxRedact? ==> exists m :: m in t.messages && m.id == tx.messageId && m.orgId == tx.p.orgId)
            && (tx.TxDeleteChannel? ==> tx.channelId in t.channels)
  {
    hide HasGrant, AdministersChannel, MayResolve, ActiveGrantIds, OrgHasGrant, CheckAppend, KnownActor, Readable, OrgStreams,
         ReadDenial;
    if call.AppendMessage? {
      CheckedAppendLives(t, call.p, call.streamId, call.streamType, call.parts, call.key, call.autoRequestOnDeny, now);
    } else if call.RedactMessage? {
      assert FindById(t.messages, call.messageId).Some?;
    }
  }

  lemma CheckedIsPendingOk(s: Sys, call: Call, now: nat)
    requires SourceInv(s) && StreamInv(s) && Check(s.tables, call, now).Ok?
    ensures PendingOk(s.tables, s.log, s.usedIds, Check(s.tables, call, now).value)
  {
    CheckFinds(s.tables, call, now);
    CheckEstablishes(s, call, now);
    hide Check, PostOk, Sourced, PartsOk, UniqueMessageIds, StreamKnown, EntryOk;
    var tx := Check(s.tables, call, now).value;
    if tx.TxAppend? {
      LivingIsKnown(s, tx);
    } else if tx.TxRedact? {
      var m :| m in s.tables.messages && m.id == tx.messageId && m.orgId == tx.p.orgId;
      forall k | 0 <= k < |s.log| && IsPost(s.log[k]) && s.log[k].value.messageId == tx.messageId
        ensures s.log[k].tx.p.orgId == tx.p.orgId
      {
        PostOfMessage(s, k, m);
      }
    }
  }

  lemma LivingIsKnown(s: Sys, tx: Tx)
    requires tx.TxAppend? && Lives(s.tables, tx.streamId, tx.streamType)
    ensures StreamKnown(s.tables, s.log, tx)
  {
  }

  /** A step only adds to history, and brings no stream back to life. */
  ghost predicate HistoryMoves(s: Sys, s': Sys) {
    && s.log <= s'.log
    && (forall x, k :: x in s.usedIds && Lives(s'.tables, x, k) ==>
          Lives(s.tables, x, k) && VisibilityOf(s'.tables, x, k) == VisibilityOf(s.tables, x, k))
  }

  lemma ExecKeepsSourceInv(env: Env, s: Sys, step: Step)
    requires SourceInv(s) && StreamInv(s)
    ensures SourceInv(Exec(env, s, step)) && HistoryMoves(s, Exec(env, s, step))
  {
    hide Commit, Check, StreamInv, DroppedStreams, NewStreams, UniqueMessageIds, PartsOk, Sourced, DistinctPosts, EntryOk, PendingOk;
    match step
    case Begin(callNo, call, now) =>
      if Check(s.tables, call, now).Ok? { CheckedIsPendingOk(s, call, now); }
    case Finish(callNo, now, id) =>
      if callNo in s.pending && id !in s.usedIds && Commit(env, s.tables, s.pending[callNo], now, id).Committed? {
        var s' := Exec(env, s, step);
        FinishKeeps(env, s, s', s'.log[|s.log|], callNo, now, id);
      }
    case Abandon(callNo) =>
  }

  /** Main result: in every run, messages, their parts and their redactions are exactly what history says. */
  lemma {:induction false} RunKeepsSourceInv(env: Env, steps: seq<Step>)
    ensures SourceInv(Run(env, steps)) && StreamInv(Run(env, steps))
  {
    hide Exec, SourceInv, StreamInv;
    if steps == [] {
      StartSourceInv();
      StartStreamInv();
    } else {
      var front := steps[..|steps| - 1];
      RunKeepsSourceInv(env, front);
      ExecKeepsSourceInv(env, Run(env, front), steps[|steps| - 1]);
      ExecKeepsStreamInv(env, Run(env, front), steps[|steps| - 1]);
    }
  }

  lemma StartSourceInv()
    ensures SourceInv(START)
  {
    assert START.tables == EMPTY_TABLES && START.log == [] && START.pending == map[];
  }
}
