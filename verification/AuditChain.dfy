// The per-org hash-chained audit log (src/service.ts, `appendAudit`, `auditRows`,
// `verifyAuditChain`). SHA-256 is a parameter; where its strength matters the hypothesis is stated.

module AuditChain {
  import opened Prelude
  import opened CanonicalJson
  import opened CanonicalJsonLaws

  datatype EventType =
    | OrgCreated | ChannelCreated | ThreadCreated | MessageAppended
    | MentionRecorded | CommandInvoked | CommandRegistrationRequested | CommandRegistered
    | CommandDeleted | MessageRedacted | MembershipUpdated | CursorUpdated
    | GrantCreated | GrantRevoked | PermissionRequestCreated | PermissionRequestResolved
    | PrivacyPolicyUpdated | ArtifactRegistered | ArtifactDeleted | MemoryPromoted
    | AuditLogged | ClientRegistered

  function TypeName(t: EventType): string {
    match t
    case OrgCreated => "org.created"
    case ChannelCreated => "channel.created"
    case ThreadCreated => "thread.created"
    case MessageAppended => "message.appended"
    case MentionRecorded => "mention.recorded"
    case CommandInvoked => "command.invoked"
    case CommandRegistrationRequested => "command.registration_requested"
    case CommandRegistered => "command.registered"
    case CommandDeleted => "command.deleted"
    case MessageRedacted => "message.redacted"
    case MembershipUpdated => "membership.updated"
    case CursorUpdated => "cursor.updated"
    case GrantCreated => "grant.created"
    case GrantRevoked => "grant.revoked"
    case PermissionRequestCreated => "permission_request.created"
    case PermissionRequestResolved => "permission_request.resolved"
    case PrivacyPolicyUpdated => "privacy_policy.updated"
    case ArtifactRegistered => "artifact.registered"
    case ArtifactDeleted => "artifact.deleted"
    case MemoryPromoted => "memory.promoted"
    case AuditLogged => "audit.logged"
    case ClientRegistered => "client.registered"
  }

  predicate IsEventType(name: string) {
    exists t: EventType :: TypeName(t) == name
  }

  /** What the running server brings along: the digest, the key comparator and the clock's format. */
  datatype Env = Env(hash: string -> string, keyOrder: KeyOrder, iso: nat -> string)

  /** The working hypothesis on SHA-256 in hex. */
  ghost predicate CollisionFree(hash: string -> string) {
    && (forall a, b :: hash(a) == hash(b) ==> a == b)
    && (forall a :: hash(a) != "" && '|' !in hash(a))
  }

  /** A row of `audit_events`; the table's order is its `audit_seq` order. */
  datatype StoredRow = StoredRow(
    orgId: string, eventType: string, payloadJson: string,
    prevHash: Option<string>, eventHash: string, createdAt: string)

  /** A row as read back: the payload has been through the parser. */
  datatype AuditRow = AuditRow(eventType: string, payload: Json, eventHash: string, createdAt: string)

  datatype ReadError = UnsupportedEventType(eventType: string) | MalformedPayload(text: string)

  datatype Result<+T, +E> = Ok(value: T) | Err(error: E)

  datatype Verdict = Verdict(valid: bool, firstBadIndex: Option<nat>, total: nat)

  /** Fields joined by bars. */
  function Barred(fields: seq<string>): string {
    if fields == [] then ""
    else if |fields| == 1 then fields[0]
    else fields[0] + "|" + Barred(fields[1..])
  }

  function Frame(prev: string, eventType: string, payload: string, createdAt: string): string {
    Barred([prev, eventType, payload, createdAt])
  }

  function OfOrg(orgId: string): StoredRow -> bool {
    (row: StoredRow) => row.orgId == orgId
  }

  function OrgRows(table: seq<StoredRow>, orgId: string): seq<StoredRow> {
    Where(table, OfOrg(orgId))
  }

  function AppendAudit(env: Env, table: seq<StoredRow>, orgId: string, eventType: string, payload: Json,
                       createdAt: string): seq<StoredRow>
  {
    var mine := OrgRows(table, orgId);
    var prev := if mine == [] then "" else mine[|mine| - 1].eventHash;
    var text := StableJson(env.keyOrder, payload);
    var digest := env.hash(Frame(prev, eventType, text, createdAt));
    table + [StoredRow(orgId, eventType, text, if prev == "" then None else Some(prev), digest, createdAt)]
  }

  // ---------- reading ----------

  function ReadRow(row: StoredRow): Result<AuditRow, ReadError> {
    if !IsEventType(row.eventType) then Err(UnsupportedEventType(row.eventType))
    else
      match ParseJsonRecord(row.payloadJson)
      case None => Err(MalformedPayload(row.payloadJson))
      case Some(payload) => Ok(AuditRow(row.eventType, payload, row.eventHash, row.createdAt))
  }

  /** Reads every row before anything is checked; the first unreadable row is the error. */
  function ReadRows(rows: seq<StoredRow>): (r: Result<seq<AuditRow>, ReadError>)
    ensures r.Ok? ==> |r.value| == |rows|
  {
    if rows == [] then Ok([])
    else
      match ReadRow(rows[0])
      case Err(e) => Err(e)
      case Ok(first) =>
        match ReadRows(rows[1..])
        case Err(e) => Err(e)
        case Ok(more) => Ok([first] + more)
  }

  lemma {:induction false} ReadRowsReadsEach(rows: seq<StoredRow>, i: nat)
    requires ReadRows(rows).Ok? && i < |rows|
    ensures ReadRow(rows[i]) == Ok(ReadRows(rows).value[i])
  {
    if i > 0 {
      ReadRowsReadsEach(rows[1..], i - 1);
    }
  }

  // ---------- verification ----------

  function PrevHash(rows: seq<AuditRow>, i: nat): string
    requires i <= |rows|
  {
    if i == 0 then "" else rows[i - 1].eventHash
  }

  /** Row `i` carries the hash of its own content on top of its predecessor's hash. */
  predicate Links(env: Env, rows: seq<AuditRow>, i: nat)
    requires i < |rows|
  {
    rows[i].eventHash
      == env.hash(Frame(PrevHash(rows, i), rows[i].eventType, StableJson(env.keyOrder, rows[i].payload),
                        rows[i].createdAt))
  }

  ghost predicate ChainHolds(env: Env, rows: seq<AuditRow>) {
    forall i :: 0 <= i < |rows| ==> Links(env, rows, i)
  }

  /** What a verdict on readable rows has to say. */
  ghost predicate Judges(env: Env, rows: seq<AuditRow>, v: Verdict) {
    && v.total == |rows|
    && (v.valid <==> ChainHolds(env, rows))
    && (v.valid <==> v.firstBadIndex == None)
    && (v.firstBadIndex.Some? ==>
          var k := v.firstBadIndex.value;
          k < |rows| && !Links(env, rows, k) && forall i :: 0 <= i < k ==> Links(env, rows, i))
  }

  method CheckRows(env: Env, rows: seq<AuditRow>) returns (v: Verdict)
    ensures Judges(env, rows, v)
  {
    var prev := "";
    var i := 0;
    while i < |rows|
      invariant 0 <= i <= |rows|
      invariant prev == PrevHash(rows, i)
      invariant forall k :: 0 <= k < i ==> Links(env, rows, k)
    {
      var row := rows[i];
      var expected := env.hash(Frame(prev, row.eventType, StableJson(env.keyOrder, row.payload), row.createdAt));
      if row.eventHash != expected {
        assert !Links(env, rows, i);
        return Verdict(false, Some(i), |rows|);
      }
      assert Links(env, rows, i);
      prev := row.eventHash;
      i := i + 1;
    }
    return Verdict(true, None, |rows|);
  }

  method VerifyAuditChain(env: Env, stored: seq<StoredRow>) returns (r: Result<Verdict, ReadError>)
    ensures ReadRows(stored).Err? ==> r == Err(ReadRows(stored).error)
    ensures ReadRows(stored).Ok? ==> r.Ok? && Judges(env, ReadRows(stored).value, r.value)
  {
    var readback := ReadRows(stored);
    if readback.Err? {
      return Err(readback.error);
    }
    var v := CheckRows(env, readback.value);
    return Ok(v);
  }

  // ---------- tamper evidence ----------

  lemma EventTypesHaveNoBar(eventType: string)
    requires IsEventType(eventType)
    ensures '|' !in eventType
  {
    var t :| TypeName(t) == eventType;
    TypeNameHasNoBar(t);
  }

  lemma TypeNameHasNoBar(t: EventType)
    ensures '|' !in TypeName(t)
  {
    if AboutCommands(t) { CommandNameHasNoBar(t); }
    else if AboutPermissions(t) { PermissionNameHasNoBar(t); }
    else if AboutStreams(t) { StreamNameHasNoBar(t); }
    else { OtherNameHasNoBar(t); }
  }

  predicate AboutCommands(t: EventType) {
    t in {CommandInvoked, CommandRegistrationRequested, CommandRegistered, CommandDeleted}
  }

  predicate AboutPermissions(t: EventType) {
    t in {PermissionRequestCreated, PermissionRequestResolved, PrivacyPolicyUpdated}
  }

  predicate AboutStreams(t: EventType) {
    t in {OrgCreated, ChannelCreated, ThreadCreated, MessageAppended, MentionRecorded, MessageRedacted, CursorUpdated}
  }

  lemma CommandNameHasNoBar(t: EventType)
    requires AboutCommands(t)
    ensures '|' !in TypeName(t)
  {
  }

  lemma PermissionNameHasNoBar(t: EventType)
    requires AboutPermissions(t)
    ensures '|' !in TypeName(t)
  {
  }

  lemma StreamNameHasNoBar(t: EventType)
    requires AboutStreams(t)
    ensures '|' !in TypeName(t)
  {
  }

  lemma OtherNameHasNoBar(t: EventType)
    requires !AboutCommands(t) && !AboutPermissions(t) && !AboutStreams(t)
    ensures '|' !in TypeName(t)
  {
  }

  lemma FrameGroups(p: string, t: string, j: string, c: string)
    ensures Frame(p, t, j, c) == p + "|" + (t + "|" + (j + ("|" + c)))
  {
    assert [p, t, j, c][1..] == [t, j, c] && [t, j, c][1..] == [j, c] && [j, c][1..] == [c];
    assert Barred([c]) == c;
    assert Barred([j, c]) == j + "|" + c;
    assert Barred([t, j, c]) == t + "|" + Barred([j, c]);
    assert j + "|" + c == j + ("|" + c);
  }

  /** A framed row can be taken apart in one way only. */
  lemma FrameInjective(le: KeyOrder, p: string, t: string, v: Json, c: string,
                       p': string, t': string, v': Json, c': string)
    requires '|' !in p && '|' !in p' && '|' !in t && '|' !in t'
    requires Frame(p, t, StableJson(le, v), c) == Frame(p', t', StableJson(le, v'), c')
    ensures p == p' && t == t' && StableJson(le, v) == StableJson(le, v') && c == c'
  {
    var j, j' := StableJson(le, v), StableJson(le, v');
    var x, x' := j + ("|" + c), j' + ("|" + c');
    FrameGroups(p, t, j, c);
    FrameGroups(p', t', j', c');
    SplitAt('|', p, p', t + "|" + x, t' + "|" + x');
    SplitAt('|', t, t', x, x');
    SelfDelimiting(le, v, v', "|" + c, "|" + c');
    assert c == ("|" + c)[1..] && c' == ("|" + c')[1..];
  }

  /** Readable rows, as `ReadRows` delivers them. */
  predicate KnownTypes(rows: seq<AuditRow>) {
    forall i :: 0 <= i < |rows| ==> IsEventType(rows[i].eventType)
  }

  /** The content that the chain protects. */
  predicate SameContent(env: Env, a: AuditRow, b: AuditRow) {
    && a.eventType == b.eventType
    && Canon(env.keyOrder, a.payload) == Canon(env.keyOrder, b.payload)
    && a.createdAt == b.createdAt
    && a.eventHash == b.eventHash
  }

  lemma PrevHashHasNoBar(env: Env, rows: seq<AuditRow>, i: nat)
    requires CollisionFree(env.hash) && ChainHolds(env, rows) && i <= |rows|
    ensures '|' !in PrevHash(rows, i)
    ensures PrevHash(rows, i) == "" <==> i == 0
  {
    if i > 0 {
      assert Links(env, rows, i - 1);
    }
  }

  /** Equal hashes at two positions force equal content there and equal hashes one row earlier. */
  lemma EqualHashesEqualRows(env: Env, a: seq<AuditRow>, i: nat, b: seq<AuditRow>, j: nat)
    requires CollisionFree(env.hash) && ChainHolds(env, a) && ChainHolds(env, b)
    requires KnownTypes(a) && KnownTypes(b)
    requires i < |a| && j < |b| && a[i].eventHash == b[j].eventHash
    ensures SameContent(env, a[i], b[j]) && PrevHash(a, i) == PrevHash(b, j)
  {
    assert Links(env, a, i) && Links(env, b, j);
    PrevHashHasNoBar(env, a, i);
    PrevHashHasNoBar(env, b, j);
    EventTypesHaveNoBar(a[i].eventType);
    EventTypesHaveNoBar(b[j].eventType);
    FrameInjective(env.keyOrder, PrevHash(a, i), a[i].eventType, a[i].payload, a[i].createdAt,
                   PrevHash(b, j), b[j].eventType, b[j].payload, b[j].createdAt);
    SameTextIffSameCanon(env.keyOrder, a[i].payload, b[j].payload);
  }

  ghost predicate SamePrefix(env: Env, a: seq<AuditRow>, b: seq<AuditRow>, n: nat)
    requires n <= |a| && n <= |b|
  {
    forall k :: 0 <= k < n ==> SameContent(env, a[k], b[k])
  }

  /** Two verified logs that agree on a hash agree on the row that made it, or both are at the start. */
  lemma StepBack(env: Env, a: seq<AuditRow>, i: nat, b: seq<AuditRow>, j: nat)
    requires CollisionFree(env.hash) && ChainHolds(env, a) && ChainHolds(env, b)
    requires KnownTypes(a) && KnownTypes(b)
    requires i <= |a| && j <= |b| && PrevHash(a, i) == PrevHash(b, j)
    ensures i == 0 <==> j == 0
    ensures i > 0 ==> SameContent(env, a[i - 1], b[j - 1]) && PrevHash(a, i - 1) == PrevHash(b, j - 1)
  {
    PrevHashHasNoBar(env, a, i);
    PrevHashHasNoBar(env, b, j);
    if i > 0 {
      EqualHashesEqualRows(env, a, i - 1, b, j - 1);
    }
  }

  lemma {:induction false} SameHeadSamePrefix(env: Env, a: seq<AuditRow>, i: nat, b: seq<AuditRow>, j: nat)
    requires CollisionFree(env.hash) && ChainHolds(env, a) && ChainHolds(env, b)
    requires KnownTypes(a) && KnownTypes(b)
    requires i <= |a| && j <= |b| && PrevHash(a, i) == PrevHash(b, j)
    ensures i == j && SamePrefix(env, a, b, i)
  {
    hide Links, KnownTypes, SameContent, CollisionFree;
    StepBack(env, a, i, b, j);
    if i > 0 {
      SameHeadSamePrefix(env, a, i - 1, b, j - 1);
    }
  }

  /** Main result: two verified logs with the same last hash are the same log, row by row. */
  lemma TamperEvidence(env: Env, a: seq<AuditRow>, b: seq<AuditRow>)
    requires CollisionFree(env.hash) && ChainHolds(env, a) && ChainHolds(env, b)
    requires KnownTypes(a) && KnownTypes(b)
    requires a != [] && b != [] && a[|a| - 1].eventHash == b[|b| - 1].eventHash
    ensures |a| == |b| && SamePrefix(env, a, b, |a|)
  {
    SameHeadSamePrefix(env, a, |a|, b, |b|);
  }

  // ---------- what the service writes always verifies ----------

  function StoredPrev(rows: seq<StoredRow>, i: nat): string
    requires i <= |rows|
  {
    if i == 0 then "" else rows[i - 1].eventHash
  }

  /** The text columns hold a known event type and a canonical text. */
  ghost predicate Canonical(env: Env, row: StoredRow) {
    IsEventType(row.eventType) && exists v :: row.payloadJson == StableJson(env.keyOrder, v)
  }

  /** Row `i` was written by `AppendAudit` on top of row `i - 1`. */
  ghost predicate Written(env: Env, rows: seq<StoredRow>, i: nat)
    requires i < |rows|
  {
    && Canonical(env, rows[i])
    && rows[i].eventHash
       == env.hash(Frame(StoredPrev(rows, i), rows[i].eventType, rows[i].payloadJson, rows[i].createdAt))
  }

  ghost predicate Genuine(env: Env, rows: seq<StoredRow>) {
    forall i :: 0 <= i < |rows| ==> Written(env, rows, i)
  }

  /** Every org's slice of the table is a chain of written rows. */
  ghost predicate GenuineTable(env: Env, table: seq<StoredRow>) {
    forall orgId :: Genuine(env, OrgRows(table, orgId))
  }

  /** One written row more is still a chain. */
  lemma OneMoreWritten(env: Env, rows: seq<StoredRow>, row: StoredRow)
    requires Genuine(env, rows) && Written(env, rows + [row], |rows|)
    ensures Genuine(env, rows + [row])
  {
    var after := rows + [row];
    forall i | 0 <= i < |after|
      ensures Written(env, after, i)
    {
      if i < |rows| { assert Written(env, rows, i); }
    }
  }

  /** The row that an append adds, as a chain's next. */
  lemma AppendedIsWritten(env: Env, table: seq<StoredRow>, orgId: string, eventType: string, payload: Json, createdAt: string)
    requires IsEventType(eventType)
    ensures var table' := AppendAudit(env, table, orgId, eventType, payload, createdAt);
            var mine := OrgRows(table, orgId);
            |table'| == |table| + 1 && table'[|table|].orgId == orgId && Written(env, mine + [table'[|table|]], |mine|)
  {
    hide StableJson, OrgRows, IsEventType, Frame;
  }

  lemma AppendKeepsGenuine(env: Env, table: seq<StoredRow>, orgId: string, eventType: string, payload: Json,
                           createdAt: string)
    requires GenuineTable(env, table) && IsEventType(eventType)
    ensures GenuineTable(env, AppendAudit(env, table, orgId, eventType, payload, createdAt))
  {
    hide Genuine, Written, IsEventType;
    var table' := AppendAudit(env, table, orgId, eventType, payload, createdAt);
    var row := table'[|table|];
    AppendedIsWritten(env, table, orgId, eventType, payload, createdAt);
    assert table' == table + [row];
    forall o
      ensures Genuine(env, OrgRows(table', o))
    {
      assert Genuine(env, OrgRows(table, o));
      WhereSnoc(table, row, OfOrg(o));
      if o == orgId {
        OneMoreWritten(env, OrgRows(table, o), row);
      } else {
        assert OrgRows(table', o) == OrgRows(table, o) + [] == OrgRows(table, o);
      }
    }
  }

  /** Dropping all rows of one org leaves every chain whole. */
  lemma DropOrgKeepsGenuine(env: Env, table: seq<StoredRow>, rest: seq<StoredRow>, orgId: string)
    requires GenuineTable(env, table)
    requires forall o :: OrgRows(rest, o) == if o == orgId then [] else OrgRows(table, o)
    ensures GenuineTable(env, rest)
  {
  }

  lemma CanonicalReads(env: Env, row: StoredRow)
    requires TotalPreorder(env.keyOrder) && Canonical(env, row)
    ensures ReadRow(row).Ok? && StableJson(env.keyOrder, ReadRow(row).value.payload) == row.payloadJson
  {
    var v :| row.payloadJson == StableJson(env.keyOrder, v);
    ReprintIsIdentity(env.keyOrder, v);
  }

  lemma {:induction false} GenuineReads(env: Env, rows: seq<StoredRow>)
    requires TotalPreorder(env.keyOrder)
    requires forall i :: 0 <= i < |rows| ==> Canonical(env, rows[i])
    ensures ReadRows(rows).Ok?
    ensures forall i :: 0 <= i < |rows| ==>
              StableJson(env.keyOrder, ReadRows(rows).value[i].payload) == rows[i].payloadJson
  {
    if rows != [] {
      CanonicalReads(env, rows[0]);
      GenuineReads(env, rows[1..]);
    }
  }

  /** Main result: a chain of written rows verifies, although its payloads are parsed and re-printed. */
  lemma GenuineVerifies(env: Env, rows: seq<StoredRow>)
    requires TotalPreorder(env.keyOrder) && Genuine(env, rows)
    ensures ReadRows(rows).Ok? && ChainHolds(env, ReadRows(rows).value)
  {
    forall i | 0 <= i < |rows|
      ensures Canonical(env, rows[i])
    {
      assert Written(env, rows, i);
    }
    GenuineReads(env, rows);
    var read := ReadRows(rows).value;
    forall i | 0 <= i < |read|
      ensures Links(env, read, i)
    {
      assert Written(env, rows, i);
      ReadRowsReadsEach(rows, i);
      if i > 0 { ReadRowsReadsEach(rows, i - 1); }
    }
  }
}
