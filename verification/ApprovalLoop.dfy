// Asking for permission until it is given: appendMessage with `autoRequestOnDeny`, retried while
// somebody approves the requests it opens.

module ApprovalLoop {
  import opened Prelude
  import opened CanonicalJson
  import opened AuditChain
  import opened Tables
  import opened ServiceSpec
  import opened ServiceRuns
  import opened MessageLaws

  const APPEND := "message:append"
  const INVOKE := "command:invoke"

  /** A call whose transaction runs on the tables its check saw. */
  function Serve(env: Env, t: Tables, call: Call, checkedAt: nat, committedAt: nat, id: Id): Outcome {
    match Check(t, call, checkedAt)
    case Err(e) => Aborted(e)
    case Ok(tx) => Commit(env, t, tx, committedAt, id)
  }

  /** The message someone wants to post. */
  datatype Post = Post(p: Principal, streamId: Id, streamType: StreamType, parts: seq<MessagePart>, key: string)

  function Attempt(post: Post): Call {
    AppendMessage(post.p, post.streamId, post.streamType, post.parts, post.key, true)
  }

  /** One attempt, and the approval that answers the request it may open. */
  datatype Round = Round(
    checkedAt: nat, committedAt: nat, id: Id,
    approvalCheckedAt: nat, approvedAt: nat, grantId: Id, expiresAt: Option<nat>, maxUses: Option<int>)

  /** Tables, the capabilities approved so far, the answer once posted, and calls that went wrong. */
  datatype Progress = Progress(tables: Tables, approved: seq<string>, posted: Option<Value>, failed: nat)

  function Approve(q: Principal, requestId: Id, round: Round): Call {
    ResolveRequest(q, requestId, true, round.expiresAt, round.maxUses)
  }

  function RoundStep(env: Env, post: Post, q: Principal, s: Progress, round: Round): Progress {
    match Serve(env, s.tables, Attempt(post), round.checkedAt, round.committedAt, round.id)
    case Aborted(_) => s.(failed := s.failed + 1)
    case Committed(asked, _, _, value) =>
      if value.Appended? then s.(tables := asked, posted := Some(value))
      else if !value.Created? || value.id !in asked.requests then s.(failed := s.failed + 1)
      else
        match Serve(env, asked, Approve(q, value.id, round), round.approvalCheckedAt, round.approvedAt, round.grantId)
        case Aborted(_) => s.(tables := asked, failed := s.failed + 1)
        case Committed(granted, _, _, _) => s.(tables := granted, approved := s.approved + [asked.requests[value.id].action])
  }

  function Persist(env: Env, t: Tables, post: Post, q: Principal, rounds: seq<Round>): Progress {
    if rounds == [] then Progress(t, [], None, 0)
    else
      var before := Persist(env, t, post, q, rounds[..|rounds| - 1]);
      if before.posted.Some? then before else RoundStep(env, post, q, before, rounds[|rounds| - 1])
  }

  // ---------- what the caller and the approver must bring ----------

  /** A post that only permission could stop. */
  predicate Postable(t: Tables, post: Post) {
    && KnownActor(t, post.p) && post.p.actorId != ""
    && post.streamId != "" && post.key != "" && post.parts != []
    && Readable(t, post.p, post.streamId, post.streamType)
    && PartsValid(t, post.p, ResolveStream(t, post.streamId, post.streamType).value, post.parts)
  }

  /** An approver from the same org who may grant. */
  predicate CanApprove(t: Tables, post: Post, q: Principal, at: nat) {
    KnownActor(t, q) && q.orgId == post.p.orgId && MayResolve(t, q, at)
  }

  /** A deadline that no attempt reaches. */
  predicate Outlasts(expiresAt: Option<nat>, rounds: seq<Round>) {
    forall r :: r in rounds ==> expiresAt == None || (expiresAt.value > r.checkedAt && expiresAt.value > r.committedAt)
  }

  /** The grant does not lapse between an attempt's check and its transaction. */
  predicate Steady(g: Grant, rounds: seq<Round>) {
    forall r :: r in rounds ==> Unexpired(g, r.checkedAt) ==> Unexpired(g, r.committedAt)
  }

  ghost predicate Fair(t: Tables, post: Post, q: Principal, rounds: seq<Round>) {
    && Postable(t, post)
    && (forall r :: r in rounds ==> CanApprove(t, post, q, r.approvalCheckedAt) && ValidUses(r.maxUses) && Outlasts(r.expiresAt, rounds))
    && (forall g :: g in t.grants ==> Steady(g, rounds))
  }

  // ---------- one round ----------

  function AppendQuery(post: Post, capability: string, now: nat): GrantQuery {
    GrantQuery(post.p.orgId, post.p.actorId, capability, StreamTypeName(post.streamType), Some(post.streamId), now)
  }

  predicate Permitted(grants: seq<Grant>, post: Post, capability: string, now: nat) {
    capability in post.p.scopes || AnyUsable(grants, AppendQuery(post, capability, now))
  }

  predicate Needs(post: Post, capability: string) {
    capability == APPEND || (capability == INVOKE && HasCommand(post.parts))
  }

  /** The first capability an attempt lacks. */
  function Lacks(grants: seq<Grant>, post: Post, now: nat): Option<string> {
    if !Permitted(grants, post, APPEND, now) then Some(APPEND)
    else if HasCommand(post.parts) && !Permitted(grants, post, INVOKE, now) then Some(INVOKE)
    else None
  }

  /** The tables the loop leaves alone. */
  predicate SameGround(t: Tables, r: Tables) {
    && r.actors == t.actors && r.memberships == t.memberships && r.channels == t.channels && r.threads == t.threads
    && r.messages == t.messages && r.counters == t.counters
  }

  lemma CheckDecides(t: Tables, post: Post, now: nat)
    requires Postable(t, post)
    ensures var p, rt := post.p, StreamTypeName(post.streamType);
            Check(t, Attempt(post), now)
            == match Lacks(t.grants, post, now)
               case Some(c) => DenyOrAsk(p, c, rt, post.streamId, post.key, true)
               case None => Ok(TxAppend(p, post.streamId, post.streamType, post.parts, post.key))
  {
    hide PartsValid, Readable, KnownActor, DenyOrAsk, AnyUsable, HasCommand, ReadDenial;
  }

  /** The request a denied attempt opens. */
  predicate Asks(r: Request, post: Post, capability: string) {
    && r.orgId == post.p.orgId && r.actorId == post.p.actorId && r.action == capability
    && r.resourceType == StreamTypeName(post.streamType) && r.resourceId == Some(post.streamId) && r.status == Open
  }

  /** A denied attempt opens a request for what it lacked and burns nothing. */
  lemma DeniedAttemptAsks(env: Env, t: Tables, post: Post, round: Round)
    requires Postable(t, post) && Lacks(t.grants, post, round.checkedAt).Some?
    ensures var r := Serve(env, t, Attempt(post), round.checkedAt, round.committedAt, round.id);
            && r.Committed? && r.value == Created(round.id) && r.charged == []
            && SameGround(t, r.tables) && r.tables.grants == t.grants
            && round.id in r.tables.requests
            && Asks(r.tables.requests[round.id], post, Lacks(t.grants, post, round.checkedAt).value)
  {
    CheckDecides(t, post, round.checkedAt);
    hide Check, Postable, Permitted, HasCommand, AuditAll, RequestCreatedEvent;
  }

  /** What approving adds. */
  function IssuedGrant(post: Post, capability: string, round: Round): Grant
    requires ValidUses(round.maxUses)
  {
    Grant(round.grantId, post.p.orgId, post.p.actorId, StreamTypeName(post.streamType), Some(post.streamId), capability,
          round.expiresAt, Uses(round.maxUses), 0, true, round.approvedAt)
  }

  /** Approving issues exactly the grant the request asked for. */
  lemma ApprovalMatchesRequest(env: Env, t: Tables, post: Post, q: Principal, capability: string, requestId: Id, round: Round)
    requires CanApprove(t, post, q, round.approvalCheckedAt) && ValidUses(round.maxUses)
    requires post.p.actorId != "" && Needs(post, capability)
    requires requestId in t.requests && Asks(t.requests[requestId], post, capability)
    ensures var r := Serve(env, t, Approve(q, requestId, round), round.approvalCheckedAt, round.approvedAt, round.grantId);
            && r.Committed? && SameGround(t, r.tables)
            && r.tables.grants == t.grants + [IssuedGrant(post, capability, round)]
  {
    hide MayResolve, KnownActor, HasCommand, AuditAll, GrantCreatedEvent, ResolvedEvent, SetStatus;
    var call := Approve(q, requestId, round);
    var request := t.requests[requestId];
    assert capability != "" && capability != "command:register";
    assert Check(t, call, round.approvalCheckedAt) == Ok(TxResolve(q, requestId, request, true, round.expiresAt, Uses(round.maxUses)));
  }

  lemma IssuedIsUsable(post: Post, capability: string, round: Round, now: nat)
    requires ValidUses(round.maxUses) && (round.expiresAt == None || round.expiresAt.value > now)
    ensures Usable(IssuedGrant(post, capability, round), AppendQuery(post, capability, now))
  {
  }

  lemma PermissionLasts(grants: seq<Grant>, post: Post, capability: string, round: Round, rounds: seq<Round>)
    requires round in rounds && forall g :: g in grants ==> Steady(g, rounds)
    requires Permitted(grants, post, capability, round.checkedAt)
    ensures Permitted(grants, post, capability, round.committedAt)
  {
    if capability !in post.p.scopes {
      var q := AppendQuery(post, capability, round.checkedAt);
      var i :| 0 <= i < |grants| && Usable(grants[i], q);
      assert grants[i] in grants && Steady(grants[i], rounds);
      assert Usable(grants[i], AppendQuery(post, capability, round.committedAt));
    }
  }

  /** A charge to one capability leaves the grants of another alone. */
  lemma ChargesDoNotCompete(grants: seq<Grant>, post: Post, now: nat)
    requires Permitted(grants, post, APPEND, now) && Permitted(grants, post, INVOKE, now)
    ensures PayForAppend(grants, post.p, post.streamId, post.streamType, post.parts, now).Ok?
  {
    hide HasCommand, AutoRevokeEvent;
    var rt := StreamTypeName(post.streamType);
    var one := Consume(grants, post.p, APPEND, rt, Some(post.streamId), now);
    if INVOKE !in post.p.scopes {
      var q := AppendQuery(post, INVOKE, now);
      var i :| 0 <= i < |grants| && Usable(grants[i], q);
      assert Usable(one.value.grants[i], q);
      assert AnyUsable(one.value.grants, q);
    }
  }

  lemma PermittedAttemptPosts(env: Env, t: Tables, post: Post, round: Round, rounds: seq<Round>)
    requires Postable(t, post) && Lacks(t.grants, post, round.checkedAt) == None
    requires round in rounds && forall g :: g in t.grants ==> Steady(g, rounds)
    ensures var r := Serve(env, t, Attempt(post), round.checkedAt, round.committedAt, round.id);
            r.Committed? && r.value.Appended?
  {
    CheckDecides(t, post, round.checkedAt);
    PermissionLasts(t.grants, post, APPEND, round, rounds);
    if HasCommand(post.parts) {
      PermissionLasts(t.grants, post, INVOKE, round, rounds);
      ChargesDoNotCompete(t.grants, post, round.committedAt);
    }
    hide Check, Postable, AuditAll, PostEvents, HasCommand, AutoRevokeEvent, PartRows;
  }

  // ---------- the loop ----------

  /** Every approved capability is needed, held by a lasting grant, and was approved once. */
  ghost predicate Advancing(t: Tables, post: Post, rounds: seq<Round>, s: Progress) {
    && SameGround(t, s.tables) && s.failed == 0
    && (exists issued: seq<Grant> :: s.tables.grants == t.grants + issued && |issued| == |s.approved|)
    && (forall g :: g in s.tables.grants ==> Steady(g, rounds))
    && (forall i :: 0 <= i < |s.approved| ==> Held(s.tables.grants, post, rounds, s.approved[i]))
    && (forall i, j :: 0 <= i < j < |s.approved| ==> s.approved[i] != s.approved[j])
  }

  ghost predicate Held(grants: seq<Grant>, post: Post, rounds: seq<Round>, capability: string) {
    Needs(post, capability) && forall r :: r in rounds ==> Permitted(grants, post, capability, r.checkedAt)
  }

  lemma HeldGrows(grants: seq<Grant>, g: Grant, post: Post, rounds: seq<Round>, capability: string)
    requires Held(grants, post, rounds, capability)
    ensures Held(grants + [g], post, rounds, capability)
  {
    forall r | r in rounds
      ensures Permitted(grants + [g], post, capability, r.checkedAt)
    {
      if capability !in post.p.scopes { AnyUsableGrows(grants, [g], AppendQuery(post, capability, r.checkedAt)); }
    }
  }

  lemma AnyUsableGrows(grants: seq<Grant>, more: seq<Grant>, q: GrantQuery)
    requires AnyUsable(grants, q)
    ensures AnyUsable(grants + more, q)
  {
    var i :| 0 <= i < |grants| && Usable(grants[i], q);
    assert (grants + more)[i] == grants[i];
  }

  lemma GroundKeepsPostable(t: Tables, r: Tables, post: Post)
    requires Postable(t, post) && SameGround(t, r)
    ensures Postable(r, post)
  {
  }

  lemma GroundKeepsApprover(t: Tables, r: Tables, more: seq<Grant>, post: Post, q: Principal, at: nat)
    requires CanApprove(t, post, q, at) && SameGround(t, r) && r.grants == t.grants + more
    ensures CanApprove(r, post, q, at)
  {
    if "grant:create" !in q.scopes {
      AnyUsableGrows(t.grants, more, GrantQuery(q.orgId, q.actorId, "grant:create", "org", Some(q.orgId), at));
    }
  }

  /** What one approval brings to the loop. */
  lemma ApprovalHolds(post: Post, rounds: seq<Round>, grants: seq<Grant>, capability: string, round: Round)
    requires Needs(post, capability) && ValidUses(round.maxUses) && Outlasts(round.expiresAt, rounds)
    ensures Held(grants + [IssuedGrant(post, capability, round)], post, rounds, capability)
    ensures Steady(IssuedGrant(post, capability, round), rounds)
  {
    var g := IssuedGrant(post, capability, round);
    forall r | r in rounds
      ensures Permitted(grants + [g], post, capability, r.checkedAt)
    {
      IssuedIsUsable(post, capability, round, r.checkedAt);
      assert (grants + [g])[|grants|] == g;
    }
  }

  lemma LackedIsNew(grants: seq<Grant>, post: Post, rounds: seq<Round>, round: Round, approved: seq<string>)
    requires round in rounds && Lacks(grants, post, round.checkedAt).Some?
    requires forall i :: 0 <= i < |approved| ==> Held(grants, post, rounds, approved[i])
    ensures var c := Lacks(grants, post, round.checkedAt).value; Needs(post, c) && c !in approved
  {
    hide Permitted;
  }

  /** Every round either posts the message or has one more capability approved. */
  lemma RoundAdvances(env: Env, t: Tables, post: Post, q: Principal, rounds: seq<Round>, s: Progress, round: Round)
    requires Fair(t, post, q, rounds) && round in rounds && Advancing(t, post, rounds, s) && s.posted == None
    ensures var r := RoundStep(env, post, q, s, round);
            || (r.posted.Some? && r.posted.value.Appended? && r.failed == 0 && r.approved == s.approved)
            || (r.posted == None && Advancing(t, post, rounds, r) && |r.approved| == |s.approved| + 1)
  {
    hide Serve, Postable, CanApprove, Held, Lacks, Needs, Outlasts, ValidUses, IssuedGrant, Steady;
    GroundKeepsPostable(t, s.tables, post);
    var lacks := Lacks(s.tables.grants, post, round.checkedAt);
    if lacks == None {
      PermittedAttemptPosts(env, s.tables, post, round, rounds);
    } else {
      LackedIsNew(s.tables.grants, post, rounds, round, s.approved);
      DeniedAttemptAsks(env, s.tables, post, round);
      var asked := Serve(env, s.tables, Attempt(post), round.checkedAt, round.committedAt, round.id).tables;
      ApprovedRound(env, t, post, q, rounds, s, round, asked, lacks.value);
    }
  }

  lemma ApprovedRound(env: Env, t: Tables, post: Post, q: Principal, rounds: seq<Round>, s: Progress, round: Round, asked: Tables,
                      capability: string)
    requires Fair(t, post, q, rounds) && round in rounds && Advancing(t, post, rounds, s)
    requires SameGround(s.tables, asked) && asked.grants == s.tables.grants
    requires round.id in asked.requests && Asks(asked.requests[round.id], post, capability)
    requires Needs(post, capability) && capability !in s.approved
    ensures var r := Serve(env, asked, Approve(q, round.id, round), round.approvalCheckedAt, round.approvedAt, round.grantId);
            r.Committed? && Advancing(t, post, rounds, s.(tables := r.tables, approved := s.approved + [capability]))
  {
    hide Serve, CanApprove, Held, Needs, Outlasts, ValidUses, IssuedGrant, Steady;
    var issued :| s.tables.grants == t.grants + issued && |issued| == |s.approved|;
    GroundKeepsApprover(t, asked, issued, post, q, round.approvalCheckedAt);
    ApprovalMatchesRequest(env, asked, post, q, capability, round.id, round);
    var g := IssuedGrant(post, capability, round);
    ApprovalHolds(post, rounds, asked.grants, capability, round);
    forall i | 0 <= i < |s.approved|
      ensures Held(asked.grants + [g], post, rounds, s.approved[i])
    {
      HeldGrows(asked.grants, g, post, rounds, s.approved[i]);
    }
    assert asked.grants + [g] == t.grants + (issued + [g]);
  }

  /** How many permissions a post can need. */
  function Needed(post: Post): nat {
    if HasCommand(post.parts) then 2 else 1
  }

  lemma {:induction false} DistinctFit(items: seq<string>, universe: set<string>)
    requires forall i :: 0 <= i < |items| ==> items[i] in universe
    requires forall i, j :: 0 <= i < j < |items| ==> items[i] != items[j]
    ensures |items| <= |universe|
  {
    if items != [] {
      var last := items[|items| - 1];
      DistinctFit(items[..|items| - 1], universe - {last});
    }
  }

  lemma TwoSuffice(t: Tables, post: Post, rounds: seq<Round>, s: Progress)
    requires Advancing(t, post, rounds, s)
    ensures |s.approved| <= Needed(post)
  {
    hide Permitted, HasCommand, Steady, SameGround;
    var needed := if HasCommand(post.parts) then {APPEND, INVOKE} else {APPEND};
    forall i | 0 <= i < |s.approved|
      ensures s.approved[i] in needed
    {
      assert Held(s.tables.grants, post, rounds, s.approved[i]);
    }
    DistinctFit(s.approved, needed);
  }

  lemma {:induction false} LoopAdvances(env: Env, t: Tables, post: Post, q: Principal, rounds: seq<Round>, k: nat)
    requires Fair(t, post, q, rounds) && k <= |rounds|
    ensures var s := Persist(env, t, post, q, rounds[..k]);
            && s.failed == 0 && |s.approved| <= Needed(post)
            && (s.posted.Some? ==> s.posted.value.Appended?)
            && (s.posted == None ==> Advancing(t, post, rounds, s) && |s.approved| == k)
  {
    hide RoundStep, Advancing, Needed, Fair;
    if k == 0 {
      StartAdvances(t, post, q, rounds);
      TwoSuffice(t, post, rounds, Progress(t, [], None, 0));
    } else {
      LoopAdvances(env, t, post, q, rounds, k - 1);
      assert rounds[..k][..k - 1] == rounds[..k - 1];
      var before := Persist(env, t, post, q, rounds[..k - 1]);
      if before.posted == None {
        RoundAdvances(env, t, post, q, rounds, before, rounds[k - 1]);
        var s := Persist(env, t, post, q, rounds[..k]);
        if s.posted == None {
          TwoSuffice(t, post, rounds, s);
          assert s.failed == 0 by { AdvancingNeverFailed(t, post, rounds, s); }
        }
      }
    }
  }

  lemma AdvancingNeverFailed(t: Tables, post: Post, rounds: seq<Round>, s: Progress)
    requires Advancing(t, post, rounds, s)
    ensures s.failed == 0
  {
  }

  lemma StartAdvances(t: Tables, post: Post, q: Principal, rounds: seq<Round>)
    requires Fair(t, post, q, rounds)
    ensures Advancing(t, post, rounds, Progress(t, [], None, 0))
  {
    hide Steady, Held;
    var none: seq<Grant> := [];
    assert t.grants == t.grants + none;
  }

  /**
   * Main result: retrying a post that only permission could stop, with every request it opens
   * approved (a single use is enough), posts it after at most one approval, two if it carries
   * commands, and no call on the way fails.
   */
  lemma ApprovalLoopPosts(env: Env, t: Tables, post: Post, q: Principal, rounds: seq<Round>)
    requires Fair(t, post, q, rounds) && |rounds| > Needed(post)
    ensures var s := Persist(env, t, post, q, rounds);
            s.posted.Some? && s.posted.value.Appended? && |s.approved| <= Needed(post) && s.failed == 0
  {
    hide Persist, Fair, Advancing, Needed;
    assert rounds[..|rounds|] == rounds;
    LoopAdvances(env, t, post, q, rounds, |rounds|);
  }

  // ---------- what resolving and membership settle ----------

  /** The request's status after it was resolved. */
  predicate IsResolved(requests: map<Id, Request>, requestId: Id, approve: bool) {
    requestId in requests && requests[requestId].status == if approve then Approved else Denied
  }

  lemma CommandResolves(env: Env, t: Tables, p: Principal, requestId: Id, request: Request, approve: bool, now: nat)
    requires requestId in t.requests
    ensures IsResolved(ResolveCommandTx(env, t, p, requestId, request, approve, now).tables.requests, requestId, approve)
  {
    hide AuditAll, ResolvedEvent, CommandRegisteredEvent, CommandIdOf, SetEnabled;
  }

  lemma DenialResolves(env: Env, t: Tables, p: Principal, requestId: Id, now: nat)
    requires requestId in t.requests
    ensures IsResolved(DenyTx(env, t, p, requestId, now).tables.requests, requestId, false)
  {
    hide AuditAll, ResolvedEvent;
  }

  lemma ApprovalResolves(env: Env, t: Tables, p: Principal, requestId: Id, request: Request, expiresAt: Option<nat>, maxUses: Option<nat>,
                         now: nat, id: Id)
    requires requestId in t.requests
    ensures IsResolved(ApproveTx(env, t, p, requestId, request, expiresAt, maxUses, now, id).tables.requests, requestId, true)
  {
    hide AuditAll, GrantCreatedEvent, ResolvedEvent;
  }

  lemma ResolveResolves(env: Env, t: Tables, p: Principal, requestId: Id, request: Request, approve: bool, expiresAt: Option<nat>,
                        maxUses: Option<nat>, now: nat, id: Id)
    requires requestId in t.requests
    ensures var r := ResolveTx(env, t, p, requestId, request, approve, expiresAt, maxUses, now, id);
            r.Committed? && IsResolved(r.tables.requests, requestId, approve)
  {
    ResolveCommits(env, t, p, requestId, request, approve, expiresAt, maxUses, now, id);
    hide ResolveCommandTx, DenyTx, ApproveTx, IsResolved;
    CommandResolves(env, t, p, requestId, request, approve, now);
    DenialResolves(env, t, p, requestId, now);
    ApprovalResolves(env, t, p, requestId, request, expiresAt, maxUses, now, id);
  }

  lemma ResolvedIsRefused(t: Tables, later: Call, approve: bool, now: nat)
    requires later.ResolveRequest?
    ensures IsResolved(t.requests, later.requestId, approve) ==> Check(t, later, now).Err?
  {
    hide MayResolve, KnownActor, ValidUses, Uses;
  }

  /** What a resolution that went through has done. */
  lemma ServesResolution(env: Env, t: Tables, q: Principal, requestId: Id, approve: bool, expiresAt: Option<nat>, maxUses: Option<int>,
                         checkedAt: nat, committedAt: nat, id: Id)
    requires Serve(env, t, ResolveRequest(q, requestId, approve, expiresAt, maxUses), checkedAt, committedAt, id).Committed?
    ensures requestId in t.requests
    ensures Serve(env, t, ResolveRequest(q, requestId, approve, expiresAt, maxUses), checkedAt, committedAt, id)
            == ResolveTx(env, t, q, requestId, t.requests[requestId], approve, expiresAt,
                         if ValidUses(maxUses) then Uses(maxUses) else None, committedAt, id)
  {
    hide Check, ResolveTx, ValidUses, Uses, Commit;
    CheckedResolution(t, q, requestId, approve, expiresAt, maxUses, checkedAt);
    CommitIsItsTx(env, t, Check(t, ResolveRequest(q, requestId, approve, expiresAt, maxUses), checkedAt).value, committedAt, id);
  }

  lemma CheckedResolution(t: Tables, q: Principal, requestId: Id, approve: bool, expiresAt: Option<nat>, maxUses: Option<int>, now: nat)
    ensures var r := Check(t, ResolveRequest(q, requestId, approve, expiresAt, maxUses), now);
            r.Ok? ==>
              && requestId in t.requests
              && r.value == TxResolve(q, requestId, t.requests[requestId], approve, expiresAt, if ValidUses(maxUses) then Uses(maxUses) else None)
  {
    hide MayResolve, KnownActor, Uses, HasGrant;
  }

  /** A request that was resolved, either way, cannot be resolved again by a later call. */
  lemma ResolvedStaysResolved(env: Env, t: Tables, q: Principal, requestId: Id, approve: bool, expiresAt: Option<nat>, maxUses: Option<int>,
                              checkedAt: nat, committedAt: nat, id: Id, later: Call, laterAt: nat)
    requires later.ResolveRequest? && later.requestId == requestId
    requires Serve(env, t, ResolveRequest(q, requestId, approve, expiresAt, maxUses), checkedAt, committedAt, id).Committed?
    ensures var r := Serve(env, t, ResolveRequest(q, requestId, approve, expiresAt, maxUses), checkedAt, committedAt, id);
            IsResolved(r.tables.requests, requestId, approve) && Check(r.tables, later, laterAt).Err?
  {
    hide Serve, Check, ResolveTx, IsResolved, Uses;
    var uses := if ValidUses(maxUses) then Uses(maxUses) else None;
    ServesResolution(env, t, q, requestId, approve, expiresAt, maxUses, checkedAt, committedAt, id);
    ResolveResolves(env, t, q, requestId, t.requests[requestId], approve, expiresAt, uses, committedAt, id);
    ResolvedIsRefused(ResolveTx(env, t, q, requestId, t.requests[requestId], approve, expiresAt, uses, committedAt, id).tables, later,
                      approve, laterAt);
  }

  /** An added member can read the channel; a removed one can only if it is public. */
  lemma MembershipDecidesReading(env: Env, t: Tables, p: Principal, channelId: Id, actorId: Id, role: string, now: nat)
    requires channelId in t.channels && t.channels[channelId].orgId == p.orgId
    ensures var reader := Principal(actorId, p.orgId, {});
            && Readable(AddMemberTx(env, t, p, channelId, actorId, role, now).tables, reader, channelId, ChannelStream)
            && (Readable(RemoveMemberTx(env, t, p, channelId, actorId, now).tables, reader, channelId, ChannelStream)
                <==> t.channels[channelId].visibility == Public)
  {
    hide AuditAll, MemberAddedEvent, MemberRemovedEvent;
  }
}
