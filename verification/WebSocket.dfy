// One WebSocket subscription (src/ws.ts): a replay of stored events, then live events, each sent
// after its own asynchronous read check.

module WebSocket {
  import opened Prelude

  type Id = string

  /** An event as the listener sees it; `deliverable` is the type filter. */
  datatype BusEvent = BusEvent(orgId: Id, streamId: Id, streamSeq: Option<nat>, deliverable: bool)

  /** Whose subscription it is, to what. */
  datatype Topic = Topic(orgId: Id, streamId: Id)

  /** A read check: the publication it is for (by position), when it began, and how it ended. */
  datatype ReadCheck = ReadCheck(publication: nat, begunAt: nat, passed: Option<bool>)

  /** An event sent to the client: by the replay, or live after the given check. */
  datatype Sent = Replayed(event: BusEvent) | Live(event: BusEvent, publication: nat, check: nat)

  /**
   * The subscription's variables, and for the record all publications with their times, all checks,
   * and everything sent. `floor` is `lastSeq` as it was when the listener was registered.
   */
  datatype Session = Session(
    lastSeq: int, active: bool, listening: bool, registered: bool, floor: int,
    published: seq<BusEvent>, publishedAt: seq<nat>, checks: seq<ReadCheck>, sent: seq<Sent>, clock: nat)

  // ---------- replay ----------

  /** The number an event raises `lastSeq` to. */
  function Raised(lastSeq: int, e: BusEvent): int {
    if e.deliverable && e.streamSeq.Some? && e.streamSeq.value > lastSeq then e.streamSeq.value else lastSeq
  }

  function ReplaySeq(fromSeq: int, events: seq<BusEvent>): int {
    if events == [] then fromSeq else Raised(ReplaySeq(fromSeq, events[..|events| - 1]), events[|events| - 1])
  }

  function ReplaySent(events: seq<BusEvent>): seq<Sent> {
    if events == [] then []
    else
      var last := events[|events| - 1];
      ReplaySent(events[..|events| - 1]) + (if last.deliverable then [Replayed(last)] else [])
  }

  /** After the replay loop; the listener is not registered yet. `fromSeq` is what the client sent, negative or not. */
  function AfterReplay(fromSeq: int, events: seq<BusEvent>): Session {
    Session(ReplaySeq(fromSeq, events), false, false, false, 0, [], [], [], ReplaySent(events), 0)
  }

  // ---------- live ----------

  datatype Step =
    | Register
    | Publish(event: BusEvent)
    | CheckEnds(check: nat, passed: bool)
    | Unsubscribe

  /** The listener's first, synchronous part: the event is for this subscription and new. */
  predicate Wanted(topic: Topic, s: Session, e: BusEvent) {
    && s.listening && s.active && e.deliverable && e.streamId == topic.streamId && e.orgId == topic.orgId
    && !(e.streamSeq.Some? && e.streamSeq.value <= s.lastSeq)
  }

  predicate Ends(s: Session, check: nat) {
    check < |s.checks| && s.checks[check].passed == None && s.checks[check].publication < |s.published|
  }

  function Take(topic: Topic, s: Session, step: Step): Session {
    match step
    case Register =>
      if s.registered then s
      else s.(registered := true, listening := true, active := true, floor := s.lastSeq, clock := s.clock + 1)
    case Publish(e) =>
      var told := s.(published := s.published + [e], publishedAt := s.publishedAt + [s.clock], clock := s.clock + 1);
      if Wanted(topic, s, e) then told.(checks := told.checks + [ReadCheck(|s.published|, s.clock, None)]) else told
    case CheckEnds(check, passed) =>
      if !Ends(s, check) then s
      else
        var c := s.checks[check];
        var e := s.published[c.publication];
        var ended := s.(checks := s.checks[check := c.(passed := Some(passed))], clock := s.clock + 1);
        if passed then
          ended.(lastSeq := if e.streamSeq.Some? then e.streamSeq.value else s.lastSeq,
                 sent := s.sent + [Live(e, c.publication, check)])
        else ended.(active := false, listening := false)
    case Unsubscribe => s.(listening := false, clock := s.clock + 1)
  }

  function Run(topic: Topic, fromSeq: int, replay: seq<BusEvent>, steps: seq<Step>): Session {
    if steps == [] then AfterReplay(fromSeq, replay)
    else Take(topic, Run(topic, fromSeq, replay, steps[..|steps| - 1]), steps[|steps| - 1])
  }

  // ---------- what every step keeps ----------

  /** Each check is of a wanted publication made at the moment it began, and is the only one of it. */
  ghost predicate ChecksOk(topic: Topic, s: Session) {
    && |s.publishedAt| == |s.published|
    && (forall c :: 0 <= c < |s.checks| ==>
          s.checks[c].publication < |s.published| && s.checks[c].begunAt >= s.publishedAt[s.checks[c].publication]
          && ForTopic(topic, s.floor, s.published[s.checks[c].publication]))
    && (forall c, d :: 0 <= c < d < |s.checks| ==> s.checks[c].publication < s.checks[d].publication)
  }

  predicate ForTopic(topic: Topic, floor: int, e: BusEvent) {
    && e.deliverable && e.streamId == topic.streamId && e.orgId == topic.orgId
    && (e.streamSeq.Some? ==> e.streamSeq.value > floor)
  }

  predicate FromCheck(s: Session, x: Sent)
    requires x.Live?
  {
    && x.check < |s.checks| && s.checks[x.check].publication == x.publication && s.checks[x.check].passed == Some(true)
    && x.publication < |s.published| && s.published[x.publication] == x.event
  }

  predicate SentFor(s: Session, check: nat) {
    exists i :: 0 <= i < |s.sent| && s.sent[i].Live? && s.sent[i].check == check
  }

  /** What was sent live was sent after its own check, and once; what passed was sent. */
  ghost predicate SentOk(s: Session) {
    && (forall c :: 0 <= c < |s.checks| && s.checks[c].passed == Some(true) ==> SentFor(s, c))
    && (forall i :: 0 <= i < |s.sent| && s.sent[i].Live? ==> FromCheck(s, s.sent[i]))
    && (forall i, j :: 0 <= i < j < |s.sent| && s.sent[i].Live? && s.sent[j].Live? ==> s.sent[i].check != s.sent[j].check)
  }

  predicate ReplayBelow(sent: seq<Sent>, n: int) {
    forall i :: 0 <= i < |sent| && sent[i].Replayed? && sent[i].event.streamSeq.Some? ==> sent[i].event.streamSeq.value <= n
  }

  ghost predicate SessionInv(topic: Topic, s: Session) {
    && ChecksOk(topic, s) && SentOk(s)
    && (if s.registered then s.lastSeq >= s.floor && ReplayBelow(s.sent, s.floor)
        else ReplayBelow(s.sent, s.lastSeq) && !s.listening && s.checks == [] && forall i :: 0 <= i < |s.sent| ==> s.sent[i].Replayed?)
  }

  lemma {:induction false} ReplayIsBelow(fromSeq: int, events: seq<BusEvent>)
    ensures ReplayBelow(ReplaySent(events), ReplaySeq(fromSeq, events))
    ensures forall i :: 0 <= i < |ReplaySent(events)| ==> ReplaySent(events)[i].Replayed?
    ensures ReplaySeq(fromSeq, events) >= fromSeq
  {
    if events != [] {
      ReplayIsBelow(fromSeq, events[..|events| - 1]);
    }
  }

  lemma PublishKeeps(topic: Topic, s: Session, e: BusEvent)
    requires SessionInv(topic, s)
    ensures SessionInv(topic, Take(topic, s, Publish(e)))
  {
    var s' := Take(topic, s, Publish(e));
    forall i | 0 <= i < |s'.sent| && s'.sent[i].Live?
      ensures FromCheck(s', s'.sent[i])
    {
      assert FromCheck(s, s.sent[i]);
    }
    SameSent(s, s');
  }

  /** A step that sends nothing and passes no check. */
  lemma SameSent(s: Session, s': Session)
    requires SentOk(s) && s'.sent == s.sent
    requires forall c :: 0 <= c < |s'.checks| && s'.checks[c].passed == Some(true) ==> c < |s.checks| && s.checks[c].passed == Some(true)
    ensures forall c :: 0 <= c < |s'.checks| && s'.checks[c].passed == Some(true) ==> SentFor(s', c)
  {
    forall c | 0 <= c < |s'.checks| && s'.checks[c].passed == Some(true)
      ensures SentFor(s', c)
    {
      assert SentFor(s, c);
    }
  }

  lemma CheckKeeps(topic: Topic, s: Session, check: nat, passed: bool)
    requires SessionInv(topic, s)
    ensures SessionInv(topic, Take(topic, s, CheckEnds(check, passed)))
  {
    var s' := Take(topic, s, CheckEnds(check, passed));
    if Ends(s, check) {
      forall i | 0 <= i < |s.sent| && s.sent[i].Live?
        ensures s.sent[i].check != check && FromCheck(s', s.sent[i])
      {
        assert FromCheck(s, s.sent[i]);
      }
      forall c | 0 <= c < |s'.checks| && s'.checks[c].passed == Some(true)
        ensures SentFor(s', c)
      {
        if c == check {
          assert s'.sent[|s.sent|].check == check;
        } else {
          assert SentFor(s, c);
          var i :| 0 <= i < |s.sent| && s.sent[i].Live? && s.sent[i].check == c;
          assert s'.sent[i] == s.sent[i];
        }
      }
    }
  }

  lemma {:induction false} RunKeeps(topic: Topic, fromSeq: int, replay: seq<BusEvent>, steps: seq<Step>)
    ensures SessionInv(topic, Run(topic, fromSeq, replay, steps))
  {
    hide Take, SessionInv;
    if steps == [] {
      StartKeeps(topic, fromSeq, replay);
    } else {
      var before := Run(topic, fromSeq, replay, steps[..|steps| - 1]);
      RunKeeps(topic, fromSeq, replay, steps[..|steps| - 1]);
      match steps[|steps| - 1]
      case Publish(e) => PublishKeeps(topic, before, e);
      case CheckEnds(check, passed) => CheckKeeps(topic, before, check, passed);
      case Register => TurnKeeps(topic, before, Register);
      case Unsubscribe => TurnKeeps(topic, before, Unsubscribe);
    }
  }

  lemma TurnKeeps(topic: Topic, s: Session, step: Step)
    requires SessionInv(topic, s) && (step.Register? || step.Unsubscribe?)
    ensures SessionInv(topic, Take(topic, s, step))
  {
    var s' := Take(topic, s, step);
    forall i | 0 <= i < |s'.sent| && s'.sent[i].Live?
      ensures FromCheck(s', s'.sent[i])
    {
      assert FromCheck(s, s.sent[i]);
    }
    SameSent(s, s');
  }

  lemma StartKeeps(topic: Topic, fromSeq: int, replay: seq<BusEvent>)
    ensures SessionInv(topic, AfterReplay(fromSeq, replay))
  {
    ReplayIsBelow(fromSeq, replay);
  }

  // ---------- main results ----------

  /** Main result: from registration on, `lastSeq` never drops below what it was then. */
  lemma LastSeqKeepsItsFloor(topic: Topic, fromSeq: int, replay: seq<BusEvent>, steps: seq<Step>)
    ensures var s := Run(topic, fromSeq, replay, steps); s.registered ==> s.lastSeq >= s.floor
  {
    hide Run;
    RunKeeps(topic, fromSeq, replay, steps);
  }

  /** Main result: a number sent by the replay is never sent again live; live numbers are all higher. */
  lemma NoReplayedNumberLive(topic: Topic, fromSeq: int, replay: seq<BusEvent>, steps: seq<Step>, i: nat, j: nat)
    requires var sent := Run(topic, fromSeq, replay, steps).sent;
             && i < |sent| && j < |sent| && sent[i].Replayed? && sent[j].Live?
             && sent[i].event.streamSeq.Some? && sent[j].event.streamSeq.Some?
    ensures var sent := Run(topic, fromSeq, replay, steps).sent; sent[i].event.streamSeq.value < sent[j].event.streamSeq.value
  {
    hide Run;
    RunKeeps(topic, fromSeq, replay, steps);
    var s := Run(topic, fromSeq, replay, steps);
    assert FromCheck(s, s.sent[j]);
    assert ForTopic(topic, s.floor, s.published[s.checks[s.sent[j].check].publication]);
  }

  /**
   * Main result: in every interleaving, each publication is sent at most once, is for the subscription's
   * stream and org, and only goes out after a passed read check that began no earlier than the publication.
   */
  lemma SentOnceAfterItsCheck(topic: Topic, fromSeq: int, replay: seq<BusEvent>, steps: seq<Step>, i: nat, j: nat)
    requires i < |Run(topic, fromSeq, replay, steps).sent| && j < |Run(topic, fromSeq, replay, steps).sent|
    requires Run(topic, fromSeq, replay, steps).sent[i].Live? && Run(topic, fromSeq, replay, steps).sent[j].Live?
    ensures var s := Run(topic, fromSeq, replay, steps); var x := s.sent[i];
            && (i != j ==> x.publication != s.sent[j].publication)
            && x.publication < |s.published| && s.published[x.publication] == x.event
            && x.event.streamId == topic.streamId && x.event.orgId == topic.orgId && x.event.deliverable
            && x.check < |s.checks| && s.checks[x.check].passed == Some(true)
            && x.publication < |s.publishedAt| && s.checks[x.check].begunAt >= s.publishedAt[x.publication]
  {
    hide Run;
    RunKeeps(topic, fromSeq, replay, steps);
    var s := Run(topic, fromSeq, replay, steps);
    assert FromCheck(s, s.sent[i]) && FromCheck(s, s.sent[j]);
    var c, d := s.sent[i].check, s.sent[j].check;
    assert ForTopic(topic, s.floor, s.published[s.checks[c].publication]);
    assert i != j ==> c != d;
    assert c < d ==> s.checks[c].publication < s.checks[d].publication;
    assert d < c ==> s.checks[d].publication < s.checks[c].publication;
  }

  // ---------- nothing is held back ----------

  function Deliverable(): BusEvent -> bool {
    (e: BusEvent) => e.deliverable
  }

  /** The replay sends every deliverable stored event, in order, and leaves `lastSeq` at the highest number sent. */
  lemma {:induction false} ReplaySendsAll(fromSeq: int, events: seq<BusEvent>)
    ensures var sent, due := ReplaySent(events), Where(events, Deliverable());
            |sent| == |due| && forall i :: 0 <= i < |due| ==> sent[i] == Replayed(due[i])
    ensures var n := ReplaySeq(fromSeq, events);
            && n >= fromSeq && (forall e :: e in events && e.deliverable && e.streamSeq.Some? ==> e.streamSeq.value <= n)
            && (n == fromSeq || exists e :: e in events && e.deliverable && e.streamSeq == Some(n))
  {
    if events != [] {
      var front, last := events[..|events| - 1], events[|events| - 1];
      assert events == front + [last];
      ReplaySendsAll(fromSeq, front);
      assert last in events;
    }
  }

  /** A read check was begun for this publication. */
  predicate HasCheck(s: Session, publication: nat) {
    exists c :: 0 <= c < |s.checks| && s.checks[c].publication == publication
  }

  predicate HasPassed(s: Session, publication: nat) {
    exists c :: 0 <= c < |s.checks| && s.checks[c].publication == publication && s.checks[c].passed == Some(true)
  }

  predicate SentLive(s: Session, publication: nat) {
    exists i :: 0 <= i < |s.sent| && s.sent[i].Live? && s.sent[i].publication == publication
  }

  lemma StepKeepsChecks(topic: Topic, s: Session, step: Step, publication: nat)
    requires publication < |s.published|
    ensures HasCheck(Take(topic, s, step), publication) <==> HasCheck(s, publication)
    ensures |s.published| <= |Take(topic, s, step).published|
  {
    var s' := Take(topic, s, step);
    assert |s.checks| <= |s'.checks| && forall c :: 0 <= c < |s.checks| ==> s'.checks[c].publication == s.checks[c].publication;
    if HasCheck(s, publication) {
      var c :| 0 <= c < |s.checks| && s.checks[c].publication == publication;
      assert s'.checks[c].publication == publication;
    }
  }

  lemma PublishStarts(topic: Topic, s: Session, e: BusEvent)
    requires ChecksOk(topic, s)
    ensures HasCheck(Take(topic, s, Publish(e)), |s.published|)
            <==> s.listening && s.active && e.deliverable && e.streamId == topic.streamId && e.orgId == topic.orgId
                 && (e.streamSeq.Some? ==> e.streamSeq.value > s.lastSeq)
  {
    var s' := Take(topic, s, Publish(e));
    if |s'.checks| > |s.checks| { assert s'.checks[|s.checks|].publication == |s.published|; }
  }

  /**
   * Main result: in every run an event starts a read check exactly if, when it is published, the
   * subscription listens and is active and the event is deliverable, of its stream and org, and has no
   * number or a new one; and it is sent exactly if that check has passed.
   */
  lemma {:induction false} WantedIsChecked(topic: Topic, fromSeq: int, replay: seq<BusEvent>, steps: seq<Step>, k: nat)
    requires k < |steps| && steps[k].Publish?
    ensures var b, e := Run(topic, fromSeq, replay, steps[..k]), steps[k].event;
            var s := Run(topic, fromSeq, replay, steps);
            && |b.published| < |s.published|
            && (HasCheck(s, |b.published|)
                <==> b.listening && b.active && e.deliverable && e.streamId == topic.streamId && e.orgId == topic.orgId
                     && (e.streamSeq.Some? ==> e.streamSeq.value > b.lastSeq))
            && (SentLive(s, |b.published|) <==> HasPassed(s, |b.published|))
  {
    hide Take, HasCheck, SentLive, HasPassed, SessionInv;
    var front, last := steps[..|steps| - 1], steps[|steps| - 1];
    var b, s1 := Run(topic, fromSeq, replay, steps[..k]), Run(topic, fromSeq, replay, front);
    RunKeeps(topic, fromSeq, replay, steps);
    if k == |front| {
      assert front == steps[..k];
      RunKeeps(topic, fromSeq, replay, front);
      InvChecks(topic, s1);
      PublishStarts(topic, s1, last.event);
      PublishAdds(topic, s1, last.event);
    } else {
      assert front[..k] == steps[..k] && front[k] == steps[k];
      WantedIsChecked(topic, fromSeq, replay, front, k);
      StepKeepsChecks(topic, s1, last, |b.published|);
    }
    PassedIsSent(topic, Run(topic, fromSeq, replay, steps), |b.published|);
  }

  lemma {:induction false} EndedStaysEnded(topic: Topic, fromSeq: int, replay: seq<BusEvent>, steps: seq<Step>, j: nat)
    requires j <= |steps|
    requires var b := Run(topic, fromSeq, replay, steps[..j]); b.registered && !b.active
    ensures var s := Run(topic, fromSeq, replay, steps); s.registered && !s.active
  {
    if j == |steps| {
      assert steps[..j] == steps;
    } else {
      var front := steps[..|steps| - 1];
      assert front[..j] == steps[..j];
      EndedStaysEnded(topic, fromSeq, replay, front, j);
    }
  }

  /** Main result: once a read check has failed, nothing published afterwards is ever sent. */
  lemma NothingAfterRevocation(topic: Topic, fromSeq: int, replay: seq<BusEvent>, steps: seq<Step>, j: nat, k: nat)
    requires j < k < |steps| && steps[k].Publish?
    requires steps[j].CheckEnds? && !steps[j].passed && Ends(Run(topic, fromSeq, replay, steps[..j]), steps[j].check)
    ensures !SentLive(Run(topic, fromSeq, replay, steps), |Run(topic, fromSeq, replay, steps[..k]).published|)
  {
    hide Run;
    var publication := |Run(topic, fromSeq, replay, steps[..k]).published|;
    FailureEnds(topic, fromSeq, replay, steps, j);
    assert steps[..k][..j + 1] == steps[..j + 1];
    EndedStaysEnded(topic, fromSeq, replay, steps[..k], j + 1);
    WantedIsChecked(topic, fromSeq, replay, steps, k);
    assert !HasPassed(Run(topic, fromSeq, replay, steps), publication);
  }

  lemma FailureEnds(topic: Topic, fromSeq: int, replay: seq<BusEvent>, steps: seq<Step>, j: nat)
    requires j < |steps| && steps[j].CheckEnds? && !steps[j].passed
    requires Ends(Run(topic, fromSeq, replay, steps[..j]), steps[j].check)
    ensures var s := Run(topic, fromSeq, replay, steps[..j + 1]); s.registered && !s.active
  {
    assert steps[..j + 1][..j] == steps[..j];
    RunKeeps(topic, fromSeq, replay, steps[..j]);
  }

  lemma InvChecks(topic: Topic, s: Session)
    requires SessionInv(topic, s)
    ensures ChecksOk(topic, s)
  {
  }

  lemma PublishAdds(topic: Topic, s: Session, e: BusEvent)
    ensures |Take(topic, s, Publish(e)).published| == |s.published| + 1
  {
  }

  lemma PassedIsSent(topic: Topic, s: Session, publication: nat)
    requires SessionInv(topic, s)
    ensures SentLive(s, publication) <==> HasPassed(s, publication)
  {
    hide ForTopic, ReplayBelow;
    if SentLive(s, publication) {
      var i :| 0 <= i < |s.sent| && s.sent[i].Live? && s.sent[i].publication == publication;
      assert FromCheck(s, s.sent[i]);
    }
    if HasPassed(s, publication) {
      var c :| 0 <= c < |s.checks| && s.checks[c].publication == publication && s.checks[c].passed == Some(true);
      assert SentFor(s, c);
      var i :| 0 <= i < |s.sent| && s.sent[i].Live? && s.sent[i].check == c;
      assert FromCheck(s, s.sent[i]);
    }
  }

  // ---------- live order ----------

  predicate Increasing(ns: seq<nat>) {
    forall i, j :: 0 <= i < j < |ns| ==> ns[i] < ns[j]
  }

  /** The checks that passed, in the order in which they ended. */
  function PassedChecks(topic: Topic, fromSeq: int, replay: seq<BusEvent>, steps: seq<Step>): seq<nat> {
    if steps == [] then []
    else
      var front, last := steps[..|steps| - 1], steps[|steps| - 1];
      var ends := last.CheckEnds? && last.passed && Ends(Run(topic, fromSeq, replay, front), last.check);
      PassedChecks(topic, fromSeq, replay, front) + (if ends then [last.check] else [])
  }

  /** Live events went out in the order of their publication. */
  predicate LiveInOrder(sent: seq<Sent>) {
    forall i, j :: 0 <= i < j < |sent| && sent[i].Live? && sent[j].Live? ==> sent[i].publication < sent[j].publication
  }

  function LiveChecks(sent: seq<Sent>): (r: seq<nat>)
    ensures forall c :: c in r <==> exists i :: 0 <= i < |sent| && sent[i].Live? && sent[i].check == c
  {
    if sent == [] then []
    else
      var front, last := sent[..|sent| - 1], sent[|sent| - 1];
      assert forall i :: 0 <= i < |front| ==> sent[i] == front[i];
      LiveChecks(front) + (if last.Live? then [last.check] else [])
  }

  lemma {:induction false} NoCheckLive(sent: seq<Sent>)
    requires forall i :: 0 <= i < |sent| ==> sent[i].Replayed?
    ensures LiveChecks(sent) == []
  {
    if sent != [] { NoCheckLive(sent[..|sent| - 1]); }
  }

  lemma WhatIsLive(sent: seq<Sent>)
    ensures forall c :: c in LiveChecks(sent) <==> exists i :: 0 <= i < |sent| && sent[i].Live? && sent[i].check == c
  {
  }

  lemma LiveInOrderSnoc(sent: seq<Sent>, x: Sent)
    ensures LiveInOrder(sent + [x])
            <==> LiveInOrder(sent) && (x.Live? ==> forall i :: 0 <= i < |sent| && sent[i].Live? ==> sent[i].publication < x.publication)
  {
    var all := sent + [x];
    assert all[|sent|] == x && forall i :: 0 <= i < |sent| ==> all[i] == sent[i];
    if LiveInOrder(all) {
      forall i, j | 0 <= i < j < |sent| && sent[i].Live? && sent[j].Live?
        ensures sent[i].publication < sent[j].publication
      {
        assert all[i].publication < all[j].publication;
      }
      forall i | 0 <= i < |sent| && sent[i].Live? && x.Live?
        ensures sent[i].publication < x.publication
      {
        assert all[i].publication < all[|sent|].publication;
      }
    }
  }

  lemma LiveChecksSnoc(sent: seq<Sent>, x: Sent)
    ensures LiveChecks(sent + [x]) == LiveChecks(sent) + (if x.Live? then [x.check] else [])
  {
    assert (sent + [x])[..|sent|] == sent;
  }

  lemma {:induction false} LiveChecksArePassed(topic: Topic, fromSeq: int, replay: seq<BusEvent>, steps: seq<Step>)
    ensures LiveChecks(Run(topic, fromSeq, replay, steps).sent) == PassedChecks(topic, fromSeq, replay, steps)
  {
    hide LiveChecks;
    if steps == [] {
      ReplayIsBelow(fromSeq, replay);
      NoCheckLive(ReplaySent(replay));
    } else {
      var front, last := steps[..|steps| - 1], steps[|steps| - 1];
      var s := Run(topic, fromSeq, replay, front);
      LiveChecksArePassed(topic, fromSeq, replay, front);
      if last.CheckEnds? && last.passed && Ends(s, last.check) {
        var c := s.checks[last.check];
        LiveChecksSnoc(s.sent, Live(s.published[c.publication], c.publication, last.check));
      }
    }
  }

  /** Publications and their checks are in the same order. */
  lemma {:induction false} OrderIsOfChecks(topic: Topic, s: Session, sent: seq<Sent>)
    requires ChecksOk(topic, s) && forall i :: 0 <= i < |sent| && sent[i].Live? ==> FromCheck(s, sent[i])
    ensures LiveInOrder(sent) <==> Increasing(LiveChecks(sent))
  {
    hide LiveChecks, LiveInOrder, Increasing;
    if sent == [] {
      assert LiveInOrder([]) && Increasing([]) by { NothingOutOfOrder(); }
      NoCheckLive([]);
    } else {
      var front, last := sent[..|sent| - 1], sent[|sent| - 1];
      assert sent == front + [last];
      OrderIsOfChecks(topic, s, front);
      LiveChecksSnoc(front, last);
      LiveInOrderSnoc(front, last);
      if last.Live? {
        IncreasingSnoc(LiveChecks(front), last.check);
        WhatIsLive(front);
        forall i | 0 <= i < |front| && front[i].Live?
          ensures front[i].publication < last.publication <==> front[i].check < last.check
          ensures front[i].check in LiveChecks(front)
        {
          assert FromCheck(s, sent[i]) && FromCheck(s, last);
          if last.check < front[i].check { assert s.checks[last.check].publication < s.checks[front[i].check].publication; }
        }
      } else {
        assert LiveChecks(front) + [] == LiveChecks(front);
      }
    }
  }

  lemma NothingOutOfOrder()
    ensures LiveInOrder([]) && Increasing([])
  {
  }

  lemma IncreasingSnoc(ns: seq<nat>, n: nat)
    ensures Increasing(ns + [n]) <==> Increasing(ns) && forall x :: x in ns ==> x < n
  {
    var all := ns + [n];
    assert forall i :: 0 <= i < |ns| ==> all[i] == ns[i] && ns[i] in ns;
    if Increasing(all) {
      forall x | x in ns
        ensures x < n
      {
        var i :| 0 <= i < |ns| && ns[i] == x;
        assert all[i] < all[|ns|];
      }
      assert Increasing(ns) by {
        forall i, j | 0 <= i < j < |ns|
          ensures ns[i] < ns[j]
        {
          assert all[i] < all[j];
        }
      }
    }
  }

  /** Main result: over every run, live events go out in the order of their publication exactly if the passing checks end in the order they began. */
  lemma LiveOrderKeptIff(topic: Topic, fromSeq: int, replay: seq<BusEvent>, steps: seq<Step>)
    ensures LiveInOrder(Run(topic, fromSeq, replay, steps).sent) <==> Increasing(PassedChecks(topic, fromSeq, replay, steps))
  {
    hide Run, PassedChecks, LiveChecks, Increasing, LiveInOrder;
    RunKeeps(topic, fromSeq, replay, steps);
    LiveChecksArePassed(topic, fromSeq, replay, steps);
    var s := Run(topic, fromSeq, replay, steps);
    OrderIsOfChecks(topic, s, s.sent);
  }

  /** A passing check keeps the order exactly if no later check has passed before it. */
  lemma PassKeepsOrderIff(topic: Topic, s: Session, check: nat)
    requires SessionInv(topic, s) && Ends(s, check) && LiveInOrder(s.sent)
    ensures LiveInOrder(Take(topic, s, CheckEnds(check, true)).sent)
            <==> forall d :: check < d < |s.checks| ==> s.checks[d].passed != Some(true)
  {
    var s' := Take(topic, s, CheckEnds(check, true));
    var n := |s.sent|;
    assert s'.sent[n].Live? && s'.sent[n].publication == s.checks[check].publication;
    forall i | 0 <= i < n && s.sent[i].Live?
      ensures s.sent[i].check < |s.checks| && s.checks[s.sent[i].check].passed == Some(true) && s.sent[i].check != check
      ensures s.sent[i].publication < s'.sent[n].publication <==> s.sent[i].check < check
    {
      assert FromCheck(s, s.sent[i]);
      if check < s.sent[i].check { assert s.checks[check].publication < s.checks[s.sent[i].check].publication; }
    }
    if d :| check < d < |s.checks| && s.checks[d].passed == Some(true) {
      assert SentFor(s, d);
      var i :| 0 <= i < n && s.sent[i].Live? && s.sent[i].check == d;
      assert s'.sent[i] == s.sent[i];
      assert !(s'.sent[i].publication < s'.sent[n].publication);
    }
  }

  // ---------- lastSeq ----------

  predicate NonDecreasing(ns: seq<int>) {
    forall i, j :: 0 <= i < j < |ns| ==> ns[i] <= ns[j]
  }

  /** The numbers sent live, in the order they were sent. */
  function LiveNumbers(sent: seq<Sent>): seq<int> {
    if sent == [] then []
    else
      var last := sent[|sent| - 1];
      LiveNumbers(sent[..|sent| - 1]) + (if last.Live? && last.event.streamSeq.Some? then [last.event.streamSeq.value] else [])
  }

  predicate NoStepLowers(topic: Topic, fromSeq: int, replay: seq<BusEvent>, steps: seq<Step>) {
    forall k :: 0 <= k < |steps| ==>
      Run(topic, fromSeq, replay, steps[..k]).lastSeq <= Run(topic, fromSeq, replay, steps[..k + 1]).lastSeq
  }

  /** `lastSeq` is the number sent live last, or what the replay left. */
  ghost predicate LastSeqIs(s: Session, base: int) {
    var ns := LiveNumbers(s.sent);
    && s.lastSeq == (if ns == [] then base else ns[|ns| - 1])
    && (forall n :: n in ns ==> n > base)
    && (s.registered ==> s.floor == base)
  }

  lemma {:induction false} NoneLive(sent: seq<Sent>)
    requires forall i :: 0 <= i < |sent| ==> sent[i].Replayed?
    ensures LiveNumbers(sent) == []
  {
    if sent != [] { NoneLive(sent[..|sent| - 1]); }
  }

  lemma LiveNumbersSnoc(sent: seq<Sent>, x: Sent)
    ensures LiveNumbers(sent + [x])
            == LiveNumbers(sent) + (if x.Live? && x.event.streamSeq.Some? then [x.event.streamSeq.value] else [])
  {
    assert (sent + [x])[..|sent|] == sent;
  }

  lemma TakeKeepsLastSeq(topic: Topic, s: Session, step: Step, base: int)
    requires SessionInv(topic, s) && LastSeqIs(s, base)
    ensures LastSeqIs(Take(topic, s, step), base)
    ensures var ns, ns' := LiveNumbers(s.sent), LiveNumbers(Take(topic, s, step).sent);
            ns' == ns || (ns' == ns + [Take(topic, s, step).lastSeq])
    ensures LiveNumbers(Take(topic, s, step).sent) == LiveNumbers(s.sent) ==> Take(topic, s, step).lastSeq == s.lastSeq
  {
    hide LiveNumbers, SentOk;
    match step
    case Register => if !s.registered { NoneLive(s.sent); }
    case CheckEnds(check, passed) =>
      if Ends(s, check) && passed {
        var c := s.checks[check];
        var e := s.published[c.publication];
        assert ForTopic(topic, s.floor, e);
        LiveNumbersSnoc(s.sent, Live(e, c.publication, check));
      }
    case _ =>
  }

  lemma {:induction false} RunKeepsLastSeq(topic: Topic, fromSeq: int, replay: seq<BusEvent>, steps: seq<Step>)
    ensures LastSeqIs(Run(topic, fromSeq, replay, steps), ReplaySeq(fromSeq, replay))
  {
    hide Take, LastSeqIs, SessionInv;
    if steps == [] {
      ReplayIsBelow(fromSeq, replay);
      NoneLive(ReplaySent(replay));
      assert LastSeqIs(AfterReplay(fromSeq, replay), ReplaySeq(fromSeq, replay)) by { StartLastSeq(fromSeq, replay); }
    } else {
      var front := steps[..|steps| - 1];
      RunKeeps(topic, fromSeq, replay, front);
      RunKeepsLastSeq(topic, fromSeq, replay, front);
      TakeKeepsLastSeq(topic, Run(topic, fromSeq, replay, front), steps[|steps| - 1], ReplaySeq(fromSeq, replay));
    }
  }

  lemma StartLastSeq(fromSeq: int, replay: seq<BusEvent>)
    requires LiveNumbers(ReplaySent(replay)) == []
    ensures LastSeqIs(AfterReplay(fromSeq, replay), ReplaySeq(fromSeq, replay))
  {
  }

  lemma NonDecreasingSnoc(ns: seq<int>, n: int)
    ensures NonDecreasing(ns + [n]) <==> NonDecreasing(ns) && (ns == [] || ns[|ns| - 1] <= n)
  {
    var all := ns + [n];
    assert forall i :: 0 <= i < |ns| ==> all[i] == ns[i];
    if NonDecreasing(all) {
      assert ns != [] ==> all[|ns| - 1] <= all[|ns|];
      forall i, j | 0 <= i < j < |ns|
        ensures ns[i] <= ns[j]
      {
        assert all[i] <= all[j];
      }
    }
  }

  lemma NoStepLowersSnoc(topic: Topic, fromSeq: int, replay: seq<BusEvent>, steps: seq<Step>)
    requires steps != []
    ensures var front := steps[..|steps| - 1];
            NoStepLowers(topic, fromSeq, replay, steps)
            <==> NoStepLowers(topic, fromSeq, replay, front)
                 && Run(topic, fromSeq, replay, front).lastSeq <= Run(topic, fromSeq, replay, steps).lastSeq
  {
    hide Run;
    var front := steps[..|steps| - 1];
    assert forall k :: 0 <= k <= |front| ==> steps[..k] == front[..k];
    assert steps[..|steps|] == steps && steps[..|front|] == front;
  }

  lemma {:induction false} FallsWithNumbers(topic: Topic, fromSeq: int, replay: seq<BusEvent>, steps: seq<Step>)
    ensures NoStepLowers(topic, fromSeq, replay, steps) <==> NonDecreasing(LiveNumbers(Run(topic, fromSeq, replay, steps).sent))
  {
    hide Take, LiveNumbers, SessionInv, NonDecreasing, NoStepLowers;
    if steps == [] {
      ReplayIsBelow(fromSeq, replay);
      NoneLive(ReplaySent(replay));
      assert NonDecreasing([]) && NoStepLowers(topic, fromSeq, replay, []) by { NothingLowers(topic, fromSeq, replay); }
    } else {
      var front, last := steps[..|steps| - 1], steps[|steps| - 1];
      var s := Run(topic, fromSeq, replay, front);
      FallsWithNumbers(topic, fromSeq, replay, front);
      RunKeeps(topic, fromSeq, replay, front);
      RunKeepsLastSeq(topic, fromSeq, replay, front);
      TakeKeepsLastSeq(topic, s, last, ReplaySeq(fromSeq, replay));
      var s' := Take(topic, s, last);
      NonDecreasingSnoc(LiveNumbers(s.sent), s'.lastSeq);
      if LiveNumbers(s'.sent) != LiveNumbers(s.sent) {
        assert LiveNumbers(s'.sent) == LiveNumbers(s.sent) + [s'.lastSeq] && s'.lastSeq in LiveNumbers(s'.sent);
      }
      NoStepLowersSnoc(topic, fromSeq, replay, steps);
    }
  }

  /** The numbers of the events that the given checks were for. */
  function NumbersOf(s: Session, checks: seq<nat>): seq<int> {
    if checks == [] then []
    else
      var c := checks[|checks| - 1];
      NumbersOf(s, checks[..|checks| - 1]) + (if Numbered(s, c) then [s.published[s.checks[c].publication].streamSeq.value] else [])
  }

  predicate Numbered(s: Session, check: nat) {
    && check < |s.checks| && s.checks[check].publication < |s.published|
    && s.published[s.checks[check].publication].streamSeq.Some?
  }

  lemma {:induction false} NumbersMatch(s: Session, sent: seq<Sent>)
    requires forall i :: 0 <= i < |sent| && sent[i].Live? ==> FromCheck(s, sent[i])
    ensures LiveNumbers(sent) == NumbersOf(s, LiveChecks(sent))
  {
    hide FromCheck;
    if sent == [] {
      NoCheckLive([]);
    } else {
      var front, last := sent[..|sent| - 1], sent[|sent| - 1];
      assert sent == front + [last];
      NumbersMatch(s, front);
      LiveChecksSnoc(front, last);
      if last.Live? {
        assert (LiveChecks(front) + [last.check])[..|LiveChecks(front)|] == LiveChecks(front);
        MatchesCheck(s, last);
      } else {
        assert LiveChecks(front) + [] == LiveChecks(front);
      }
    }
  }

  lemma MatchesCheck(s: Session, x: Sent)
    requires x.Live? && FromCheck(s, x)
    ensures Numbered(s, x.check) <==> x.event.streamSeq.Some?
    ensures Numbered(s, x.check) ==> s.published[s.checks[x.check].publication].streamSeq == x.event.streamSeq
  {
  }

  /** Main result: over every run, `lastSeq` never falls exactly if the passing checks end in the order of their events' numbers. */
  lemma LastSeqNeverFallsIff(topic: Topic, fromSeq: int, replay: seq<BusEvent>, steps: seq<Step>)
    ensures NoStepLowers(topic, fromSeq, replay, steps)
            <==> NonDecreasing(NumbersOf(Run(topic, fromSeq, replay, steps), PassedChecks(topic, fromSeq, replay, steps)))
  {
    hide Run, NoStepLowers, NonDecreasing, NumbersOf, PassedChecks, LiveNumbers, LiveChecks;
    var s := Run(topic, fromSeq, replay, steps);
    RunKeeps(topic, fromSeq, replay, steps);
    FallsWithNumbers(topic, fromSeq, replay, steps);
    LiveChecksArePassed(topic, fromSeq, replay, steps);
    NumbersMatch(s, s.sent);
  }

  lemma NothingLowers(topic: Topic, fromSeq: int, replay: seq<BusEvent>)
    ensures NonDecreasing([]) && NoStepLowers(topic, fromSeq, replay, [])
  {
  }

  /** Checks may end out of order: live numbers can go backwards, and `lastSeq` with them. */
  lemma LiveOrderCanReverse()
    ensures var t, five, six := Topic("o", "x"), BusEvent("o", "x", Some(5), true), BusEvent("o", "x", Some(6), true);
            var s := Run(t, 0, [], [Register, Publish(five), Publish(six), CheckEnds(1, true), CheckEnds(0, true)]);
            s.lastSeq == 5 && s.sent == [Live(six, 1, 1), Live(five, 0, 0)]
  {
    var t, five, six := Topic("o", "x"), BusEvent("o", "x", Some(5), true), BusEvent("o", "x", Some(6), true);
    var all := [Register, Publish(five), Publish(six), CheckEnds(1, true), CheckEnds(0, true)];
    var s0 := Run(t, 0, [], []);
    assert all[..4][..3] == all[..3] && all[..3][..2] == all[..2] && all[..2][..1] == all[..1] && all[..1][..0] == [];
    var s1 := Take(t, s0, Register);
    assert Run(t, 0, [], all[..1]) == s1;
    var s2 := Take(t, s1, Publish(five));
    assert Run(t, 0, [], all[..2]) == s2;
    var s3 := Take(t, s2, Publish(six));
    assert Run(t, 0, [], all[..3]) == s3;
    var s4 := Take(t, s3, CheckEnds(1, true));
    assert Run(t, 0, [], all[..4]) == s4;
  }

  // ---------- the listener itself ----------

  class Subscription {
    const topic: Topic
    var lastSeq: int
    var active: bool
    var listening: bool
    var sent: seq<Sent>
    var registered: bool
    var floor: int
    var published: seq<BusEvent>
    var publishedAt: seq<nat>
    var checks: seq<ReadCheck>
    var clock: nat

    function State(): Session
      reads this
    {
      Session(lastSeq, active, listening, registered, floor, published, publishedAt, checks, sent, clock)
    }

    /** The replay loop of the subscribe branch. */
    constructor (topic: Topic, fromSeq: int, replay: seq<BusEvent>)
      ensures this.topic == topic && State() == AfterReplay(fromSeq, replay)
    {
      this.topic := topic;
      lastSeq, active, listening, registered, floor := fromSeq, false, false, false, 0;
      published, publishedAt, checks, sent, clock := [], [], [], [], 0;
      new;
      var i := 0;
      while i < |replay|
        invariant 0 <= i <= |replay|
        invariant State() == AfterReplay(fromSeq, replay[..i])
      {
        var e := replay[i];
        if e.deliverable {
          sent := sent + [Replayed(e)];
          if e.streamSeq.Some? && e.streamSeq.value > lastSeq {
            lastSeq := e.streamSeq.value;
          }
        }
        assert replay[..i + 1][..i] == replay[..i];
        i := i + 1;
      }
      assert replay[..i] == replay;
    }

    method OnRegister()
      modifies this
      ensures State() == Take(topic, old(State()), Register)
    {
      if !registered {
        registered, listening, active, floor, clock := true, true, true, lastSeq, clock + 1;
      }
    }

    /** The synchronous part of the listener: start a read check, or ignore the event. */
    method OnEvent(e: BusEvent)
      modifies this
      ensures State() == Take(topic, old(State()), Publish(e))
    {
      var wanted := listening && active && e.deliverable && e.streamId == topic.streamId && e.orgId == topic.orgId;
      if wanted && e.streamSeq.Some? && e.streamSeq.value <= lastSeq {
        wanted := false;
      }
      if wanted {
        checks := checks + [ReadCheck(|published|, clock, None)];
      }
      published, publishedAt, clock := published + [e], publishedAt + [clock], clock + 1;
    }

    /** The rest of the listener, once its read check has ended. */
    method OnCheckEnds(check: nat, passed: bool)
      modifies this
      ensures State() == Take(topic, old(State()), CheckEnds(check, passed))
    {
      if !Ends(State(), check) {
        return;
      }
      var c := checks[check];
      var e := published[c.publication];
      checks := checks[check := c.(passed := Some(passed))];
      clock := clock + 1;
      if !passed {
        active, listening := false, false;
        return;
      }
      if e.streamSeq.Some? {
        lastSeq := e.streamSeq.value;
      }
      sent := sent + [Live(e, c.publication, check)];
    }

    method OnUnsubscribe()
      modifies this
      ensures State() == Take(topic, old(State()), Step.Unsubscribe)
    {
      listening, clock := false, clock + 1;
    }
  }
}
