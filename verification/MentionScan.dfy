// Scanning a text for mentions: the two passes of `parseMentions` and what their result promises.

module MentionScan {
  import opened Prelude
  import opened MemoryText
  import opened Mentions

  // ---------- occurrences of a name ----------

  function Label(a: Actor): (r: string)
    ensures r != "" && r[0] == '@'
  {
    "@" + a.displayName
  }

  predicate OccursAt(text: string, name: string, i: nat) {
    i + |name| <= |text| && text[i..i + |name|] == name
  }

  /** `text.indexOf(name, from)` */
  function IndexOf(text: string, name: string, from: nat): (r: Option<nat>)
    ensures r.Some? ==> from <= r.value && OccursAt(text, name, r.value) && forall k :: from <= k < r.value ==> !OccursAt(text, name, k)
    ensures r.None? ==> forall k :: from <= k ==> !OccursAt(text, name, k)
    decreases |text| - from
  {
    if from + |name| > |text| then None
    else if OccursAt(text, name, from) then Some(from)
    else IndexOf(text, name, from + 1)
  }

  /** The occurrences the scan looks at: it goes on behind the last one. */
  function Hits(text: string, name: string, from: nat): seq<nat>
    requires name != ""
    decreases |text| - from
  {
    match IndexOf(text, name, from)
    case None => []
    case Some(i) => if i + |name| > |text| then [] else [i] + Hits(text, name, i + |name|)
  }

  /** What may come before a mention. */
  predicate Opener(c: char) {
    IsSpace(c) || c in "([{\"'`"
  }

  predicate OpensAt(text: string, i: nat) {
    i == 0 || (i <= |text| && Opener(text[i - 1]))
  }

  predicate ClosesAt(text: string, i: nat) {
    i >= |text| || IsSpace(text[i]) || text[i] in ".,!?;:)]}"
  }

  /** An occurrence on boundaries. */
  predicate Stands(text: string, name: string, i: nat) {
    OccursAt(text, name, i) && OpensAt(text, i) && ClosesAt(text, i + |name|)
  }

  /** Shifted by `p` the name falls on itself, and what comes before could open a mention. */
  predicate FallsOnItself(name: string, p: nat) {
    0 < p < |name| && name[p..] == name[..|name| - p] && Opener(name[p - 1])
  }

  ghost predicate SelfOverlapping(name: string) {
    exists p: nat :: FallsOnItself(name, p)
  }

  /** Two occurrences that share a character make the name fall on itself. */
  lemma OverlapFallsOnItself(text: string, name: string, k: nat, i: nat)
    requires OccursAt(text, name, k) && OccursAt(text, name, i) && OpensAt(text, i) && k < i < k + |name|
    ensures FallsOnItself(name, i - k)
  {
    var p := i - k;
    forall j | 0 <= j < |name| - p
      ensures name[p..][j] == name[j]
    {
      assert text[k..k + |name|][p + j] == text[i + j] == text[i..i + |name|][j];
    }
    assert name[p - 1] == text[k..k + |name|][p - 1] == text[i - 1];
  }

  lemma {:induction false} StandingIsHit(text: string, name: string, from: nat, i: nat)
    requires name != "" && !SelfOverlapping(name) && from <= i && Stands(text, name, i)
    ensures i in Hits(text, name, from)
    decreases |text| - from
  {
    hide OccursAt, IndexOf, FallsOnItself, OpensAt, ClosesAt;
    var k := IndexOf(text, name, from).value;
    assert k + |name| <= |text| by { OccurrenceFits(text, name, k); }
    if i != k {
      if i < k + |name| {
        OverlapFallsOnItself(text, name, k, i);
      }
      StandingIsHit(text, name, k + |name|, i);
    }
  }

  lemma OccurrenceFits(text: string, name: string, i: nat)
    requires OccursAt(text, name, i)
    ensures i + |name| <= |text|
  {
  }

  /** A text in which an occurrence that does not stand on boundaries hides one that does. */
  function HidingText(name: string, p: nat): string
    requires p <= |name|
  {
    "q" + name[..p] + name
  }

  lemma HiddenOccurrence(name: string, p: nat)
    requires FallsOnItself(name, p) && name[0] == '@'
    ensures var text := HidingText(name, p);
            Stands(text, name, 1 + p) && OccursAt(text, name, 1) && !OccursAt(text, name, 0)
  {
    var text := HidingText(name, p);
    assert text[1 + p..1 + p + |name|] == name;
    assert text[1 + p - 1] == name[p - 1];
    assert text[1..1 + |name|] == name[..p] + name[..|name| - p] == name[..p] + name[p..] == name;
    assert text[0..|name|][0] == 'q';
  }

  lemma HiddenHits(name: string, p: nat)
    requires FallsOnItself(name, p) && name[0] == '@'
    ensures Hits(HidingText(name, p), name, 0) == [1]
  {
    HiddenOccurrence(name, p);
    var text := HidingText(name, p);
    hide OccursAt, FallsOnItself, OpensAt, ClosesAt;
    assert IndexOf(text, name, 0) == Some(1);
    assert IndexOf(text, name, 1 + |name|) == None && Hits(text, name, 1 + |name|) == [];
    assert Hits(text, name, 0) == [1] + Hits(text, name, 1 + |name|);
  }

  /** Main result: the scan looks at every occurrence on boundaries, in every text, exactly if the name does not fall on itself. */
  lemma EveryStandingHitIff(name: string)
    requires name != "" && name[0] == '@'
    ensures (forall text, i: nat :: Stands(text, name, i) ==> i in Hits(text, name, 0)) <==> !SelfOverlapping(name)
  {
    hide Hits, Stands, FallsOnItself, HidingText;
    if SelfOverlapping(name) {
      var p: nat :| FallsOnItself(name, p);
      FallsInside(name, p);
      HiddenOccurrence(name, p);
      HiddenHits(name, p);
      assert 1 + p !in Hits(HidingText(name, p), name, 0);
    } else {
      forall text, i: nat | Stands(text, name, i)
        ensures i in Hits(text, name, 0)
      {
        StandingIsHit(text, name, 0, i);
      }
    }
  }

  lemma FallsInside(name: string, p: nat)
    requires FallsOnItself(name, p)
    ensures 0 < p < |name|
  {
  }

  /** A name without an `@` of its own never does. */
  lemma PlainNameStandsApart(a: Actor)
    requires '@' !in a.displayName
    ensures !SelfOverlapping(Label(a))
  {
    var name := Label(a);
    forall p: nat
      ensures !FallsOnItself(name, p)
    {
      if 0 < p < |name| {
        assert name[p] == a.displayName[p - 1];
        SecondStart(name, p);
      }
    }
  }

  lemma SecondStart(name: string, p: nat)
    requires 0 < p < |name|
    ensures FallsOnItself(name, p) ==> name[p] == name[0]
  {
    if FallsOnItself(name, p) {
      assert name[p..][0] == name[..|name| - p][0];
    }
  }

  // ---------- claimed positions ----------

  predicate Overlaps(m: Mention, start: nat, end: nat) {
    m.start < end && start < m.end
  }

  predicate Apart(m: Mention, n: Mention) {
    m.end <= n.start || n.end <= m.start
  }

  predicate Fits(text: string, m: Mention) {
    m.start < m.end <= |text| && m.found == text[m.start..m.end] && text[m.start] == '@'
  }

  predicate Claimed(out: seq<Mention>, i: nat) {
    exists m :: m in out && m.start <= i < m.end
  }

  /** Mentions are spans of the text, pairwise apart, and exactly their positions are claimed. */
  ghost predicate Sound(text: string, out: seq<Mention>, claimed: set<nat>) {
    && (forall m :: m in out ==> Fits(text, m))
    && (forall i, j :: 0 <= i < j < |out| ==> Apart(out[i], out[j]))
    && (forall p :: p in claimed <==> Claimed(out, p))
  }

  method RangeOverlapsClaimed(claimed: set<nat>, start: nat, end: nat) returns (b: bool)
    ensures b <==> exists i: nat :: start <= i < end && i in claimed
  {
    var i := start;
    while i < end
      invariant start <= end ==> start <= i <= end
      invariant forall k: nat :: start <= k < i ==> k !in claimed
    {
      if i in claimed {
        return true;
      }
      i := i + 1;
    }
    return false;
  }

  method MarkClaimed(claimed: set<nat>, start: nat, end: nat) returns (r: set<nat>)
    ensures forall p: nat :: p in r <==> p in claimed || start <= p < end
  {
    r := claimed;
    var i := start;
    while i < end
      invariant start <= end ==> start <= i <= end
      invariant forall p: nat :: p in r <==> p in claimed || (start <= p < i && p < end)
    {
      r := r + {i};
      i := i + 1;
    }
  }

  lemma FreeMeansApart(text: string, out: seq<Mention>, claimed: set<nat>, start: nat, end: nat)
    requires Sound(text, out, claimed) && start < end
    ensures (exists i: nat :: start <= i < end && i in claimed) <==> exists m :: m in out && Overlaps(m, start, end)
  {
    if exists m :: m in out && Overlaps(m, start, end) {
      var m :| m in out && Overlaps(m, start, end);
      var i := if m.start <= start then start else m.start;
      assert m.start <= i < m.end && Claimed(out, i);
    }
  }

  lemma OneMore(text: string, out: seq<Mention>, claimed: set<nat>, claimed': set<nat>, m: Mention)
    requires Sound(text, out, claimed) && Fits(text, m) && forall x :: x in out ==> !Overlaps(x, m.start, m.end)
    requires forall p: nat :: p in claimed' <==> p in claimed || m.start <= p < m.end
    ensures Sound(text, out + [m], claimed')
  {
    var out' := out + [m];
    assert out'[|out|] == m;
    forall p: nat
      ensures p in claimed' <==> Claimed(out', p)
    {
      if Claimed(out, p) {
        var x :| x in out && x.start <= p < x.end;
        assert x in out';
      }
    }
    forall i, j | 0 <= i < j < |out'|
      ensures Apart(out'[i], out'[j])
    {
      assert i < |out| && out'[i] == out[i] && out[i] in out;
    }
  }

  // ---------- first pass: display names ----------

  /** A mention of the actor's full name, on boundaries, at an occurrence the scan looks at. */
  predicate IsName(text: string, a: Actor, m: Mention) {
    && m.start in Hits(text, Label(a), 0)
    && m.actorId == a.actorId && m.found == Label(a) && m.end == m.start + |Label(a)|
    && OpensAt(text, m.start) && ClosesAt(text, m.end)
  }

  /** Something at least as long was found there. */
  predicate Covered(out: seq<Mention>, start: nat, end: nat) {
    exists m :: m in out && Overlaps(m, start, end) && m.end - m.start >= end - start
  }

  predicate AtLeast(out: seq<Mention>, n: nat) {
    forall m :: m in out ==> m.end - m.start >= n
  }

  ghost predicate AllCovered(text: string, name: string, hits: seq<nat>, out: seq<Mention>) {
    forall i :: i in hits && Stands(text, name, i) ==> Covered(out, i, i + |name|)
  }

  lemma CoverageGrows(text: string, name: string, hits: seq<nat>, out: seq<Mention>, more: seq<Mention>, i: nat)
    requires AllCovered(text, name, hits, out) && out <= more && (Stands(text, name, i) ==> Covered(more, i, i + |name|))
    ensures AllCovered(text, name, hits + [i], more)
  {
    forall k | k in hits && Stands(text, name, k)
      ensures Covered(more, k, k + |name|)
    {
      var m :| m in out && Overlaps(m, k, k + |name|) && m.end - m.start >= |name|;
      assert m in more;
    }
  }

  /** The mentions after the first `n` are of the actor's name. */
  ghost predicate NamesFrom(text: string, a: Actor, out: seq<Mention>, n: nat) {
    forall i :: n <= i < |out| ==> IsName(text, a, out[i])
  }

  lemma NothingHit(text: string, name: string, out: seq<Mention>)
    requires name != ""
    ensures AllCovered(text, name, [], out) && Hits(text, name, 0) == [] + Hits(text, name, 0)
  {
  }

  lemma HitsStep(text: string, name: string, from: nat, done: seq<nat>)
    requires name != ""
    ensures IndexOf(text, name, from).None? ==> Hits(text, name, from) == [] && done + Hits(text, name, from) == done
    ensures IndexOf(text, name, from).Some? ==>
              var i := IndexOf(text, name, from).value;
              && OccursAt(text, name, i) && from <= i && i + |name| <= |text|
              && done + Hits(text, name, from) == (done + [i]) + Hits(text, name, i + |name|)
  {
    hide OccursAt;
    var found := IndexOf(text, name, from);
    if found.Some? { OccurrenceFits(text, name, found.value); }
  }

  method ScanName(text: string, a: Actor, before: seq<Mention>, claimedBefore: set<nat>) returns (out: seq<Mention>, claimed: set<nat>)
    requires Sound(text, before, claimedBefore) && AtLeast(before, |Label(a)|)
    ensures Sound(text, out, claimed) && before <= out && AtLeast(out, |Label(a)|)
    ensures NamesFrom(text, a, out, |before|)
    ensures AllCovered(text, Label(a), Hits(text, Label(a), 0), out)
  {
    hide Sound, AtLeast, Stands, Covered, OccursAt, Label, IsName, Hits, IndexOf, AllCovered;
    var name := Label(a);
    NothingHit(text, name, before);
    out, claimed := before, claimedBefore;
    var from := 0;
    ghost var done: seq<nat> := [];
    while true
      invariant Sound(text, out, claimed) && before <= out && AtLeast(out, |name|)
      invariant NamesFrom(text, a, out, |before|)
      invariant Hits(text, name, 0) == done + Hits(text, name, from)
      invariant AllCovered(text, name, done, out)
      decreases |text| - from
    {
      var found := IndexOf(text, name, from);
      HitsStep(text, name, from, done);
      if found == None {
        return;
      }
      var i := found.value;
      assert Hits(text, name, 0)[|done|] == i;
      ghost var soFar := out;
      out, claimed := Consider(text, a, i, out, claimed);
      CoverageGrows(text, name, done, soFar, out, i);
      done := done + [i];
      from := i + |name|;
    }
  }

  /** One occurrence of a name: taken if it stands on boundaries and nothing there is claimed. */
  method Consider(text: string, a: Actor, i: nat, before: seq<Mention>, claimedBefore: set<nat>)
    returns (out: seq<Mention>, claimed: set<nat>)
    requires Sound(text, before, claimedBefore) && AtLeast(before, |Label(a)|)
    requires OccursAt(text, Label(a), i) && i in Hits(text, Label(a), 0)
    ensures Sound(text, out, claimed) && before <= out && AtLeast(out, |Label(a)|)
    ensures out == before || (|out| == |before| + 1 && IsName(text, a, out[|before|]))
    ensures Stands(text, Label(a), i) ==> Covered(out, i, i + |Label(a)|)
  {
    var name := Label(a);
    out, claimed := before, claimedBefore;
    var end := i + |name|;
    if !OpensAt(text, i) || !ClosesAt(text, end) {
      return;
    }
    var overlaps := RangeOverlapsClaimed(claimed, i, end);
    FreeMeansApart(text, out, claimed, i, end);
    if !overlaps {
      var m := Mention(a.actorId, name, i, end);
      var marked := MarkClaimed(claimed, i, end);
      assert text[i] == text[i..end][0];
      OneMore(text, out, claimed, marked, m);
      out, claimed := out + [m], marked;
      assert out[|before|] == m;
    }
  }

  predicate LongestFirst(actors: seq<Actor>) {
    forall i, j :: 0 <= i < j < |actors| ==> |actors[i].displayName| >= |actors[j].displayName|
  }

  predicate NoneLonger(actors: seq<Actor>, n: nat) {
    forall a :: a in actors ==> |a.displayName| <= n
  }

  /** Stable insertion, behind everything that is at least as long. */
  function InsertActor(a: Actor, sorted: seq<Actor>): (r: seq<Actor>)
    ensures forall x :: x in r <==> x == a || x in sorted
  {
    if sorted == [] || |sorted[0].displayName| < |a.displayName| then [a] + sorted
    else [sorted[0]] + InsertActor(a, sorted[1..])
  }

  /** `[...actors].sort((a, b) => b.displayName.length - a.displayName.length)` */
  function SortActors(actors: seq<Actor>): (r: seq<Actor>)
    ensures forall x :: x in r <==> x in actors
  {
    if actors == [] then [] else InsertActor(actors[|actors| - 1], SortActors(actors[..|actors| - 1]))
  }

  lemma LongestFirstCons(a: Actor, rest: seq<Actor>)
    requires LongestFirst(rest) && NoneLonger(rest, |a.displayName|)
    ensures LongestFirst([a] + rest)
  {
    assert forall i :: 0 <= i < |rest| ==> rest[i] in rest;
  }

  lemma NoneIsLongest()
    ensures LongestFirst([])
  {
  }

  lemma LongestFirstHead(sorted: seq<Actor>)
    requires LongestFirst(sorted) && sorted != []
    ensures LongestFirst(sorted[1..]) && NoneLonger(sorted[1..], |sorted[0].displayName|) && NoneLonger(sorted, |sorted[0].displayName|)
  {
  }

  lemma {:induction false} InsertKeepsOrder(a: Actor, sorted: seq<Actor>)
    requires LongestFirst(sorted)
    ensures LongestFirst(InsertActor(a, sorted))
  {
    hide LongestFirst;
    if sorted == [] {
      NoneIsLongest();
      LongestFirstCons(a, []);
    } else {
      LongestFirstHead(sorted);
      if |sorted[0].displayName| < |a.displayName| {
        LongestFirstCons(a, sorted);
      } else {
        InsertKeepsOrder(a, sorted[1..]);
        LongestFirstCons(sorted[0], InsertActor(a, sorted[1..]));
      }
    }
  }

  lemma {:induction false} SortActorsSorts(actors: seq<Actor>)
    ensures LongestFirst(SortActors(actors))
  {
    if actors != [] {
      SortActorsSorts(actors[..|actors| - 1]);
      InsertKeepsOrder(actors[|actors| - 1], SortActors(actors[..|actors| - 1]));
    }
  }

  ghost predicate Named(text: string, actors: seq<Actor>, m: Mention) {
    exists a :: a in actors && IsName(text, a, m)
  }

  ghost predicate AllNamed(text: string, actors: seq<Actor>, out: seq<Mention>) {
    forall m :: m in out ==> Named(text, actors, m)
  }

  ghost predicate HitsCovered(text: string, a: Actor, out: seq<Mention>) {
    AllCovered(text, Label(a), Hits(text, Label(a), 0), out)
  }

  lemma CoverageStays(text: string, a: Actor, out: seq<Mention>, more: seq<Mention>)
    requires HitsCovered(text, a, out) && out <= more
    ensures HitsCovered(text, a, more)
  {
    hide Stands, OccursAt, Hits, Label;
    forall k | k in Hits(text, Label(a), 0) && Stands(text, Label(a), k)
      ensures Covered(more, k, k + |Label(a)|)
    {
      var m :| m in out && Overlaps(m, k, k + |Label(a)|) && m.end - m.start >= |Label(a)|;
      assert m in more;
    }
  }

  lemma NamesAreNamed(text: string, actors: seq<Actor>, a: Actor, before: seq<Mention>, out: seq<Mention>)
    requires AllNamed(text, actors, before) && before <= out && NamesFrom(text, a, out, |before|) && a in actors
    ensures AllNamed(text, actors, out)
  {
    hide IsName;
    forall m | m in out
      ensures Named(text, actors, m)
    {
      var i :| 0 <= i < |out| && out[i] == m;
      if i < |before| { assert before[i] in before; }
    }
  }

  /** Pass one: every actor's full name, longest names first. */
  method FirstPass(text: string, actors: seq<Actor>) returns (out: seq<Mention>, claimed: set<nat>)
    ensures Sound(text, out, claimed) && AllNamed(text, actors, out)
    ensures forall a :: a in actors ==> HitsCovered(text, a, out)
  {
    hide Sound, HitsCovered, NamesFrom, AllNamed, Label, SortActors;
    var sorted := SortActors(actors);
    SortActorsSorts(actors);
    out, claimed := [], {};
    NothingIsSound(text, actors);
    var i := 0;
    while i < |sorted|
      invariant 0 <= i <= |sorted|
      invariant Sound(text, out, claimed) && AllNamed(text, actors, out)
      invariant i < |sorted| ==> AtLeast(out, |Label(sorted[i])|)
      invariant forall j :: 0 <= j < i ==> HitsCovered(text, sorted[j], out)
    {
      ghost var before := out;
      out, claimed := ScanName(text, sorted[i], out, claimed);
      assert sorted[i] in sorted;
      NamesAreNamed(text, actors, sorted[i], before, out);
      assert HitsCovered(text, sorted[i], out) by { CoveredIsHitsCovered(text, sorted[i], out); }
      forall j | 0 <= j < i
        ensures HitsCovered(text, sorted[j], out)
      {
        CoverageStays(text, sorted[j], before, out);
      }
      if i + 1 < |sorted| { ShorterLabel(sorted[i], sorted[i + 1]); }
      i := i + 1;
    }
  }

  lemma NothingIsSound(text: string, actors: seq<Actor>)
    ensures Sound(text, [], {}) && AllNamed(text, actors, [])
  {
  }

  lemma CoveredIsHitsCovered(text: string, a: Actor, out: seq<Mention>)
    requires AllCovered(text, Label(a), Hits(text, Label(a), 0), out)
    ensures HitsCovered(text, a, out)
  {
  }

  lemma ShorterLabel(a: Actor, b: Actor)
    requires |a.displayName| >= |b.displayName|
    ensures |Label(a)| >= |Label(b)|
  {
  }

  // ---------- second pass: aliases ----------

  predicate TokenChar(c: char) {
    'a' <= c <= 'z' || 'A' <= c <= 'Z' || '0' <= c <= '9' || c == '_' || c == '.' || c == '-'
  }

  /** `(^|\s)@` followed by at least one token character. */
  predicate TokenAt(text: string, i: nat) {
    i + 1 < |text| && text[i] == '@' && (i == 0 || IsSpace(text[i - 1])) && TokenChar(text[i + 1])
  }

  function TokenEnd(text: string, i: nat): (r: nat)
    requires i <= |text|
    ensures i <= r <= |text| && (forall k :: i <= k < r ==> TokenChar(text[k])) && (r < |text| ==> !TokenChar(text[r]))
    decreases |text| - i
  {
    if i < |text| && TokenChar(text[i]) then TokenEnd(text, i + 1) else i
  }

  function LowerAscii(s: string): (r: string)
    ensures |r| == |s|
  {
    seq(|s|, i requires 0 <= i < |s| => if 'A' <= s[i] <= 'Z' then s[i] - 'A' + 'a' else s[i])
  }

  function Token(text: string, i: nat): string
    requires TokenAt(text, i)
  {
    LowerAscii(text[i + 1..TokenEnd(text, i + 1)])
  }

  /** A mention of the only actor known by the token it spans. */
  ghost predicate IsToken(lower: string -> string, text: string, actors: seq<Actor>, m: Mention) {
    && TokenAt(text, m.start) && m.end == TokenEnd(text, m.start + 1) && m.actorId != ""
    && OnlyActor(lower, actors, Token(text, m.start), m.actorId)
  }

  /** A token that names a single actor overlaps some mention. */
  ghost predicate TokenCovered(lower: string -> string, text: string, actors: seq<Actor>, out: seq<Mention>, i: nat)
    requires TokenAt(text, i)
  {
    (exists id :: id != "" && OnlyActor(lower, actors, Token(text, i), id)) ==>
      exists m :: m in out && Overlaps(m, i, TokenEnd(text, i + 1))
  }

  /** A mention is a full name on boundaries or an unambiguous token. */
  ghost predicate Explained(lower: string -> string, text: string, actors: seq<Actor>, m: Mention) {
    Named(text, actors, m) || IsToken(lower, text, actors, m)
  }

  method ConsiderToken(lower: string -> string, text: string, actors: seq<Actor>, aliases: seq<Alias>, i: nat,
                       before: seq<Mention>, claimedBefore: set<nat>)
    returns (out: seq<Mention>, claimed: set<nat>)
    requires ListsAliases(lower, actors, aliases) && Sound(text, before, claimedBefore) && TokenAt(text, i)
    ensures Sound(text, out, claimed) && before <= out
    ensures out == before || (|out| == |before| + 1 && IsToken(lower, text, actors, out[|before|]))
    ensures TokenCovered(lower, text, actors, out, i)
  {
    hide OnlyActor, ListsAliases;
    out, claimed := before, claimedBefore;
    var end := TokenEnd(text, i + 1);
    assert end > i + 1;
    var overlaps := RangeOverlapsClaimed(claimed, i, end);
    FreeMeansApart(text, out, claimed, i, end);
    if overlaps {
      return;
    }
    var actorId := ResolveMentionToken(Token(text, i), aliases, lower, actors);
    if actorId == None || actorId.value == "" {
      OnlyOneActor(lower, actors, Token(text, i));
      return;
    }
    var m := Mention(actorId.value, text[i..end], i, end);
    var marked := MarkClaimed(claimed, i, end);
    OneMore(text, out, claimed, marked, m);
    out, claimed := out + [m], marked;
    assert out[|before|] == m && m in out && Overlaps(m, i, TokenEnd(text, i + 1));
  }

  lemma OnlyOneActor(lower: string -> string, actors: seq<Actor>, token: string)
    ensures forall a, b :: OnlyActor(lower, actors, token, a) && OnlyActor(lower, actors, token, b) ==> a == b
  {
    hide AliasesOf;
    forall a, b | OnlyActor(lower, actors, token, a) && OnlyActor(lower, actors, token, b)
      ensures a == b
    {
      assert KnownAs(lower, actors, a, token);
      var i :| 0 <= i < |actors| && actors[i].actorId == a && token in AliasesOf(lower, actors[i].displayName);
    }
  }

  method SecondPass(lower: string -> string, text: string, actors: seq<Actor>, aliases: seq<Alias>,
                    before: seq<Mention>, claimedBefore: set<nat>)
    returns (out: seq<Mention>, claimed: set<nat>)
    requires ListsAliases(lower, actors, aliases) && Sound(text, before, claimedBefore)
    ensures Sound(text, out, claimed) && before <= out
    ensures forall k :: |before| <= k < |out| ==> IsToken(lower, text, actors, out[k])
    ensures forall i :: TokenAt(text, i) ==> TokenCovered(lower, text, actors, out, i)
  {
    hide ListsAliases, Sound, IsToken, TokenCovered;
    out, claimed := before, claimedBefore;
    var i := 0;
    while i < |text|
      invariant 0 <= i
      invariant Sound(text, out, claimed) && before <= out
      invariant forall k :: |before| <= k < |out| ==> IsToken(lower, text, actors, out[k])
      invariant forall k :: 0 <= k < i && TokenAt(text, k) ==> TokenCovered(lower, text, actors, out, k)
      decreases |text| - i
    {
      if TokenAt(text, i) {
        ghost var soFar := out;
        out, claimed := ConsiderToken(lower, text, actors, aliases, i, out, claimed);
        forall k | 0 <= k < i && TokenAt(text, k)
          ensures TokenCovered(lower, text, actors, out, k)
        {
          TokenStaysCovered(lower, text, actors, soFar, out, k);
        }
        NoTokenInside(text, i);
        i := TokenEnd(text, i + 1);
      } else {
        i := i + 1;
      }
    }
  }

  lemma TokenStaysCovered(lower: string -> string, text: string, actors: seq<Actor>, out: seq<Mention>, more: seq<Mention>, i: nat)
    requires TokenAt(text, i) && TokenCovered(lower, text, actors, out, i) && out <= more
    ensures TokenCovered(lower, text, actors, more, i)
  {
    hide OnlyActor;
    if exists m :: m in out && Overlaps(m, i, TokenEnd(text, i + 1)) {
      var m :| m in out && Overlaps(m, i, TokenEnd(text, i + 1));
      assert m in more;
    }
  }

  /** Tokens contain neither white space nor `@`, so none begins inside another. */
  lemma NoTokenInside(text: string, i: nat)
    requires TokenAt(text, i)
    ensures forall k :: i < k < TokenEnd(text, i + 1) ==> !TokenAt(text, k)
  {
  }

  // ---------- the result, in order ----------

  predicate Ordered(out: seq<Mention>) {
    forall i, j :: 0 <= i < j < |out| ==> out[i].end <= out[j].start
  }

  function InsertMention(m: Mention, sorted: seq<Mention>): (r: seq<Mention>)
    ensures forall x :: x in r <==> x == m || x in sorted
  {
    if sorted == [] || m.start < sorted[0].start then [m] + sorted else [sorted[0]] + InsertMention(m, sorted[1..])
  }

  /** `out.sort((a, b) => a.start - b.start)` */
  function SortMentions(out: seq<Mention>): (r: seq<Mention>)
    ensures forall x :: x in r <==> x in out
  {
    if out == [] then [] else InsertMention(out[|out| - 1], SortMentions(out[..|out| - 1]))
  }

  predicate AllAfter(m: Mention, rest: seq<Mention>) {
    forall x :: x in rest ==> m.end <= x.start
  }

  lemma OrderedCons(m: Mention, rest: seq<Mention>)
    requires Ordered(rest) && AllAfter(m, rest)
    ensures Ordered([m] + rest)
  {
    assert forall i :: 0 <= i < |rest| ==> rest[i] in rest;
  }

  lemma OrderedHead(sorted: seq<Mention>)
    requires Ordered(sorted) && sorted != []
    ensures Ordered(sorted[1..]) && AllAfter(sorted[0], sorted[1..])
  {
  }

  lemma {:induction false} InsertOrders(m: Mention, sorted: seq<Mention>)
    requires Ordered(sorted) && m.start < m.end && (forall x :: x in sorted ==> Apart(m, x) && x.start < x.end)
    ensures Ordered(InsertMention(m, sorted))
  {
    hide Ordered;
    if sorted == [] {
      EmptyOrdered();
      OrderedCons(m, []);
    } else {
      OrderedHead(sorted);
      var head, rest := sorted[0], sorted[1..];
      if m.start < head.start {
        assert m.end <= head.start;
        OrderedCons(m, sorted);
      } else {
        assert head.end <= m.start;
        InsertOrders(m, rest);
        OrderedCons(head, InsertMention(m, rest));
      }
    }
  }

  lemma EmptyOrdered()
    ensures Ordered([])
  {
  }

  lemma {:induction false} SortOrders(out: seq<Mention>)
    requires forall i, j :: 0 <= i < j < |out| ==> Apart(out[i], out[j])
    requires forall x :: x in out ==> x.start < x.end
    ensures Ordered(SortMentions(out))
  {
    if out != [] {
      var front, last := out[..|out| - 1], out[|out| - 1];
      SortOrders(front);
      InsertOrders(last, SortMentions(front));
    }
  }

  /**
   * Main result: the mentions are in order, disjoint, spans of the text that begin with `@`; each is an
   * actor's full name on boundaries or a token that only one actor is known by; every full name on
   * boundaries, unless it falls on itself, overlaps a mention at least as long; and every unambiguous
   * token overlaps some mention.
   */
  method ParseMentions(lower: string -> string, text: string, actors: seq<Actor>) returns (mentions: seq<Mention>)
    ensures Ordered(mentions)
    ensures forall m :: m in mentions ==> Fits(text, m) && Explained(lower, text, actors, m)
    ensures forall a, i: nat :: a in actors && !SelfOverlapping(Label(a)) && Stands(text, Label(a), i) ==>
                                  Covered(mentions, i, i + |Label(a)|)
    ensures forall i :: TokenAt(text, i) ==> TokenCovered(lower, text, actors, mentions, i)
  {
    var first, claimedFirst := FirstPass(text, actors);
    var aliases := BuildMentionAliases(lower, actors);
    var out, claimed := SecondPass(lower, text, actors, aliases, first, claimedFirst);
    mentions := SortMentions(out);
    assert Sound(text, out, claimed);
    SortOrders(out);
    hide ListsAliases, OnlyActor, Hits, Label, IsName, IsToken, OccursAt, SortMentions, Ordered;
    forall m | m in mentions
      ensures Fits(text, m) && Explained(lower, text, actors, m)
    {
      var k :| 0 <= k < |out| && out[k] == m;
      if k < |first| { assert first[k] in first; }
    }
    forall a, i: nat | a in actors && !SelfOverlapping(Label(a)) && Stands(text, Label(a), i)
      ensures Covered(mentions, i, i + |Label(a)|)
    {
      StandingIsHit(text, Label(a), 0, i);
      CoverageStays(text, a, first, out);
      assert Covered(out, i, i + |Label(a)|);
      var m :| m in out && Overlaps(m, i, i + |Label(a)|) && m.end - m.start >= |Label(a)|;
      assert m in mentions;
    }
    forall i | TokenAt(text, i)
      ensures TokenCovered(lower, text, actors, mentions, i)
    {
      SameMentionsCover(lower, text, actors, out, mentions, i);
    }
  }

  lemma SameMentionsCover(lower: string -> string, text: string, actors: seq<Actor>, out: seq<Mention>, mentions: seq<Mention>, i: nat)
    requires TokenAt(text, i) && TokenCovered(lower, text, actors, out, i) && forall m :: m in out ==> m in mentions
    ensures TokenCovered(lower, text, actors, mentions, i)
  {
    hide OnlyActor;
    if exists m :: m in out && Overlaps(m, i, TokenEnd(text, i + 1)) {
      var m :| m in out && Overlaps(m, i, TokenEnd(text, i + 1));
      assert m in mentions;
    }
  }

  /** A token in the hiding text is shorter than the name: the name's second `@` cuts it off. */
  lemma HiddenTokensAreShort(lower: string -> string, name: string, p: nat, actors: seq<Actor>, m: Mention)
    requires FallsOnItself(name, p) && name[0] == '@' && IsToken(lower, HidingText(name, p), actors, m)
    ensures m.end - m.start < |name|
  {
    hide OnlyActor, Token;
    var text := HidingText(name, p);
    SecondStart(name, p);
    assert text[1 + p] == '@' && text[1 + 2 * p..] == name[p..] && text[1 + 2 * p] == '@';
    assert !TokenChar('@') && m.start != 0 && text[0] == 'q';
    assert m.start != 1;
    assert forall k :: m.start < k < m.end ==> TokenChar(text[k]);
    if m.start < 1 + p {
      assert m.end <= 1 + p;
    } else if m.start == 1 + p {
      assert m.end <= 1 + 2 * p;
    }
  }

  /**
   * A name that falls on itself is lost: in the hiding text, whatever mentions meet the contract of
   * `ParseMentions`, none covers the full name that stands there on boundaries.
   */
  lemma OverlappingNameIsLost(lower: string -> string, a: Actor, p: nat, mentions: seq<Mention>)
    requires FallsOnItself(Label(a), p)
    requires forall m :: m in mentions ==> Explained(lower, HidingText(Label(a), p), [a], m)
    ensures Stands(HidingText(Label(a), p), Label(a), 1 + p)
    ensures !Covered(mentions, 1 + p, 1 + p + |Label(a)|)
  {
    var name := Label(a);
    var text := HidingText(name, p);
    HiddenOccurrence(name, p);
    HiddenHits(name, p);
    assert !OpensAt(text, 1) by { assert text[0] == 'q'; }
    hide IsToken, Hits, Stands, OccursAt, HidingText, FallsOnItself, Label;
    forall m | m in mentions
      ensures m.end - m.start < |name|
    {
      assert !Named(text, [a], m) by {
        assert forall x :: x in [a] ==> !IsName(text, x, m);
      }
      HiddenTokensAreShort(lower, name, p, [a], m);
    }
  }

  /** Such names exist: `x @x` is one. */
  lemma NameWithAtCanBeLost(lower: string -> string, mentions: seq<Mention>)
    requires forall m :: m in mentions ==> Explained(lower, "q@x @x @x", [Actor("1", "x @x")], m)
    ensures Stands("q@x @x @x", "@x @x", 4) && !Covered(mentions, 4, 9)
  {
    var a := Actor("1", "x @x");
    var name := "@x @x";
    assert Label(a) == name;
    assert name[3..] == "@x" == name[..2];
    assert FallsOnItself(name, 3);
    assert HidingText(name, 3) == "q@x @x @x" by { assert name[..3] == "@x "; }
    OverlappingNameIsLost(lower, a, 3, mentions);
  }
}
