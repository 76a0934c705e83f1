// The composer's mention scanner (clients/nextjs/lib/composer-parts.ts): a pass for full display
// names, longest first, and a pass for unambiguous aliases, over a set of claimed positions.

module Mentions {
  import opened Prelude
  import opened MemoryText

  datatype Actor = Actor(actorId: string, displayName: string)

  /** A mention found in a text; `end` is exclusive. */
  datatype Mention = Mention(actorId: string, found: string, start: nat, end: nat)

  datatype Alias = Alias(actorId: string, alias: string)

  // ---------- aliases ----------

  function Hyphenate(s: string): string
    decreases |s|
  {
    if s == "" then ""
    else if IsSpace(s[0]) then "-" + Hyphenate(SkipSpaces(s[1..]))
    else [s[0]] + Hyphenate(s[1..])
  }

  predicate AliasChar(c: char) {
    'a' <= c <= 'z' || '0' <= c <= '9' || c == '_' || c == '.' || c == '-'
  }

  function KeepAliasChars(s: string): (r: string)
    ensures forall i :: 0 <= i < |r| ==> AliasChar(r[i])
  {
    if s == "" then "" else (if AliasChar(s[0]) then [s[0]] else "") + KeepAliasChars(s[1..])
  }

  function NormalizeAlias(lower: string -> string, name: string): (r: string)
    ensures forall i :: 0 <= i < |r| ==> AliasChar(r[i])
  {
    KeepAliasChars(Hyphenate(Trim(lower(name))))
  }

  function Without(s: string, suffix: string): (r: string)
    ensures r <= s
  {
    if |s| >= |suffix| && s[|s| - |suffix|..] == suffix then s[..|s| - |suffix|] else s
  }

  /** The aliases a display name is known by. */
  function AliasesOf(lower: string -> string, name: string): (r: set<string>)
    ensures forall a :: a in r ==> a != "" && forall i :: 0 <= i < |a| ==> AliasChar(a[i])
  {
    var canonical := NormalizeAlias(lower, name);
    {canonical, Without(canonical, "-agent"), Without(canonical, "_agent")} - {""}
  }

  // ---------- what an alias is, word by word ----------

  /** The words with a hyphen between them. */
  function Hyphened(words: seq<string>): string {
    if words == [] then "" else if |words| == 1 then words[0] else words[0] + "-" + Hyphened(words[1..])
  }

  /** Each word without the characters an alias cannot have. */
  function Kept(words: seq<string>): (r: seq<string>)
    ensures |r| == |words| && forall i :: 0 <= i < |words| ==> r[i] == KeepAliasChars(words[i])
  {
    seq(|words|, i requires 0 <= i < |words| => KeepAliasChars(words[i]))
  }

  lemma {:induction false} HyphenatedWords(run: string, s: string)
    requires run == "" && s != "" ==> !IsSpace(s[0])
    requires s != "" ==> !IsSpace(s[|s| - 1])
    ensures run + Hyphenate(s) == Hyphened(WordsAfter(run, s))
    decreases |s|
  {
    hide IsSpace, SkipSpaces, Hyphened;
    if s == "" {
      OneWord(run);
    } else if IsSpace(s[0]) {
      var rest := SkipSpaces(s[1..]);
      LastIsWord(s[1..]);
      HyphenatedWords("", rest);
      GapHyphen(run, s);
      assert "" + Hyphenate(rest) == Hyphenate(rest);
    } else {
      hide Hyphenate, WordsAfter;
      HyphenatedWords(run + [s[0]], s[1..]);
      NextLetter(run, s);
    }
  }

  lemma NextLetter(run: string, s: string)
    requires s != "" && !IsSpace(s[0])
    ensures run + Hyphenate(s) == (run + [s[0]]) + Hyphenate(s[1..]) && WordsAfter(run, s) == WordsAfter(run + [s[0]], s[1..])
  {
  }

  lemma OneWord(run: string)
    ensures run + Hyphenate("") == Hyphened(WordsAfter(run, ""))
  {
    assert run + "" == run;
  }

  /** A gap between two words becomes one hyphen. */
  lemma GapHyphen(run: string, s: string)
    requires run != "" && s != "" && IsSpace(s[0]) && SkipSpaces(s[1..]) != ""
    requires Hyphenate(SkipSpaces(s[1..])) == Hyphened(Words(SkipSpaces(s[1..])))
    ensures run + Hyphenate(s) == Hyphened(WordsAfter(run, s))
  {
    var rest := SkipSpaces(s[1..]);
    SkippedWords(s[1..]);
    assert WordsAfter(run, s) == [run] + Words(rest);
    assert Words(rest) != [] by {
      assert "" + [rest[0]] == [rest[0]];
      StartedWord([rest[0]], rest[1..]);
    }
    hide Words;
    assert ([run] + Words(rest))[1..] == Words(rest);
    assert run + Hyphenate(s) == run + "-" + Hyphenate(rest);
  }

  lemma {:induction false} LastIsWord(s: string)
    requires s != "" && !IsSpace(s[|s| - 1])
    ensures SkipSpaces(s) != "" && SkipSpaces(s)[|SkipSpaces(s)| - 1] == s[|s| - 1]
  {
    if IsSpace(s[0]) { LastIsWord(s[1..]); }
  }

  lemma {:induction false} KeepAppend(a: string, b: string)
    ensures KeepAliasChars(a + b) == KeepAliasChars(a) + KeepAliasChars(b)
  {
    if a == "" {
      assert a + b == b;
    } else {
      assert (a + b)[1..] == a[1..] + b;
      KeepAppend(a[1..], b);
    }
  }

  lemma {:induction false} KeepHyphened(words: seq<string>)
    ensures KeepAliasChars(Hyphened(words)) == Hyphened(Kept(words))
  {
    if |words| == 1 {
      assert Kept(words) == [KeepAliasChars(words[0])];
    } else if |words| > 1 {
      assert Kept(words)[1..] == Kept(words[1..]);
      KeepHyphened(words[1..]);
      KeepAppend(words[0] + "-", Hyphened(words[1..]));
      KeepAppend(words[0], "-");
      assert KeepAliasChars("-") == "-" + KeepAliasChars("");
    }
  }

  /** Main result: an actor is known by the words of the lower-cased name, each stripped, with hyphens between. */
  lemma AliasIsItsWords(lower: string -> string, name: string)
    ensures NormalizeAlias(lower, name) == Hyphened(Kept(Words(lower(name))))
  {
    var s := lower(name);
    SkippedWords(s);
    TrimmedWords(SkipSpaces(s));
    SkipIsSuffix(s);
    assert Trim(s) != "" ==> Trim(s)[0] == SkipSpaces(s)[0];
    HyphenatedWords("", Trim(s));
    assert "" + Hyphenate(Trim(s)) == Hyphenate(Trim(s));
    KeepHyphened(Words(s));
  }

  /** Stripping keeps small letters, digits and three signs, in order, and nothing else. */
  lemma KeepOneMore(s: string, c: char)
    ensures KeepAliasChars("") == ""
    ensures KeepAliasChars(s + [c])
            == KeepAliasChars(s) + (if 'a' <= c <= 'z' || '0' <= c <= '9' || c in "_.-" then [c] else "")
  {
    KeepAppend(s, [c]);
    assert [c][1..] == "";
  }

  lemma {:induction false} KeepAll(s: string)
    requires forall i :: 0 <= i < |s| ==> AliasChar(s[i])
    ensures KeepAliasChars(s) == s
  {
    if s != "" { KeepAll(s[1..]); }
  }

  /** A name of plain words is known by them, lower-cased and with hyphens: "Deploy Bot" as deploy-bot. */
  lemma PlainNameIsKnown(lower: string -> string, name: string)
    requires var words := Words(lower(name));
             words != [] && forall w :: w in words ==> w != "" && forall i :: 0 <= i < |w| ==> AliasChar(w[i])
    ensures Hyphened(Words(lower(name))) in AliasesOf(lower, name)
  {
    var words := Words(lower(name));
    AliasIsItsWords(lower, name);
    forall k | 0 <= k < |words|
      ensures Kept(words)[k] == words[k]
    {
      assert words[k] in words;
      KeepAll(words[k]);
    }
    assert Kept(words) == words;
    assert words[0] in words && |Hyphened(words)| >= |words[0]|;
  }

  /** An agent is also known without the ending. */
  lemma AgentsLoseTheirSuffix(lower: string -> string, name: string, base: string)
    requires base != ""
    ensures NormalizeAlias(lower, name) == base + "-agent" ==> AliasesOf(lower, name) == {base + "-agent", base}
    ensures NormalizeAlias(lower, name) == base + "_agent" ==> AliasesOf(lower, name) == {base + "_agent", base}
  {
    var hyphen, underscore := base + "-agent", base + "_agent";
    assert hyphen[|hyphen| - 6..] == "-agent" && hyphen[..|hyphen| - 6] == base;
    assert underscore[|underscore| - 6..] == "_agent" && underscore[..|underscore| - 6] == base;
    assert hyphen[|hyphen| - 6] == '-' && underscore[|underscore| - 6] == '_';
    assert "-agent"[0] == '-' && "_agent"[0] == '_';
  }

  predicate KnownAs(lower: string -> string, actors: seq<Actor>, actorId: string, alias: string) {
    exists i :: 0 <= i < |actors| && actors[i].actorId == actorId && alias in AliasesOf(lower, actors[i].displayName)
  }

  function SeenKey(actorId: string, alias: string): string {
    actorId + ":" + alias
  }

  /** Aliases have no colon, so the key tells actor and alias apart. */
  lemma SeenKeyInjective(a: string, x: string, b: string, y: string)
    requires SeenKey(a, x) == SeenKey(b, y)
    requires (forall i :: 0 <= i < |x| ==> AliasChar(x[i])) && forall i :: 0 <= i < |y| ==> AliasChar(y[i])
    ensures a == b && x == y
  {
    var s := SeenKey(a, x);
    assert s[|a|] == ':' && s[|b|] == ':';
    assert forall i :: |a| < i < |s| ==> s[i] == x[i - |a| - 1];
    assert forall i :: |b| < i < |s| ==> s[i] == y[i - |b| - 1];
    assert a == s[..|a|] && b == s[..|b|] && x == s[|a| + 1..] && y == s[|b| + 1..];
  }

  /** Each known pair once. */
  ghost predicate ListsAliases(lower: string -> string, actors: seq<Actor>, aliases: seq<Alias>) {
    && (forall e :: e in aliases <==> KnownAs(lower, actors, e.actorId, e.alias))
    && AllDifferent(aliases)
  }

  /** The scan's state: the pairs listed so far and their keys. */
  ghost predicate SeenMatches(aliases: seq<Alias>, seen: set<string>) {
    && (forall e :: e in aliases ==> SeenKey(e.actorId, e.alias) in seen && forall i :: 0 <= i < |e.alias| ==> AliasChar(e.alias[i]))
    && (forall k :: k in seen ==> exists e :: e in aliases && SeenKey(e.actorId, e.alias) == k)
    && AllDifferent(aliases)
  }

  method AddAlias(actorId: string, alias: string, aliases: seq<Alias>, seen: set<string>) returns (more: seq<Alias>, keys: set<string>)
    requires alias != "" ==> forall i :: 0 <= i < |alias| ==> AliasChar(alias[i])
    requires SeenMatches(aliases, seen)
    ensures SeenMatches(more, keys)
    ensures forall e :: e in more <==> e in aliases || (alias != "" && e == Alias(actorId, alias))
  {
    var key := SeenKey(actorId, alias);
    if alias == "" {
      return aliases, seen;
    }
    if key in seen {
      var e :| e in aliases && SeenKey(e.actorId, e.alias) == key;
      SeenKeyInjective(e.actorId, e.alias, actorId, alias);
      return aliases, seen;
    }
    more, keys := aliases + [Alias(actorId, alias)], seen + {key};
    assert more[|aliases|] == Alias(actorId, alias);
  }

  /** All aliases of one actor. */
  method AddActor(lower: string -> string, actor: Actor, aliases: seq<Alias>, seen: set<string>) returns (more: seq<Alias>, keys: set<string>)
    requires SeenMatches(aliases, seen)
    ensures SeenMatches(more, keys)
    ensures forall e :: e in more <==> e in aliases || (e.actorId == actor.actorId && e.alias in AliasesOf(lower, actor.displayName))
  {
    hide SeenMatches, Without;
    var canonical := NormalizeAlias(lower, actor.displayName);
    more, keys := aliases, seen;
    if canonical != "" {
      more, keys := AddAlias(actor.actorId, canonical, more, keys);
      more, keys := AddAlias(actor.actorId, Without(canonical, "-agent"), more, keys);
      more, keys := AddAlias(actor.actorId, Without(canonical, "_agent"), more, keys);
    } else {
      assert Without(canonical, "-agent") == "" && Without(canonical, "_agent") == "";
    }
  }

  method BuildMentionAliases(lower: string -> string, actors: seq<Actor>) returns (aliases: seq<Alias>)
    ensures ListsAliases(lower, actors, aliases)
  {
    hide AliasesOf, KnownAs;
    aliases := [];
    var seen: set<string> := {};
    NobodyKnown(lower);
    var i := 0;
    while i < |actors|
      invariant 0 <= i <= |actors|
      invariant SeenMatches(aliases, seen)
      invariant forall e :: e in aliases <==> KnownAs(lower, actors[..i], e.actorId, e.alias)
    {
      aliases, seen := AddActor(lower, actors[i], aliases, seen);
      KnownAsOneMore(lower, actors, i);
      i := i + 1;
    }
    assert actors[..i] == actors;
  }

  lemma NobodyKnown(lower: string -> string)
    ensures forall id, alias :: !KnownAs(lower, [], id, alias)
  {
  }

  lemma KnownAsOneMore(lower: string -> string, actors: seq<Actor>, i: nat)
    requires i < |actors|
    ensures forall id, alias :: KnownAs(lower, actors[..i + 1], id, alias)
              <==> KnownAs(lower, actors[..i], id, alias) || (id == actors[i].actorId && alias in AliasesOf(lower, actors[i].displayName))
  {
    hide KnownAs, AliasesOf;
    assert actors[..i + 1] == actors[..i] + [actors[i]];
    forall id, alias
      ensures KnownAs(lower, actors[..i + 1], id, alias)
              <==> KnownAs(lower, actors[..i], id, alias) || (id == actors[i].actorId && alias in AliasesOf(lower, actors[i].displayName))
    {
      KnownAsSnoc(lower, actors[..i], actors[i], id, alias);
    }
  }

  lemma KnownAsSnoc(lower: string -> string, actors: seq<Actor>, a: Actor, id: string, alias: string)
    ensures KnownAs(lower, actors + [a], id, alias)
            <==> KnownAs(lower, actors, id, alias) || (id == a.actorId && alias in AliasesOf(lower, a.displayName))
  {
    hide AliasesOf;
    var more := actors + [a];
    assert more[|actors|] == a && forall k :: 0 <= k < |actors| ==> more[k] == actors[k];
    if KnownAs(lower, actors, id, alias) {
      var k :| 0 <= k < |actors| && actors[k].actorId == id && alias in AliasesOf(lower, actors[k].displayName);
      assert more[k].actorId == id;
    }
  }

  function HasAlias(token: string): Alias -> bool {
    (e: Alias) => e.alias == token
  }

  /** The only actor known by the token. */
  predicate OnlyActor(lower: string -> string, actors: seq<Actor>, token: string, actorId: string) {
    && KnownAs(lower, actors, actorId, token)
    && forall i :: 0 <= i < |actors| && token in AliasesOf(lower, actors[i].displayName) ==> actors[i].actorId == actorId
  }

  method ResolveMentionToken(token: string, aliases: seq<Alias>, ghost lower: string -> string, ghost actors: seq<Actor>)
    returns (r: Option<string>)
    requires ListsAliases(lower, actors, aliases)
    ensures r.Some? ==> OnlyActor(lower, actors, token, r.value)
    ensures r.None? ==> forall id :: !OnlyActor(lower, actors, token, id)
  {
    var matches := Where(aliases, HasAlias(token));
    MatchesAreActors(lower, actors, token, aliases);
    if |matches| == 1 {
      return Some(matches[0].actorId);
    }
    return None;
  }

  /** Main result: a token resolves exactly when one actor, and only one, is known by it. */
  lemma MatchesAreActors(lower: string -> string, actors: seq<Actor>, token: string, aliases: seq<Alias>)
    requires ListsAliases(lower, actors, aliases)
    ensures var matches := Where(aliases, HasAlias(token));
            && (|matches| == 1 ==> OnlyActor(lower, actors, token, matches[0].actorId))
            && (|matches| != 1 ==> forall id :: !OnlyActor(lower, actors, token, id))
  {
    hide OnlyActor, ListsAliases, Where;
    if |Where(aliases, HasAlias(token))| == 1 {
      OneMatch(lower, actors, token, aliases);
    }
    forall id | OnlyActor(lower, actors, token, id)
      ensures |Where(aliases, HasAlias(token))| == 1
    {
      OnlyActorMatchesOnce(lower, actors, token, aliases, id);
    }
  }

  lemma OneMatch(lower: string -> string, actors: seq<Actor>, token: string, aliases: seq<Alias>)
    requires ListsAliases(lower, actors, aliases) && |Where(aliases, HasAlias(token))| == 1
    ensures OnlyActor(lower, actors, token, Where(aliases, HasAlias(token))[0].actorId)
  {
    hide AliasesOf;
    var m := Where(aliases, HasAlias(token))[0];
    OnlyMatch(aliases, token);
    assert KnownAs(lower, actors, m.actorId, m.alias);
    hide Where;
    forall i | 0 <= i < |actors| && token in AliasesOf(lower, actors[i].displayName)
      ensures actors[i].actorId == m.actorId
    {
      assert KnownAs(lower, actors, actors[i].actorId, token);
      assert Alias(actors[i].actorId, token) in aliases;
    }
  }

  lemma OnlyMatch(aliases: seq<Alias>, token: string)
    requires |Where(aliases, HasAlias(token))| == 1
    ensures var m := Where(aliases, HasAlias(token))[0];
            m in aliases && m.alias == token && forall e :: e in aliases && e.alias == token ==> e == m
  {
    var matches := Where(aliases, HasAlias(token));
    assert matches[0] in matches;
    forall e | e in aliases && e.alias == token
      ensures e == matches[0]
    {
      assert e in matches;
    }
  }

  lemma OnlyActorMatchesOnce(lower: string -> string, actors: seq<Actor>, token: string, aliases: seq<Alias>, id: string)
    requires ListsAliases(lower, actors, aliases) && OnlyActor(lower, actors, token, id)
    ensures |Where(aliases, HasAlias(token))| == 1
  {
    hide AliasesOf, Where;
    var matches := Where(aliases, HasAlias(token));
    WhereKeepsApart(aliases, HasAlias(token));
    assert Alias(id, token) in aliases;
    assert Alias(id, token) in matches;
    assert |matches| >= 2 ==> matches[0] != matches[1];
    forall i | 0 <= i < |matches|
      ensures matches[i] == Alias(id, token)
    {
      assert matches[i] in matches;
      var k :| 0 <= k < |actors| && actors[k].actorId == matches[i].actorId && token in AliasesOf(lower, actors[k].displayName);
    }
  }

  predicate AllDifferent(aliases: seq<Alias>) {
    forall i, j :: 0 <= i < j < |aliases| ==> aliases[i] != aliases[j]
  }

  lemma {:induction false} WhereKeepsApart(aliases: seq<Alias>, keep: Alias -> bool)
    requires AllDifferent(aliases)
    ensures AllDifferent(Where(aliases, keep))
  {
    if aliases != [] {
      var front, last := aliases[..|aliases| - 1], aliases[|aliases| - 1];
      assert AllDifferent(front);
      WhereKeepsApart(front, keep);
      var kept := Where(front, keep);
      assert last !in kept;
      assert AllDifferent(kept + [last]);
    }
  }
}
