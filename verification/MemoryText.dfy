// How the memory plugin cuts message text into candidates (src/plugins/memory.ts).

module MemoryText {
  import opened Prelude

  /** The regular expression class \s. */
  predicate IsSpace(c: char) {
    || c == ' ' || '\U{0009}' <= c <= '\U{000D}' || c == '\U{00A0}' || c == '\U{1680}' || '\U{2000}' <= c <= '\U{200A}'
    || c == '\U{2028}' || c == '\U{2029}' || c == '\U{202F}' || c == '\U{205F}' || c == '\U{3000}' || c == '\U{FEFF}'
  }

  function SkipSpaces(s: string): (r: string)
    ensures |r| <= |s|
    ensures r != "" ==> !IsSpace(r[0])
  {
    if s != "" && IsSpace(s[0]) then SkipSpaces(s[1..]) else s
  }

  /** Each run of white space becomes one space. */
  function Squeeze(s: string): string
    decreases |s|
  {
    if s == "" then ""
    else if IsSpace(s[0]) then " " + Squeeze(SkipSpaces(s[1..]))
    else [s[0]] + Squeeze(s[1..])
  }

  function TrimEnd(s: string): (r: string)
    ensures |r| <= |s| && r == s[..|r|]
    ensures r != "" ==> !IsSpace(r[|r| - 1])
  {
    if s != "" && IsSpace(s[|s| - 1]) then TrimEnd(s[..|s| - 1]) else s
  }

  function Trim(s: string): string {
    TrimEnd(SkipSpaces(s))
  }

  function NormalizeText(raw: string): string {
    Trim(Squeeze(raw))
  }

  predicate IsTerminator(c: char) {
    c == '.' || c == '!' || c == '?'
  }

  /** A sentence ends before position `i`. */
  predicate BreaksAt(s: string, i: nat) {
    0 < i < |s| && IsTerminator(s[i - 1]) && IsSpace(s[i])
  }

  /** The first break at or after `i`, or the end. */
  function NextBreak(s: string, i: nat): (r: nat)
    requires i <= |s|
    ensures i <= r <= |s|
    ensures r < |s| ==> BreaksAt(s, r)
    ensures forall k :: i <= k < r ==> !BreaksAt(s, k)
    decreases |s| - i
  {
    if i == |s| || BreaksAt(s, i) then i else NextBreak(s, i + 1)
  }

  /** `split(/(?<=[.!?])\s+/)` */
  function SplitSentences(s: string): seq<string>
    decreases |s|
  {
    var i := NextBreak(s, 0);
    if i == |s| then [s] else [s[..i]] + SplitSentences(SkipSpaces(s[i..]))
  }

  /** Trims every piece and drops the empty ones. */
  function TrimAll(pieces: seq<string>): (r: seq<string>)
    ensures forall p :: p in r ==> p != ""
  {
    if pieces == [] then []
    else
      var p := Trim(pieces[0]);
      (if p != "" then [p] else []) + TrimAll(pieces[1..])
  }

  function Chunk(normalized: string): seq<string> {
    if |normalized| <= 280 then [normalized]
    else
      var sentences := TrimAll(SplitSentences(normalized));
      if sentences == [] then [normalized]
      else if |sentences| <= 8 then sentences
      else sentences[..8]
  }

  const FILLERS: set<string> := {
    "ok", "okay", "thanks", "thank you", "ty", "lol", "haha", "hey", "hi", "hello", "yes", "no", "yeah", "yep", "nope",
    "got it", "cool", "+1", ['l', 'g', 't', 'm']}

  predicate IsFiller(lower: string -> string, text: string) {
    |lower(text)| <= 2 || lower(text) in FILLERS
  }

  // ---------- normalized text ----------

  /** Words separated by single spaces. */
  predicate Normal(s: string) {
    && (forall i :: 0 <= i < |s| && IsSpace(s[i]) ==> s[i] == ' ')
    && (forall i :: 0 <= i < |s| - 1 && IsSpace(s[i]) ==> !IsSpace(s[i + 1]))
    && (s != "" ==> !IsSpace(s[0]) && !IsSpace(s[|s| - 1]))
  }

  predicate Squeezed(s: string) {
    && (forall i :: 0 <= i < |s| && IsSpace(s[i]) ==> s[i] == ' ')
    && (forall i :: 0 <= i < |s| - 1 && IsSpace(s[i]) ==> !IsSpace(s[i + 1]))
  }

  lemma {:induction false} SqueezeSqueezes(s: string)
    ensures Squeezed(Squeeze(s))
    ensures s != "" ==> Squeeze(s) != "" && IsSpace(Squeeze(s)[0]) == IsSpace(s[0])
    decreases |s|
  {
    if s != "" {
      if IsSpace(s[0]) {
        SqueezeSqueezes(SkipSpaces(s[1..]));
      } else {
        SqueezeSqueezes(s[1..]);
      }
    }
  }

  lemma SqueezedTrims(s: string)
    requires Squeezed(s)
    ensures Normal(Trim(s))
  {
    SkipIsSuffix(s);
  }

  lemma {:induction false} SkipIsSuffix(s: string)
    ensures SkipSpaces(s) == s[|s| - |SkipSpaces(s)|..]
  {
    if s != "" && IsSpace(s[0]) { SkipIsSuffix(s[1..]); }
  }

  /** Main result: normalizing gives words separated by single spaces, */
  lemma NormalizeIsNormal(raw: string)
    ensures Normal(NormalizeText(raw))
  {
    SqueezeSqueezes(raw);
    SqueezedTrims(Squeeze(raw));
  }

  lemma {:induction false} SqueezedIsFixed(s: string)
    requires Squeezed(s)
    ensures Squeeze(s) == s
    decreases |s|
  {
    if s != "" {
      assert Squeezed(s[1..]);
      SqueezedIsFixed(s[1..]);
      assert IsSpace(s[0]) ==> SkipSpaces(s[1..]) == s[1..];
    }
  }

  /** and normalizing again changes nothing. */
  lemma NormalizeIdempotent(raw: string)
    ensures NormalizeText(NormalizeText(raw)) == NormalizeText(raw)
  {
    NormalizeIsNormal(raw);
    var s := NormalizeText(raw);
    assert Squeezed(s);
    SqueezedIsFixed(s);
  }

  // ---------- words ----------

  function Join(words: seq<string>): string {
    if words == [] then "" else if |words| == 1 then words[0] else words[0] + " " + Join(words[1..])
  }

  /** Cuts a text at its white space; `run` is the word being read. */
  function WordsAfter(run: string, s: string): seq<string>
    decreases |s|
  {
    var done := if run == "" then [] else [run];
    if s == "" then done
    else if IsSpace(s[0]) then done + WordsAfter("", s[1..])
    else WordsAfter(run + [s[0]], s[1..])
  }

  /** The maximal runs of characters other than white space. */
  function Words(s: string): seq<string> {
    WordsAfter("", s)
  }

  lemma {:induction false} SkippedWords(s: string)
    ensures Words(SkipSpaces(s)) == Words(s)
  {
    if s != "" && IsSpace(s[0]) { SkippedWords(s[1..]); }
  }

  lemma {:induction false} SqueezedWords(run: string, s: string)
    ensures WordsAfter(run, Squeeze(s)) == WordsAfter(run, s)
    decreases |s|
  {
    if s != "" {
      if IsSpace(s[0]) {
        var rest := SkipSpaces(s[1..]);
        SqueezedWords("", rest);
        SkippedWords(s[1..]);
        assert Squeeze(s)[1..] == Squeeze(rest);
      } else {
        SqueezedWords(run + [s[0]], s[1..]);
        assert Squeeze(s)[1..] == Squeeze(s[1..]);
      }
    }
  }

  lemma {:induction false} LastSpace(run: string, s: string)
    requires s != "" && IsSpace(s[|s| - 1])
    ensures WordsAfter(run, s[..|s| - 1]) == WordsAfter(run, s)
    decreases |s|
  {
    var front := s[..|s| - 1];
    if front != "" {
      assert front[1..] == s[1..][..|s| - 2];
      LastSpace(if IsSpace(s[0]) then "" else run + [s[0]], s[1..]);
    }
  }

  lemma {:induction false} TrimmedWords(s: string)
    ensures Words(TrimEnd(s)) == Words(s)
  {
    if s != "" && IsSpace(s[|s| - 1]) {
      LastSpace("", s);
      TrimmedWords(s[..|s| - 1]);
    }
  }

  /** A text is blank exactly if it has no words. */
  lemma BlankIffWordless(s: string)
    ensures Trim(s) == "" <==> Words(s) == []
  {
    SkippedWords(s);
    TrimmedWords(SkipSpaces(s));
    if Trim(s) != "" {
      var t := Trim(s);
      SkipIsSuffix(s);
      assert t[0] == SkipSpaces(s)[0];
      assert Words(t) == WordsAfter([t[0]], t[1..]) by { assert "" + [t[0]] == [t[0]]; }
      StartedWord([t[0]], t[1..]);
    }
  }

  lemma {:induction false} StartedWord(run: string, s: string)
    requires run != ""
    ensures WordsAfter(run, s) != []
    decreases |s|
  {
    if s != "" && !IsSpace(s[0]) { StartedWord(run + [s[0]], s[1..]); }
  }

  /** A normal text is its words with single spaces between them. */
  lemma {:induction false} NormalJoins(run: string, s: string)
    requires Normal(run + s) && forall i :: 0 <= i < |run| ==> !IsSpace(run[i])
    ensures Join(WordsAfter(run, s)) == run + s
    decreases |s|
  {
    if s == "" {
      assert run + s == run;
    } else if IsSpace(s[0]) {
      WordBreak(run, s);
      NormalJoins("", s[1..]);
      assert "" + s[1..] == s[1..];
      assert WordsAfter(run, s) == [run] + WordsAfter("", s[1..]);
      assert run + s == run + " " + s[1..];
    } else {
      assert run + s == (run + [s[0]]) + s[1..];
      NormalJoins(run + [s[0]], s[1..]);
    }
  }

  lemma WordBreak(run: string, s: string)
    requires Normal(run + s) && s != "" && IsSpace(s[0])
    ensures run != "" && s[0] == ' ' && s[1..] != "" && Normal("" + s[1..])
  {
    var all, n := run + s, |run|;
    assert all[n] == s[0];
    assert forall i :: 0 <= i < |s| ==> all[n + i] == s[i];
    assert "" + s[1..] == all[n + 1..];
  }

  /** Main result: normalizing keeps the words of a text, whatever they are, and puts one space between them. */
  lemma NormalizeJoinsWords(raw: string)
    ensures NormalizeText(raw) == Join(Words(raw)) && Words(NormalizeText(raw)) == Words(raw)
  {
    SqueezedWords("", raw);
    SkippedWords(Squeeze(raw));
    TrimmedWords(SkipSpaces(Squeeze(raw)));
    NormalizeIsNormal(raw);
    assert "" + NormalizeText(raw) == NormalizeText(raw);
    NormalJoins("", NormalizeText(raw));
  }

  lemma OneMore(run: string, c: char, rest: string)
    ensures WordsAfter(run, [c] + rest)
            == if IsSpace(c) then (if run == "" then [] else [run]) + WordsAfter("", rest) else WordsAfter(run + [c], rest)
  {
    assert ([c] + rest)[1..] == rest;
  }

  /** Words are separated by any white space, and by nothing else. */
  lemma WordsOfALine()
    ensures Words(" a,\n\tb") == ["a,", "b"]
  {
    OneMore("", 'b', "");
    OneMore("", '\t', "b");
    OneMore("a,", '\n', "\tb");
    OneMore("a", ',', "\n\tb");
    OneMore("", 'a', ",\n\tb");
    OneMore("", ' ', "a,\n\tb");
    assert "" + ['b'] == "b" && ['b'] + "" == "b" && "" + ['a'] == "a" && "a" + [','] == "a,";
    assert ['\t'] + "b" == "\tb" && ['\n'] + "\tb" == "\n\tb" && [','] + "\n\tb" == ",\n\tb";
    assert ['a'] + ",\n\tb" == "a,\n\tb" && [' '] + "a,\n\tb" == " a,\n\tb";
  }

  // ---------- sentences of a normalized text ----------

  lemma NormalCut(s: string, i: nat)
    requires Normal(s) && BreaksAt(s, i)
    ensures Normal(s[..i]) && Normal(s[i + 1..]) && s[i + 1..] != ""
    ensures SkipSpaces(s[i..]) == s[i + 1..] && s == s[..i] + " " + s[i + 1..]
  {
    assert !IsSpace(s[i - 1]) && s[i] == ' ' && !IsSpace(s[i + 1]);
    assert s[i..][1..] == s[i + 1..];
  }

  /** No full stop, exclamation or question mark with a space after it. */
  predicate WholeSentence(p: string) {
    forall i :: 0 <= i < |p| - 1 && p[i + 1] == ' ' ==> p[i] != '.' && p[i] != '!' && p[i] != '?'
  }

  predicate EndsSentence(p: string) {
    p != "" && (p[|p| - 1] == '.' || p[|p| - 1] == '!' || p[|p| - 1] == '?')
  }

  /** What lies before the first break of a text. */
  lemma FirstSentence(s: string)
    requires Normal(s)
    ensures var i := NextBreak(s, 0);
            WholeSentence(s[..i]) && (i < |s| ==> EndsSentence(s[..i]))
  {
    var i := NextBreak(s, 0);
    forall k: nat | k + 1 < i && s[k + 1] == ' '
      ensures !IsTerminator(s[k])
    {
      assert !BreaksAt(s, k + 1);
    }
  }

  /** The pieces are the text's sentences: normal, whole, each but the last ended, and together the text. */
  ghost predicate GoodSplit(s: string, parts: seq<string>) {
    && parts != [] && Join(parts) == s && TrimAll(parts) == parts
    && (forall p :: p in parts ==> p != "" && Normal(p) && WholeSentence(p))
    && (forall i :: 0 <= i < |parts| - 1 ==> EndsSentence(parts[i]))
  }

  lemma SplitCons(first: string, rest: string, parts: seq<string>)
    requires GoodSplit(rest, parts) && first != "" && Normal(first) && WholeSentence(first) && EndsSentence(first)
    ensures GoodSplit(first + " " + rest, [first] + parts)
  {
    hide WholeSentence, EndsSentence, Normal, Trim, TrimAll;
    var all := [first] + parts;
    assert all[1..] == parts;
    NormalTrims(first);
    TrimCons(all);
    assert forall i :: 0 < i < |all| ==> all[i] == parts[i - 1];
  }

  lemma {:induction false} NormalSplit(s: string)
    requires Normal(s) && s != ""
    ensures GoodSplit(s, SplitSentences(s))
    decreases |s|
  {
    var i := NextBreak(s, 0);
    FirstSentence(s);
    if i < |s| {
      NormalCut(s, i);
      hide WholeSentence, EndsSentence, IsSpace, Normal, SkipSpaces, GoodSplit, BreaksAt, NextBreak;
      NormalSplit(s[i + 1..]);
      SplitCons(s[..i], s[i + 1..], SplitSentences(s[i + 1..]));
    } else {
      NormalTrims(s);
      assert s[..i] == s;
      assert TrimAll([s]) == [s] by { TrimCons([s]); }
    }
  }

  lemma NormalTrims(s: string)
    requires Normal(s)
    ensures Trim(s) == s
  {
  }

  lemma TrimCons(parts: seq<string>)
    requires parts != [] && Trim(parts[0]) == parts[0] && parts[0] != "" && TrimAll(parts[1..]) == parts[1..]
    ensures TrimAll(parts) == parts
  {
    assert parts == [parts[0]] + parts[1..];
  }

  /**
   * Main result: the candidates of a normalized text are its sentences, in order; they are normalized
   * and, while there are at most eight, joining them gives the text back.
   */
  lemma CandidatesRejoin(s: string)
    requires Normal(s)
    ensures forall p :: p in Chunk(s) ==> Normal(p)
    ensures |Chunk(s)| <= 8
    ensures |Chunk(s)| < 8 ==> Join(Chunk(s)) == s
    ensures |s| <= 280 ==> Chunk(s) == [s]
    ensures |s| > 280 ==>
              var sentences := SplitSentences(s);
              && Chunk(s) == (if |sentences| <= 8 then sentences else sentences[..8]) && Join(sentences) == s
              && (forall p :: p in sentences ==> WholeSentence(p))
              && (forall i :: 0 <= i < |sentences| - 1 ==> EndsSentence(sentences[i]))
  {
    if |s| > 280 { NormalSplit(s); }
  }
}
