// Laws of the canonical printer: printing then parsing gives the canonical value back, canonical
// texts are fixed points, equal texts mean equal canonical values, no object text is a proper
// prefix of another, and insertion order matters only between keys the comparator ties.

module CanonicalJsonLaws {
  import opened Prelude
  import opened CanonicalJson

  // ---------- strings ----------

  lemma ParseEscapedChar(c: char, rest: string)
    ensures EscapeChar(c) != [c] ==>
              EscapeChar(c)[0] == '\\' && ParseEscape((EscapeChar(c) + rest)[1..]) == Some(Parsed(c, rest))
    ensures EscapeChar(c) == [c] ==> c != '"' && c != '\\' && c >= ' '
  {
    var t := (EscapeChar(c) + rest)[1..];
    if EscapeChar(c) != [c] {
      if c < ' ' && |EscapeChar(c)| == 6 {
        var hi, lo := c as int / 16, c as int % 16;
        assert t == ['u', '0', '0', HexDigit(hi), HexDigit(lo)] + rest;
        assert HexValue(HexDigit(hi)) == Some(hi) && HexValue(HexDigit(lo)) == Some(lo);
        assert t[5..] == rest;
      } else {
        var mark := EscapeChar(c)[1];
        assert EscapeChar(c) == ['\\', mark];
        assert t == [mark] + rest && t[0] == mark && t[1..] == rest;
      }
    }
  }

  /** The characters with an escape of two, and its second half (section 7 of RFC 8259). */
  const SHORT_ESCAPES := map[
    '"' := '"', '\\' := '\\', '\U{0008}' := 'b', '\U{000C}' := 'f', '\n' := 'n', '\r' := 'r', '\t' := 't']

  /** A character is escaped the short way if there is one, as its code if it is a control, and else not at all. */
  lemma EscapesAsStandard(c: char)
    ensures c in SHORT_ESCAPES ==> EscapeChar(c) == ['\\', SHORT_ESCAPES[c]]
    ensures c !in SHORT_ESCAPES && c < ' ' ==>
              && |EscapeChar(c)| == 6 && EscapeChar(c)[..4] == "\\u00"
              && EscapeChar(c)[4] == "0123456789abcdef"[c as int / 16] && EscapeChar(c)[5] == "0123456789abcdef"[c as int % 16]
    ensures c !in SHORT_ESCAPES && c >= ' ' ==> EscapeChar(c) == [c]
  {
    if c !in SHORT_ESCAPES && c < ' ' {
      HexDigitIs(c as int / 16);
      HexDigitIs(c as int % 16);
      assert EscapeChar(c)[..4] == "\\u00";
    }
  }

  lemma HexDigitIs(n: int)
    requires 0 <= n < 16
    ensures HexDigit(n) == "0123456789abcdef"[n]
  {
  }

  lemma {:induction false} ParseEscaped(s: string, rest: string)
    ensures ParseChars(Escape(s) + "\"" + rest) == Some(Parsed(s, rest))
  {
    hide EscapeChar, ParseEscape;
    if s == "" {
      assert (Escape(s) + "\"" + rest)[1..] == rest;
    } else {
      var tail := Escape(s[1..]) + "\"" + rest;
      var t := Escape(s) + "\"" + rest;
      assert t == EscapeChar(s[0]) + tail;
      ParseEscaped(s[1..], rest);
      ParseEscapedChar(s[0], tail);
      assert [s[0]] + s[1..] == s;
      if EscapeChar(s[0]) == [s[0]] {
        assert t[0] == s[0] && t[1..] == tail;
      }
    }
  }

  // ---------- values ----------

  /** No undefined value at any depth: what a parser can return. */
  predicate Defined(v: Json)
    decreases v
  {
    match v
    case Undefined => false
    case List(items) => forall i :: 0 <= i < |items| ==> Defined(items[i])
    case Object(entries) => forall i :: 0 <= i < |entries| ==> Defined(entries[i].value)
    case _ => true
  }

  /** A text that may follow a value without being read as part of it. */
  predicate Stops(rest: string) {
    rest == "" || !IsNumberChar(rest[0])
  }

  lemma {:induction false} RunOfToken(token: string, rest: string)
    requires forall i :: 0 <= i < |token| ==> IsNumberChar(token[i])
    requires Stops(rest)
    ensures NumberRun(token + rest) == |token|
  {
    if token == "" {
      assert token + rest == rest;
    } else {
      assert (token + rest)[1..] == token[1..] + rest;
      RunOfToken(token[1..], rest);
    }
  }

  lemma ParseNumberTurn(token: NumberToken, rest: string)
    requires Stops(rest)
    ensures ParseValue(token + rest) == Some(Parsed(Number(token), rest))
  {
    var t := token + rest;
    RunOfToken(token, rest);
    assert t[0] == token[0];
    assert t[..|token|] == token && t[|token|..] == rest;
  }

  lemma ParseTextTurn(s: string, rest: string)
    ensures ParseValue(Quote(s) + rest) == Some(Parsed(Text(s), rest))
  {
    var t := Quote(s) + rest;
    ParseEscaped(s, rest);
    hide Escape, ParseChars, ParseItems, ParseEntries;
    assert t[0] == '"' && t[1..] == Escape(s) + "\"" + rest;
  }

  lemma ParseListTurn(body: string, items: seq<Json>, rest: string)
    requires body != "" && body[0] != ']' && ParseItems(body) == Some(Parsed(items, rest))
    ensures ParseValue("[" + body) == Some(Parsed(List(items), rest))
  {
    var t := "[" + body;
    assert t[0] == '[' && t[1] == body[0] && t[1..] == body;
  }

  lemma ParseObjectTurn(body: string, entries: seq<Entry>, rest: string)
    requires body != "" && body[0] != '}' && ParseEntries(body) == Some(Parsed(entries, rest))
    ensures ParseValue("{" + body) == Some(Parsed(Object(entries), rest))
  {
    var t := "{" + body;
    assert t[0] == '{' && t[1] == body[0] && t[1..] == body;
  }

  lemma ParseEmptyList(rest: string)
    ensures Render(List([])) == "[]"
    ensures ParseValue("[]" + rest) == Some(Parsed(List([]), rest))
  {
    var t := "[]" + rest;
    assert t[0] == '[' && t[1] == ']' && t[2..] == rest;
  }

  lemma ParseEmptyObject(rest: string)
    ensures Render(Object([])) == "{}"
    ensures ParseValue("{}" + rest) == Some(Parsed(Object([]), rest))
  {
    var t := "{}" + rest;
    assert t[0] == '{' && t[1] == '}' && t[2..] == rest;
  }

  /** The self-delimiting law: a printed value followed by anything that stops it parses to itself. */
  lemma {:induction false} ParseRendered(v: Json, rest: string)
    requires Defined(v) && (v.Object? || Stops(rest))
    ensures ParseValue(Render(v) + rest) == Some(Parsed(v, rest))
    decreases v, 0
  {
    match v
    case Null => assert ("null" + rest)[4..] == rest;
    case Bool(b) =>
      var t := Render(v) + rest;
      assert t[0] == (if b then 't' else 'f') && t[|Render(v)|..] == rest;
    case Number(token) => ParseNumberTurn(token, rest);
    case Text(s) => ParseTextTurn(s, rest);
    case List(items) => ParseRenderedList(items, rest);
    case Object(entries) => ParseRenderedObject(entries, rest);
  }

  lemma {:induction false} ParseRenderedList(items: seq<Json>, rest: string)
    requires forall i :: 0 <= i < |items| ==> Defined(items[i])
    ensures ParseValue(Render(List(items)) + rest) == Some(Parsed(List(items), rest))
    decreases items, 2
  {
    hide ParseItems, ParseValue;
    if items == [] {
      ParseEmptyList(rest);
    } else {
      var body := RenderItems(items) + "]" + rest;
      ItemsStart(items);
      ParseRenderedItems(items, rest);
      ParseListTurn(body, items, rest);
      assert Render(List(items)) == "[" + RenderItems(items) + "]";
      assert "[" + RenderItems(items) + "]" + rest == "[" + body;
    }
  }

  lemma {:induction false} ParseRenderedObject(entries: seq<Entry>, rest: string)
    requires forall i :: 0 <= i < |entries| ==> Defined(entries[i].value)
    ensures ParseValue(Render(Object(entries)) + rest) == Some(Parsed(Object(entries), rest))
    decreases entries, 3
  {
    hide ParseEntries, ParseValue;
    if entries == [] {
      ParseEmptyObject(rest);
    } else {
      var body := RenderEntries(entries) + "}" + rest;
      EntriesStart(entries);
      ParseRenderedEntries(entries, rest);
      ParseObjectTurn(body, entries, rest);
      assert Render(Object(entries)) == "{" + RenderEntries(entries) + "}";
      assert "{" + RenderEntries(entries) + "}" + rest == "{" + body;
    }
  }

  lemma EntriesStart(entries: seq<Entry>)
    requires entries != []
    ensures RenderEntries(entries) != "" && RenderEntries(entries)[0] == '"'
  {
    assert RenderEntry(entries[0])[0] == '"';
  }

  lemma ValueStart(v: Json)
    ensures Render(v) != "" && Render(v)[0] != ']'
  {
  }

  lemma ItemsStart(items: seq<Json>)
    requires items != []
    ensures RenderItems(items) != "" && RenderItems(items)[0] != ']'
  {
    ValueStart(items[0]);
  }

  lemma Regroup(first: string, more: string, close: string, rest: string)
    ensures first + "," + more + close + rest == first + ("," + (more + close + rest))
    ensures ("," + (more + close + rest))[1..] == more + close + rest
  {
  }

  /** One turn of the list parser. */
  lemma ParseItemsTurn(t: string, v: Json, after: string)
    requires ParseValue(t) == Some(Parsed(v, after)) && after != ""
    ensures after[0] == ']' ==> ParseItems(t) == Some(Parsed([v], after[1..]))
    ensures after[0] == ',' && ParseItems(after[1..]).Some? ==>
              var more := ParseItems(after[1..]).value;
              ParseItems(t) == Some(Parsed([v] + more.value, more.rest))
  {
  }

  lemma {:induction false} ParseRenderedItems(items: seq<Json>, rest: string)
    requires items != [] && forall i :: 0 <= i < |items| ==> Defined(items[i])
    ensures ParseItems(RenderItems(items) + "]" + rest) == Some(Parsed(items, rest))
    decreases items, 1
  {
    var first := Render(items[0]);
    if |items| == 1 {
      ParseRendered(items[0], "]" + rest);
      assert first + "]" + rest == first + ("]" + rest);
      assert ("]" + rest)[1..] == rest && [items[0]] == items;
      ParseItemsTurn(first + ("]" + rest), items[0], "]" + rest);
    } else {
      var more := RenderItems(items[1..]);
      var tail := more + "]" + rest;
      ParseRendered(items[0], "," + tail);
      ParseRenderedItems(items[1..], rest);
      Regroup(first, more, "]", rest);
      assert [items[0]] + items[1..] == items;
      ParseItemsTurn(first + ("," + tail), items[0], "," + tail);
    }
  }

  /** The entry parser on a quoted key, a colon and a value. */
  lemma ParseEntryTurn(key: string, text: string, v: Json, rest: string)
    requires ParseValue(text) == Some(Parsed(v, rest))
    ensures ParseEntry(Quote(key) + ":" + text) == Some(Parsed(Entry(key, v), rest))
  {
    var t := Quote(key) + ":" + text;
    var tail := ":" + text;
    assert t[0] == '"';
    assert t[1..] == Escape(key) + "\"" + tail;
    ParseEscaped(key, tail);
    assert tail[1..] == text;
  }

  lemma {:induction false} ParseRenderedEntry(e: Entry, rest: string)
    requires Defined(e.value) && Stops(rest)
    ensures ParseEntry(RenderEntry(e) + rest) == Some(Parsed(e, rest))
    decreases e, 1
  {
    hide ParseEntry, ParseValue, Quote, Render, Defined, Stops;
    ParseRendered(e.value, rest);
    ParseEntryTurn(e.key, Render(e.value) + rest, e.value, rest);
    assert RenderEntry(e) + rest == Quote(e.key) + ":" + (Render(e.value) + rest);
  }

  /** One turn of the object parser. */
  lemma ParseEntriesTurn(t: string, e: Entry, after: string)
    requires ParseEntry(t) == Some(Parsed(e, after)) && after != ""
    ensures after[0] == '}' ==> ParseEntries(t) == Some(Parsed([e], after[1..]))
    ensures after[0] == ',' && ParseEntries(after[1..]).Some? ==>
              var more := ParseEntries(after[1..]).value;
              ParseEntries(t) == Some(Parsed([e] + more.value, more.rest))
  {
  }

  lemma ParseLastEntry(entries: seq<Entry>, rest: string)
    requires |entries| == 1 && Defined(entries[0].value)
    ensures ParseEntries(RenderEntries(entries) + "}" + rest) == Some(Parsed(entries, rest))
    decreases entries, 1
  {
    var first := RenderEntry(entries[0]);
    ParseRenderedEntry(entries[0], "}" + rest);
    assert first + "}" + rest == first + ("}" + rest);
    assert ("}" + rest)[1..] == rest && [entries[0]] == entries;
    ParseEntriesTurn(first + ("}" + rest), entries[0], "}" + rest);
  }

  lemma {:induction false} ParseRenderedEntries(entries: seq<Entry>, rest: string)
    requires entries != [] && forall i :: 0 <= i < |entries| ==> Defined(entries[i].value)
    ensures ParseEntries(RenderEntries(entries) + "}" + rest) == Some(Parsed(entries, rest))
    decreases entries, 2
  {
    var first := RenderEntry(entries[0]);
    if |entries| == 1 {
      ParseLastEntry(entries, rest);
    } else {
      var more := RenderEntries(entries[1..]);
      var tail := more + "}" + rest;
      ParseRenderedEntry(entries[0], "," + tail);
      ParseRenderedEntries(entries[1..], rest);
      Regroup(first, more, "}", rest);
      assert [entries[0]] + entries[1..] == entries;
      ParseEntriesTurn(first + ("," + tail), entries[0], "," + tail);
    }
  }

  // ---------- sorting ----------

  predicate Sorted(le: KeyOrder, entries: seq<Entry>) {
    forall i, j :: 0 <= i < j < |entries| ==> le(entries[i].key, entries[j].key)
  }

  lemma {:induction false} InsertPermutes(le: KeyOrder, e: Entry, sorted: seq<Entry>)
    ensures multiset(Insert(le, e, sorted)) == multiset{e} + multiset(sorted)
  {
    if sorted != [] && !le(e.key, sorted[0].key) {
      InsertPermutes(le, e, sorted[1..]);
      assert sorted == [sorted[0]] + sorted[1..];
    }
  }

  lemma {:induction false} SortPermutes(le: KeyOrder, entries: seq<Entry>)
    ensures multiset(Sort(le, entries)) == multiset(entries)
  {
    if entries != [] {
      SortPermutes(le, entries[1..]);
      InsertPermutes(le, entries[0], Sort(le, entries[1..]));
      assert entries == [entries[0]] + entries[1..];
    }
  }

  lemma {:induction false} InsertSorted(le: KeyOrder, e: Entry, sorted: seq<Entry>)
    requires TotalPreorder(le) && Sorted(le, sorted)
    ensures Sorted(le, Insert(le, e, sorted))
  {
    if sorted != [] && !le(e.key, sorted[0].key) {
      InsertSorted(le, e, sorted[1..]);
      var tail := Insert(le, e, sorted[1..]);
      forall x | x in tail
        ensures le(sorted[0].key, x.key)
      {
        if x != e {
          var k :| 0 <= k < |sorted[1..]| && sorted[1..][k] == x;
          assert sorted[k + 1] == x;
        }
      }
      assert forall j :: 0 <= j < |tail| ==> tail[j] in tail;
    }
  }

  lemma {:induction false} SortSorts(le: KeyOrder, entries: seq<Entry>)
    requires TotalPreorder(le)
    ensures Sorted(le, Sort(le, entries))
  {
    if entries != [] {
      SortSorts(le, entries[1..]);
      InsertSorted(le, entries[0], Sort(le, entries[1..]));
    }
  }

  lemma {:induction false} SortFixesSorted(le: KeyOrder, entries: seq<Entry>)
    requires Sorted(le, entries)
    ensures Sort(le, entries) == entries
  {
    if entries != [] {
      SortFixesSorted(le, entries[1..]);
      assert [entries[0]] + entries[1..] == entries;
    }
  }

  /** Sorting looks at keys only, so it commutes with a change of values. */
  lemma {:induction false} InsertCommutes(le: KeyOrder, e: Entry, sorted: seq<Entry>)
    ensures CanonEntries(le, Insert(le, e, sorted))
         == Insert(le, Entry(e.key, Canon(le, e.value)), CanonEntries(le, sorted))
  {
    if sorted != [] && !le(e.key, sorted[0].key) {
      InsertCommutes(le, e, sorted[1..]);
      assert CanonEntries(le, sorted)[1..] == CanonEntries(le, sorted[1..]);
      assert Insert(le, e, sorted)[1..] == Insert(le, e, sorted[1..]);
    } else {
      assert CanonEntries(le, [e] + sorted)
          == [Entry(e.key, Canon(le, e.value))] + CanonEntries(le, sorted);
    }
  }

  lemma {:induction false} SortCommutes(le: KeyOrder, entries: seq<Entry>)
    ensures CanonEntries(le, Sort(le, entries)) == Sort(le, CanonEntries(le, entries))
  {
    if entries != [] {
      SortCommutes(le, entries[1..]);
      InsertCommutes(le, entries[0], Sort(le, entries[1..]));
      assert CanonEntries(le, entries)[1..] == CanonEntries(le, entries[1..]);
    }
  }

  // ---------- the canonical printer prints the canonical value ----------

  lemma {:induction false} StableIsRenderedCanon(le: KeyOrder, v: Json)
    ensures StableJson(le, v) == Render(Canon(le, v))
    decreases v, 1, 0
  {
    match v
    case List(items) => StableItemsRendered(le, items);
    case Object(entries) =>
      StableEntriesRendered(le, v, Sort(le, entries));
      StableObjectTurn(le, v);
    case _ =>
  }

  lemma StableObjectTurn(le: KeyOrder, v: Json)
    requires v.Object?
    requires StableEntries(le, v, Sort(le, v.entries)) == RenderEntries(CanonEntries(le, Sort(le, v.entries)))
    ensures StableJson(le, v) == Render(Canon(le, v))
  {
    SortCommutes(le, v.entries);
  }

  lemma {:induction false} StableItemsRendered(le: KeyOrder, items: seq<Json>)
    ensures StableItems(le, items) == RenderItems(CanonItems(le, items))
    decreases items, 2, 0
  {
    if items != [] {
      StableIsRenderedCanon(le, items[0]);
      StableItemsRendered(le, items[1..]);
      assert CanonItems(le, items)[1..] == CanonItems(le, items[1..]);
    }
  }

  lemma {:induction false} StableEntriesRendered(le: KeyOrder, parent: Json, sorted: seq<Entry>)
    requires parent.Object? && forall e :: e in sorted ==> e in parent.entries
    ensures StableEntries(le, parent, sorted) == RenderEntries(CanonEntries(le, sorted))
    decreases parent, 0, |sorted|
  {
    if sorted != [] {
      EntryInsideParent(parent, sorted[0]);
      StableIsRenderedCanon(le, sorted[0].value);
      StableEntriesRendered(le, parent, sorted[1..]);
      assert CanonEntries(le, sorted)[1..] == CanonEntries(le, sorted[1..]);
    }
  }

  lemma {:induction false} CanonDefined(le: KeyOrder, v: Json)
    ensures Defined(Canon(le, v))
    decreases v
  {
    match v
    case List(items) =>
      forall i | 0 <= i < |items|
        ensures Defined(CanonItems(le, items)[i])
      {
        CanonDefined(le, items[i]);
      }
    case Object(entries) =>
      var c := CanonEntries(le, entries);
      forall i | 0 <= i < |entries|
        ensures Defined(c[i].value)
      {
        CanonDefined(le, entries[i].value);
      }
      var sorted := Sort(le, c);
      forall i | 0 <= i < |sorted|
        ensures Defined(sorted[i].value)
      {
        assert sorted[i] in sorted;
        var k :| 0 <= k < |c| && c[k] == sorted[i];
      }
    case _ =>
  }

  /** Main result: the parser inverts the canonical printer, up to key order and undefined. */
  lemma ParseStable(le: KeyOrder, v: Json)
    ensures ParseJsonRecord(StableJson(le, v)) == Some(Canon(le, v))
  {
    StableIsRenderedCanon(le, v);
    CanonDefined(le, v);
    ParseRendered(Canon(le, v), "");
    ValueStart(Canon(le, v));
    assert Render(Canon(le, v)) + "" == Render(Canon(le, v));
  }

  lemma {:induction false} CanonIdempotent(le: KeyOrder, v: Json)
    requires TotalPreorder(le)
    ensures Canon(le, Canon(le, v)) == Canon(le, v)
    decreases v
  {
    match v
    case List(items) =>
      forall i | 0 <= i < |items|
        ensures Canon(le, CanonItems(le, items)[i]) == CanonItems(le, items)[i]
      {
        CanonIdempotent(le, items[i]);
      }
      assert CanonItems(le, CanonItems(le, items)) == CanonItems(le, items);
    case Object(entries) =>
      var c := CanonEntries(le, entries);
      var sorted := Sort(le, c);
      forall i | 0 <= i < |sorted|
        ensures Entry(sorted[i].key, Canon(le, sorted[i].value)) == sorted[i]
      {
        assert sorted[i] in sorted;
        var k :| 0 <= k < |c| && c[k] == sorted[i];
        CanonIdempotent(le, entries[k].value);
      }
      assert CanonEntries(le, sorted) == sorted;
      SortSorts(le, c);
      SortFixesSorted(le, sorted);
    case _ =>
  }

  /** Main result: re-printing what was read from storage gives the stored text again. */
  lemma ReprintIsIdentity(le: KeyOrder, v: Json)
    requires TotalPreorder(le)
    ensures ParseJsonRecord(StableJson(le, v)).Some?
    ensures StableJson(le, ParseJsonRecord(StableJson(le, v)).value) == StableJson(le, v)
  {
    ParseStable(le, v);
    CanonIdempotent(le, v);
    StableIsRenderedCanon(le, v);
    StableIsRenderedCanon(le, Canon(le, v));
  }

  /** Two values print alike exactly when they have the same canonical form. */
  lemma SameTextIffSameCanon(le: KeyOrder, v: Json, w: Json)
    ensures StableJson(le, v) == StableJson(le, w) <==> Canon(le, v) == Canon(le, w)
  {
    ParseStable(le, v);
    ParseStable(le, w);
    StableIsRenderedCanon(le, v);
    StableIsRenderedCanon(le, w);
  }

  /** Canonical texts are self-delimiting: followed by a separator they split in one way only. */
  lemma SelfDelimiting(le: KeyOrder, v: Json, w: Json, a: string, b: string)
    requires (v.Object? && w.Object?) || (Stops(a) && Stops(b))
    requires StableJson(le, v) + a == StableJson(le, w) + b
    ensures StableJson(le, v) == StableJson(le, w) && a == b
  {
    StableIsRenderedCanon(le, v);
    StableIsRenderedCanon(le, w);
    CanonDefined(le, v);
    CanonDefined(le, w);
    ParseRendered(Canon(le, v), a);
    ParseRendered(Canon(le, w), b);
  }

  lemma OpensWithBrace(le: KeyOrder, v: Json)
    ensures StableJson(le, v) != "" && (v.Object? <==> StableJson(le, v)[0] == '{')
  {
    match v
    case Text(s) => assert Quote(s)[0] == '"';
    case _ =>
  }

  /** Main result: no object text is a proper prefix of another canonical text. */
  lemma ObjectTextsPrefixFree(le: KeyOrder, v: Json, w: Json)
    requires v.Object? && StableJson(le, v) <= StableJson(le, w)
    ensures StableJson(le, v) == StableJson(le, w)
  {
    OpensWithBrace(le, v);
    OpensWithBrace(le, w);
    SelfDelimiting(le, v, w, StableJson(le, w)[|StableJson(le, v)|..], "");
  }

  // ---------- insertion order ----------

  lemma TailMultiset<T>(s: seq<T>)
    requires s != []
    ensures multiset(s[1..]) == multiset(s) - multiset{s[0]}
  {
    assert s == [s[0]] + s[1..];
  }

  /** No two different entries compare as equal. */
  ghost predicate TieFree(le: KeyOrder, a: seq<Entry>) {
    forall x, y :: x in a && y in a && le(x.key, y.key) && le(y.key, x.key) ==> x == y
  }

  /** Two sorted arrangements of the same tie-free entries start alike. */
  lemma SameLeast(le: KeyOrder, a: seq<Entry>, b: seq<Entry>)
    requires TotalPreorder(le) && Sorted(le, a) && Sorted(le, b)
    requires a != [] && b != [] && multiset(a) == multiset(b)
    requires TieFree(le, a)
    ensures a[0] == b[0]
  {
    assert a[0] in multiset(b) && b[0] in multiset(a);
    var i :| 0 <= i < |b| && b[i] == a[0];
    var j :| 0 <= j < |a| && a[j] == b[0];
    assert i > 0 ==> le(b[0].key, b[i].key);
    assert j > 0 ==> le(a[0].key, a[j].key);
  }

  lemma {:induction false} SortedUnique(le: KeyOrder, a: seq<Entry>, b: seq<Entry>)
    requires TotalPreorder(le) && Sorted(le, a) && Sorted(le, b)
    requires multiset(a) == multiset(b)
    requires TieFree(le, a)
    ensures a == b
  {
    assert |a| == |multiset(a)| == |multiset(b)| == |b|;
    if a != [] {
      SameLeast(le, a, b);
      TailMultiset(a);
      TailMultiset(b);
      SortedUnique(le, a[1..], b[1..]);
      assert a == [a[0]] + a[1..] && b == [b[0]] + b[1..];
    }
  }

  /** Distinct keys, as in any JavaScript object. */
  predicate DistinctKeys(entries: seq<Entry>) {
    forall i, j :: 0 <= i < j < |entries| ==> entries[i].key != entries[j].key
  }

  /**
   * The same value up to the order of keys: lists pointwise, objects by key, at every depth. The
   * printer writes undefined as null.
   */
  ghost predicate Alike(v: Json, w: Json)
    decreases v
  {
    match (v, w)
    case (List(a), List(b)) => |a| == |b| && forall i :: 0 <= i < |a| ==> Alike(a[i], b[i])
    case (Object(a), Object(b)) =>
      && DistinctKeys(a) && DistinctKeys(b)
      && (forall i :: 0 <= i < |a| ==> HasAlike(a[i], b))
      && (forall j :: 0 <= j < |b| ==> HasKey(a, b[j].key))
    case (_, _) => v == w || (IsNull(v) && IsNull(w))
  }

  ghost predicate HasAlike(e: Entry, b: seq<Entry>)
    decreases e
  {
    exists j :: 0 <= j < |b| && b[j].key == e.key && Alike(e.value, b[j].value)
  }

  predicate HasKey(a: seq<Entry>, key: string) {
    exists i :: 0 <= i < |a| && a[i].key == key
  }

  predicate IsNull(v: Json) {
    v == Null || v == Undefined
  }

  /** Objects repeat no key, at any depth. */
  ghost predicate WellKeyed(v: Json) {
    match v
    case List(items) => forall i :: 0 <= i < |items| ==> WellKeyed(items[i])
    case Object(entries) => DistinctKeys(entries) && forall i :: 0 <= i < |entries| ==> WellKeyed(entries[i].value)
    case _ => true
  }

  lemma {:induction false} DistinctKeysOnce(s: seq<Entry>, x: Entry)
    requires DistinctKeys(s)
    ensures multiset(s)[x] <= 1
  {
    if s != [] {
      var front, last := s[..|s| - 1], s[|s| - 1];
      DistinctKeysOnce(front, x);
      assert s == front + [last];
      if x == last { assert x !in front; }
    }
  }

  lemma SameEntriesSameMultiset(a: seq<Entry>, b: seq<Entry>)
    requires DistinctKeys(a) && DistinctKeys(b) && forall x :: x in a <==> x in b
    ensures multiset(a) == multiset(b)
  {
    forall x
      ensures multiset(a)[x] == multiset(b)[x]
    {
      DistinctKeysOnce(a, x);
      DistinctKeysOnce(b, x);
      assert x in a <==> x in b;
      assert x in a <==> x in multiset(a);
      assert x in b <==> x in multiset(b);
    }
  }

  /** Sorting two arrangements of the same entries gives one result if no keys tie. */
  lemma SameSort(le: KeyOrder, a: seq<Entry>, b: seq<Entry>)
    requires TotalPreorder(le) && NoTies(le) && DistinctKeys(a) && multiset(a) == multiset(b)
    ensures Sort(le, a) == Sort(le, b)
  {
    var s := Sort(le, a);
    SortPermutes(le, a);
    SortPermutes(le, b);
    SortSorts(le, a);
    SortSorts(le, b);
    assert TieFree(le, s);
    SortedUnique(le, s, Sort(le, b));
  }

  lemma {:induction false} AlikeSameCanon(le: KeyOrder, v: Json, w: Json)
    requires TotalPreorder(le) && NoTies(le) && Alike(v, w)
    ensures Canon(le, v) == Canon(le, w)
    decreases v
  {
    hide TotalPreorder, NoTies, Sort;
    match (v, w)
    case (List(a), List(b)) =>
      forall i | 0 <= i < |a|
        ensures Canon(le, a[i]) == Canon(le, b[i])
      {
        AlikeSameCanon(le, a[i], b[i]);
      }
      assert CanonItems(le, a) == CanonItems(le, b);
    case (Object(a), Object(b)) =>
      var ca, cb := CanonEntries(le, a), CanonEntries(le, b);
      forall i | 0 <= i < |a|
        ensures ca[i] in cb
      {
        assert HasAlike(a[i], b);
        var j :| 0 <= j < |b| && b[j].key == a[i].key && Alike(a[i].value, b[j].value);
        AlikeSameCanon(le, a[i].value, b[j].value);
        assert cb[j] == ca[i];
      }
      MatchedEntries(a, b, ca, cb);
      SameEntriesSameMultiset(ca, cb);
      SameSort(le, CanonEntries(le, a), CanonEntries(le, b));
    case (_, _) =>
  }

  /** Entries matched by key, one way: then both have the same. */
  lemma MatchedEntries(a: seq<Entry>, b: seq<Entry>, ca: seq<Entry>, cb: seq<Entry>)
    requires DistinctKeys(a) && DistinctKeys(b) && SameKeys(a, ca) && SameKeys(b, cb)
    requires forall i :: 0 <= i < |ca| ==> ca[i] in cb
    requires forall j :: 0 <= j < |b| ==> HasKey(a, b[j].key)
    ensures DistinctKeys(ca) && DistinctKeys(cb) && forall x :: x in ca <==> x in cb
  {
    forall j | 0 <= j < |b|
      ensures cb[j] in ca
    {
      assert HasKey(a, b[j].key);
      var i :| 0 <= i < |a| && a[i].key == b[j].key;
      var k :| 0 <= k < |cb| && cb[k] == ca[i];
      assert b[k].key == b[j].key;
    }
  }

  /** The same keys, position by position. */
  predicate SameKeys(a: seq<Entry>, ca: seq<Entry>) {
    |ca| == |a| && forall i :: 0 <= i < |a| ==> ca[i].key == a[i].key
  }

  lemma {:induction false} SameCanonAlike(le: KeyOrder, v: Json, w: Json)
    requires WellKeyed(v) && WellKeyed(w) && Canon(le, v) == Canon(le, w)
    ensures Alike(v, w)
    decreases v
  {
    match (v, w)
    case (List(a), List(b)) =>
      forall i | 0 <= i < |a|
        ensures Alike(a[i], b[i])
      {
        assert CanonItems(le, a)[i] == CanonItems(le, b)[i];
        SameCanonAlike(le, a[i], b[i]);
      }
    case (Object(a), Object(b)) =>
      SameCanonEntries(le, a, b);
      forall i | 0 <= i < |a|
        ensures HasAlike(a[i], b)
      {
        assert HasSameCanon(le, a[i], b);
        var j :| 0 <= j < |b| && b[j].key == a[i].key && Canon(le, a[i].value) == Canon(le, b[j].value);
        SameCanonAlike(le, a[i].value, b[j].value);
      }
    case (_, _) =>
  }

  predicate HasSameCanon(le: KeyOrder, e: Entry, b: seq<Entry>) {
    exists j :: 0 <= j < |b| && b[j].key == e.key && Canon(le, e.value) == Canon(le, b[j].value)
  }

  lemma {:induction false} SameCanonEntries(le: KeyOrder, a: seq<Entry>, b: seq<Entry>)
    requires Sort(le, CanonEntries(le, a)) == Sort(le, CanonEntries(le, b))
    ensures forall i :: 0 <= i < |a| ==> HasSameCanon(le, a[i], b)
    ensures forall j :: 0 <= j < |b| ==> HasKey(a, b[j].key)
  {
    hide CanonEntries, Canon, Sort, HasKey, HasSameCanon;
    forall i | 0 <= i < |a|
      ensures HasSameCanon(le, a[i], b)
    {
      FoundSameCanon(le, a, b, i);
    }
    forall j | 0 <= j < |b|
      ensures HasKey(a, b[j].key)
    {
      FoundSameCanon(le, b, a, j);
      SameCanonHasKey(le, b[j], a);
    }
  }

  lemma {:induction false} FoundSameCanon(le: KeyOrder, a: seq<Entry>, b: seq<Entry>, i: nat)
    requires i < |a| && Sort(le, CanonEntries(le, a)) == Sort(le, CanonEntries(le, b))
    ensures HasSameCanon(le, a[i], b)
  {
    hide Canon, Sort;
    var ca, cb := CanonEntries(le, a), CanonEntries(le, b);
    SortPermutes(le, ca);
    SortPermutes(le, cb);
    assert ca[i] in multiset(ca);
    var j :| 0 <= j < |cb| && cb[j] == ca[i];
    assert b[j].key == a[i].key && Canon(le, a[i].value) == Canon(le, b[j].value);
  }

  lemma SameCanonHasKey(le: KeyOrder, e: Entry, a: seq<Entry>)
    requires HasSameCanon(le, e, a)
    ensures HasKey(a, e.key)
  {
  }

  /** Main result: if no keys tie, two values have the same text exactly when they are the same up to key order. */
  lemma SameTextIffAlike(le: KeyOrder, v: Json, w: Json)
    requires TotalPreorder(le) && NoTies(le) && WellKeyed(v) && WellKeyed(w)
    ensures StableJson(le, v) == StableJson(le, w) <==> Alike(v, w)
  {
    hide Canon, Alike, WellKeyed, TotalPreorder, NoTies;
    SameTextIffSameCanon(le, v, w);
    if Alike(v, w) { AlikeSameCanon(le, v, w); }
    if Canon(le, v) == Canon(le, w) { SameCanonAlike(le, v, w); }
  }

  /** The order in which keys were inserted, at any depth, never shows in the text. */
  ghost predicate OrderNeverShows(le: KeyOrder) {
    forall v, w :: Alike(v, w) ==> StableJson(le, v) == StableJson(le, w)
  }

  lemma TiedPairCanon(le: KeyOrder, x: string, y: string)
    requires le(x, y)
    ensures Canon(le, Object([Entry(x, Null), Entry(y, Null)])) == Object([Entry(x, Null), Entry(y, Null)])
  {
    var a := [Entry(x, Null), Entry(y, Null)];
    var c := CanonEntries(le, a);
    assert c == a;
    SortFixesSorted(le, a);
  }

  lemma TiedTextsDiffer(le: KeyOrder, ex: Entry, ey: Entry)
    requires ex != ey && ex.value == Null == ey.value && le(ex.key, ey.key) && le(ey.key, ex.key)
    ensures StableJson(le, Object([ex, ey])) != StableJson(le, Object([ey, ex]))
  {
    TiedPairCanon(le, ex.key, ey.key);
    TiedPairCanon(le, ey.key, ex.key);
    assert [ex, ey][0] != [ey, ex][0];
    SameTextIffSameCanon(le, Object([ex, ey]), Object([ey, ex]));
  }

  lemma SwappedAlike(x: Entry, y: Entry)
    requires x.key != y.key && x.value == Null == y.value
    ensures Alike(Object([x, y]), Object([y, x]))
  {
    var a, b := [x, y], [y, x];
    assert b[1].key == a[0].key && b[0].key == a[1].key;
    assert Alike(a[0].value, b[1].value) && Alike(a[1].value, b[0].value);
    assert HasAlike(a[0], b) && HasAlike(a[1], b);
  }

  /** Two tied keys stay in insertion order, and the text shows it. */
  lemma TiedKeysShow(le: KeyOrder, x: string, y: string)
    requires le(x, y) && le(y, x) && x != y
    ensures !OrderNeverShows(le)
  {
    hide Alike, StableJson;
    TiedTextsDiffer(le, Entry(x, Null), Entry(y, Null));
    SwappedAlike(Entry(x, Null), Entry(y, Null));
  }

  /** Main result: insertion order, at every depth, is invisible exactly when the comparator ties no two keys. */
  lemma InsertionOrderIffNoTies(le: KeyOrder)
    requires TotalPreorder(le)
    ensures OrderNeverShows(le) <==> NoTies(le)
  {
    hide Alike, StableJson, TotalPreorder;
    if NoTies(le) {
      forall v, w | Alike(v, w)
        ensures StableJson(le, v) == StableJson(le, w)
      {
        AlikeSameCanon(le, v, w);
        SameTextIffSameCanon(le, v, w);
      }
    } else {
      var x, y :| le(x, y) && le(y, x) && x != y;
      TiedKeysShow(le, x, y);
    }
  }
}
