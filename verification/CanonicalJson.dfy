// The canonical printer that signs audit payloads (src/service.ts, `stableJson`) and the parser
// that reads stored payloads back (`parseJsonRecord`).
//
// The order on object keys is a parameter: the source sorts with `localeCompare`, which is a total
// preorder but may call two different keys equal.

module CanonicalJson {
  import opened Prelude

  predicate IsNumberChar(c: char) {
    '0' <= c <= '9' || c == '-' || c == '+' || c == '.' || c == 'e' || c == 'E'
  }

  /** The shape shared by all texts that JavaScript prints for finite numbers. */
  predicate IsNumberToken(s: string) {
    && s != ""
    && (s[0] == '-' || '0' <= s[0] <= '9')
    && forall i :: 0 <= i < |s| ==> IsNumberChar(s[i])
  }

  type NumberToken = s: string | IsNumberToken(s) witness "0"

  /** A JavaScript value as the printer sees it; object entries are in own-property order. */
  datatype Json =
    | Undefined
    | Null
    | Bool(flag: bool)
    | Number(token: NumberToken)
    | Text(text: string)
    | List(items: seq<Json>)
    | Object(entries: seq<Entry>)

  datatype Entry = Entry(key: string, value: Json)

  type KeyOrder = (string, string) -> bool

  /** What a comparator must be for sorting to make sense: any two keys compare, transitively. */
  ghost predicate TotalPreorder(le: KeyOrder) {
    && (forall a, b :: le(a, b) || le(b, a))
    && (forall a, b, c :: le(a, b) && le(b, c) ==> le(a, c))
  }

  /** No two different keys compare as equal. */
  ghost predicate NoTies(le: KeyOrder) {
    forall a, b :: le(a, b) && le(b, a) ==> a == b
  }

  // ---------- string literals ----------

  function HexDigit(n: int): char
    requires 0 <= n < 16
  {
    if n < 10 then '0' + n as char else 'a' + (n - 10) as char
  }

  function EscapeChar(c: char): string {
    if c == '"' then "\\\""
    else if c == '\\' then "\\\\"
    else if c == '\U{0008}' then "\\b"
    else if c == '\U{000C}' then "\\f"
    else if c == '\n' then "\\n"
    else if c == '\r' then "\\r"
    else if c == '\t' then "\\t"
    else if c < ' ' then "\\u00" + [HexDigit(c as int / 16), HexDigit(c as int % 16)]
    else [c]
  }

  function Escape(s: string): string {
    if s == "" then "" else EscapeChar(s[0]) + Escape(s[1..])
  }

  function Quote(s: string): string {
    "\"" + Escape(s) + "\""
  }

  // ---------- the plain printer (JSON.stringify, entries in the order given) ----------

  function Render(v: Json): string
    decreases v, 0
  {
    match v
    case Undefined => "null"
    case Null => "null"
    case Bool(b) => if b then "true" else "false"
    case Number(token) => token
    case Text(s) => Quote(s)
    case List(items) => "[" + RenderItems(items) + "]"
    case Object(entries) => "{" + RenderEntries(entries) + "}"
  }

  function RenderItems(items: seq<Json>): string
    decreases items, 1
  {
    if items == [] then ""
    else if |items| == 1 then Render(items[0])
    else Render(items[0]) + "," + RenderItems(items[1..])
  }

  function RenderEntry(e: Entry): string
    decreases e, 1
  {
    Quote(e.key) + ":" + Render(e.value)
  }

  function RenderEntries(entries: seq<Entry>): string
    decreases entries, 2
  {
    if entries == [] then ""
    else if |entries| == 1 then RenderEntry(entries[0])
    else RenderEntry(entries[0]) + "," + RenderEntries(entries[1..])
  }

  // ---------- the canonical printer ----------

  function Insert(le: KeyOrder, e: Entry, sorted: seq<Entry>): (r: seq<Entry>)
    ensures forall x :: x in r ==> x == e || x in sorted
  {
    if sorted == [] then [e]
    else if le(e.key, sorted[0].key) then [e] + sorted
    else [sorted[0]] + Insert(le, e, sorted[1..])
  }

  /** The stable sort by key. */
  function Sort(le: KeyOrder, entries: seq<Entry>): (r: seq<Entry>)
    ensures forall x :: x in r ==> x in entries
  {
    if entries == [] then [] else Insert(le, entries[0], Sort(le, entries[1..]))
  }

  function StableJson(le: KeyOrder, v: Json): string
    decreases v, 1, 0
  {
    match v
    case Undefined => "null"
    case Null => "null"
    case Bool(b) => if b then "true" else "false"
    case Number(token) => token
    case Text(s) => Quote(s)
    case List(items) => "[" + StableItems(le, items) + "]"
    case Object(entries) => "{" + StableEntries(le, v, Sort(le, entries)) + "}"
  }

  function StableItems(le: KeyOrder, items: seq<Json>): string
    decreases items, 2, 0
  {
    if items == [] then ""
    else if |items| == 1 then StableJson(le, items[0])
    else StableJson(le, items[0]) + "," + StableItems(le, items[1..])
  }

  lemma EntryInsideParent(parent: Json, e: Entry)
    requires parent.Object? && e in parent.entries
    ensures e.value < parent
  {
    var k :| 0 <= k < |parent.entries| && parent.entries[k] == e;
    assert parent.entries[k] < parent;
  }

  /** Prints already sorted entries of `parent`. */
  function StableEntries(le: KeyOrder, parent: Json, sorted: seq<Entry>): string
    requires parent.Object? && forall e :: e in sorted ==> e in parent.entries
    decreases parent, 0, |sorted|
  {
    if sorted == [] then ""
    else
      EntryInsideParent(parent, sorted[0]);
      var first := Quote(sorted[0].key) + ":" + StableJson(le, sorted[0].value);
      if |sorted| == 1 then first
      else first + "," + StableEntries(le, parent, sorted[1..])
  }

  /** The value that a canonical text denotes: keys sorted at every depth, undefined read as null. */
  function Canon(le: KeyOrder, v: Json): (r: Json)
    decreases v, 0
  {
    match v
    case Undefined => Null
    case List(items) => List(CanonItems(le, items))
    case Object(entries) => Object(Sort(le, CanonEntries(le, entries)))
    case _ => v
  }

  function CanonItems(le: KeyOrder, items: seq<Json>): (r: seq<Json>)
    ensures |r| == |items|
    ensures forall i :: 0 <= i < |items| ==> r[i] == Canon(le, items[i])
    decreases items, 1
  {
    if items == [] then [] else [Canon(le, items[0])] + CanonItems(le, items[1..])
  }

  function CanonEntries(le: KeyOrder, entries: seq<Entry>): (r: seq<Entry>)
    ensures |r| == |entries|
    ensures forall i :: 0 <= i < |entries| ==> r[i] == Entry(entries[i].key, Canon(le, entries[i].value))
    decreases entries, 1
  {
    if entries == [] then []
    else [Entry(entries[0].key, Canon(le, entries[0].value))] + CanonEntries(le, entries[1..])
  }

  // ---------- the parser ----------

  /** A parsed thing together with the text after it. */
  datatype Parsed<+T> = Parsed(value: T, rest: string)

  function HexValue(c: char): Option<nat> {
    if '0' <= c <= '9' then Some((c - '0') as int)
    else if 'a' <= c <= 'f' then Some((c - 'a') as int + 10)
    else if 'A' <= c <= 'F' then Some((c - 'A') as int + 10)
    else None
  }

  /** One escape sequence after its backslash. */
  function ParseEscape(t: string): (r: Option<Parsed<char>>)
    ensures r.Some? ==> |r.value.rest| < |t|
  {
    if t == "" then None
    else if t[0] == '"' || t[0] == '\\' || t[0] == '/' then Some(Parsed(t[0], t[1..]))
    else if t[0] == 'b' then Some(Parsed('\U{0008}', t[1..]))
    else if t[0] == 'f' then Some(Parsed('\U{000C}', t[1..]))
    else if t[0] == 'n' then Some(Parsed('\n', t[1..]))
    else if t[0] == 'r' then Some(Parsed('\r', t[1..]))
    else if t[0] == 't' then Some(Parsed('\t', t[1..]))
    else if t[0] == 'u' && |t| >= 5 then
      var (a, b, c, d) := (HexValue(t[1]), HexValue(t[2]), HexValue(t[3]), HexValue(t[4]));
      if a.Some? && b.Some? && c.Some? && d.Some? then
        var code := ((a.value * 16 + b.value) * 16 + c.value) * 16 + d.value;
        if code < 0xD800 || 0xE000 <= code < 0x10000 then Some(Parsed(code as char, t[5..])) else None
      else None
    else None
  }

  /** The rest of a string literal after its opening quote. */
  function ParseChars(t: string): (r: Option<Parsed<string>>)
    ensures r.Some? ==> |r.value.rest| < |t|
  {
    if t == "" then None
    else if t[0] == '"' then Some(Parsed("", t[1..]))
    else if t[0] == '\\' then
      match ParseEscape(t[1..])
      case None => None
      case Some(c) =>
        match ParseChars(c.rest)
        case None => None
        case Some(more) => Some(Parsed([c.value] + more.value, more.rest))
    else if t[0] < ' ' then None
    else
      match ParseChars(t[1..])
      case None => None
      case Some(more) => Some(Parsed([t[0]] + more.value, more.rest))
  }

  function NumberRun(t: string): (n: nat)
    ensures n <= |t|
    ensures forall i :: 0 <= i < n ==> IsNumberChar(t[i])
    ensures n < |t| ==> !IsNumberChar(t[n])
  {
    if t == "" || !IsNumberChar(t[0]) then 0 else 1 + NumberRun(t[1..])
  }

  function ParseValue(t: string): (r: Option<Parsed<Json>>)
    ensures r.Some? ==> |r.value.rest| < |t|
    decreases |t|, 0
  {
    if "null" <= t then Some(Parsed(Null, t[4..]))
    else if "true" <= t then Some(Parsed(Bool(true), t[4..]))
    else if "false" <= t then Some(Parsed(Bool(false), t[5..]))
    else if t == "" then None
    else if t[0] == '"' then
      match ParseChars(t[1..])
      case None => None
      case Some(s) => Some(Parsed(Text(s.value), s.rest))
    else if t[0] == '[' then
      if |t| > 1 && t[1] == ']' then Some(Parsed(List([]), t[2..]))
      else
        match ParseItems(t[1..])
        case None => None
        case Some(items) => Some(Parsed(List(items.value), items.rest))
    else if t[0] == '{' then
      if |t| > 1 && t[1] == '}' then Some(Parsed(Object([]), t[2..]))
      else
        match ParseEntries(t[1..])
        case None => None
        case Some(entries) => Some(Parsed(Object(entries.value), entries.rest))
    else
      var n := NumberRun(t);
      if IsNumberToken(t[..n]) then Some(Parsed(Number(t[..n]), t[n..])) else None
  }

  function ParseItems(t: string): (r: Option<Parsed<seq<Json>>>)
    ensures r.Some? ==> |r.value.rest| < |t|
    decreases |t|, 1
  {
    match ParseValue(t)
    case None => None
    case Some(v) =>
      if v.rest != "" && v.rest[0] == ']' then Some(Parsed([v.value], v.rest[1..]))
      else if v.rest != "" && v.rest[0] == ',' then
        match ParseItems(v.rest[1..])
        case None => None
        case Some(more) => Some(Parsed([v.value] + more.value, more.rest))
      else None
  }

  function ParseEntry(t: string): (r: Option<Parsed<Entry>>)
    ensures r.Some? ==> |r.value.rest| < |t|
    decreases |t|, 1
  {
    if t == "" || t[0] != '"' then None
    else
      match ParseChars(t[1..])
      case None => None
      case Some(k) =>
        if k.rest == "" || k.rest[0] != ':' then None
        else
          match ParseValue(k.rest[1..])
          case None => None
          case Some(v) => Some(Parsed(Entry(k.value, v.value), v.rest))
  }

  function ParseEntries(t: string): (r: Option<Parsed<seq<Entry>>>)
    ensures r.Some? ==> |r.value.rest| < |t|
    decreases |t|, 2
  {
    match ParseEntry(t)
    case None => None
    case Some(e) =>
      if e.rest != "" && e.rest[0] == '}' then Some(Parsed([e.value], e.rest[1..]))
      else if e.rest != "" && e.rest[0] == ',' then
        match ParseEntries(e.rest[1..])
        case None => None
        case Some(more) => Some(Parsed([e.value] + more.value, more.rest))
      else None
  }

  /** The whole text must be one value (JSON.parse). */
  function Parse(t: string): Option<Json> {
    match ParseValue(t)
    case Some(p) => if p.rest == "" then Some(p.value) else None
    case None => None
  }

  /** Reading a stored payload column: the empty text stands for the empty record. */
  function ParseJsonRecord(t: string): Option<Json> {
    if t == "" then Some(Object([])) else Parse(t)
  }
}
