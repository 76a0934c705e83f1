// Principal tokens (src/plugins/principal-token-auth.ts): minting and verifying HS256 tokens, and the
// window against replays.

module PrincipalTokens {
  import opened Prelude
  import opened Decimal
  import opened CanonicalJson
  import opened CanonicalJsonLaws
  import opened Base64Url

  /** HMAC-SHA256, UTF-8 in both directions, and the reading of number tokens. */
  datatype Runtime = Runtime(
    hmac: (string, string) -> seq<Byte>, utf8: string -> seq<Byte>, text: seq<Byte> -> string, number: NumberToken -> real)

  /** The working hypotheses on them. */
  ghost predicate Faithful(rt: Runtime) {
    && (forall s :: rt.text(rt.utf8(s)) == s)
    && (forall s :: s != "" ==> rt.utf8(s) != [])
    && (forall k, s :: rt.hmac(k, s) != [])
  }

  /** The number comes back exactly; JavaScript's do up to 2^53 in size. */
  ghost predicate ReadsBack(rt: Runtime, n: int) {
    rt.number(IntToken(n)) == n as real
  }

  function IntToken(n: int): NumberToken {
    if n >= 0 then Digits(n)
    else
      var d := Digits(-n);
      assert forall i :: 0 <= i < |d| ==> IsNumberChar(d[i]);
      "-" + d
  }

  datatype Claims = Claims(sub: string, oid: string, scp: seq<string>, pvd: string, iat: real, exp: real, jti: string)

  // ---------- minting ----------

  const HEADER := Object([Entry("alg", Text("HS256")), Entry("typ", Text("JWT"))])

  function TextItems(items: seq<string>): (r: seq<Json>)
    ensures |r| == |items| && forall i :: 0 <= i < |items| ==> r[i] == Text(items[i])
  {
    seq(|items|, i requires 0 <= i < |items| => Text(items[i]))
  }

  function Payload(actorId: string, orgId: string, scopes: seq<string>, provider: string, iat: int, exp: int, jti: string): Json {
    Object([Entry("sub", Text(actorId)), Entry("oid", Text(orgId)), Entry("scp", List(TextItems(scopes))),
            Entry("pvd", Text(provider)), Entry("iat", Number(IntToken(iat))), Entry("exp", Number(IntToken(exp))),
            Entry("jti", Text(jti))])
  }

  function EncodeJson(rt: Runtime, v: Json): string {
    Base64Url.Base64Url(rt.utf8(Render(v)))
  }

  function Sign(rt: Runtime, secret: string, header: Json, payload: Json): string {
    var signingInput := EncodeJson(rt, header) + "." + EncodeJson(rt, payload);
    signingInput + "." + Base64Url.Base64Url(rt.hmac(secret, signingInput))
  }

  function MintPrincipalToken(rt: Runtime, secret: string, actorId: string, orgId: string, scopes: seq<string>, provider: string,
                              ttlSeconds: int, jti: string, now: int): string
  {
    Sign(rt, secret, HEADER, Payload(actorId, orgId, scopes, provider, now, now + ttlSeconds, jti))
  }

  // ---------- verifying ----------

  /** `split(".")` */
  function SplitDots(s: string): (r: seq<string>)
    ensures r != []
  {
    if s == "" then [""]
    else
      var rest := SplitDots(s[1..]);
      if s[0] == '.' then [""] + rest else [[s[0]] + rest[0]] + rest[1..]
  }

  /** A property of a parsed object; the last of several entries counts. */
  function Field(entries: seq<Entry>, key: string): Option<Json> {
    if entries == [] then None
    else
      var last := entries[|entries| - 1];
      if last.key == key then Some(last.value) else Field(entries[..|entries| - 1], key)
  }

  function ReadJson(rt: Runtime, encoded: string): Option<Json> {
    Parse(rt.text(DecodeUrl(encoded)))
  }

  predicate HeaderOk(v: Option<Json>) {
    && v.Some? && v.value.Object?
    && Field(v.value.entries, "alg") == Some(Text("HS256"))
    && (Field(v.value.entries, "typ") == None || Field(v.value.entries, "typ") == Some(Text("JWT")))
  }

  function TextsOf(items: seq<Json>): seq<string> {
    if items == [] then []
    else TextsOf(items[..|items| - 1]) + (if items[|items| - 1].Text? then [items[|items| - 1].text] else [])
  }

  predicate IsText(v: Option<Json>) {
    v.Some? && v.value.Text?
  }

  predicate IsNumber(v: Option<Json>) {
    v.Some? && v.value.Number?
  }

  /** The claims of a payload, if it has all of them. */
  function ReadClaims(rt: Runtime, v: Option<Json>): Option<Claims> {
    if v.None? || !v.value.Object? then None
    else
      var e := v.value.entries;
      var (sub, oid, exp, iat, jti) := (Field(e, "sub"), Field(e, "oid"), Field(e, "exp"), Field(e, "iat"), Field(e, "jti"));
      var (scp, pvd) := (Field(e, "scp"), Field(e, "pvd"));
      if !IsText(sub) || !IsText(oid) || !IsNumber(exp) || !IsNumber(iat) || !IsText(jti) then None
      else
        Some(Claims(sub.value.text, oid.value.text, if scp.Some? && scp.value.List? then TextsOf(scp.value.items) else [],
                    if IsText(pvd) then pvd.value.text else "principal-token-auth",
                    rt.number(iat.value.token), rt.number(exp.value.token), jti.value.text))
  }

  function VerifyJwt(rt: Runtime, token: string, secret: string, now: int): Option<Claims> {
    var parts := SplitDots(token);
    if |parts| != 3 || parts[0] == "" || parts[1] == "" || parts[2] == "" then None
    else if !HeaderOk(ReadJson(rt, parts[0])) then None
    else if DecodeUrl(parts[2]) != rt.hmac(secret, parts[0] + "." + parts[1]) then None
    else
      match ReadClaims(rt, ReadJson(rt, parts[1]))
      case None => None
      case Some(c) => if c.exp <= now as real || c.iat > (now + 60) as real then None else Some(c)
  }

  // ---------- round trip ----------

  lemma {:induction false} SplitsAtDot(a: string, b: string)
    requires '.' !in a
    ensures SplitDots(a + "." + b) == [a] + SplitDots(b)
  {
    var s := a + "." + b;
    if a == "" {
      assert s[1..] == b;
    } else {
      assert s[1..] == a[1..] + "." + b;
      SplitsAtDot(a[1..], b);
      assert [a[0]] + a[1..] == a;
    }
  }

  lemma {:induction false} NothingToSplit(a: string)
    requires '.' !in a
    ensures SplitDots(a) == [a]
  {
    if a != "" {
      NothingToSplit(a[1..]);
      assert [a[0]] + a[1..] == a;
    }
  }

  lemma ThreeParts(a: string, b: string, c: string)
    requires '.' !in a && '.' !in b && '.' !in c
    ensures SplitDots(a + "." + b + "." + c) == [a, b, c]
  {
    assert a + "." + b + "." + c == a + "." + (b + "." + c);
    SplitsAtDot(a, b + "." + c);
    SplitsAtDot(b, c);
    NothingToSplit(c);
  }

  lemma EncodedHasNoDot(b: seq<Byte>)
    requires b != []
    ensures '.' !in Base64Url.Base64Url(b) && Base64Url.Base64Url(b) != ""
  {
    TextShape(b);
  }

  lemma JsonSurvives(rt: Runtime, v: Json)
    requires Faithful(rt) && v.Object? && Defined(v)
    ensures ReadJson(rt, EncodeJson(rt, v)) == Some(v)
    ensures '.' !in EncodeJson(rt, v) && EncodeJson(rt, v) != ""
  {
    RoundTrip(rt.utf8(Render(v)));
    assert Render(v) + "" == Render(v);
    ParseRendered(v, "");
    assert Render(v) != "";
    EncodedHasNoDot(rt.utf8(Render(v)));
  }

  lemma HeaderReads()
    ensures HEADER.Object? && Defined(HEADER) && HeaderOk(Some(HEADER))
  {
    var e := HEADER.entries;
    assert e[..1] == [Entry("alg", Text("HS256"))];
  }

  lemma {:induction false} TextsComeBack(items: seq<string>)
    ensures TextsOf(TextItems(items)) == items
  {
    if items != [] {
      var front := items[..|items| - 1];
      assert TextItems(items)[..|items| - 1] == TextItems(front);
      TextsComeBack(front);
    }
  }

  /** Looking a key up in entries with different keys. */
  lemma {:induction false} FieldFinds(entries: seq<Entry>, i: nat)
    requires i < |entries| && forall j :: i < j < |entries| ==> entries[j].key != entries[i].key
    ensures Field(entries, entries[i].key) == Some(entries[i].value)
  {
    if i < |entries| - 1 {
      FieldFinds(entries[..|entries| - 1], i);
    }
  }

  const CLAIM_KEYS := ["sub", "oid", "scp", "pvd", "iat", "exp", "jti"]

  lemma ClaimKeysDiffer(i: nat, j: nat)
    requires i < j < |CLAIM_KEYS|
    ensures CLAIM_KEYS[i] != CLAIM_KEYS[j]
  {
    assert CLAIM_KEYS[i][0] != CLAIM_KEYS[j][0] || CLAIM_KEYS[i][1] != CLAIM_KEYS[j][1];
  }

  /** A field of entries listed under the claim keys. */
  lemma ClaimField(entries: seq<Entry>, i: nat)
    requires |entries| == |CLAIM_KEYS| && (forall k :: 0 <= k < |entries| ==> entries[k].key == CLAIM_KEYS[k]) && i < |entries|
    ensures Field(entries, CLAIM_KEYS[i]) == Some(entries[i].value)
  {
    hide Field;
    forall j | i < j < |entries|
      ensures entries[j].key != entries[i].key
    {
      ClaimKeysDiffer(i, j);
    }
    FieldFinds(entries, i);
  }

  /** The payload's fields, each under its own key. */
  lemma PayloadFields(actorId: string, orgId: string, scopes: seq<string>, provider: string, iat: int, exp: int, jti: string)
    ensures var v := Payload(actorId, orgId, scopes, provider, iat, exp, jti);
            && v.Object?
            && Field(v.entries, "sub") == Some(Text(actorId)) && Field(v.entries, "oid") == Some(Text(orgId))
            && Field(v.entries, "scp") == Some(List(TextItems(scopes))) && Field(v.entries, "pvd") == Some(Text(provider))
            && Field(v.entries, "iat") == Some(Number(IntToken(iat))) && Field(v.entries, "exp") == Some(Number(IntToken(exp)))
            && Field(v.entries, "jti") == Some(Text(jti))
  {
    hide Field, IntToken, TextItems;
    var e := Payload(actorId, orgId, scopes, provider, iat, exp, jti).entries;
    assert |e| == |CLAIM_KEYS|;
    ClaimField(e, 0);
    ClaimField(e, 1);
    ClaimField(e, 2);
    ClaimField(e, 3);
    ClaimField(e, 4);
    ClaimField(e, 5);
    ClaimField(e, 6);
  }

  lemma PayloadDefined(actorId: string, orgId: string, scopes: seq<string>, provider: string, iat: int, exp: int, jti: string)
    ensures Defined(Payload(actorId, orgId, scopes, provider, iat, exp, jti))
  {
    var e := Payload(actorId, orgId, scopes, provider, iat, exp, jti).entries;
    assert Defined(List(TextItems(scopes)));
    forall i | 0 <= i < |e|
      ensures Defined(e[i].value)
    {
    }
  }

  lemma PayloadReads(rt: Runtime, actorId: string, orgId: string, scopes: seq<string>, provider: string, iat: int, exp: int, jti: string)
    requires Faithful(rt) && ReadsBack(rt, iat) && ReadsBack(rt, exp)
    ensures var v := Payload(actorId, orgId, scopes, provider, iat, exp, jti);
            && v.Object? && Defined(v)
            && ReadClaims(rt, Some(v)) == Some(Claims(actorId, orgId, scopes, provider, iat as real, exp as real, jti))
  {
    hide Field, Payload, IntToken, TextsOf, TextItems;
    PayloadDefined(actorId, orgId, scopes, provider, iat, exp, jti);
    PayloadFields(actorId, orgId, scopes, provider, iat, exp, jti);
    TextsComeBack(scopes);
  }

  /**
   * Main result: a minted token verifies to exactly the minted claims from 60 seconds before it was
   * minted up to, but not at, its expiry, and at no other time.
   */
  lemma MintedTokenVerifies(rt: Runtime, secret: string, actorId: string, orgId: string, scopes: seq<string>, provider: string,
                            ttlSeconds: int, jti: string, mintedAt: int, now: int)
    requires Faithful(rt) && ReadsBack(rt, mintedAt) && ReadsBack(rt, mintedAt + ttlSeconds)
    ensures var token := MintPrincipalToken(rt, secret, actorId, orgId, scopes, provider, ttlSeconds, jti, mintedAt);
            VerifyJwt(rt, token, secret, now)
            == if mintedAt - 60 <= now < mintedAt + ttlSeconds then
                 Some(Claims(actorId, orgId, scopes, provider, mintedAt as real, (mintedAt + ttlSeconds) as real, jti))
               else None
  {
    hide ReadClaims, Payload, EncodeJson, HeaderOk, ReadJson, Base64Url.Base64Url, DecodeUrl, SplitDots;
    var payload := Payload(actorId, orgId, scopes, provider, mintedAt, mintedAt + ttlSeconds, jti);
    HeaderReads();
    PayloadReads(rt, actorId, orgId, scopes, provider, mintedAt, mintedAt + ttlSeconds, jti);
    JsonSurvives(rt, HEADER);
    JsonSurvives(rt, payload);
    var h, p := EncodeJson(rt, HEADER), EncodeJson(rt, payload);
    var digest := rt.hmac(secret, h + "." + p);
    EncodedHasNoDot(digest);
    RoundTrip(digest);
    ThreeParts(h, p, Base64Url.Base64Url(digest));
  }

  function JoinDots(parts: seq<string>): string {
    if parts == [] then ""
    else if |parts| == 1 then parts[0]
    else parts[0] + "." + JoinDots(parts[1..])
  }

  /** Splitting at dots loses nothing. */
  lemma {:induction false} SplitJoins(s: string)
    ensures JoinDots(SplitDots(s)) == s && forall i :: 0 <= i < |SplitDots(s)| ==> '.' !in SplitDots(s)[i]
  {
    if s != "" {
      var rest := SplitDots(s[1..]);
      SplitJoins(s[1..]);
      assert s == [s[0]] + s[1..];
      if s[0] == '.' {
        assert ([""] + rest)[1..] == rest;
      } else {
        assert ([[s[0]] + rest[0]] + rest[1..])[1..] == rest[1..];
      }
    }
  }

  lemma JoinThree(h: string, p: string, t: string)
    ensures JoinDots([h, p, t]) == h + "." + p + "." + t
  {
    var three, two := [h, p, t], [p, t];
    assert three[1..] == two && two[1..] == [t];
    assert JoinDots(two) == p + "." + t;
    assert h + "." + (p + "." + t) == h + "." + p + "." + t;
  }

  /** The property's value is the last one given. */
  predicate LastGiven(entries: seq<Entry>, key: string, value: Json) {
    exists i :: 0 <= i < |entries| && entries[i] == Entry(key, value) && forall j :: i < j < |entries| ==> entries[j].key != key
  }

  predicate NotGiven(entries: seq<Entry>, key: string) {
    forall i :: 0 <= i < |entries| ==> entries[i].key != key
  }

  lemma {:induction false} FieldIff(entries: seq<Entry>, key: string)
    ensures forall v :: Field(entries, key) == Some(v) <==> LastGiven(entries, key, v)
    ensures Field(entries, key) == None <==> NotGiven(entries, key)
  {
    if entries != [] {
      var front, last := entries[..|entries| - 1], entries[|entries| - 1];
      FieldIff(front, key);
      assert entries == front + [last];
      forall v
        ensures Field(entries, key) == Some(v) <==> LastGiven(entries, key, v)
      {
        LastGivenSnoc(front, last, key, v);
      }
    }
  }

  lemma LastGivenSnoc(front: seq<Entry>, last: Entry, key: string, v: Json)
    ensures LastGiven(front + [last], key, v) <==> if last.key == key then last.value == v else LastGiven(front, key, v)
  {
    var all := front + [last];
    assert all[|front|] == last && forall i :: 0 <= i < |front| ==> all[i] == front[i];
    if last.key == key && last.value == v { assert all[|front|] == Entry(key, v); }
    if last.key != key && LastGiven(front, key, v) {
      var i :| 0 <= i < |front| && front[i] == Entry(key, v) && forall j :: i < j < |front| ==> front[j].key != key;
      assert all[i] == Entry(key, v);
    }
  }

  /** An object that names the algorithm HS256 and, if it names a type, the type JWT. */
  predicate SaysHs256(header: Option<Json>) {
    && header.Some? && header.value.Object?
    && LastGiven(header.value.entries, "alg", Text("HS256"))
    && (NotGiven(header.value.entries, "typ") || LastGiven(header.value.entries, "typ", Text("JWT")))
  }

  ghost predicate GivenNumber(rt: Runtime, entries: seq<Entry>, key: string, n: real) {
    exists token: NumberToken :: LastGiven(entries, key, Number(token)) && rt.number(token) == n
  }

  /** An object that gives all the claims; scopes and provider may be missing. */
  ghost predicate SaysClaims(rt: Runtime, payload: Option<Json>, c: Claims) {
    && payload.Some? && payload.value.Object?
    && var e := payload.value.entries;
    && LastGiven(e, "sub", Text(c.sub)) && LastGiven(e, "oid", Text(c.oid)) && LastGiven(e, "jti", Text(c.jti))
    && GivenNumber(rt, e, "exp", c.exp) && GivenNumber(rt, e, "iat", c.iat)
    && (if exists items :: LastGiven(e, "scp", List(items)) then exists items :: LastGiven(e, "scp", List(items)) && c.scp == TextsOf(items)
        else c.scp == [])
    && (if exists s :: LastGiven(e, "pvd", Text(s)) then LastGiven(e, "pvd", Text(c.pvd)) else c.pvd == "principal-token-auth")
  }

  lemma HeaderIff(v: Option<Json>)
    ensures HeaderOk(v) <==> SaysHs256(v)
  {
    if v.Some? && v.value.Object? {
      FieldIff(v.value.entries, "alg");
      FieldIff(v.value.entries, "typ");
    }
    hide Field, LastGiven, NotGiven;
  }

  lemma NumberIff(rt: Runtime, e: seq<Entry>, key: string, n: real)
    ensures GivenNumber(rt, e, key, n) <==> IsNumber(Field(e, key)) && rt.number(Field(e, key).value.token) == n
  {
    hide Field, LastGiven;
    FieldIff(e, key);
    if IsNumber(Field(e, key)) { assert LastGiven(e, key, Number(Field(e, key).value.token)); }
  }

  lemma TextIff(e: seq<Entry>, key: string, s: string)
    ensures LastGiven(e, key, Text(s)) <==> IsText(Field(e, key)) && Field(e, key).value.text == s
  {
    hide Field, LastGiven;
    FieldIff(e, key);
  }

  lemma ScopesIff(e: seq<Entry>, scp: seq<string>)
    ensures (if exists items :: LastGiven(e, "scp", List(items)) then exists items :: LastGiven(e, "scp", List(items)) && scp == TextsOf(items)
             else scp == [])
            <==> scp == var f := Field(e, "scp"); if f.Some? && f.value.List? then TextsOf(f.value.items) else []
  {
    hide Field, LastGiven, TextsOf;
    FieldIff(e, "scp");
    var f := Field(e, "scp");
    if f.Some? && f.value.List? { assert LastGiven(e, "scp", List(f.value.items)); }
  }

  lemma ProviderIff(e: seq<Entry>, pvd: string)
    ensures (if exists s :: LastGiven(e, "pvd", Text(s)) then LastGiven(e, "pvd", Text(pvd)) else pvd == "principal-token-auth")
            <==> pvd == if IsText(Field(e, "pvd")) then Field(e, "pvd").value.text else "principal-token-auth"
  {
    hide Field, LastGiven;
    TextIff(e, "pvd", pvd);
    if IsText(Field(e, "pvd")) { TextIff(e, "pvd", Field(e, "pvd").value.text); }
    forall s | LastGiven(e, "pvd", Text(s))
      ensures IsText(Field(e, "pvd"))
    {
      TextIff(e, "pvd", s);
    }
  }

  lemma ClaimsIff(rt: Runtime, v: Option<Json>, c: Claims)
    ensures ReadClaims(rt, v) == Some(c) <==> SaysClaims(rt, v, c)
  {
    hide Field, LastGiven, GivenNumber, TextsOf;
    if v.Some? && v.value.Object? {
      var e := v.value.entries;
      TextIff(e, "sub", c.sub);
      TextIff(e, "oid", c.oid);
      TextIff(e, "jti", c.jti);
      NumberIff(rt, e, "exp", c.exp);
      NumberIff(rt, e, "iat", c.iat);
      ScopesIff(e, c.scp);
      ProviderIff(e, c.pvd);
    }
  }

  /** The token consists of header, payload and signature, signed with the secret, and says `c` at a time when `c` is valid. */
  ghost predicate Genuine(rt: Runtime, h: string, p: string, t: string, secret: string, now: int, c: Claims) {
    && h != "" && p != "" && t != "" && '.' !in h && '.' !in p && '.' !in t
    && SaysHs256(ReadJson(rt, h))
    && DecodeUrl(t) == rt.hmac(secret, h + "." + p)
    && SaysClaims(rt, ReadJson(rt, p), c)
    && (now as real) < c.exp && c.iat <= (now + 60) as real
  }

  /** Main result: a text is accepted with claims `c` exactly if it is a genuine token that says `c`, and valid now. */
  lemma AcceptedIff(rt: Runtime, token: string, secret: string, now: int, c: Claims)
    ensures VerifyJwt(rt, token, secret, now) == Some(c)
            <==> exists h, p, t :: token == h + "." + p + "." + t && Genuine(rt, h, p, t, secret, now, c)
  {
    hide ReadClaims, HeaderOk, SaysClaims, SaysHs256, ReadJson, DecodeUrl, SplitDots, JoinDots;
    if VerifyJwt(rt, token, secret, now) == Some(c) {
      var parts := SplitDots(token);
      HeaderIff(ReadJson(rt, parts[0]));
      ClaimsIff(rt, ReadJson(rt, parts[1]), c);
      SplitJoins(token);
      assert parts == [parts[0], parts[1], parts[2]];
      JoinThree(parts[0], parts[1], parts[2]);
      assert Genuine(rt, parts[0], parts[1], parts[2], secret, now, c);
    }
    if h, p, t :| token == h + "." + p + "." + t && Genuine(rt, h, p, t, secret, now, c) {
      ThreeParts(h, p, t);
      HeaderIff(ReadJson(rt, h));
      ClaimsIff(rt, ReadJson(rt, p), c);
    }
  }

  // ---------- replays ----------

  class ReplayWindow {
    const windowSeconds: int
    var seen: map<string, real>

    constructor (windowSeconds: int)
      ensures this.windowSeconds == windowSeconds && seen == map[]
    {
      this.windowSeconds, seen := windowSeconds, map[];
    }

    /** True if the token id is new, and then records it. */
    method Check(jti: string, exp: real, now: int) returns (isNew: bool)
      modifies `seen
      ensures (seen, isNew) == Checked(windowSeconds, old(seen), jti, exp, now)
    {
      if windowSeconds <= 0 {
        return true;
      }
      if |seen| > 0 && |seen| % 64 == 0 {
        var keys := seen.Keys;
        ghost var before := seen;
        while keys != {}
          invariant keys <= before.Keys
          invariant seen == map k | k in before && (k in keys || before[k] > now as real) :: before[k]
          decreases keys
        {
          var k :| k in keys;
          if seen[k] <= now as real {
            seen := seen - {k};
          }
          keys := keys - {k};
        }
        assert seen == Unexpired(before, now);
      }
      if jti in seen && seen[jti] > now as real {
        return false;
      }
      seen := seen[jti := exp];
      return true;
    }
  }

  function Unexpired(seen: map<string, real>, now: int): map<string, real> {
    map k | k in seen && seen[k] > now as real :: seen[k]
  }

  /** The window after a check, and the check's answer. */
  function Checked(windowSeconds: int, seen: map<string, real>, jti: string, exp: real, now: int): (map<string, real>, bool) {
    if windowSeconds <= 0 then (seen, true)
    else
      var kept := if |seen| > 0 && |seen| % 64 == 0 then Unexpired(seen, now) else seen;
      if jti in kept && kept[jti] > now as real then (kept, false) else (kept[jti := exp], true)
  }

  datatype Use = Use(jti: string, exp: real, now: int)

  function WindowAfter(windowSeconds: int, uses: seq<Use>): map<string, real> {
    if uses == [] then map[]
    else
      var u := uses[|uses| - 1];
      Checked(windowSeconds, WindowAfter(windowSeconds, uses[..|uses| - 1]), u.jti, u.exp, u.now).0
  }

  predicate Accepted(windowSeconds: int, uses: seq<Use>, i: nat)
    requires i < |uses|
  {
    Checked(windowSeconds, WindowAfter(windowSeconds, uses[..i]), uses[i].jti, uses[i].exp, uses[i].now).1
  }

  predicate Monotone(uses: seq<Use>) {
    forall i, j :: 0 <= i < j < |uses| ==> uses[i].now <= uses[j].now
  }

  /** While an accepted token has not expired, the window remembers it or a later use of its id that replaced it after expiry. */
  lemma {:induction false} IdStaysRecorded(windowSeconds: int, uses: seq<Use>, i: nat, n: nat)
    requires windowSeconds > 0 && Monotone(uses) && i < n <= |uses| && Accepted(windowSeconds, uses, i)
    requires forall j :: i < j < n ==> uses[j].now as real < uses[i].exp
    ensures var seen := WindowAfter(windowSeconds, uses[..n]); uses[i].jti in seen && seen[uses[i].jti] == uses[i].exp
  {
    assert uses[..n][..n - 1] == uses[..n - 1];
    if i < n - 1 {
      IdStaysRecorded(windowSeconds, uses, i, n - 1);
    }
  }

  /**
   * Main result: with a clock that never runs back, a token id is accepted at most once before the
   * expiry recorded with it, however often the window is cleaned.
   */
  lemma AcceptedAtMostOnce(windowSeconds: int, uses: seq<Use>, i: nat, j: nat)
    requires windowSeconds > 0 && Monotone(uses) && i < j < |uses| && uses[i].jti == uses[j].jti
    requires Accepted(windowSeconds, uses, i) && Accepted(windowSeconds, uses, j)
    ensures uses[i].exp <= uses[j].now as real
  {
    if uses[i].exp > uses[j].now as real {
      forall k | i < k < j
        ensures uses[k].now as real < uses[i].exp
      {
        assert uses[k].now <= uses[j].now;
      }
      IdStaysRecorded(windowSeconds, uses, i, j);
    }
  }

  /** The window holds nothing but accepted uses. */
  lemma {:induction false} RecordedWasAccepted(windowSeconds: int, uses: seq<Use>, n: nat, jti: string) returns (i: nat)
    requires n <= |uses| && jti in WindowAfter(windowSeconds, uses[..n])
    ensures i < n && uses[i].jti == jti && uses[i].exp == WindowAfter(windowSeconds, uses[..n])[jti] && Accepted(windowSeconds, uses, i)
  {
    assert uses[..n][..n - 1] == uses[..n - 1];
    var before := WindowAfter(windowSeconds, uses[..n - 1]);
    if uses[n - 1].jti == jti && Accepted(windowSeconds, uses, n - 1) && windowSeconds > 0 {
      i := n - 1;
    } else {
      assert jti in before && before[jti] == WindowAfter(windowSeconds, uses[..n])[jti];
      i := RecordedWasAccepted(windowSeconds, uses, n - 1, jti);
    }
  }

  /** An accepted use of the same id, before `j`, whose recorded expiry is still to come. */
  predicate StillRemembered(windowSeconds: int, uses: seq<Use>, i: nat, j: nat)
    requires i < j < |uses|
  {
    uses[i].jti == uses[j].jti && uses[i].exp > uses[j].now as real && Accepted(windowSeconds, uses, i)
  }

  /**
   * Main result: with a clock that never runs back, a token passes exactly if no earlier use of its id
   * was accepted with an expiry still to come; a new id always passes.
   */
  lemma PassesIff(windowSeconds: int, uses: seq<Use>, j: nat)
    requires windowSeconds > 0 && Monotone(uses) && j < |uses|
    ensures Accepted(windowSeconds, uses, j) <==> forall i :: 0 <= i < j ==> !StillRemembered(windowSeconds, uses, i, j)
  {
    if Accepted(windowSeconds, uses, j) {
      forall i | 0 <= i < j
        ensures !StillRemembered(windowSeconds, uses, i, j)
      {
        if StillRemembered(windowSeconds, uses, i, j) { AcceptedAtMostOnce(windowSeconds, uses, i, j); }
      }
    } else {
      var seen := WindowAfter(windowSeconds, uses[..j]);
      assert uses[j].jti in seen && seen[uses[j].jti] > uses[j].now as real;
      var i := RecordedWasAccepted(windowSeconds, uses, j, uses[j].jti);
      assert StillRemembered(windowSeconds, uses, i, j);
    }
  }

  /** Without a window every token passes. */
  lemma NoWindowPasses(windowSeconds: int, uses: seq<Use>, j: nat)
    requires windowSeconds <= 0 && j < |uses|
    ensures Accepted(windowSeconds, uses, j)
  {
  }

  /** So a token that is still valid when shown again is turned away. */
  lemma TokenPassesOnce(windowSeconds: int, uses: seq<Use>, i: nat, j: nat)
    requires windowSeconds > 0 && Monotone(uses) && i < j < |uses| && uses[i].jti == uses[j].jti && uses[i].exp == uses[j].exp
    requires Accepted(windowSeconds, uses, i) && uses[j].exp > uses[j].now as real
    ensures !Accepted(windowSeconds, uses, j)
  {
    hide Accepted;
    if Accepted(windowSeconds, uses, j) { AcceptedAtMostOnce(windowSeconds, uses, i, j); }
  }
}
