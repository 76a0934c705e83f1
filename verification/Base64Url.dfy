// Base64url without padding: section 5 of RFC 4648 and section 2 of RFC 7515, as
// src/plugins/principal-token-auth.ts writes and reads it.

module Base64Url {
  type Byte = b: int | 0 <= b < 256
  type Sextet = s: int | 0 <= s < 64

  function CharOf(s: Sextet): char {
    if s < 26 then 'A' + s as char
    else if s < 52 then 'a' + (s - 26) as char
    else if s < 62 then '0' + (s - 52) as char
    else if s == 62 then '+'
    else '/'
  }

  predicate IsBase64Char(c: char) {
    'A' <= c <= 'Z' || 'a' <= c <= 'z' || '0' <= c <= '9' || c == '+' || c == '/'
  }

  function ValueOf(c: char): Sextet
    requires IsBase64Char(c)
  {
    if 'A' <= c <= 'Z' then (c - 'A') as int
    else if 'a' <= c <= 'z' then (c - 'a') as int + 26
    else if '0' <= c <= '9' then (c - '0') as int + 52
    else if c == '+' then 62
    else 63
  }

  lemma CharRoundTrip(s: Sextet)
    ensures IsBase64Char(CharOf(s)) && ValueOf(CharOf(s)) == s
  {
  }

  /** The last two bits of one byte and the first four of the next; then four and two. */
  function Second(a: Byte, b: Byte): Sextet {
    var low: int := a % 4;
    assert 0 <= low <= 3 && 0 <= b / 16 <= 15;
    low * 16 + b / 16
  }

  function Third(b: Byte, c: Byte): Sextet {
    var low: int := b % 16;
    assert 0 <= low <= 15 && 0 <= c / 64 <= 3;
    low * 4 + c / 64
  }

  /** Bytes in groups of three as sextets in groups of four, the last group possibly shorter. */
  function SextetsOf(b: seq<Byte>): seq<Sextet> {
    if |b| == 0 then []
    else if |b| == 1 then [b[0] / 4, Second(b[0], 0)]
    else if |b| == 2 then [b[0] / 4, Second(b[0], b[1]), Third(b[1], 0)]
    else [b[0] / 4, Second(b[0], b[1]), Third(b[1], b[2]), b[2] % 64] + SextetsOf(b[3..])
  }

  function Number(x: seq<int>, base: int): int {
    if x == [] then 0 else Number(x[..|x| - 1], base) * base + x[|x| - 1]
  }

  /** Three bytes and their four sextets are the same 24-bit number; a last byte or two is filled up with zero bits. */
  lemma GroupIsOneNumber(b: seq<Byte>)
    ensures |b| >= 3 ==>
              var x := SextetsOf(b);
              && |x| >= 4 && x[4..] == SextetsOf(b[3..])
              && Number([x[0], x[1], x[2], x[3]], 64) == Number([b[0], b[1], b[2]], 256)
    ensures |b| == 2 ==> var x := SextetsOf(b); |x| == 3 && Number([x[0], x[1], x[2]], 64) == Number([b[0], b[1]], 256) * 4
    ensures |b| == 1 ==> var x := SextetsOf(b); |x| == 2 && Number([x[0], x[1]], 64) == b[0] as int * 16
  {
    var x := SextetsOf(b);
    if |b| >= 1 { TwoDigits(x[0], x[1], 64); }
    if |b| >= 2 { ThreeDigits(x[0], x[1], x[2], 64); TwoDigits(b[0], b[1], 256); }
    if |b| >= 3 { FourDigits(x[0], x[1], x[2], x[3], 64); ThreeDigits(b[0], b[1], b[2], 256); }
  }

  lemma TwoDigits(x: int, y: int, base: int)
    ensures Number([x, y], base) == x * base + y
  {
    assert [x, y][..1] == [x] && [x][..0] == [];
    assert Number([x], base) == x;
  }

  lemma ThreeDigits(x: int, y: int, z: int, base: int)
    ensures Number([x, y, z], base) == (x * base + y) * base + z
  {
    assert [x, y, z][..2] == [x, y];
    TwoDigits(x, y, base);
  }

  lemma FourDigits(x: int, y: int, z: int, v: int, base: int)
    ensures Number([x, y, z, v], base) == ((x * base + y) * base + z) * base + v
  {
    assert [x, y, z, v][..3] == [x, y, z];
    ThreeDigits(x, y, z, base);
  }

  function First(x: Sextet, y: Sextet): Byte {
    x * 4 + y / 16
  }

  function Middle(y: Sextet, z: Sextet): Byte {
    var low: int := y % 16;
    assert 0 <= low <= 15 && 0 <= z / 4 <= 15;
    low * 16 + z / 4
  }

  function Last(z: Sextet, v: Sextet): Byte {
    var low: int := z % 4;
    assert 0 <= low <= 3;
    low * 64 + v
  }

  function BytesOf(x: seq<Sextet>): seq<Byte> {
    if |x| < 2 then []
    else if |x| == 2 then [First(x[0], x[1])]
    else if |x| == 3 then [First(x[0], x[1]), Middle(x[1], x[2])]
    else [First(x[0], x[1]), Middle(x[1], x[2]), Last(x[2], x[3])] + BytesOf(x[4..])
  }

  function CharsOf(x: seq<Sextet>): (r: string)
    ensures |r| == |x| && forall i :: 0 <= i < |x| ==> r[i] == CharOf(x[i])
  {
    seq(|x|, i requires 0 <= i < |x| => CharOf(x[i]))
  }

  function Padding(n: nat): (r: string)
    ensures |r| == n && forall i :: 0 <= i < n ==> r[i] == '='
  {
    seq(n, i => '=')
  }

  /** `toString("base64")` */
  function Encode(b: seq<Byte>): string {
    CharsOf(SextetsOf(b)) + Padding((3 - |b| % 3) % 3)
  }

  /** `replace(/=+$/, "")` */
  function StripPadding(s: string): string {
    if s != "" && s[|s| - 1] == '=' then StripPadding(s[..|s| - 1]) else s
  }

  function ToUrl(s: string): (r: string)
    ensures |r| == |s| && forall i :: 0 <= i < |s| ==> r[i] == if s[i] == '+' then '-' else if s[i] == '/' then '_' else s[i]
  {
    seq(|s|, i requires 0 <= i < |s| => if s[i] == '+' then '-' else if s[i] == '/' then '_' else s[i])
  }

  function FromUrl(s: string): (r: string)
    ensures |r| == |s| && forall i :: 0 <= i < |s| ==> r[i] == if s[i] == '-' then '+' else if s[i] == '_' then '/' else s[i]
  {
    seq(|s|, i requires 0 <= i < |s| => if s[i] == '-' then '+' else if s[i] == '_' then '/' else s[i])
  }

  function Base64Url(b: seq<Byte>): string {
    ToUrl(StripPadding(Encode(b)))
  }

  /** What the platform's decoder reads: alphabet characters up to the first `=`; others are skipped. */
  function SextetsIn(s: string): seq<Sextet> {
    if s == "" || s[0] == '=' then []
    else if IsBase64Char(s[0]) then [ValueOf(s[0])] + SextetsIn(s[1..])
    else SextetsIn(s[1..])
  }

  /** `Buffer.from(s, "base64")` */
  function Decode(s: string): seq<Byte> {
    BytesOf(SextetsIn(s))
  }

  function PadToFour(s: string): string {
    s + Padding((4 - |s| % 4) % 4)
  }

  function DecodeUrl(s: string): seq<Byte> {
    Decode(PadToFour(FromUrl(s)))
  }

  method Base64UrlDecode(input: string) returns (bytes: seq<Byte>)
    ensures bytes == DecodeUrl(input)
  {
    var s := FromUrl(input);
    ghost var n := 0;
    while |s| % 4 != 0
      invariant |s| == |input| + n && s == FromUrl(input) + Padding(n)
      invariant n <= (4 - |input| % 4) % 4
      decreases 4 - n
    {
      s := s + "=";
      n := n + 1;
    }
    return Decode(s);
  }

  // ---------- round trip ----------

  lemma GroupRoundTrip(a: Byte, b: Byte, c: Byte)
    ensures First(a / 4, Second(a, b)) == a && Middle(Second(a, b), Third(b, c)) == b && Last(Third(b, c), c % 64) == c
  {
  }

  lemma {:induction false} BytesRoundTrip(b: seq<Byte>)
    ensures BytesOf(SextetsOf(b)) == b
    ensures |SextetsOf(b)| == |b| + (|b| + 2) / 3
  {
    hide First, Second, Third, Middle, Last;
    if |b| >= 3 {
      var x := SextetsOf(b);
      assert x[4..] == SextetsOf(b[3..]);
      BytesRoundTrip(b[3..]);
      GroupRoundTrip(b[0], b[1], b[2]);
      assert b == [b[0], b[1], b[2]] + b[3..];
    } else if |b| == 2 {
      GroupRoundTrip(b[0], b[1], 0);
    } else if |b| == 1 {
      GroupRoundTrip(b[0], 0, 0);
    }
  }

  lemma {:induction false} CharsRead(x: seq<Sextet>, n: nat)
    ensures SextetsIn(CharsOf(x) + Padding(n)) == x
  {
    var s := CharsOf(x) + Padding(n);
    if x != [] {
      CharRoundTrip(x[0]);
      assert s[0] == CharOf(x[0]) && s[1..] == CharsOf(x[1..]) + Padding(n);
      CharsRead(x[1..], n);
    } else {
      assert s == Padding(n);
    }
  }

  lemma {:induction false} PaddingStrips(s: string, n: nat)
    requires s == "" || s[|s| - 1] != '='
    ensures StripPadding(s + Padding(n)) == s
  {
    var t := s + Padding(n);
    if n > 0 {
      assert t[..|t| - 1] == s + Padding(n - 1);
      PaddingStrips(s, n - 1);
    } else {
      assert t == s;
    }
  }

  lemma Unpadded(b: seq<Byte>)
    ensures StripPadding(Encode(b)) == CharsOf(SextetsOf(b))
  {
    var x := SextetsOf(b);
    if x != [] { CharRoundTrip(x[|x| - 1]); }
    PaddingStrips(CharsOf(x), (3 - |b| % 3) % 3);
  }

  predicate IsUrlChar(c: char) {
    'A' <= c <= 'Z' || 'a' <= c <= 'z' || '0' <= c <= '9' || c == '-' || c == '_'
  }

  lemma UrlRoundTrip(x: seq<Sextet>)
    ensures FromUrl(ToUrl(CharsOf(x))) == CharsOf(x)
  {
    var s := CharsOf(x);
    forall i | 0 <= i < |s|
      ensures FromUrl(ToUrl(s))[i] == s[i]
    {
      CharRoundTrip(x[i]);
    }
  }

  /** Main result: decoding gives the bytes back, for every length. */
  lemma RoundTrip(b: seq<Byte>)
    ensures DecodeUrl(Base64Url(b)) == b
  {
    hide SextetsOf, BytesOf, CharsOf, StripPadding, Encode, ToUrl, FromUrl, SextetsIn, Padding;
    Unpadded(b);
    var x := SextetsOf(b);
    UrlRoundTrip(x);
    CharsRead(x, (4 - |CharsOf(x)| % 4) % 4);
    BytesRoundTrip(b);
  }

  lemma UrlChar(x: Sextet)
    ensures IsUrlChar(if CharOf(x) == '+' then '-' else if CharOf(x) == '/' then '_' else CharOf(x))
  {
  }

  lemma NeverOneLeft(n: nat)
    ensures (n + (n + 2) / 3) % 4 != 1
  {
    var k, r := n / 3, n % 3;
    assert n == 3 * k + r && (n + 2) / 3 == k + (r + 2) / 3;
  }

  /** Main result: the text uses the url alphabet alone, needs no padding, and its length is never 1 mod 4. */
  lemma TextShape(b: seq<Byte>)
    ensures |Base64Url(b)| == |b| + (|b| + 2) / 3 && |Base64Url(b)| % 4 != 1
    ensures forall i :: 0 <= i < |Base64Url(b)| ==> IsUrlChar(Base64Url(b)[i])
  {
    hide SextetsOf, BytesOf, StripPadding, Encode, CharOf, IsUrlChar;
    Unpadded(b);
    BytesRoundTrip(b);
    NeverOneLeft(|b|);
    var x := SextetsOf(b);
    assert Base64Url(b) == ToUrl(CharsOf(x));
    forall i | 0 <= i < |x|
      ensures IsUrlChar(ToUrl(CharsOf(x))[i])
    {
      UrlChar(x[i]);
    }
  }

  /** A test vector of section 10 of RFC 4648: the text foo. */
  lemma KnownText()
    ensures Base64Url([102, 111, 111]) == "Zm9v"
  {
    var b: seq<Byte> := [102, 111, 111];
    assert b[3..] == [];
    assert SextetsOf(b) == [25, 38, 61, 47];
    assert Padding(0) == "";
    assert Encode(b) == "Zm9v";
    assert StripPadding("Zm9v") == "Zm9v";
    assert ToUrl("Zm9v") == "Zm9v";
  }
}
