/** Blob names made from tokens: four big-endian bytes a token, in the URL-safe base64 alphabet
    without padding (RFC 4648, section 5). */
module BlobNames {
  import opened Types
  import opened Modulo

  type Byte = b: nat | b < 256

  const WORD32: nat := 0x1_0000_0000

  /* ------------------------------- base64url ------------------------------------------------ */

  type Sextet = v: nat | v < 64

  function Letter(v: Sextet): (c: char)
    ensures Digit(c) == Some(v)
  {
    if v < 26 then ('A' as int + v) as char
    else if v < 52 then ('a' as int + v - 26) as char
    else if v < 62 then ('0' as int + v - 52) as char
    else if v == 62 then '-' else '_'
  }

  function Digit(c: char): Option<Sextet> {
    if 'A' <= c <= 'Z' then Some(c as int - 'A' as int)
    else if 'a' <= c <= 'z' then Some(c as int - 'a' as int + 26)
    else if '0' <= c <= '9' then Some(c as int - '0' as int + 52)
    else if c == '-' then Some(62)
    else if c == '_' then Some(63)
    else None
  }

  /** Six bits of a byte pair: the low bits of `a` and the high bits of `b`. */
  function Join(a: Byte, b: Byte, keep: nat): Sextet
    requires keep == 4 || keep == 16
  {
    if keep == 4 then a as int % 4 * 16 + b as int / 16 else a as int % 16 * 4 + b as int / 64
  }

  function Base64Url(bytes: seq<Byte>): string {
    if bytes == [] then ""
    else if |bytes| == 1 then [Letter(bytes[0] / 4), Letter(Join(bytes[0], 0, 4))]
    else if |bytes| == 2 then
      [Letter(bytes[0] / 4), Letter(Join(bytes[0], bytes[1], 4)), Letter(Join(bytes[1], 0, 16))]
    else
      [Letter(bytes[0] / 4), Letter(Join(bytes[0], bytes[1], 4)),
       Letter(Join(bytes[1], bytes[2], 16)), Letter(bytes[2] % 64)] + Base64Url(bytes[3..])
  }

  /** The three bytes that four sextets hold. */
  function First(a: Sextet, b: Sextet): Byte {
    a as int * 4 + b as int / 16
  }

  function Second(b: Sextet, c: Sextet): Byte {
    b as int % 16 * 16 + c as int / 4
  }

  function Third(c: Sextet, d: Sextet): Byte {
    c as int % 4 * 64 + d as int
  }

  /** A letter outside the alphabet or a dangling single letter is an error; left-over bits of
      the last letter are dropped. */
  function Base64UrlDecode(s: string): Option<seq<Byte>> {
    if s == "" then Some([])
    else if |s| == 1 then None
    else
      var a, b := Digit(s[0]), Digit(s[1]);
      if a.None? || b.None? then None
      else if |s| == 2 then Some([First(a.value, b.value)])
      else
        var c := Digit(s[2]);
        if c.None? then None
        else if |s| == 3 then Some([First(a.value, b.value), Second(b.value, c.value)])
        else
          var d := Digit(s[3]);
          var rest := Base64UrlDecode(s[4..]);
          if d.None? || rest.None? then None
          else Some([First(a.value, b.value), Second(b.value, c.value), Third(c.value, d.value)] + rest.value)
  }

  /** Three bytes survive being cut into four sextets. */
  lemma JoinSplits(x: Byte, y: Byte, z: Byte)
    ensures First(x / 4, Join(x, y, 4)) == x
    ensures Second(Join(x, y, 4), Join(y, z, 16)) == y
    ensures Third(Join(y, z, 16), z % 64) == z
  {
  }

  lemma {:induction false} DecodeBase64(bytes: seq<Byte>)
    ensures Base64UrlDecode(Base64Url(bytes)) == Some(bytes)
  {
    hide Letter, Digit, Join, First, Second, Third;
    var s := Base64Url(bytes);
    if |bytes| >= 3 {
      JoinSplits(bytes[0], bytes[1], bytes[2]);
      DecodeBase64(bytes[3..]);
      assert s[4..] == Base64Url(bytes[3..]);
      assert bytes == [bytes[0], bytes[1], bytes[2]] + bytes[3..];
    } else if |bytes| == 2 {
      JoinSplits(bytes[0], bytes[1], 0);
      assert bytes == [bytes[0], bytes[1]];
    } else if |bytes| == 1 {
      JoinSplits(bytes[0], 0, 0);
      assert bytes == [bytes[0]];
    }
  }

  lemma {:induction false} Base64Length(bytes: seq<Byte>)
    ensures |Base64Url(bytes)| == (4 * |bytes| + 2) / 3
  {
    if |bytes| >= 3 {
      Base64Length(bytes[3..]);
    }
  }

  /* ------------------------------- tokens --------------------------------------------------- */

  /** `static_cast<uint32_t>`. */
  function Low32(t: Token): nat {
    t % WORD32
  }

  function TokenBytes(t: Token): (r: seq<Byte>)
    ensures |r| == 4
  {
    var u := Low32(t);
    [u / 0x100_0000, u / 0x1_0000 % 256, u / 256 % 256, u % 256]
  }

  function Bytes(ts: seq<Token>): (r: seq<Byte>)
    ensures |r| == 4 * |ts|
  {
    if ts == [] then [] else Bytes(ts[..|ts| - 1]) + TokenBytes(ts[|ts| - 1])
  }

  /** The blob name of a run of tokens. */
  function BlobName(ts: seq<Token>): Name {
    Base64Url(Bytes(ts))
  }

  method EncodeTokensToBlobName(ts: seq<Token>) returns (name: Name)
    ensures name == BlobName(ts)
  {
    var bytes: seq<Byte> := [];
    for i := 0 to |ts|
      invariant bytes == Bytes(ts[..i])
    {
      var token := Low32(ts[i]);
      assert ts[..i + 1][..i] == ts[..i];
      bytes := bytes + [token / 0x100_0000];
      bytes := bytes + [token / 0x1_0000 % 256];
      bytes := bytes + [token / 256 % 256];
      bytes := bytes + [token % 256];
    }
    assert ts[..|ts|] == ts;
    name := Base64Url(bytes);
  }

  function FromBytes(a: Byte, b: Byte, c: Byte, d: Byte): nat {
    a as int * 0x100_0000 + b as int * 0x1_0000 + c as int * 256 + d as int
  }

  function TokenAt(bytes: seq<Byte>, i: nat): nat
    requires 4 * i + 4 <= |bytes|
  {
    FromBytes(bytes[4 * i], bytes[4 * i + 1], bytes[4 * i + 2], bytes[4 * i + 3])
  }

  function Tokens(bytes: seq<Byte>, n: nat): (r: seq<nat>)
    requires 4 * n <= |bytes|
    ensures |r| == n && forall i :: 0 <= i < n ==> r[i] == TokenAt(bytes, i)
  {
    if n == 0 then [] else Tokens(bytes, n - 1) + [TokenAt(bytes, n - 1)]
  }

  function NameTokens(name: Name): Option<seq<nat>> {
    match Base64UrlDecode(name)
    case None => None
    case Some(bytes) => Some(Tokens(bytes, |bytes| / 4))
  }

  method DecodeBlobNameToTokens(name: Name) returns (r: Option<seq<nat>>)
    ensures r == NameTokens(name)
  {
    var bytes := Base64UrlDecode(name);
    if bytes.None? {
      return None;
    }
    var tokens: seq<nat> := [];
    var n := |bytes.value| / 4;
    for i := 0 to n
      invariant tokens == Tokens(bytes.value, i)
    {
      tokens := tokens + [TokenAt(bytes.value, i)];
    }
    return Some(tokens);
  }

  lemma TokenBytesJoin(t: Token)
    ensures var r := TokenBytes(t); FromBytes(r[0], r[1], r[2], r[3]) == Low32(t)
  {
    Recombine(Low32(t));
  }

  lemma Recombine(u: nat)
    ensures u / 0x100_0000 * 0x100_0000 + u / 0x1_0000 % 256 * 0x1_0000 + u / 256 % 256 * 256 + u % 256 == u
  {
    var q1 := u / 256;
    var q2 := q1 / 256;
    var q3 := q2 / 256;
    assert u / 0x1_0000 == q2 && u / 0x100_0000 == q3;
  }

  lemma {:induction false} BytesAt(ts: seq<Token>, i: nat)
    requires i < |ts|
    ensures TokenAt(Bytes(ts), i) == Low32(ts[i])
  {
    hide TokenBytes, FromBytes, Low32;
    var front := ts[..|ts| - 1];
    if i < |front| {
      BytesAt(front, i);
      assert forall k :: 0 <= k < 4 * |front| ==> Bytes(ts)[k] == Bytes(front)[k];
    } else {
      TokenBytesJoin(ts[i]);
      assert forall k :: 0 <= k < 4 ==> Bytes(ts)[4 * i + k] == TokenBytes(ts[i])[k];
    }
  }

  function LowTokens(ts: seq<Token>): (r: seq<nat>)
    ensures |r| == |ts| && forall i :: 0 <= i < |ts| ==> r[i] == Low32(ts[i])
  {
    seq(|ts|, i requires 0 <= i < |ts| => Low32(ts[i]))
  }

  /** Decoding gives every token back, reduced to its low 32 bits. */
  lemma DecodeName(ts: seq<Token>)
    ensures NameTokens(BlobName(ts)) == Some(LowTokens(ts))
  {
    hide Bytes, Base64Url, Base64UrlDecode, TokenAt, Low32;
    DecodeBase64(Bytes(ts));
    forall i | 0 <= i < |ts| ensures Tokens(Bytes(ts), |ts|)[i] == LowTokens(ts)[i] {
      BytesAt(ts, i);
    }
    assert Tokens(Bytes(ts), |ts|) == LowTokens(ts);
  }

  lemma {:induction false} BytesEqual(a: seq<Token>, b: seq<Token>)
    requires |a| == |b| && forall i :: 0 <= i < |a| ==> Low32(a[i]) == Low32(b[i])
    ensures Bytes(a) == Bytes(b)
  {
    if a != [] {
      BytesEqual(a[..|a| - 1], b[..|b| - 1]);
    }
  }

  /** Two runs of tokens share a name exactly when they agree modulo 2^32. */
  lemma SameName(a: seq<Token>, b: seq<Token>)
    ensures BlobName(a) == BlobName(b) <==> |a| == |b| && forall i :: 0 <= i < |a| ==> Low32(a[i]) == Low32(b[i])
  {
    hide BlobName, NameTokens, Low32;
    DecodeName(a);
    DecodeName(b);
    if |a| == |b| && forall i :: 0 <= i < |a| ==> Low32(a[i]) == Low32(b[i]) {
      BytesEqual(a, b);
      assert BlobName(a) == BlobName(b) by { SameBytesSameName(a, b); }
    }
    if BlobName(a) == BlobName(b) {
      assert LowTokens(a) == LowTokens(b);
      assert |LowTokens(a)| == |a| && |LowTokens(b)| == |b|;
      forall i | 0 <= i < |a| ensures Low32(a[i]) == Low32(b[i]) {
        assert LowTokens(a)[i] == LowTokens(b)[i];
      }
    }
  }

  lemma SameBytesSameName(a: seq<Token>, b: seq<Token>)
    requires Bytes(a) == Bytes(b)
    ensures BlobName(a) == BlobName(b)
  {
  }

  /** On tokens that fit in 32 bits the name determines the tokens. */
  lemma NameIsInjective(a: seq<Token>, b: seq<Token>)
    requires (forall t :: t in a ==> 0 <= t < WORD32) && (forall t :: t in b ==> 0 <= t < WORD32)
    requires BlobName(a) == BlobName(b)
    ensures a == b
  {
    hide BlobName;
    SameName(a, b);
    forall i | 0 <= i < |a| ensures a[i] == b[i] {
      assert a[i] in a && b[i] in b;
    }
  }

  /** No token name can be mistaken for a generated one. */
  lemma NameIsNoGuid(ts: seq<Token>)
    ensures |BlobName(ts)| % 4 != 1 && IsTokenName(BlobName(ts)) && !IsGuidName(BlobName(ts))
  {
    hide Base64Url, Bytes;
    Base64Length(Bytes(ts));
  }

  /* ------------------------------- names, literally ----------------------------------------- */

  const UPPER := "ABCDEFGHIJKLMNOPQRSTUVWXYZ"
  const LOWER := "abcdefghijklmnopqrstuvwxyz"
  const DIGITS := "0123456789"

  lemma UpperAt(v: nat)
    requires v < 26
    ensures |UPPER| == 26 && UPPER[v] == ('A' as int + v) as char
  {
  }

  lemma LowerAt(v: nat)
    requires v < 26
    ensures |LOWER| == 26 && LOWER[v] == ('a' as int + v) as char
  {
  }

  lemma DigitAt(v: nat)
    requires v < 10
    ensures |DIGITS| == 10 && DIGITS[v] == ('0' as int + v) as char
  {
  }

  lemma IndexOfFour(a: string, b: string, c: string, d: string, v: nat)
    requires v < |a| + |b| + |c| + |d|
    ensures (a + b + c + d)[v] == if v < |a| then a[v]
                                  else if v < |a| + |b| then b[v - |a|]
                                  else if v < |a| + |b| + |c| then c[v - |a| - |b|]
                                  else d[v - |a| - |b| - |c|]
  {
  }

  /** The alphabet in order: upper case, lower case, digits, dash, underscore. */
  lemma LetterIsInAlphabet(v: Sextet)
    ensures |UPPER + LOWER + DIGITS + "-_"| == 64 && Letter(v) == (UPPER + LOWER + DIGITS + "-_")[v]
  {
    UpperAt(if v < 26 then v else 0);
    LowerAt(if 26 <= v < 52 then v - 26 else 0);
    DigitAt(if 52 <= v < 62 then v - 52 else 0);
    hide UPPER, LOWER, DIGITS;
    IndexOfFour(UPPER, LOWER, DIGITS, "-_", v);
  }

  /** Four letters hold the 24 bits of three bytes, high bits first. */
  lemma GroupBits(x: Byte, y: Byte, z: Byte)
    ensures (x as int / 4) * 0x4_0000 + Join(x, y, 4) * 0x1000 + Join(y, z, 16) * 64 + z as int % 64
            == x as int * 0x1_0000 + y as int * 256 + z as int
  {
  }

  lemma {:induction false} GroupAt(bytes: seq<Byte>, i: nat)
    requires 3 * i + 3 <= |bytes|
    ensures 4 * i + 4 <= |Base64Url(bytes)|
    ensures var x, y, z := bytes[3 * i], bytes[3 * i + 1], bytes[3 * i + 2];
            Base64Url(bytes)[4 * i..4 * i + 4]
            == [Letter(x / 4), Letter(Join(x, y, 4)), Letter(Join(y, z, 16)), Letter(z % 64)]
    decreases |bytes|
  {
    hide Letter, Join;
    var s := Base64Url(bytes);
    if i > 0 {
      GroupAt(bytes[3..], i - 1);
      assert s[4..] == Base64Url(bytes[3..]);
      assert s[4 * i..4 * i + 4] == s[4..][4 * (i - 1)..4 * (i - 1) + 4];
    }
  }

  /** The bytes behind a name: each token's four bytes, high byte first, of its value modulo 2^32. */
  lemma {:induction false} NameBytes(ts: seq<Token>, i: nat)
    requires i < |ts|
    ensures BlobName(ts) == Base64Url(Bytes(ts))
    ensures var b := Bytes(ts);
            && b[4 * i] as int == ts[i] / 16777216 % 256 && b[4 * i + 1] as int == ts[i] / 65536 % 256
            && b[4 * i + 2] as int == ts[i] / 256 % 256 && b[4 * i + 3] as int == ts[i] % 256
    decreases |ts|
  {
    hide TokenBytes, Base64Url;
    var front := ts[..|ts| - 1];
    if i < |front| {
      NameBytes(front, i);
      assert forall k :: 0 <= k < 4 * |front| ==> Bytes(ts)[k] == Bytes(front)[k];
    } else {
      BytesOfToken(ts[i]);
      assert forall k :: 0 <= k < 4 ==> Bytes(ts)[4 * i + k] == TokenBytes(ts[i])[k];
    }
  }

  lemma BytesOfToken(t: Token)
    ensures var b := TokenBytes(t);
            && b[0] as int == t / 16777216 % 256 && b[1] as int == t / 65536 % 256
            && b[2] as int == t / 256 % 256 && b[3] as int == t % 256
  {
    var q1 := t / 256;
    var q2 := q1 / 256;
    var q3 := q2 / 256;
    var q4 := q3 / 256;
    var b0, b1, b2, b3 := t % 256, q1 % 256, q2 % 256, q3 % 256;
    assert t / 65536 == q2 && t / 16777216 == q3;
    var u := ((b3 * 256 + b2) * 256 + b1) * 256 + b0;
    assert t == q4 * WORD32 + u;
    DivModUnique(q4, u, WORD32);
    FourBytes(b0, b1, b2, b3);
  }

  lemma FourBytes(b0: nat, b1: nat, b2: nat, b3: nat)
    requires b0 < 256 && b1 < 256 && b2 < 256 && b3 < 256
    ensures var u := ((b3 * 256 + b2) * 256 + b1) * 256 + b0;
            u / 16777216 == b3 && u / 65536 % 256 == b2 && u / 256 % 256 == b1 && u % 256 == b0
  {
    var u := ((b3 * 256 + b2) * 256 + b1) * 256 + b0;
    assert u / 256 == (b3 * 256 + b2) * 256 + b1;
    assert u / 65536 == b3 * 256 + b2;
  }

  /** Decoding a name gives each token modulo 2^32, so a token below 2^32 itself. */
  lemma DecodeTokens(ts: seq<Token>)
    ensures NameTokens(BlobName(ts)).Some? && |NameTokens(BlobName(ts)).value| == |ts|
    ensures forall i :: 0 <= i < |ts| ==> NameTokens(BlobName(ts)).value[i] == ts[i] % 4294967296
    ensures (forall t :: t in ts ==> 0 <= t < 4294967296) ==>
              forall i :: 0 <= i < |ts| ==> NameTokens(BlobName(ts)).value[i] == ts[i]
  {
    hide NameTokens, BlobName;
    DecodeName(ts);
    forall i | 0 <= i < |ts| ensures NameTokens(BlobName(ts)).value[i] == ts[i] % 4294967296 {
      assert LowTokens(ts)[i] == Low32(ts[i]);
    }
    if forall t :: t in ts ==> 0 <= t < 4294967296 {
      forall i | 0 <= i < |ts| ensures NameTokens(BlobName(ts)).value[i] == ts[i] {
        assert ts[i] in ts;
      }
    }
  }

  /** Some names in full. */
  lemma KnownNames()
    ensures BlobName([0]) == "AAAAAA" && BlobName([1]) == "AAAAAQ" && BlobName([4227858431]) == "-____w"
  {
    hide BlobName;
    ZeroName();
    OneName();
    DashedName();
  }

  lemma ZeroName()
    ensures BlobName([0]) == "AAAAAA"
  {
    KnownName(0, 0, 0, 0, 0);
    hide BlobName;
  }

  lemma OneName()
    ensures BlobName([1]) == "AAAAAQ"
  {
    KnownName(1, 0, 0, 0, 1);
    hide BlobName;
  }

  lemma DashedName()
    ensures BlobName([4227858431]) == "-____w"
  {
    KnownName(4227858431, 251, 255, 255, 255);
    hide BlobName;
  }

  lemma KnownName(t: Token, a: Byte, b: Byte, c: Byte, d: Byte)
    requires TokenBytes(t) == [a, b, c, d]
    ensures BlobName([t])
            == [Letter(a / 4), Letter(Join(a, b, 4)), Letter(Join(b, c, 16)), Letter(c % 64)]
               + [Letter(d / 4), Letter(Join(d, 0, 4))]
  {
    hide Letter, Join, TokenBytes;
    var bytes: seq<Byte> := [a, b, c, d];
    assert [t][..0] == [] && Bytes([]) == [];
    assert Bytes([t]) == [] + bytes == bytes;
    assert bytes[3..] == [d];
    OneByte(d);
    assert Base64Url(bytes)
           == [Letter(a / 4), Letter(Join(a, b, 4)), Letter(Join(b, c, 16)), Letter(c % 64)] + Base64Url([d]);
  }

  lemma OneByte(d: Byte)
    ensures Base64Url([d]) == [Letter(d / 4), Letter(Join(d, 0, 4))]
  {
  }
}
