/** The part of `std::string` and of the number conversions that the parsers rely on. */
module Strings {
  import opened Types

  predicate Matches(s: string, pat: string, i: nat) {
    i + |pat| <= |s| && s[i..i + |pat|] == pat
  }

  /** `s.find(pat, pos)`; `None` is `npos`. */
  function Find(s: string, pat: string, pos: nat): (r: Option<nat>)
    ensures r.Some? ==>
              pos <= r.value && Matches(s, pat, r.value) && forall j :: pos <= j < r.value ==> !Matches(s, pat, j)
    ensures r.None? ==> forall j :: pos <= j ==> !Matches(s, pat, j)
    decreases |s| - pos
  {
    if pos + |pat| > |s| then None
    else if s[pos..pos + |pat|] == pat then Some(pos)
    else Find(s, pat, pos + 1)
  }

  /** A position is the first match when one character of the pattern does not occur before. */
  lemma FindFirst(s: string, pat: string, pos: nat, p: nat, k: nat)
    requires pos <= p && k < |pat| && Matches(s, pat, p)
    requires pat[k] !in s[pos + k..p + k]
    ensures Find(s, pat, pos) == Some(p)
  {
    forall j | pos <= j < p ensures !Matches(s, pat, j) {
      if j + |pat| <= |s| {
        assert s[j..j + |pat|][k] == s[j + k] == s[pos + k..p + k][j - pos];
      }
    }
  }

  lemma FindNone(s: string, pat: string, pos: nat, k: nat)
    requires k < |pat| && pos <= |s| && pat[k] !in s[pos..]
    ensures Find(s, pat, pos) == None
  {
    forall j | pos <= j ensures !Matches(s, pat, j) {
      if j + |pat| <= |s| {
        assert s[j..j + |pat|][k] == s[j + k] == s[pos..][j + k - pos];
      }
    }
  }

  /** A known beginning of the rest of a text, and what follows it. */
  lemma SplitAt(s: string, pos: nat, a: string, b: string)
    requires pos <= |s| && s[pos..] == a + b
    ensures pos + |a| <= |s| && s[pos..pos + |a|] == a && s[pos + |a|..] == b
  {
    assert s[pos..pos + |a|] == s[pos..][..|a|];
    assert s[pos + |a|..] == s[pos..][|a|..];
  }

  /** `find(...) + k` in unsigned 64-bit arithmetic, where `npos + k` wraps to `k - 1`. */
  function Offset(r: Option<nat>, k: nat): nat
    requires 0 < k < WORD
  {
    match r
    case Some(i) => i + k
    case None => (NPOS + k) % WORD
  }

  /* ------------------------------- decimal numbers ------------------------------------------ */

  predicate IsDigit(c: char) {
    '0' <= c <= '9'
  }

  predicate AllDigits(s: string) {
    forall c :: c in s ==> IsDigit(c)
  }

  function DigitOf(c: char): nat
    requires IsDigit(c)
  {
    c as int - '0' as int
  }

  function CharOf(d: nat): (c: char)
    requires d < 10
    ensures IsDigit(c) && DigitOf(c) == d
  {
    ('0' as int + d) as char
  }

  /** `std::to_string` of an unsigned value. */
  function Decimal(n: nat): (s: string)
    ensures s != [] && AllDigits(s)
  {
    if n < 10 then [CharOf(n)] else Decimal(n / 10) + [CharOf(n % 10)]
  }

  function ValueOf(s: string): nat
    requires AllDigits(s)
  {
    if s == [] then 0 else ValueOf(s[..|s| - 1]) * 10 + DigitOf(s[|s| - 1])
  }

  lemma {:induction false} ValueOfDecimal(n: nat)
    ensures ValueOf(Decimal(n)) == n
  {
    if n >= 10 {
      ValueOfDecimal(n / 10);
      assert Decimal(n)[..|Decimal(n)| - 1] == Decimal(n / 10);
    }
  }

  function Pow10(k: nat): nat {
    if k == 0 then 1 else 10 * Pow10(k - 1)
  }

  lemma {:induction false} DecimalLength(n: nat, k: nat)
    requires 0 < k && n < Pow10(k)
    ensures |Decimal(n)| <= k
  {
    if n >= 10 {
      assert k > 1;
      DecimalLength(n / 10, k - 1);
    }
  }

  /** A 64-bit hash needs at most 20 decimal digits. */
  lemma HashLength(h: Hash)
    ensures |Decimal(h)| <= 20
  {
    assert Pow10(5) == 100000;
    assert Pow10(10) == 10000000000;
    assert Pow10(15) == 1000000000000000;
    assert Pow10(20) == 100000000000000000000;
    DecimalLength(h, 20);
  }

  predicate IsSpace(c: char) {
    c == ' ' || (9 as char <= c <= 13 as char)
  }

  function SkipSpaces(s: string): string {
    if s != [] && IsSpace(s[0]) then SkipSpaces(s[1..]) else s
  }

  function DigitPrefix(s: string): (r: string)
    ensures AllDigits(r) && r <= s
  {
    if s != [] && IsDigit(s[0]) then [s[0]] + DigitPrefix(s[1..]) else []
  }

  /** `std::stoull` in base 10: leading blanks and a sign are accepted, trailing text is ignored,
      a negated value wraps. `None` stands for either exception it can throw. */
  function Stoull(s: string): Option<Hash> {
    var t := SkipSpaces(s);
    var signed := t != [] && (t[0] == '+' || t[0] == '-');
    var digits := DigitPrefix(if signed then t[1..] else t);
    var v := ValueOf(digits);
    if digits == [] || v >= WORD then None
    else if signed && t[0] == '-' && v > 0 then Some(WORD - v)
    else Some(v)
  }

  lemma {:induction false} DigitPrefixAll(s: string)
    requires AllDigits(s)
    ensures DigitPrefix(s) == s
  {
    if s != [] {
      DigitPrefixAll(s[1..]);
    }
  }

  lemma StoullDecimal(h: Hash)
    ensures Stoull(Decimal(h)) == Some(h)
  {
    var s := Decimal(h);
    assert IsDigit(s[0]);
    DigitPrefixAll(s);
    ValueOfDecimal(h);
  }

  lemma {:induction false} DigitPrefixStops(s: string, rest: string)
    requires AllDigits(s) && (rest == "" || !IsDigit(rest[0]))
    ensures DigitPrefix(s + rest) == s
  {
    if s == "" {
      assert "" + rest == rest;
    } else {
      assert (s + rest)[1..] == s[1..] + rest;
      DigitPrefixStops(s[1..], rest);
    }
  }

  /** A number with text after it; 2^64 and more is out of range. */
  lemma StoullNumber(n: nat, rest: string)
    requires rest == "" || !IsDigit(rest[0])
    ensures Stoull(Decimal(n) + rest) == if n < 0x1_0000_0000_0000_0000 then Some(n) else None
  {
    var d := Decimal(n);
    ValueOfDecimal(n);
    DigitPrefixStops(d, rest);
    hide Decimal, DigitPrefix, ValueOf;
    assert IsDigit(d[0]) && (d + rest)[0] == d[0];
  }

  lemma StoullOfSign(sign: char, s: string, n: nat)
    requires sign == '+' || sign == '-'
    requires DigitPrefix(s) != "" && ValueOf(DigitPrefix(s)) == n
    ensures Stoull([sign] + s) == if n >= 0x1_0000_0000_0000_0000 then None
                                  else if sign == '+' then Some(n)
                                  else Some((0x1_0000_0000_0000_0000 - n) % 0x1_0000_0000_0000_0000)
  {
    SignFirst(sign, s);
    hide DigitPrefix, ValueOf, SkipSpaces;
    assert ([sign] + s)[0] == sign;
  }

  /** A sign before it; a negated value wraps around. */
  lemma StoullSigned(n: nat, rest: string)
    requires rest == "" || !IsDigit(rest[0])
    ensures Stoull("+" + (Decimal(n) + rest)) == if n < 0x1_0000_0000_0000_0000 then Some(n) else None
    ensures Stoull("-" + (Decimal(n) + rest))
            == if n >= 0x1_0000_0000_0000_0000 then None
               else Some((0x1_0000_0000_0000_0000 - n) % 0x1_0000_0000_0000_0000)
  {
    ValueOfDecimal(n);
    DigitPrefixStops(Decimal(n), rest);
    hide Stoull, Decimal, DigitPrefix, ValueOf;
    StoullOfSign('+', Decimal(n) + rest, n);
    StoullOfSign('-', Decimal(n) + rest, n);
  }

  lemma SignFirst(sign: char, s: string)
    requires sign == '+' || sign == '-'
    ensures SkipSpaces([sign] + s) == [sign] + s && ([sign] + s)[1..] == s
  {
  }

  /** Blanks before a number do not count, and text that starts otherwise is no number. */
  lemma StoullOther(c: char, rest: string)
    ensures IsSpace(c) ==> Stoull([c] + rest) == Stoull(rest)
    ensures !IsSpace(c) && !IsDigit(c) && c != '+' && c != '-' ==> Stoull([c] + rest) == None
    ensures Stoull("") == None
  {
    assert ([c] + rest)[1..] == rest && ([c] + rest)[0] == c;
    if !IsDigit(c) {
      NoDigits([c] + rest);
    }
  }

  lemma NoDigits(rest: string)
    requires rest == "" || !IsDigit(rest[0])
    ensures DigitPrefix(rest) == ""
  {
  }
}
