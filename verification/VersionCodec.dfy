/** The text form of a version list, kept in the `additionalversions` metadata value. */
module VersionCodec {
  import opened Types
  import opened Strings
  import opened Modulo

  const OPEN := "{\"hash\":"
  const HASH_KEY := "\"hash\":\""
  const PARENT_KEY := "\"parentHash\":\""
  const LOCATION_KEY := "\"location\":\""

  /* ------------------------------- parser --------------------------------------------------- */

  /** The text from `start` up to the next quote; `None` is the exception of `substr`. */
  function FieldFrom(obj: string, start: nat): Option<string> {
    if start > |obj| then None
    else match Find(obj, "\"", start)
      case None => Some(obj[start..])
      case Some(end) => Some(obj[start..end])
  }

  function Field(obj: string, key: string): Option<string>
    requires 0 < |key| < WORD
  {
    FieldFrom(obj, Offset(Find(obj, key, 0), |key|))
  }

  function ParseObject(obj: string): Option<Version> {
    var h := Field(obj, HASH_KEY);
    var p := Field(obj, PARENT_KEY);
    var l := Field(obj, LOCATION_KEY);
    if h.None? || p.None? || l.None? then None
    else
      var hash := Stoull(h.value);
      var parent := Stoull(p.value);
      if hash.None? || parent.None? then None else Some(Version(hash.value, parent.value, l.value))
  }

  function ParseFrom(json: string, pos: nat): Option<seq<Version>>
    decreases |json| - pos
  {
    if pos >= |json| then Some([])
    else match Find(json, OPEN, pos)
      case None => Some([])
      case Some(start) =>
        match Find(json, "}", start)
        case None => Some([])
        case Some(end) =>
          match ParseObject(json[start..end + 1])
          case None => None
          case Some(v) =>
            match ParseFrom(json, end + 1)
            case None => None
            case Some(rest) => Some([v] + rest)
  }

  /** What the parser returns; `None` is an exception. */
  function Parse(json: string): Option<seq<Version>> {
    if json == "" || json == "[]" then Some([]) else ParseFrom(json, 0)
  }

  function Prepend(vs: seq<Version>, r: Option<seq<Version>>): Option<seq<Version>> {
    if r.None? then None else Some(vs + r.value)
  }

  lemma PrependNothing(r: Option<seq<Version>>)
    ensures Prepend([], r) == r
  {
    if r.Some? {
      assert [] + r.value == r.value;
    }
  }

  lemma PrependTwice(vs: seq<Version>, v: Version, r: Option<seq<Version>>)
    ensures Prepend(vs, Prepend([v], r)) == Prepend(vs + [v], r)
  {
    if r.Some? {
      assert vs + ([v] + r.value) == vs + [v] + r.value;
    }
  }

  method ParseAdditionalVersions(json: string) returns (r: Option<seq<Version>>)
    ensures r == Parse(json)
  {
    hide ParseObject, Find;
    var versions: seq<Version> := [];
    if json == "" || json == "[]" {
      return Some(versions);
    }
    var pos := 0;
    ghost var all := ParseFrom(json, 0);
    PrependNothing(all);
    while pos < |json|
      invariant 0 <= pos <= |json|
      invariant all == Prepend(versions, ParseFrom(json, pos))
    {
      var start := Find(json, OPEN, pos);
      if start.None? { break; }
      var end := Find(json, "}", start.value);
      if end.None? { break; }
      var v := ParseObject(json[start.value..end.value + 1]);
      if v.None? {
        return None;
      }
      PrependTwice(versions, v.value, ParseFrom(json, end.value + 1));
      versions := versions + [v.value];
      pos := end.value + 1;
    }
    assert versions + [] == versions;
    return Some(versions);
  }

  /* ------------------------------- printer -------------------------------------------------- */

  function Item(v: Version): string {
    "{\"hash\":\"" + Decimal(v.hash) + "\",\"parentHash\":\"" + Decimal(v.parent)
    + "\",\"location\":\"" + v.location + "\"}"
  }

  function Separator(i: nat): string {
    if i > 0 then "," else ""
  }

  function ItemsFrom(vs: seq<Version>, i: nat): string
    requires i <= |vs|
    decreases |vs| - i
  {
    if i == |vs| then "]"
    else Separator(i) + Item(vs[i]) + ItemsFrom(vs, i + 1)
  }

  function Print(vs: seq<Version>): string {
    if vs == [] then "[]" else "[" + ItemsFrom(vs, 0)
  }

  method SerializeAdditionalVersions(vs: seq<Version>) returns (s: string)
    ensures s == Print(vs)
  {
    hide Item;
    if vs == [] {
      return "[]";
    }
    s := "[";
    for i := 0 to |vs|
      invariant s + ItemsFrom(vs, i) == "[" + ItemsFrom(vs, 0)
    {
      ghost var was := s;
      if i > 0 {
        s := s + ",";
      }
      s := s + Item(vs[i]);
      assert was + (Separator(i) + Item(vs[i]) + ItemsFrom(vs, i + 1)) == s + ItemsFrom(vs, i + 1);
    }
    s := s + "]";
  }

  /* ------------------------------- round trip ----------------------------------------------- */

  lemma DigitsArePlain(n: nat, c: char)
    requires !IsDigit(c)
    ensures c !in Decimal(n)
  {
  }

  /** A quoted value in the middle of a text is what `Field` returns for its key. */
  lemma FieldAt(obj: string, before: string, key: string, value: string, after: string, k: nat)
    requires obj == before + key + value + after
    requires 0 < |key| < WORD && k < |key| && key[k] !in (before + key)[k..|before| + k]
    requires after != "" && after[0] == '\"' && '\"' !in value
    ensures Field(obj, key) == Some(value)
  {
    var p := |before|;
    assert obj[k..p + k] == (before + key)[k..p + k];
    FindFirst(obj, key, 0, p, k);
    var start := p + |key|;
    assert obj[start..start + |value|] == value;
    FindFirst(obj, "\"", start, start + |value|, 0);
  }

  lemma HashField(v: Version)
    ensures Field(Item(v), HASH_KEY) == Some(Decimal(v.hash))
  {
    hide Field, Decimal;
    DigitsArePlain(v.hash, '\"');
    var after := "\",\"parentHash\":\"" + Decimal(v.parent) + "\",\"location\":\"" + v.location + "\"}";
    assert Item(v) == "{" + HASH_KEY + Decimal(v.hash) + after;
    FieldAt(Item(v), "{", HASH_KEY, Decimal(v.hash), after, 0);
  }

  lemma ParentField(v: Version)
    ensures Field(Item(v), PARENT_KEY) == Some(Decimal(v.parent))
  {
    hide Field, Decimal;
    DigitsArePlain(v.parent, '\"');
    DigitsArePlain(v.hash, 'p');
    var before := "{\"hash\":\"" + Decimal(v.hash) + "\",";
    var after := "\",\"location\":\"" + v.location + "\"}";
    assert Item(v) == before + PARENT_KEY + Decimal(v.parent) + after;
    assert 'p' !in before + "\"";
    assert PARENT_KEY[0] == '\"';
    assert (before + PARENT_KEY)[1..|before| + 1] == (before + "\"")[1..];
    FieldAt(Item(v), before, PARENT_KEY, Decimal(v.parent), after, 1);
  }

  lemma LocationField(v: Version)
    requires Plain(v.location)
    ensures Field(Item(v), LOCATION_KEY) == Some(v.location)
  {
    hide Field, Decimal;
    DigitsArePlain(v.hash, 'l');
    DigitsArePlain(v.parent, 'l');
    var before := "{\"hash\":\"" + Decimal(v.hash) + "\",\"parentHash\":\"" + Decimal(v.parent) + "\",";
    assert Item(v) == before + LOCATION_KEY + v.location + "\"}";
    assert 'l' !in before + "\"";
    assert LOCATION_KEY[0] == '\"';
    assert (before + LOCATION_KEY)[1..|before| + 1] == (before + "\"")[1..];
    FieldAt(Item(v), before, LOCATION_KEY, v.location, "\"}", 1);
  }

  /** The three fields of a printed version are read back. */
  lemma ParseItem(v: Version)
    requires Plain(v.location)
    ensures ParseObject(Item(v)) == Some(v)
  {
    hide Field, Item, Decimal, Stoull;
    HashField(v);
    ParentField(v);
    LocationField(v);
    StoullDecimal(v.hash);
    StoullDecimal(v.parent);
  }

  /** An item without its closing brace. */
  function Unclosed(v: Version): string {
    OPEN + ("\"" + Decimal(v.hash) + "\",\"parentHash\":\"" + Decimal(v.parent)
            + "\",\"location\":\"" + v.location + "\"")
  }

  lemma ItemCloses(v: Version)
    ensures Item(v) == Unclosed(v) + "}"
  {
    hide Decimal;
  }

  lemma UnclosedShape(v: Version)
    requires Plain(v.location)
    ensures |Unclosed(v)| > |OPEN| && Unclosed(v)[..|OPEN|] == OPEN && '}' !in Unclosed(v)
  {
    hide Decimal;
    DigitsArePlain(v.hash, '}');
    DigitsArePlain(v.parent, '}');
  }

  lemma ItemShape(v: Version)
    requires Plain(v.location)
    ensures var t := Item(v);
            && |t| > |OPEN| && t[..|OPEN|] == OPEN && t[|t| - 1] == '}' && '}' !in t[..|t| - 1]
  {
    UnclosedShape(v);
    ItemCloses(v);
    hide Item, Unclosed;
    var t := Item(v);
    assert t[..|t| - 1] == Unclosed(v) && t[..|OPEN|] == Unclosed(v)[..|OPEN|];
  }

  /** The parser finds the next item right after the text already consumed. */
  lemma ItemFound(json: string, pos: nat, start: nat, t: string)
    requires pos <= start && start + |t| <= |json| && json[start..start + |t|] == t && '{' !in json[pos..start]
    requires |t| > |OPEN| && t[..|OPEN|] == OPEN && t[|t| - 1] == '}' && '}' !in t[..|t| - 1]
    ensures Find(json, OPEN, pos) == Some(start)
    ensures Find(json, "}", start) == Some(start + |t| - 1)
  {
    hide Find;
    assert json[start..start + |OPEN|] == json[start..start + |t|][..|OPEN|] == OPEN;
    assert OPEN[0] == '{';
    FindFirst(json, OPEN, pos, start, 0);
    var end := start + |t| - 1;
    assert json[start..end] == json[start..start + |t|][..|t| - 1];
    assert json[end] == json[start..start + |t|][|t| - 1];
    FindFirst(json, "}", start, end, 0);
  }

  lemma ParseStep(json: string, pos: nat, start: nat, next: nat, v: Version, rest: seq<Version>)
    requires pos < |json| && Find(json, OPEN, pos) == Some(start) && Find(json, "}", start) == Some(next - 1)
    requires start < next <= |json| && ParseObject(json[start..next]) == Some(v)
    requires ParseFrom(json, next) == Some(rest)
    ensures ParseFrom(json, pos) == Some([v] + rest)
  {
    hide ParseObject, Find;
  }

  lemma ParseEnd(json: string, pos: nat)
    requires Find(json, OPEN, pos) == None
    ensures ParseFrom(json, pos) == Some([])
  {
    hide ParseObject, Find;
  }

  lemma ParseLast(json: string, pos: nat)
    requires pos <= |json| && json[pos..] == "]"
    ensures ParseFrom(json, pos) == Some([])
  {
    hide ParseFrom, Find;
    assert OPEN[0] == '{';
    FindNone(json, OPEN, pos, 0);
    ParseEnd(json, pos);
  }

  /** Where the next item of a printed list stands, and where the text goes on. */
  lemma NextItem(json: string, pos: nat, vs: seq<Version>, i: nat)
    requires pos <= |json| && i < |vs| && json[pos..] == ItemsFrom(vs, i)
    ensures var t := Item(vs[i]);
            var start := pos + |Separator(i)|;
            && start + |t| <= |json| && json[start..start + |t|] == t
            && json[start + |t|..] == ItemsFrom(vs, i + 1)
            && '{' !in json[pos..start]
  {
    hide Item;
    var t, rest := Item(vs[i]), ItemsFrom(vs, i + 1);
    assert Separator(i) + t + rest == Separator(i) + (t + rest);
    SplitAt(json, pos, Separator(i), t + rest);
    SplitAt(json, pos + |Separator(i)|, t, rest);
  }

  lemma {:induction false} ParseItems(json: string, pos: nat, vs: seq<Version>, i: nat)
    requires pos <= |json| && i <= |vs| && json[pos..] == ItemsFrom(vs, i)
    requires forall v :: v in vs ==> Plain(v.location)
    ensures ParseFrom(json, pos) == Some(vs[i..])
    decreases |vs| - i
  {
    hide Item, ParseObject, Matches, Find, ParseFrom, Separator;
    if i == |vs| {
      ParseLast(json, pos);
      assert vs[i..] == [];
    } else {
      var start := pos + |Separator(i)|;
      var next := start + |Item(vs[i])|;
      NextItem(json, pos, vs, i);
      ItemShape(vs[i]);
      ItemFound(json, pos, start, Item(vs[i]));
      ParseItem(vs[i]);
      ParseItems(json, next, vs, i + 1);
      ParseStep(json, pos, start, next, vs[i], vs[i + 1..]);
      assert [vs[i]] + vs[i + 1..] == vs[i..];
    }
  }

  /** What is printed is read back, entry by entry and in order. */
  lemma RoundTrip(vs: seq<Version>)
    requires forall v :: v in vs ==> Plain(v.location)
    ensures Parse(Print(vs)) == Some(vs)
  {
    if vs != [] {
      var json := "[" + ItemsFrom(vs, 0);
      assert json[1..] == ItemsFrom(vs, 0);
      ParseItems(json, 1, vs, 0);
      ItemShape(vs[0]);
      assert json[1] == OPEN[0];
      SkipBracket(json);
    }
  }

  lemma FindPastBracket(json: string)
    requires |json| > 1 && json[0] == '['
    ensures Find(json, OPEN, 0) == Find(json, OPEN, 1)
  {
    assert 0 + |OPEN| <= |json| ==> json[0..0 + |OPEN|][0] == '[' != OPEN[0];
  }

  lemma SkipBracket(json: string)
    requires |json| > 1 && json[0] == '['
    ensures ParseFrom(json, 0) == ParseFrom(json, 1)
  {
    hide ParseObject, Matches, Find;
    FindPastBracket(json);
  }

  /* ------------------------------- size ----------------------------------------------------- */

  lemma {:induction false} ItemsLength(vs: seq<Version>, i: nat)
    requires i <= |vs| && forall v :: v in vs ==> |v.location| == GUID_LENGTH
    ensures |ItemsFrom(vs, i)| <= 115 * (|vs| - i) + (if i == 0 && vs != [] then 0 else 1)
    decreases |vs| - i
  {
    hide Item;
    if i < |vs| {
      ItemLength(vs[i]);
      ItemsLength(vs, i + 1);
    }
  }

  lemma ItemLength(v: Version)
    requires |v.location| == GUID_LENGTH
    ensures |Item(v)| <= 114
  {
    hide Decimal;
    HashLength(v.hash);
    HashLength(v.parent);
  }

  /** A list of generated names fits: 115 characters an entry, 6901 for a full list of 60. */
  lemma PrintedLength(vs: seq<Version>)
    requires vs != [] && forall v :: v in vs ==> |v.location| == GUID_LENGTH
    ensures |Print(vs)| <= 115 * |vs| + 1
    ensures |vs| <= 60 ==> |Print(vs)| <= 6901
  {
    ItemsLength(vs, 0);
  }

  /* ------------------------------- generated names ------------------------------------------ */

  function HexChar(d: nat): char
    requires d < 16
  {
    if d < 10 then ('0' as int + d) as char else ('a' as int + d - 10) as char
  }

  /** The low `digits` hexadecimal digits of a value, zero filled. */
  function Hex(n: nat, digits: nat): (s: string)
    ensures |s| == digits && Plain(s)
  {
    if digits == 0 then "" else Hex(n / 16, digits - 1) + [HexChar(n % 16)]
  }

  function GuidText(part1: Hash, part2: Hash): (s: string)
    ensures IsGuidName(s) && Plain(s)
  {
    Hex(part1, 16) + "-" + Hex(part2, 16)
  }

  function Pow16(k: nat): (p: nat)
    ensures p > 0
  {
    if k == 0 then 1 else 16 * Pow16(k - 1)
  }

  lemma {:induction false} HexIsInjective(m: nat, n: nat, digits: nat)
    requires m < Pow16(digits) && n < Pow16(digits) && Hex(m, digits) == Hex(n, digits)
    ensures m == n
  {
    if digits > 0 {
      var a, b := Hex(m, digits), Hex(n, digits);
      assert a[..digits - 1] == Hex(m / 16, digits - 1) && b[..digits - 1] == Hex(n / 16, digits - 1);
      assert a[digits - 1] == HexChar(m % 16) && b[digits - 1] == HexChar(n % 16);
      HexIsInjective(m / 16, n / 16, digits - 1);
    }
  }

  /** Generated names repeat only when both random halves do. */
  lemma SameGuid(a1: Hash, a2: Hash, b1: Hash, b2: Hash)
    ensures GuidText(a1, a2) == GuidText(b1, b2) <==> a1 == b1 && a2 == b2
  {
    hide Hex, Plain;
    var a, b := GuidText(a1, a2), GuidText(b1, b2);
    if a == b {
      assert a[..16] == Hex(a1, 16) && b[..16] == Hex(b1, 16);
      assert a[17..] == Hex(a2, 16) && b[17..] == Hex(b2, 16);
      assert Pow16(8) == 0x1_0000_0000;
      assert Pow16(16) == WORD;
      HexIsInjective(a1, b1, 16);
      HexIsInjective(a2, b2, 16);
    }
  }

  /* ------------------------------- the text, literally -------------------------------------- */

  lemma PrintOne(v: Version)
    ensures Print([]) == "[]" && Print([v]) == "[" + Item(v) + "]"
  {
    hide Item;
    assert ItemsFrom([v], 1) == "]";
    assert "" + Item(v) + "]" == Item(v) + "]";
    assert "[" + (Item(v) + "]") == "[" + Item(v) + "]";
  }

  /** Entries between brackets, with a comma between neighbours. */
  lemma PrintAppend(vs: seq<Version>, v: Version)
    ensures Print([]) == "[]" && Print([v]) == "[" + Item(v) + "]"
    ensures vs != [] ==>
              && |Print(vs)| > 0 && Print(vs)[|Print(vs)| - 1] == ']'
              && Print(vs + [v]) == Print(vs)[..|Print(vs)| - 1] + "," + Item(v) + "]"
  {
    PrintOne(v);
    if vs != [] {
      PrintIsBracketed(vs);
      PrintIsBracketed(vs + [v]);
      ItemsAppend(vs, v, 0);
      hide Item, Print, ItemsFrom;
      Bracketed(ItemsFrom(vs, 0), "," + Item(v) + "]");
      var t := ItemsFrom(vs, 0);
      Regroup(t[..|t| - 1], Item(v));
      Regroup("[" + t[..|t| - 1], Item(v));
    }
  }

  lemma PrintIsBracketed(vs: seq<Version>)
    requires vs != []
    ensures Print(vs) == "[" + ItemsFrom(vs, 0)
  {
  }

  lemma Bracketed(t: string, more: string)
    requires t != ""
    ensures ("[" + t)[..|"[" + t| - 1] + more == "[" + (t[..|t| - 1] + more)
    ensures ("[" + t)[|"[" + t| - 1] == t[|t| - 1]
    ensures ("[" + t)[..|"[" + t| - 1] == "[" + t[..|t| - 1]
  {
    assert ("[" + t)[..|"[" + t| - 1] == "[" + t[..|t| - 1];
  }

  lemma Regroup(a: string, item: string)
    ensures a + ("," + item + "]") == a + "," + item + "]"
  {
  }

  lemma {:induction false} ItemsAppend(vs: seq<Version>, v: Version, i: nat)
    requires vs != [] && i <= |vs|
    ensures var t := ItemsFrom(vs, i);
            |t| > 0 && t[|t| - 1] == ']' && ItemsFrom(vs + [v], i) == t[..|t| - 1] + "," + Item(v) + "]"
    decreases |vs| - i
  {
    hide Item;
    var more := vs + [v];
    if i == |vs| {
      assert ItemsFrom(more, i + 1) == "]";
      assert "]"[..0] + "," + Item(v) + "]" == "," + Item(v) + "]";
    } else {
      ItemsAppend(vs, v, i + 1);
      assert more[i] == vs[i];
      var head, t := Separator(i) + Item(vs[i]), ItemsFrom(vs, i + 1);
      assert (head + t)[..|head + t| - 1] == head + t[..|t| - 1];
      assert head + (t[..|t| - 1] + "," + Item(v) + "]") == head + t[..|t| - 1] + "," + Item(v) + "]";
    }
  }

  /** A key that is missing moves the start of its field: `npos` plus the key's length wraps around. */
  lemma MissingKeys(obj: string)
    ensures Find(obj, "\"hash\":\"", 0).None? ==> Field(obj, HASH_KEY) == FieldFrom(obj, 7)
    ensures Find(obj, "\"parentHash\":\"", 0).None? ==> Field(obj, PARENT_KEY) == FieldFrom(obj, 13)
    ensures Find(obj, "\"location\":\"", 0).None? ==> Field(obj, LOCATION_KEY) == FieldFrom(obj, 11)
  {
    hide Find, FieldFrom;
  }

  /** Digits are zero filled, lower case, most significant first. */
  lemma HexDigit(n: nat, digits: nat, k: nat)
    requires k < digits
    ensures Hex(n, digits)[digits - 1 - k] == "0123456789abcdef"[n / Pow16(k) % 16]
    decreases k
  {
    hide Hex, HexChar;
    HexSplits(n, digits);
    if k == 0 {
      HexCharAt(n % 16);
      assert n / 1 == n;
    } else {
      HexDigit(n / 16, digits - 1, k - 1);
      DivideTwice(n, Pow16(k - 1));
    }
  }

  lemma HexSplits(n: nat, digits: nat)
    requires digits > 0
    ensures Hex(n, digits) == Hex(n / 16, digits - 1) + [HexChar(n % 16)]
  {
  }

  lemma HexCharAt(d: nat)
    requires d < 16
    ensures HexChar(d) == "0123456789abcdef"[d]
  {
  }

  lemma DivideTwice(n: nat, p: nat)
    requires p > 0
    ensures n / 16 / p == n / (16 * p)
  {
    var q := n / 16 / p;
    var r1, r2 := n % 16, n / 16 % p;
    assert n == 16 * (n / 16) + r1 && n / 16 == q * p + r2;
    assert n == q * (16 * p) + (16 * r2 + r1);
    DivModUnique(q, 16 * r2 + r1, 16 * p);
    assert (n / (16 * p) - q) * (16 * p) == 0;
    if n / (16 * p) != q {
      MultipleIsFar(n / (16 * p) - q, 16 * p);
    }
  }

  /** A generated name in full: sixteen digits of the first half, a dash, sixteen of the second. */
  lemma GuidAt(part1: Hash, part2: Hash, k: nat)
    requires k < 16
    ensures |GuidText(part1, part2)| == 33 && GuidText(part1, part2)[16] == '-'
    ensures GuidText(part1, part2)[15 - k] == "0123456789abcdef"[part1 / Pow16(k) % 16]
    ensures GuidText(part1, part2)[32 - k] == "0123456789abcdef"[part2 / Pow16(k) % 16]
  {
    hide Hex, Plain, Pow16;
    HexDigit(part1, 16, k);
    HexDigit(part2, 16, k);
  }
}
