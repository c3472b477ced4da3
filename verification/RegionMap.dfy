/** `ExtractRegionStorageMap`: reads the region to accounts map out of an account's JSON text. */
module RegionMap {
  import opened Types
  import opened Strings

  const KEY := "\"regionStorageMap\""

  type Regions = map<string, seq<string>>

  /* ------------------------------- the parser as functions ---------------------------------- */

  /** Position just after the brace that closes the one before `i`, and the braces left open. */
  function BraceEnd(s: string, i: nat, open: nat): (r: (nat, nat))
    decreases |s| - i
  {
    if i >= |s| || open == 0 then (i, open)
    else if s[i] == '{' then BraceEnd(s, i + 1, open + 1)
    else if s[i] == '}' then BraceEnd(s, i + 1, open - 1)
    else BraceEnd(s, i + 1, open)
  }

  /** The quoted strings from `pos` on. */
  function Elements(s: string, pos: nat): seq<string>
    decreases |s| - pos
  {
    if pos >= |s| then []
    else match Find(s, "\"", pos)
      case None => []
      case Some(a) =>
        match Find(s, "\"", a + 1)
        case None => []
        case Some(b) => [s[a + 1..b]] + Elements(s, b + 1)
  }

  function WithRegion(m: Regions, name: string, accounts: seq<string>): Regions {
    if accounts == [] then m else m[name := accounts]
  }

  /** The next entry from `pos` on: its name, the text of its array, and where it ends. */
  datatype Entry = Entry(name: string, items: string, next: nat)

  function NextEntry(s: string, pos: nat): (r: Option<Entry>)
    ensures r.Some? ==> pos < r.value.next <= |s|
  {
    match Find(s, "\"", pos)
    case None => None
    case Some(a) =>
      match Find(s, "\"", a + 1)
      case None => None
      case Some(b) =>
        match Find(s, "[", b)
        case None => None
        case Some(x) =>
          match Find(s, "]", x)
          case None => None
          case Some(y) =>
            EndPastStart(s, b);
            Some(Entry(s[a + 1..b], s[x + 1..y], y + 1))
  }

  /** The bracket that closes an array is not the one that opens it. */
  lemma EndPastStart(s: string, pos: nat)
    requires Find(s, "[", pos).Some? && Find(s, "]", Find(s, "[", pos).value).Some?
    ensures Find(s, "[", pos).value < Find(s, "]", Find(s, "[", pos).value).value
  {
    hide Find;
    var x := Find(s, "[", pos).value;
    var y := Find(s, "]", x).value;
    assert s[x..x + 1] == "[" && s[y..y + 1] == "]";
    assert s[x] == s[x..x + 1][0] && s[y] == s[y..y + 1][0];
  }

  /** The map after reading the entries from `pos` on. */
  function Entries(s: string, pos: nat, m: Regions): Regions
    decreases |s| - pos
  {
    if pos >= |s| then m
    else match NextEntry(s, pos)
      case None => m
      case Some(e) => Entries(s, e.next, WithRegion(m, e.name, Elements(e.items, 0)))
  }

  /** The text between the braces of the map; `None` when there is none. */
  function MapContent(json: string): Option<string> {
    match Find(json, KEY, 0)
    case None => None
    case Some(k) =>
      match Find(json, "{", k + |KEY|)
      case None => None
      case Some(brace) =>
        var (end, open) := BraceEnd(json, brace + 1, 1);
        BraceEndBounds(json, brace + 1, 1);
        if open != 0 then None else Some(json[brace + 1..end - 1])
  }

  lemma {:induction false} BraceEndBounds(s: string, i: nat, open: nat)
    requires i <= |s|
    ensures i <= BraceEnd(s, i, open).0 <= |s|
    ensures open > 0 && BraceEnd(s, i, open).1 == 0 ==> i < BraceEnd(s, i, open).0
    decreases |s| - i
  {
    if i < |s| && open > 0 {
      BraceEndBounds(s, i + 1, if s[i] == '{' then open + 1 else if s[i] == '}' then open - 1 else open);
    }
  }

  function Extracted(json: string): Regions {
    match MapContent(json)
    case None => map[]
    case Some(content) => Entries(content, 0, map[])
  }

  /* ------------------------------- the loops ------------------------------------------------ */

  method FindMapContent(json: string) returns (r: Option<string>)
    ensures r == MapContent(json)
  {
    hide Find, Matches;
    var keyPos := Find(json, KEY, 0);
    if keyPos.None? { return None; }
    var bracePos := Find(json, "{", keyPos.value + |KEY|);
    if bracePos.None? { return None; }
    FoundInside(json, "{", keyPos.value + |KEY|);
    var braceCount, endBrace := 1, bracePos.value + 1;
    ghost var goal := BraceEnd(json, endBrace, 1);
    while endBrace < |json| && braceCount > 0
      invariant braceCount >= 0 && bracePos.value < endBrace <= |json|
      invariant BraceEnd(json, endBrace, braceCount) == goal
    {
      if json[endBrace] == '{' {
        braceCount := braceCount + 1;
      } else if json[endBrace] == '}' {
        braceCount := braceCount - 1;
      }
      endBrace := endBrace + 1;
    }
    BraceEndBounds(json, bracePos.value + 1, 1);
    if braceCount != 0 { return None; }
    return Some(json[bracePos.value + 1..endBrace - 1]);
  }

  lemma FoundInside(s: string, pat: string, pos: nat)
    requires Find(s, pat, pos).Some?
    ensures pos <= Find(s, pat, pos).value && Find(s, pat, pos).value + |pat| <= |s|
  {
  }

  lemma AppendAssoc(a: seq<string>, x: string, b: seq<string>)
    ensures a + ([x] + b) == a + [x] + b
  {
  }

  method ParseArray(content: string) returns (accounts: seq<string>)
    ensures accounts == Elements(content, 0)
  {
    hide Find, Matches;
    accounts := [];
    var arrPos := 0;
    ghost var all := Elements(content, 0);
    while arrPos < |content|
      invariant all == accounts + Elements(content, arrPos)
      decreases |content| - arrPos
    {
      var elemStart := Find(content, "\"", arrPos);
      if elemStart.None? { break; }
      var elemEnd := Find(content, "\"", elemStart.value + 1);
      if elemEnd.None? { break; }
      FoundInside(content, "\"", arrPos);
      FoundInside(content, "\"", elemStart.value + 1);
      var name := content[elemStart.value + 1..elemEnd.value];
      AppendAssoc(accounts, name, Elements(content, elemEnd.value + 1));
      accounts := accounts + [name];
      arrPos := elemEnd.value + 1;
    }
  }

  method FindEntry(mapContent: string, pos: nat) returns (r: Option<Entry>)
    ensures r == NextEntry(mapContent, pos)
  {
    hide Find, Matches;
    var quoteStart := Find(mapContent, "\"", pos);
    if quoteStart.None? { return None; }
    var quoteEnd := Find(mapContent, "\"", quoteStart.value + 1);
    if quoteEnd.None? { return None; }
    FoundInside(mapContent, "\"", quoteStart.value + 1);
    var arrayStart := Find(mapContent, "[", quoteEnd.value);
    if arrayStart.None? { return None; }
    var arrayEnd := Find(mapContent, "]", arrayStart.value);
    if arrayEnd.None? { return None; }
    FoundInside(mapContent, "]", arrayStart.value);
    EndPastStart(mapContent, quoteEnd.value);
    return Some(Entry(mapContent[quoteStart.value + 1..quoteEnd.value],
                      mapContent[arrayStart.value + 1..arrayEnd.value], arrayEnd.value + 1));
  }

  method ExtractRegionStorageMap(json: string) returns (ok: bool, regionMap: Regions)
    ensures regionMap == Extracted(json)
    ensures ok <==> regionMap != map[]
  {
    hide Find, NextEntry, Elements, MapContent;
    regionMap := map[];
    var mapContent := FindMapContent(json);
    if mapContent.None? {
      return false, regionMap;
    }
    var pos := 0;
    while pos < |mapContent.value|
      invariant Entries(mapContent.value, pos, regionMap) == Entries(mapContent.value, 0, map[])
      decreases |mapContent.value| - pos
    {
      var entry := FindEntry(mapContent.value, pos);
      if entry.None? { break; }
      var accounts := ParseArray(entry.value.items);
      if accounts != [] {
        regionMap := regionMap[entry.value.name := accounts];
      }
      pos := entry.value.next;
    }
    return regionMap != map[], regionMap;
  }

  /* ------------------------------- printed maps --------------------------------------------- */

  /** Text without quotes, brackets and braces: names, and whatever stands between tokens. */
  predicate Clean(s: string) {
    forall c :: c in s ==> c != '\"' && c != '[' && c != ']' && c != '{' && c != '}'
  }

  /** A quoted name with the text before it. */
  datatype Quoted = Quoted(gap: string, name: string)

  /** One entry: its name, the text up to the array, the accounts, the text before the end of it. */
  datatype Region = Region(key: Quoted, colon: string, accounts: seq<Quoted>, tail: string)

  predicate CleanQuoted(q: Quoted) {
    Clean(q.gap) && Clean(q.name)
  }

  predicate CleanRegion(r: Region) {
    CleanQuoted(r.key) && Clean(r.colon) && Clean(r.tail) && forall q :: q in r.accounts ==> CleanQuoted(q)
  }

  function PrintQuoted(q: Quoted): string {
    q.gap + "\"" + q.name + "\""
  }

  function PrintAccounts(qs: seq<Quoted>): string {
    if qs == [] then "" else PrintQuoted(qs[0]) + PrintAccounts(qs[1..])
  }

  function PrintRegion(r: Region): string {
    PrintQuoted(r.key) + (r.colon + "[" + (PrintAccounts(r.accounts) + r.tail) + "]")
  }

  function PrintRegions(rs: seq<Region>): string {
    if rs == [] then "" else PrintRegion(rs[0]) + PrintRegions(rs[1..])
  }

  function AccountNames(qs: seq<Quoted>): (names: seq<string>)
    ensures |names| == |qs| && forall i :: 0 <= i < |qs| ==> names[i] == qs[i].name
  {
    if qs == [] then [] else [qs[0].name] + AccountNames(qs[1..])
  }

  /** The regions with accounts, in order; a later list for a name replaces an earlier one. */
  function Meaning(rs: seq<Region>, m: Regions): Regions {
    if rs == [] then m else Meaning(rs[1..], WithRegion(m, rs[0].key.name, AccountNames(rs[0].accounts)))
  }

  lemma NotFound(s: string, pat: string, pos: nat)
    requires |pat| == 1 && pos <= |s| && pat[0] !in s[pos..]
    ensures Find(s, pat, pos) == None
  {
    FindNone(s, pat, pos, 0);
  }

  lemma FoundAfter(s: string, pat: string, pos: nat, gap: string, rest: string)
    requires |pat| == 1 && pos <= |s| && s[pos..] == gap + (pat + rest) && pat[0] !in gap
    ensures pos + |gap| < |s| && Find(s, pat, pos) == Some(pos + |gap|)
    ensures s[pos + |gap| + 1..] == rest && s[pos..pos + |gap|] == gap
  {
    SplitAt(s, pos, gap, pat + rest);
    SplitAt(s, pos + |gap|, pat, rest);
    FindFirst(s, pat, pos, pos + |gap|, 0);
  }

  lemma QuotedShape(q: Quoted, rest: string)
    ensures PrintQuoted(q) + rest == q.gap + ("\"" + (q.name + ("\"" + rest)))
    ensures |PrintQuoted(q)| == |q.gap| + |q.name| + 2
  {
  }

  lemma FoundQuote(s: string, pos: nat)
    requires Find(s, "\"", pos).Some?
    ensures Find(s, "\"", pos).value < |s| && s[Find(s, "\"", pos).value] == '\"'
  {
    hide Find;
    var x := Find(s, "\"", pos).value;
    assert s[x..x + 1] == "\"" && s[x] == s[x..x + 1][0];
  }

  /** A quoted name at `pos`: where its quotes are, and what follows. */
  lemma QuotedAt(s: string, pos: nat, q: Quoted, rest: string)
    requires pos <= |s| && CleanQuoted(q) && s[pos..] == PrintQuoted(q) + rest
    ensures var a := pos + |q.gap|;
            var b := a + 1 + |q.name|;
            && Find(s, "\"", pos) == Some(a) && Find(s, "\"", a + 1) == Some(b)
            && b < |s| && s[a + 1..b] == q.name && s[b + 1..] == rest
            && b + 1 == pos + |PrintQuoted(q)| && s[b] == '\"'
  {
    hide Find, PrintQuoted, Matches;
    QuotedShape(q, rest);
    FoundAfter(s, "\"", pos, q.gap, q.name + ("\"" + rest));
    FoundAfter(s, "\"", pos + |q.gap| + 1, q.name, rest);
    FoundQuote(s, pos + |q.gap| + 1);
  }

  lemma {:induction false} ElementsOf(s: string, pos: nat, qs: seq<Quoted>, tail: string)
    requires pos <= |s| && s[pos..] == PrintAccounts(qs) + tail
    requires Clean(tail) && forall q :: q in qs ==> CleanQuoted(q)
    ensures Elements(s, pos) == AccountNames(qs)
    decreases |qs|
  {
    hide Find, PrintQuoted, Matches;
    if qs == [] {
      assert s[pos..] == tail;
      NotFound(s, "\"", pos);
    } else {
      var rest := PrintAccounts(qs[1..]) + tail;
      assert s[pos..] == PrintQuoted(qs[0]) + rest;
      QuotedAt(s, pos, qs[0], rest);
      ElementsOf(s, pos + |PrintQuoted(qs[0])|, qs[1..], tail);
    }
  }

  predicate NoBrackets(s: string) {
    forall c :: c in s ==> c != '[' && c != ']' && c != '{' && c != '}'
  }

  predicate NoBraces(s: string) {
    forall c :: c in s ==> c != '{' && c != '}'
  }

  lemma {:induction false} AccountsHaveNoBracket(qs: seq<Quoted>)
    requires forall q :: q in qs ==> CleanQuoted(q)
    ensures NoBrackets(PrintAccounts(qs))
  {
    if qs != [] {
      AccountsHaveNoBracket(qs[1..]);
      assert CleanQuoted(qs[0]) && NoBrackets(PrintQuoted(qs[0]));
      hide PrintQuoted;
    }
  }

  lemma EntryShape(r: Region, rest: string)
    ensures var inner := PrintAccounts(r.accounts) + r.tail;
            && PrintRegion(r) + rest == PrintQuoted(r.key) + (r.colon + ("[" + (inner + ("]" + rest))))
            && |PrintRegion(r)| == |PrintQuoted(r.key)| + |r.colon| + |inner| + 2
  {
    hide PrintQuoted, PrintAccounts;
  }

  /** The brackets of an array after the quote at `b`. */
  lemma ArrayAt(s: string, b: nat, colon: string, inner: string, rest: string)
    requires b < |s| && s[b] == '\"' && s[b + 1..] == colon + ("[" + (inner + ("]" + rest)))
    requires Clean(colon) && NoBrackets(inner)
    ensures var x := b + 1 + |colon|;
            var y := x + 1 + |inner|;
            && Find(s, "[", b) == Some(x) && Find(s, "]", x) == Some(y)
            && y < |s| && s[x + 1..y] == inner && s[y + 1..] == rest
  {
    hide Find, Matches;
    SkipOne(s, "[", b);
    FoundAfter(s, "[", b + 1, colon, inner + ("]" + rest));
    var x := b + 1 + |colon|;
    FoundAfter(s, "]", x + 1, inner, rest);
    OpensArray(s, b + 1);
    SkipOne(s, "]", x);
  }

  lemma InnerHasNoBracket(r: Region)
    requires CleanRegion(r)
    ensures NoBrackets(PrintAccounts(r.accounts) + r.tail)
  {
    AccountsHaveNoBracket(r.accounts);
    hide PrintAccounts;
  }

  /** The pieces of a printed entry, at their places. */
  lemma EntryPieces(s: string, pos: nat, r: Region, rest: string)
    requires pos <= |s| && CleanRegion(r) && s[pos..] == PrintRegion(r) + rest
    ensures var inner := PrintAccounts(r.accounts) + r.tail;
            var a := pos + |r.key.gap|;
            var b := a + 1 + |r.key.name|;
            var x := b + 1 + |r.colon|;
            var y := x + 1 + |inner|;
            && Find(s, "\"", pos) == Some(a) && Find(s, "\"", a + 1) == Some(b)
            && Find(s, "[", b) == Some(x) && Find(s, "]", x) == Some(y)
            && y < |s| && s[a + 1..b] == r.key.name && s[x + 1..y] == inner && s[y + 1..] == rest
            && y + 1 == pos + |PrintRegion(r)|
  {
    hide Find, Matches, PrintQuoted, PrintAccounts, PrintRegion, Clean, NoBrackets;
    var inner := PrintAccounts(r.accounts) + r.tail;
    var afterKey := r.colon + ("[" + (inner + ("]" + rest)));
    EntryShape(r, rest);
    QuotedAt(s, pos, r.key, afterKey);
    InnerHasNoBracket(r);
    ArrayAt(s, pos + |PrintQuoted(r.key)| - 1, r.colon, inner, rest);
  }

  lemma OpensArray(s: string, pos: nat)
    requires Find(s, "[", pos).Some?
    ensures Find(s, "[", pos).value < |s| && s[Find(s, "[", pos).value] == '['
  {
    hide Find;
    var x := Find(s, "[", pos).value;
    assert s[x..x + 1] == "[" && s[x] == s[x..x + 1][0];
  }

  lemma NextIs(s: string, pos: nat, a: nat, b: nat, x: nat, y: nat)
    requires Find(s, "\"", pos) == Some(a) && Find(s, "\"", a + 1) == Some(b)
    requires Find(s, "[", b) == Some(x) && Find(s, "]", x) == Some(y) && a < b && x < y < |s|
    ensures b <= |s| && NextEntry(s, pos) == Some(Entry(s[a + 1..b], s[x + 1..y], y + 1))
  {
    hide Find;
    FoundInside(s, "\"", a + 1);
  }

  lemma EntriesStep(s: string, pos: nat, e: Entry, m: Regions)
    requires pos < |s| && NextEntry(s, pos) == Some(e)
    ensures Entries(s, pos, m) == Entries(s, e.next, WithRegion(m, e.name, Elements(e.items, 0)))
  {
    hide NextEntry, Elements, WithRegion;
  }

  lemma EntriesEnd(s: string, pos: nat, m: Regions)
    requires pos <= |s| && '\"' !in s[pos..]
    ensures Entries(s, pos, m) == m
  {
    NotFound(s, "\"", pos);
    hide Find;
  }

  /** One printed entry is read as its name and its accounts. */
  lemma EntryAt(s: string, pos: nat, r: Region, rest: string, m: Regions)
    requires pos < |s| && CleanRegion(r) && s[pos..] == PrintRegion(r) + rest
    ensures var next := pos + |PrintRegion(r)|;
            && next <= |s| && s[next..] == rest
            && Entries(s, pos, m) == Entries(s, next, WithRegion(m, r.key.name, AccountNames(r.accounts)))
  {
    hide Find, Matches, PrintRegion, Elements, NextEntry, Entries, PrintAccounts, AccountNames, WithRegion;
    EntryPieces(s, pos, r, rest);
    var inner := PrintAccounts(r.accounts) + r.tail;
    var a := pos + |r.key.gap|;
    var b := a + 1 + |r.key.name|;
    var x := b + 1 + |r.colon|;
    NextIs(s, pos, a, b, x, x + 1 + |inner|);
    EntriesStep(s, pos, Entry(r.key.name, inner, pos + |PrintRegion(r)|), m);
    assert inner[0..] == inner;
    ElementsOf(inner, 0, r.accounts, r.tail);
  }

  /** Searching from a character that does not start the pattern. */
  lemma SkipOne(s: string, pat: string, pos: nat)
    requires |pat| == 1 && pos < |s| && s[pos] != pat[0]
    ensures Find(s, pat, pos) == Find(s, pat, pos + 1)
  {
    assert pos + |pat| <= |s| ==> s[pos..pos + |pat|][0] == s[pos];
  }

  lemma RegionNotEmpty(r: Region)
    ensures |PrintRegion(r)| > 0
  {
  }

  lemma {:induction false} EntriesOf(s: string, pos: nat, rs: seq<Region>, end: string, m: Regions)
    requires pos <= |s| && s[pos..] == PrintRegions(rs) + end
    requires Clean(end) && forall r :: r in rs ==> CleanRegion(r)
    ensures Entries(s, pos, m) == Meaning(rs, m)
    decreases |rs|
  {
    hide Find, PrintRegion, Elements, Matches, NextEntry, Entries, WithRegion, AccountNames, CleanRegion;
    if rs == [] {
      assert s[pos..] == end;
      EntriesEnd(s, pos, m);
    } else {
      var rest := PrintRegions(rs[1..]) + end;
      assert s[pos..] == PrintRegion(rs[0]) + rest;
      assert |PrintRegion(rs[0])| > 0 by { RegionNotEmpty(rs[0]); }
      EntryAt(s, pos, rs[0], rest, m);
      EntriesOf(s, pos + |PrintRegion(rs[0])|, rs[1..], end,
                WithRegion(m, rs[0].key.name, AccountNames(rs[0].accounts)));
    }
  }

  lemma RegionHasNoBrace(r: Region)
    requires CleanRegion(r)
    ensures NoBraces(PrintRegion(r))
  {
    AccountsHaveNoBracket(r.accounts);
    hide PrintAccounts;
  }

  lemma {:induction false} RegionsHaveNoBrace(rs: seq<Region>)
    requires forall r :: r in rs ==> CleanRegion(r)
    ensures NoBraces(PrintRegions(rs))
  {
    hide PrintRegion, CleanRegion;
    if rs != [] {
      RegionsHaveNoBrace(rs[1..]);
      RegionHasNoBrace(rs[0]);
    }
  }

  /** The braces left open at `j`, given how many are open at `i`. */
  function OpenAt(s: string, i: nat, j: nat, open: int): int
    requires i <= j <= |s|
    decreases j - i
  {
    if i == j then open
    else OpenAt(s, i + 1, j, if s[i] == '{' then open + 1 else if s[i] == '}' then open - 1 else open)
  }

  /** For every text the brace loop stops at the first position where no brace is open, nested ones
      counted, or at the end of the text when there is none. */
  lemma {:induction false} StopsAtMatch(s: string, i: nat, open: nat)
    requires i <= |s| && open > 0
    ensures var (end, left) := BraceEnd(s, i, open);
            && i <= end <= |s| && left == OpenAt(s, i, end, open)
            && (forall j :: i <= j < end ==> OpenAt(s, i, j, open) > 0)
            && (left == 0 || (left > 0 && end == |s|))
    decreases |s| - i
  {
    if i < |s| {
      var next := if s[i] == '{' then open + 1 else if s[i] == '}' then open - 1 else open;
      if next == 0 {
        assert OpenAt(s, i + 1, i + 1, 0) == 0;
      } else {
        StopsAtMatch(s, i + 1, next);
        forall j | i <= j < BraceEnd(s, i + 1, next).0 ensures OpenAt(s, i, j, open) > 0 {
          if j > i { assert OpenAt(s, i + 1, j, next) > 0; }
        }
      }
    }
  }

  /** Text without braces does not change the count. */
  lemma {:induction false} FlatText(s: string, i: nat, j: nat, open: int)
    requires i <= j <= |s| && '{' !in s[i..j] && '}' !in s[i..j]
    ensures OpenAt(s, i, j, open) == open
    decreases j - i
  {
    if i < j {
      assert s[i] == s[i..j][0] && s[i + 1..j] == s[i..j][1..];
      FlatText(s, i + 1, j, open);
    }
  }

  lemma {:induction false} CloseAfter(s: string, i: nat, j: nat, open: int)
    requires i <= j < |s| && s[j] == '}'
    ensures OpenAt(s, i, j + 1, open) == OpenAt(s, i, j, open) - 1
    decreases j - i
  {
    if i < j {
      CloseAfter(s, i + 1, j, if s[i] == '{' then open + 1 else if s[i] == '}' then open - 1 else open);
    }
  }

  /** The brace that closes a map without braces inside. */
  lemma StopsAfterBody(s: string, i: nat, body: string, rest: string)
    requires i <= |s| && s[i..] == body + ("}" + rest) && '{' !in body && '}' !in body
    ensures BraceEnd(s, i, 1) == (i + |body| + 1, 0)
  {
    SplitAt(s, i, body, "}" + rest);
    SplitAt(s, i + |body|, "}", rest);
    var j := i + |body|;
    assert s[j] == s[j..j + 1][0] == '}';
    StopsAtMatch(s, i, 1);
    FlatText(s, i, j, 1);
    CloseAfter(s, i, j, 1);
    var end := BraceEnd(s, i, 1).0;
    if end <= j {
      assert s[i..end] == body[..end - i];
      FlatText(s, i, end, 1);
    }
  }

  /** What a printed document means is what is read from it, whatever stands between its tokens,
      before the key and after the map. */
  lemma ReadsPrintedMap(before: string, mid: string, rs: seq<Region>, end: string, after: string)
    requires Find(before + KEY + mid + "{" + (PrintRegions(rs) + end) + "}" + after, KEY, 0) == Some(|before|)
    requires Clean(mid) && Clean(end) && forall r :: r in rs ==> CleanRegion(r)
    ensures Extracted(before + KEY + mid + "{" + (PrintRegions(rs) + end) + "}" + after) == Meaning(rs, map[])
  {
    hide Find, PrintRegions, CleanRegion, Clean;
    var body := PrintRegions(rs) + end;
    var json := before + KEY + mid + "{" + body + "}" + after;
    var k := |before| + |KEY|;
    assert '{' !in mid by { CleanHasNoBrace(mid); }
    assert json[k..] == mid + ("{" + (body + ("}" + after)));
    FoundAfter(json, "{", k, mid, body + ("}" + after));
    var brace := k + |mid|;
    RegionsHaveNoBrace(rs);
    CleanHasNoBrace(end);
    StopsAfterBody(json, brace + 1, body, after);
    SplitAt(json, brace + 1, body, "}" + after);
    assert MapContent(json) == Some(body);
    hide MapContent;
    assert body[0..] == body;
    EntriesOf(body, 0, rs, end, map[]);
  }

  lemma CleanHasNoBrace(s: string)
    requires Clean(s)
    ensures '{' !in s && '}' !in s
  {
  }

  /** A name is in the result exactly when some entry gives it accounts, and it has the accounts of
      its last such entry. */
  lemma {:induction false} MeaningOf(rs: seq<Region>, m: Regions, name: string)
    ensures name in Meaning(rs, m) <==>
              name in m || exists k :: 0 <= k < |rs| && rs[k].key.name == name && rs[k].accounts != []
    ensures forall k :: 0 <= k < |rs| && rs[k].key.name == name && rs[k].accounts != []
              && (forall j :: k < j < |rs| ==> rs[j].key.name != name || rs[j].accounts == [])
              ==> name in Meaning(rs, m) && Meaning(rs, m)[name] == AccountNames(rs[k].accounts)
    decreases |rs|
  {
    if rs != [] {
      var m' := WithRegion(m, rs[0].key.name, AccountNames(rs[0].accounts));
      var tail := rs[1..];
      MeaningOf(tail, m', name);
      assert forall k :: 0 <= k < |tail| ==> tail[k] == rs[k + 1];
      assert forall k :: 1 <= k < |rs| ==> rs[k] == tail[k - 1];
      assert AccountNames(rs[0].accounts) == [] <==> rs[0].accounts == [];
      if forall j :: 0 < j < |rs| ==> rs[j].key.name != name || rs[j].accounts == [] {
        UntouchedName(tail, m', name);
      }
    }
  }

  lemma {:induction false} UntouchedName(rs: seq<Region>, m: Regions, name: string)
    requires forall j :: 0 <= j < |rs| ==> rs[j].key.name != name || rs[j].accounts == []
    ensures name in Meaning(rs, m) <==> name in m
    ensures name in m ==> Meaning(rs, m)[name] == m[name]
    decreases |rs|
  {
    if rs != [] {
      UntouchedName(rs[1..], WithRegion(m, rs[0].key.name, AccountNames(rs[0].accounts)), name);
    }
  }
}
