/** A reader for canonical text, and the proof that it recovers every value's meaning:
    the serialiser is unambiguous. */
module CanonicalReader {
  import opened Types
  import opened Canonical

  predicate IsDigit(c: CodeUnit) { 0x30 <= c <= 0x39 }

  function ReadDigits(t: Text, acc: nat): (r: (nat, Text))
    ensures |r.1| <= |t|
  {
    if t != [] && IsDigit(t[0]) then ReadDigits(t[1..], acc * 10 + (t[0] - 0x30)) else (acc, t)
  }

  function HexValue(c: CodeUnit): (d: nat)
    ensures d < 16
  {
    if IsDigit(c) then c - 0x30
    else if 0x61 <= c <= 0x66 then c - 0x61 + 10
    else 0
  }

  function ShortUnescape(c: CodeUnit): CodeUnit {
    if c == 0x62 then 0x08
    else if c == 0x74 then 0x09
    else if c == 0x6E then 0x0A
    else if c == 0x66 then 0x0C
    else if c == 0x72 then 0x0D
    else c
  }

  /** One possibly escaped unit and what follows it. */
  function ReadUnit(t: Text): (r: Option<(CodeUnit, Text)>)
    ensures r.Some? ==> |r.value.1| < |t|
  {
    if t == [] then None
    else if t[0] != BACKSLASH then Some((t[0], t[1..]))
    else if |t| < 2 then None
    else if t[1] != LOWER_U then Some((ShortUnescape(t[1]), t[2..]))
    else if |t| < 6 then None
    else Some((((HexValue(t[2]) * 16 + HexValue(t[3])) * 16 + HexValue(t[4])) * 16 + HexValue(t[5]), t[6..]))
  }

  /** Reads up to and including the closing quote. */
  function ReadString(t: Text): (r: Option<(Text, Text)>)
    ensures r.Some? ==> |r.value.1| < |t|
    decreases |t|
  {
    if t == [] then None
    else if t[0] == QUOTE then Some(([], t[1..]))
    else
      var unit := ReadUnit(t);
      if unit.None? then None
      else
        var rest := ReadString(unit.value.1);
        if rest.None? then None else Some(([unit.value.0] + rest.value.0, rest.value.1))
  }

  function ReadValue(t: Text): (r: Option<(Tree, Text)>)
    ensures r.Some? ==> |r.value.1| < |t|
    decreases |t|, 0
  {
    if t == [] then None
    else if NULL_TEXT <= t then Some((TNull, t[4..]))
    else if TRUE_TEXT <= t then Some((TBool(true), t[4..]))
    else if FALSE_TEXT <= t then Some((TBool(false), t[5..]))
    else if t[0] == MINUS then
      var digits := ReadDigits(t[1..], 0);
      Some((TInt(0 - (digits.0 as int)), digits.1))
    else if IsDigit(t[0]) then
      var digits := ReadDigits(t[1..], t[0] - 0x30);
      Some((TInt(digits.0), digits.1))
    else if t[0] == QUOTE then
      var s := ReadString(t[1..]);
      if s.None? then None else Some((TStr(s.value.0), s.value.1))
    else if t[0] == OPEN_BRACKET then
      if |t| > 1 && t[1] == CLOSE_BRACKET then Some((TArr([]), t[2..]))
      else
        var items := ReadItems(t[1..]);
        if items.None? then None else Some((TArr(items.value.0), items.value.1))
    else if t[0] == OPEN_BRACE then
      if |t| > 1 && t[1] == CLOSE_BRACE then Some((TObj(map[]), t[2..]))
      else
        var fields := ReadFields(t[1..]);
        if fields.None? then None else Some((TObj(fields.value.0), fields.value.1))
    else None
  }

  /** An element of an array may have no text at all. */
  function ReadItem(t: Text): (r: Option<(Tree, Text)>)
    ensures r.Some? ==> |r.value.1| <= |t|
    decreases |t|, 1
  {
    if t != [] && (t[0] == COMMA || t[0] == CLOSE_BRACKET) then Some((THole, t)) else ReadValue(t)
  }

  function ReadItems(t: Text): (r: Option<(seq<Tree>, Text)>)
    ensures r.Some? ==> |r.value.1| < |t|
    decreases |t|, 2
  {
    var first := ReadItem(t);
    if first.None? || first.value.1 == [] then None
    else if first.value.1[0] == CLOSE_BRACKET then Some(([first.value.0], first.value.1[1..]))
    else if first.value.1[0] != COMMA then None
    else
      var rest := ReadItems(first.value.1[1..]);
      if rest.None? then None else Some(([first.value.0] + rest.value.0, rest.value.1))
  }

  function ReadFields(t: Text): (r: Option<(map<Text, Tree>, Text)>)
    ensures r.Some? ==> |r.value.1| < |t|
    decreases |t|, 1
  {
    if t == [] || t[0] != QUOTE then None
    else
      var key := ReadString(t[1..]);
      if key.None? || key.value.1 == [] || key.value.1[0] != COLON then None
      else
        var first := ReadValue(key.value.1[1..]);
        if first.None? || first.value.1 == [] then None
        else if first.value.1[0] == CLOSE_BRACE then Some((map[key.value.0 := first.value.0], first.value.1[1..]))
        else if first.value.1[0] != COMMA then None
        else
          var rest := ReadFields(first.value.1[1..]);
          if rest.None? then None else Some((rest.value.0[key.value.0 := first.value.0], rest.value.1))
  }

  // --- Scalars are read back ---------------------------------------------

  lemma {:induction false} ReadsNat(n: nat, rest: Text)
    ensures |NatText(n)| > 0 && IsDigit(NatText(n)[0])
    ensures ReadDigits(NatText(n) + rest, 0) == ReadDigits(rest, n)
    ensures ReadDigits((NatText(n) + rest)[1..], NatText(n)[0] - 0x30) == ReadDigits(rest, n)
  {
    if n < 10 {
      assert (NatText(n) + rest)[1..] == rest;
    } else {
      var d := [0x30 + n % 10];
      ReadsNat(n / 10, d + rest);
      assert NatText(n) + rest == NatText(n / 10) + (d + rest);
      assert (d + rest)[1..] == rest;
      assert n / 10 * 10 + n % 10 == n;
    }
  }

  lemma HexDigitsOf(c: CodeUnit)
    ensures ((c / 4096 * 16 + c / 256 % 16) * 16 + c / 16 % 16) * 16 + c % 16 == c
  {
    assert c / 16 / 16 == c / 256 && c / 256 / 16 == c / 4096;
  }

  lemma ReadsUnicodeEscape(c: CodeUnit, rest: Text)
    ensures ReadUnit(UnicodeEscape(c) + rest) == Some((c, rest))
  {
    var t := UnicodeEscape(c) + rest;
    assert t[6..] == rest;
    HexDigitsOf(c);
  }

  lemma ReadsShortEscape(c: CodeUnit, rest: Text)
    requires ShortEscape(c).Some?
    ensures ReadUnit([BACKSLASH, ShortEscape(c).value] + rest) == Some((c, rest))
  {
    assert ([BACKSLASH, ShortEscape(c).value] + rest)[2..] == rest;
  }

  lemma ReadsEscapedUnit(c: CodeUnit, rest: Text)
    ensures EscapeUnit(c) != [] && EscapeUnit(c)[0] != QUOTE
    ensures ReadUnit(EscapeUnit(c) + rest) == Some((c, rest))
  {
    if ShortEscape(c).Some? {
      ReadsShortEscape(c, rest);
    } else if c < 0x20 || IsLead(c) || IsTrail(c) {
      ReadsUnicodeEscape(c, rest);
    } else {
      assert ([c] + rest)[1..] == rest;
    }
  }

  lemma Regroup(a: Text, b: Text, c: Text)
    ensures a + b + c == a + (b + c)
    ensures (a + b)[|a|..] == b
  {
  }

  lemma StringStep(t: Text, c: CodeUnit, u: Text, s: Text, rest: Text)
    requires t != [] && t[0] != QUOTE && ReadUnit(t) == Some((c, u)) && ReadString(u) == Some((s, rest))
    ensures ReadString(t) == Some(([c] + s, rest))
  {
  }

  lemma PlainUnit(c: CodeUnit, u: Text)
    requires c != BACKSLASH
    ensures ReadUnit([c] + u) == Some((c, u))
  {
    Regroup([c], u, []);
  }

  lemma EndOfString(rest: Text)
    ensures ReadString([QUOTE] + rest) == Some(([], rest))
  {
    Regroup([QUOTE], rest, []);
  }

  lemma PairText(s: Text, tail: Text)
    requires |s| > 1 && IsLead(s[0]) && IsTrail(s[1])
    ensures QuoteBody(s) + tail == [s[0]] + ([s[1]] + (QuoteBody(s[2..]) + tail))
  {
    var others := QuoteBody(s[2..]);
    assert QuoteBody(s) == [s[0], s[1]] + others && [s[0], s[1]] == [s[0]] + [s[1]];
    Regroup([s[0]] + [s[1]], others, tail);
    Regroup([s[0]], [s[1]], others + tail);
  }

  lemma PairHeads(s: Text)
    requires |s| > 1
    ensures s == [s[0]] + ([s[1]] + s[2..])
  {
  }

  lemma UnitText(s: Text, tail: Text)
    requires s != [] && !(|s| > 1 && IsLead(s[0]) && IsTrail(s[1]))
    ensures QuoteBody(s) + tail == EscapeUnit(s[0]) + (QuoteBody(s[1..]) + tail)
  {
    var escaped, others := EscapeUnit(s[0]), QuoteBody(s[1..]);
    assert QuoteBody(s) == escaped + others;
    Regroup(escaped, others, tail);
  }

  lemma ReadsPair(lead: CodeUnit, trail: CodeUnit, u: Text, s: Text, rest: Text)
    requires IsLead(lead) && IsTrail(trail) && ReadString(u) == Some((s, rest))
    ensures ReadString([lead] + ([trail] + u)) == Some(([lead] + ([trail] + s), rest))
  {
    PlainUnit(trail, u);
    StringStep([trail] + u, trail, u, s, rest);
    PlainUnit(lead, [trail] + u);
    StringStep([lead] + ([trail] + u), lead, [trail] + u, [trail] + s, rest);
  }

  lemma {:induction false} ReadsQuoted(s: Text, rest: Text)
    ensures ReadString(QuoteBody(s) + ([QUOTE] + rest)) == Some((s, rest))
    decreases |s|
  {
    var tail := [QUOTE] + rest;
    if s == [] {
      EndOfString(rest);
      assert QuoteBody(s) + tail == tail;
    } else if |s| > 1 && IsLead(s[0]) && IsTrail(s[1]) {
      ReadsQuoted(s[2..], rest);
      ReadsPair(s[0], s[1], QuoteBody(s[2..]) + tail, s[2..], rest);
      PairText(s, tail);
      PairHeads(s);
    } else {
      ReadsQuoted(s[1..], rest);
      var u := QuoteBody(s[1..]) + tail;
      ReadsEscapedUnit(s[0], u);
      StringStep(EscapeUnit(s[0]) + u, s[0], u, s[1..], rest);
      UnitText(s, tail);
      assert s == [s[0]] + s[1..];
    }
  }

  /** What may follow a value inside a larger canonical text. */
  predicate Delimited(rest: Text) {
    rest == [] || rest[0] == COMMA || rest[0] == CLOSE_BRACKET || rest[0] == CLOSE_BRACE
  }

  /** The text denotes the tree wherever it is followed by a delimiter or nothing. */
  ghost predicate Reads(t: Text, tree: Tree) {
    && t != [] && t[0] != CLOSE_BRACKET && t[0] != CLOSE_BRACE && t[0] != COMMA
    && forall rest | Delimited(rest) :: ReadValue(t + rest) == Some((tree, rest))
  }

  lemma ReadsNegative(m: nat, rest: Text)
    requires m > 0 && Delimited(rest)
    ensures ReadValue([MINUS] + NatText(m) + rest) == Some((TInt(0 - (m as int)), rest))
  {
    hide ReadItems, ReadFields, ReadString, NatText;
    var t := [MINUS] + NatText(m) + rest;
    Regroup([MINUS], NatText(m), rest);
    ReadsNat(m, rest);
    assert t[0] == MINUS && t[1..] == NatText(m) + rest;
    NotAWord(t);
  }

  lemma ReadsNatural(m: nat, rest: Text)
    requires Delimited(rest)
    ensures ReadValue(NatText(m) + rest) == Some((TInt(m), rest))
  {
    hide ReadItems, ReadFields, ReadString, NatText;
    var t := NatText(m) + rest;
    ReadsNat(m, rest);
    assert t[0] == NatText(m)[0];
    NotAWord(t);
  }

  lemma ReadsInt(n: int)
    ensures Reads(IntText(n), TInt(n))
  {
    hide ReadValue, NatText;
    ReadsNat(if n < 0 then -n else n, []);
    forall rest | Delimited(rest)
      ensures ReadValue(IntText(n) + rest) == Some((TInt(n), rest))
    {
      if n < 0 {
        ReadsNegative(-n, rest);
      } else {
        ReadsNatural(n, rest);
      }
    }
  }

  lemma NotAWord(t: Text)
    requires t != [] && t[0] != 0x6E && t[0] != 0x74 && t[0] != 0x66
    ensures !(NULL_TEXT <= t) && !(TRUE_TEXT <= t) && !(FALSE_TEXT <= t)
  {
    assert NULL_TEXT[0] == 0x6E && TRUE_TEXT[0] == 0x74 && FALSE_TEXT[0] == 0x66;
  }

  lemma ReadsWord(b: bool)
    ensures Reads(NULL_TEXT, TNull)
    ensures Reads(if b then TRUE_TEXT else FALSE_TEXT, TBool(b))
  {
    forall rest | Delimited(rest)
      ensures ReadValue(NULL_TEXT + rest) == Some((TNull, rest))
      ensures ReadValue((if b then TRUE_TEXT else FALSE_TEXT) + rest) == Some((TBool(b), rest))
    {
      var t := (if b then TRUE_TEXT else FALSE_TEXT) + rest;
      assert (NULL_TEXT + rest)[4..] == rest;
      assert (TRUE_TEXT + rest)[4..] == rest && (FALSE_TEXT + rest)[5..] == rest;
      assert t[0] == if b then 0x74 else 0x66;
      assert NULL_TEXT[0] == 0x6E && TRUE_TEXT[0] == 0x74;
    }
  }

  lemma ReadsApply(t: Text, tree: Tree, rest: Text)
    requires Reads(t, tree) && Delimited(rest)
    ensures ReadValue(t + rest) == Some((tree, rest))
  {
  }

  lemma QuotedThen(s: Text, rest: Text)
    ensures (Quote(s) + rest)[0] == QUOTE
    ensures ReadString((Quote(s) + rest)[1..]) == Some((s, rest))
  {
    ReadsQuoted(s, rest);
    assert (Quote(s) + rest)[1..] == QuoteBody(s) + ([QUOTE] + rest);
  }

  lemma ReadsStr(s: Text)
    ensures Reads(Quote(s), TStr(s))
  {
    forall rest | Delimited(rest)
      ensures ReadValue(Quote(s) + rest) == Some((TStr(s), rest))
    {
      QuotedThen(s, rest);
      NotAWord(Quote(s) + rest);
    }
  }

  // --- Containers are read back ------------------------------------------

  /** The text of an element denotes the tree; no text denotes a hole. */
  ghost predicate ItemReads(t: Text, tree: Tree) {
    if t == [] then tree == THole else Reads(t, tree)
  }

  lemma ItemApply(t: Text, tree: Tree, rest: Text)
    requires ItemReads(t, tree) && rest != [] && (rest[0] == COMMA || rest[0] == CLOSE_BRACKET)
    ensures ReadItem(t + rest) == Some((tree, rest))
  {
    if t == [] {
      assert t + rest == rest;
    } else {
      ReadsApply(t, tree, rest);
    }
  }

  lemma LastItem(t: Text, tree: Tree, rest: Text)
    requires ReadItem(t) == Some((tree, [CLOSE_BRACKET] + rest))
    ensures ReadItems(t) == Some(([tree], rest))
  {
    Regroup([CLOSE_BRACKET], rest, []);
  }

  lemma NextItem(t: Text, tree: Tree, u: Text, trees: seq<Tree>, rest: Text)
    requires ReadItem(t) == Some((tree, [COMMA] + u))
    requires ReadItems(u) == Some((trees, rest))
    ensures ReadItems(t) == Some(([tree] + trees, rest))
  {
    Regroup([COMMA], u, []);
  }

  lemma JoinStep(parts: seq<Text>, tail: Text)
    requires |parts| > 1
    ensures Join(parts) + tail == parts[0] + ([COMMA] + (Join(parts[1..]) + tail))
  {
  }

  /** The pieces of a bracketed text. */
  lemma Bracketed(open: CodeUnit, body: Text, close: CodeUnit, rest: Text)
    ensures var t := [open] + body + [close] + rest;
            && |t| > 1 && t[0] == open && t[1..] == body + ([close] + rest)
            && (body != [] ==> t[1] == body[0])
            && (body == [] ==> t[1] == close && t[2..] == rest)
  {
    var t := [open] + body + [close] + rest;
    assert t[1..] == body + ([close] + rest);
  }

  lemma {:induction false} ReadsJoined(parts: seq<Text>, trees: seq<Tree>, rest: Text)
    requires |parts| == |trees| > 0
    requires forall i | 0 <= i < |parts| :: ItemReads(parts[i], trees[i])
    ensures ReadItems(Join(parts) + ([CLOSE_BRACKET] + rest)) == Some((trees, rest))
  {
    var close := [CLOSE_BRACKET] + rest;
    assert ItemReads(parts[0], trees[0]);
    if |parts| == 1 {
      ItemApply(parts[0], trees[0], close);
      LastItem(parts[0] + close, trees[0], rest);
      assert trees == [trees[0]];
    } else {
      ReadsJoined(parts[1..], trees[1..], rest);
      var u := Join(parts[1..]) + close;
      ItemApply(parts[0], trees[0], [COMMA] + u);
      NextItem(parts[0] + ([COMMA] + u), trees[0], u, trees[1..], rest);
      JoinStep(parts, close);
      assert trees == [trees[0]] + trees[1..];
    }
  }

  /** The first element is there, or a comma is. */
  lemma JoinedHole(parts: seq<Text>)
    requires |parts| > 1 && parts[0] == []
    ensures Join(parts) != [] && Join(parts)[0] == COMMA
  {
  }

  lemma JoinedHead(parts: seq<Text>)
    requires parts != [] && parts[0] != []
    ensures Join(parts) != [] && Join(parts)[0] == parts[0][0]
  {
  }

  lemma ArrayStep(t: Text, trees: seq<Tree>, rest: Text)
    requires |t| > 1 && t[0] == OPEN_BRACKET && t[1] != CLOSE_BRACKET
    requires ReadItems(t[1..]) == Some((trees, rest))
    ensures ReadValue(t) == Some((TArr(trees), rest))
  {
    NotAWord(t);
  }

  lemma EmptyContainer(t: Text, rest: Text)
    requires |t| > 1 && t[2..] == rest
    requires (t[0] == OPEN_BRACKET && t[1] == CLOSE_BRACKET) || (t[0] == OPEN_BRACE && t[1] == CLOSE_BRACE)
    ensures ReadValue(t) == Some((if t[0] == OPEN_BRACKET then TArr([]) else TObj(map[]), rest))
  {
    NotAWord(t);
  }

  /** Brackets with nothing in between are an empty array, also when they stand for one hole. */
  function ArrayTree(trees: seq<Tree>): Tree {
    if trees == [THole] then TArr([]) else TArr(trees)
  }

  lemma ReadsArrayThen(parts: seq<Text>, trees: seq<Tree>, rest: Text)
    requires |parts| == |trees|
    requires forall i | 0 <= i < |parts| :: ItemReads(parts[i], trees[i])
    ensures ReadValue([OPEN_BRACKET] + Join(parts) + [CLOSE_BRACKET] + rest) == Some((ArrayTree(trees), rest))
  {
    var t := [OPEN_BRACKET] + Join(parts) + [CLOSE_BRACKET] + rest;
    Bracketed(OPEN_BRACKET, Join(parts), CLOSE_BRACKET, rest);
    if parts == [] {
      EmptyContainer(t, rest);
    } else {
      assert ItemReads(parts[0], trees[0]);
      if parts == [[]] {
        assert trees == [THole];
        EmptyContainer(t, rest);
      } else {
        ReadsJoined(parts, trees, rest);
        if parts[0] == [] {
          JoinedHole(parts);
        } else {
          JoinedHead(parts);
          NeverAHole(parts[0], trees[0]);
        }
        ArrayStep(t, trees, rest);
      }
    }
  }

  lemma NeverAHole(t: Text, tree: Tree)
    requires Reads(t, tree)
    ensures tree != THole
  {
    ReadsApply(t, tree, []);
  }

  lemma ReadsArray(parts: seq<Text>, trees: seq<Tree>)
    requires |parts| == |trees|
    requires forall i | 0 <= i < |parts| :: ItemReads(parts[i], trees[i])
    ensures Reads([OPEN_BRACKET] + Join(parts) + [CLOSE_BRACKET], ArrayTree(trees))
  {
    forall rest | Delimited(rest)
      ensures ReadValue([OPEN_BRACKET] + Join(parts) + [CLOSE_BRACKET] + rest) == Some((ArrayTree(trees), rest))
    {
      ReadsArrayThen(parts, trees, rest);
    }
  }

  ghost predicate ReadableEntries(entries: seq<(Text, Text)>, trees: map<Text, Tree>) {
    forall i | 0 <= i < |entries| :: entries[i].0 in trees && Reads(entries[i].1, trees[entries[i].0])
  }

  function KeysOf(entries: seq<(Text, Text)>): set<Text> {
    set e | e in entries :: e.0
  }

  function Restrict(trees: map<Text, Tree>, keys: set<Text>): map<Text, Tree> {
    map k | k in trees && k in keys :: trees[k]
  }

  function EntryText(e: (Text, Text)): Text {
    Quote(e.0) + [COLON] + e.1
  }

  /** The key and value of one entry, up to the delimiter after it. */
  lemma ReadsEntry(e: (Text, Text), tree: Tree, tail: Text) returns (afterKey: Text)
    requires Reads(e.1, tree) && Delimited(tail)
    ensures var t := EntryText(e) + tail;
            && t[0] == QUOTE
            && ReadString(t[1..]) == Some((e.0, afterKey))
            && afterKey != [] && afterKey[0] == COLON
            && ReadValue(afterKey[1..]) == Some((tree, tail))
  {
    hide ReadValue, ReadString, QuoteBody, ReadUnit;
    afterKey := [COLON] + (e.1 + tail);
    QuotedThen(e.0, afterKey);
    assert EntryText(e) + tail == Quote(e.0) + afterKey;
    ReadsApply(e.1, tree, tail);
    Regroup([COLON], e.1 + tail, []);
  }

  lemma LastField(t: Text, key: Text, afterKey: Text, tree: Tree, rest: Text)
    requires t != [] && t[0] == QUOTE && ReadString(t[1..]) == Some((key, afterKey))
    requires afterKey != [] && afterKey[0] == COLON && ReadValue(afterKey[1..]) == Some((tree, [CLOSE_BRACE] + rest))
    ensures ReadFields(t) == Some((map[key := tree], rest))
  {
    Regroup([CLOSE_BRACE], rest, []);
  }

  lemma NextField(t: Text, key: Text, afterKey: Text, tree: Tree, u: Text, fields: map<Text, Tree>, rest: Text)
    requires t != [] && t[0] == QUOTE && ReadString(t[1..]) == Some((key, afterKey))
    requires afterKey != [] && afterKey[0] == COLON && ReadValue(afterKey[1..]) == Some((tree, [COMMA] + u))
    requires ReadFields(u) == Some((fields, rest))
    ensures ReadFields(t) == Some((fields[key := tree], rest))
  {
    Regroup([COMMA], u, []);
  }

  lemma RestrictStep(trees: map<Text, Tree>, entries: seq<(Text, Text)>)
    requires entries != [] && entries[0].0 in trees
    ensures Restrict(trees, KeysOf(entries)) ==
            Restrict(trees, KeysOf(entries[1..]))[entries[0].0 := trees[entries[0].0]]
  {
    assert KeysOf(entries) == {entries[0].0} + KeysOf(entries[1..]);
  }

  lemma {:induction false} ReadsJoinedEntries(entries: seq<(Text, Text)>, trees: map<Text, Tree>, rest: Text)
    requires entries != [] && ReadableEntries(entries, trees)
    ensures ReadFields(Join(EntryTexts(entries)) + ([CLOSE_BRACE] + rest)) ==
            Some((Restrict(trees, KeysOf(entries)), rest))
  {
    var parts := EntryTexts(entries);
    var close := [CLOSE_BRACE] + rest;
    var e := entries[0];
    assert e.0 in trees && Reads(e.1, trees[e.0]);
    assert parts[0] == EntryText(e);
    RestrictStep(trees, entries);
    if |entries| == 1 {
      var afterKey := ReadsEntry(e, trees[e.0], close);
      LastField(EntryText(e) + close, e.0, afterKey, trees[e.0], rest);
      assert Restrict(trees, KeysOf(entries[1..])) == map[];
    } else {
      assert EntryTexts(entries[1..]) == parts[1..];
      ReadsJoinedEntries(entries[1..], trees, rest);
      var u := Join(parts[1..]) + close;
      var afterKey := ReadsEntry(e, trees[e.0], [COMMA] + u);
      NextField(EntryText(e) + ([COMMA] + u), e.0, afterKey, trees[e.0], u, Restrict(trees, KeysOf(entries[1..])), rest);
      JoinStep(parts, close);
    }
  }

  lemma ObjectStep(t: Text, fields: map<Text, Tree>, rest: Text)
    requires |t| > 1 && t[0] == OPEN_BRACE && t[1] != CLOSE_BRACE
    requires ReadFields(t[1..]) == Some((fields, rest))
    ensures ReadValue(t) == Some((TObj(fields), rest))
  {
    NotAWord(t);
  }

  lemma ReadsObjectThen(entries: seq<(Text, Text)>, trees: map<Text, Tree>, rest: Text)
    requires ReadableEntries(entries, trees) && KeysOf(entries) == trees.Keys
    ensures ReadValue([OPEN_BRACE] + Join(EntryTexts(entries)) + [CLOSE_BRACE] + rest) == Some((TObj(trees), rest))
  {
    var parts := EntryTexts(entries);
    var t := [OPEN_BRACE] + Join(parts) + [CLOSE_BRACE] + rest;
    Bracketed(OPEN_BRACE, Join(parts), CLOSE_BRACE, rest);
    if entries == [] {
      EmptyContainer(t, rest);
      assert trees == map[];
    } else {
      ReadsJoinedEntries(entries, trees, rest);
      JoinedHead(parts);
      assert parts[0][0] == QUOTE;
      assert Restrict(trees, trees.Keys) == trees;
      ObjectStep(t, trees, rest);
    }
  }

  lemma ReadsObject(entries: seq<(Text, Text)>, trees: map<Text, Tree>)
    requires ReadableEntries(entries, trees) && KeysOf(entries) == trees.Keys
    ensures Reads([OPEN_BRACE] + Join(EntryTexts(entries)) + [CLOSE_BRACE], TObj(trees))
  {
    forall rest | Delimited(rest)
      ensures ReadValue([OPEN_BRACE] + Join(EntryTexts(entries)) + [CLOSE_BRACE] + rest) == Some((TObj(trees), rest))
    {
      ReadsObjectThen(entries, trees, rest);
    }
  }

  // --- Every clean value reads back as its meaning -----------------------

  lemma {:induction false} InsertKeeps(e: (Text, Text), sorted: seq<(Text, Text)>)
    ensures forall x :: x in Insert(e, sorted) <==> x == e || x in sorted
  {
    if sorted != [] && Less(sorted[0].0, e.0) {
      InsertKeeps(e, sorted[1..]);
    }
  }

  lemma {:induction false} SortKeeps(entries: seq<(Text, Text)>)
    ensures forall x :: x in Sort(entries) <==> x in entries
  {
    if entries != [] {
      SortKeeps(entries[1..]);
      InsertKeeps(entries[0], Sort(entries[1..]));
    }
  }

  lemma {:induction false} RenderedEntries(fields: seq<Field>)
    ensures forall x :: x in Rendered(fields) <==>
              exists i | 0 <= i < |fields| :: !fields[i].value.Undefined? && x == (fields[i].key, Canonicalize(fields[i].value))
  {
    if fields != [] {
      RenderedEntries(fields[1..]);
      forall x
        ensures x in Rendered(fields) <==>
                exists i | 0 <= i < |fields| :: !fields[i].value.Undefined? && x == (fields[i].key, Canonicalize(fields[i].value))
      {
        if x in Rendered(fields[1..]) {
          var i :| 0 <= i < |fields[1..]| && !fields[1..][i].value.Undefined? && x == (fields[1..][i].key, Canonicalize(fields[1..][i].value));
          assert fields[i + 1] == fields[1..][i];
        }
        if i :| 0 <= i < |fields| && !fields[i].value.Undefined? && x == (fields[i].key, Canonicalize(fields[i].value)) {
          if i > 0 {
            assert fields[1..][i - 1] == fields[i];
          }
        }
      }
    }
  }

  lemma {:induction false} ItemTextAt(items: seq<Value>, i: nat)
    requires i < |items|
    ensures ItemTexts(items)[i] == Canonicalize(items[i])
  {
    if i > 0 {
      ItemTextAt(items[1..], i - 1);
    }
  }

  /** The entries of an object, in whatever order, read as its fields' meanings. */
  lemma EntriesRead(fields: seq<Field>, entries: seq<(Text, Text)>)
    requires CleanFields(fields)
    requires forall i | 0 <= i < |fields| && !fields[i].value.Undefined? ::
               Reads(Canonicalize(fields[i].value), Meaning(fields[i].value))
    requires forall e | e in entries :: e in Rendered(fields)
    ensures ReadableEntries(entries, FieldMeanings(fields))
  {
    var trees := FieldMeanings(fields);
    forall m | 0 <= m < |entries|
      ensures entries[m].0 in trees && Reads(entries[m].1, trees[entries[m].0])
    {
      assert entries[m] in entries;
      var i := FieldOf(fields, entries[m]);
    }
  }

  lemma EntryKeys(fields: seq<Field>, entries: seq<(Text, Text)>)
    requires CleanFields(fields)
    requires forall e :: e in entries <==> e in Rendered(fields)
    ensures KeysOf(entries) == FieldMeanings(fields).Keys
  {
    forall k | k in KeysOf(entries)
      ensures k in FieldMeanings(fields)
    {
      var e :| e in entries && e.0 == k;
      var i := FieldOf(fields, e);
    }
    forall k | k in FieldMeanings(fields)
      ensures k in KeysOf(entries)
    {
      var i :| 0 <= i < |fields| && fields[i].key == k && !fields[i].value.Undefined?;
      RenderedEntries(fields);
      assert (fields[i].key, Canonicalize(fields[i].value)) in entries;
    }
  }

  lemma FieldOf(fields: seq<Field>, e: (Text, Text)) returns (i: nat)
    requires e in Rendered(fields)
    ensures i < |fields| && !fields[i].value.Undefined? && e == (fields[i].key, Canonicalize(fields[i].value))
  {
    RenderedEntries(fields);
    i :| 0 <= i < |fields| && !fields[i].value.Undefined? && e == (fields[i].key, Canonicalize(fields[i].value));
  }

  lemma OneHole(items: seq<Value>, trees: seq<Tree>)
    requires Clean(Arr(items)) && |trees| == |items|
    requires forall i | 0 <= i < |items| :: trees[i] == if items[i].Undefined? then THole else Meaning(items[i])
    ensures ArrayTree(trees) == Meaning(Arr(items))
  {
    if items != [Undefined] {
      assert trees != [THole];
      assert trees == Meaning(Arr(items)).items;
    }
  }

  /** Canonical text determines the value's meaning, whatever follows it. */
  lemma {:induction false} CanonicalTextReads(v: Value)
    requires Clean(v)
    ensures Reads(Canonicalize(v), Meaning(v))
    decreases v
  {
    match v
    case Null => ReadsWord(true);
    case Bool(b) => ReadsWord(b);
    case Int(n) => ReadsInt(n);
    case Str(s) => ReadsStr(s);
    case Arr(items) =>
      var trees := seq(|items|, i requires 0 <= i < |items| => if items[i].Undefined? then THole else Meaning(items[i]));
      forall i | 0 <= i < |items|
        ensures ItemReads(ItemTexts(items)[i], trees[i])
      {
        ItemTextAt(items, i);
        if !items[i].Undefined? {
          CanonicalTextReads(items[i]);
        }
      }
      ReadsArray(ItemTexts(items), trees);
      OneHole(items, trees);
    case Obj(fields) =>
      forall i | 0 <= i < |fields| && !fields[i].value.Undefined?
        ensures Reads(Canonicalize(fields[i].value), Meaning(fields[i].value))
      {
        CanonicalTextReads(fields[i].value);
      }
      SortKeeps(Rendered(fields));
      EntriesRead(fields, Sort(Rendered(fields)));
      EntryKeys(fields, Sort(Rendered(fields)));
      ReadsObject(Sort(Rendered(fields)), FieldMeanings(fields));
  }

  // --- Equal meanings print alike ----------------------------------------

  lemma {:induction false} LessTotal(a: Text, b: Text)
    ensures Less(a, b) || Less(b, a) || a == b
    ensures !(Less(a, b) && Less(b, a))
    ensures !Less(a, a)
  {
    if a != [] && b != [] && a[0] == b[0] {
      LessTotal(a[1..], b[1..]);
      assert a == [a[0]] + a[1..] && b == [b[0]] + b[1..];
    }
    if a != [] {
      LessTotal(a[1..], a[1..]);
    }
  }

  lemma {:induction false} LessTransitive(a: Text, b: Text, c: Text)
    requires Less(a, b) && Less(b, c)
    ensures Less(a, c)
  {
    if a != [] && a[0] == b[0] && b[0] == c[0] {
      LessTransitive(a[1..], b[1..], c[1..]);
    }
  }

  ghost predicate StrictlySorted(entries: seq<(Text, Text)>) {
    forall i, j | 0 <= i < j < |entries| :: Less(entries[i].0, entries[j].0)
  }

  ghost predicate DistinctEntries(entries: seq<(Text, Text)>) {
    forall i, j | 0 <= i < j < |entries| :: entries[i].0 != entries[j].0
  }

  lemma {:induction false} InsertSorts(e: (Text, Text), sorted: seq<(Text, Text)>)
    requires StrictlySorted(sorted) && forall x | x in sorted :: x.0 != e.0
    ensures StrictlySorted(Insert(e, sorted))
  {
    if sorted != [] {
      if Less(sorted[0].0, e.0) {
        InsertSorts(e, sorted[1..]);
        InsertKeeps(e, sorted[1..]);
        var rest := Insert(e, sorted[1..]);
        forall j | 0 <= j < |rest|
          ensures Less(sorted[0].0, rest[j].0)
        {
          assert rest[j] in rest;
        }
      } else {
        LessTotal(sorted[0].0, e.0);
        assert sorted[0] in sorted;
        forall j | 0 <= j < |sorted|
          ensures Less(e.0, sorted[j].0)
        {
          if j > 0 {
            LessTransitive(e.0, sorted[0].0, sorted[j].0);
          }
        }
      }
    }
  }

  lemma {:induction false} SortSorts(entries: seq<(Text, Text)>)
    requires DistinctEntries(entries)
    ensures StrictlySorted(Sort(entries))
  {
    if entries != [] {
      SortSorts(entries[1..]);
      SortKeeps(entries[1..]);
      InsertSorts(entries[0], Sort(entries[1..]));
    }
  }

  /** A strictly sorted list is determined by its elements. */
  lemma {:induction false} SortedUnique(xs: seq<(Text, Text)>, ys: seq<(Text, Text)>)
    requires StrictlySorted(xs) && StrictlySorted(ys)
    requires forall e :: e in xs <==> e in ys
    ensures xs == ys
  {
    if xs == [] {
      HasElement(ys);
    } else {
      assert xs[0] in ys;
      assert ys[0] in xs;
      HeadIsLeast(xs, ys[0]);
      HeadIsLeast(ys, xs[0]);
      LessTotal(xs[0].0, ys[0].0);
      assert xs[0] == ys[0];
      forall e
        ensures e in xs[1..] <==> e in ys[1..]
      {
        TailWithoutHead(xs, e);
        TailWithoutHead(ys, e);
      }
      SortedUnique(xs[1..], ys[1..]);
    }
  }

  lemma HasElement(xs: seq<(Text, Text)>)
    ensures xs != [] ==> exists e :: e in xs
  {
    if xs != [] {
      assert xs[0] in xs;
    }
  }

  lemma HeadIsLeast(xs: seq<(Text, Text)>, e: (Text, Text))
    requires StrictlySorted(xs) && e in xs
    ensures e == xs[0] || Less(xs[0].0, e.0)
  {
  }

  lemma TailWithoutHead(xs: seq<(Text, Text)>, e: (Text, Text))
    requires StrictlySorted(xs) && xs != []
    ensures e in xs[1..] <==> e in xs && e != xs[0]
  {
    LessTotal(e.0, e.0);
  }

  lemma {:induction false} RenderedDistinct(fields: seq<Field>)
    requires DistinctKeys(fields)
    ensures DistinctEntries(Rendered(fields))
  {
    if fields != [] {
      RenderedDistinct(fields[1..]);
      RenderedEntries(fields[1..]);
      forall x | x in Rendered(fields[1..])
        ensures x.0 != fields[0].key
      {
        var i :| 0 <= i < |fields[1..]| && x == (fields[1..][i].key, Canonicalize(fields[1..][i].value));
        assert fields[i + 1] == fields[1..][i];
      }
    }
  }

  lemma SameEntriesOneWay(fs: seq<Field>, gs: seq<Field>)
    requires CleanFields(fs) && CleanFields(gs) && FieldMeanings(fs) == FieldMeanings(gs)
    requires forall i, j | 0 <= i < |fs| && 0 <= j < |gs| && fs[i].key == gs[j].key && !fs[i].value.Undefined? && !gs[j].value.Undefined? ::
               Canonicalize(fs[i].value) == Canonicalize(gs[j].value)
    ensures forall x | x in Rendered(fs) :: x in Rendered(gs)
  {
    RenderedEntries(fs);
    RenderedEntries(gs);
    forall x | x in Rendered(fs)
      ensures x in Rendered(gs)
    {
      var i :| 0 <= i < |fs| && !fs[i].value.Undefined? && x == (fs[i].key, Canonicalize(fs[i].value));
      assert fs[i].key in FieldMeanings(gs);
      var j :| 0 <= j < |gs| && gs[j].key == fs[i].key && !gs[j].value.Undefined?;
      assert x == (gs[j].key, Canonicalize(gs[j].value));
    }
  }

  lemma SameItemsSameText(xs: seq<Value>, ys: seq<Value>)
    requires |xs| == |ys| && forall i | 0 <= i < |xs| :: Canonicalize(xs[i]) == Canonicalize(ys[i])
    ensures Canonicalize(Arr(xs)) == Canonicalize(Arr(ys))
  {
    forall i | 0 <= i < |xs|
      ensures ItemTexts(xs)[i] == ItemTexts(ys)[i]
    {
      ItemTextAt(xs, i);
      ItemTextAt(ys, i);
    }
    assert ItemTexts(xs) == ItemTexts(ys);
  }

  /** An array holding one undefined prints as the empty one. */
  lemma UndefinedItemsCollide()
    ensures Canonicalize(Arr([Undefined])) == Canonicalize(Arr([])) == [OPEN_BRACKET] + [CLOSE_BRACKET]
  {
    assert ItemTexts([Undefined]) == [[]];
    assert Join([[]]) == [];
    assert ItemTexts([]) == [];
  }

  lemma {:induction false} SameMeaningSameText(a: Value, b: Value)
    requires Clean(a) && Clean(b) && Meaning(a) == Meaning(b)
    ensures Canonicalize(a) == Canonicalize(b)
    decreases a
  {
    match a
    case Arr(xs) =>
      var ys := b.items;
      UndefinedItemsCollide();
      if xs != [Undefined] && ys != [Undefined] {
        assert |xs| == |Meaning(a).items| == |Meaning(b).items| == |ys|;
        forall i | 0 <= i < |xs|
          ensures Canonicalize(xs[i]) == Canonicalize(ys[i])
        {
          assert Meaning(a).items[i] == Meaning(b).items[i];
          if !xs[i].Undefined? {
            SameMeaningSameText(xs[i], ys[i]);
          }
        }
        SameItemsSameText(xs, ys);
      }
    case Obj(fs) =>
      SameFieldsSameText(fs, b.fields) by {
        forall i, j | 0 <= i < |fs| && 0 <= j < |b.fields| && fs[i].key == b.fields[j].key
                      && !fs[i].value.Undefined? && !b.fields[j].value.Undefined?
          ensures Canonicalize(fs[i].value) == Canonicalize(b.fields[j].value)
        {
          assert FieldMeanings(fs)[fs[i].key] == FieldMeanings(b.fields)[b.fields[j].key];
          SameMeaningSameText(fs[i].value, b.fields[j].value);
        }
      }
    case _ =>
  }

  lemma SameFieldsSameText(fs: seq<Field>, gs: seq<Field>)
    requires CleanFields(fs) && CleanFields(gs) && FieldMeanings(fs) == FieldMeanings(gs)
    requires forall i, j | 0 <= i < |fs| && 0 <= j < |gs| && fs[i].key == gs[j].key && !fs[i].value.Undefined? && !gs[j].value.Undefined? ::
               Canonicalize(fs[i].value) == Canonicalize(gs[j].value)
    ensures Canonicalize(Obj(fs)) == Canonicalize(Obj(gs))
  {
    SameEntriesOneWay(fs, gs);
    SameEntriesOneWay(gs, fs);
    RenderedDistinct(fs);
    RenderedDistinct(gs);
    SortSorts(Rendered(fs));
    SortSorts(Rendered(gs));
    SortKeeps(Rendered(fs));
    SortKeeps(Rendered(gs));
    SortedUnique(Sort(Rendered(fs)), Sort(Rendered(gs)));
  }

  /** The serialiser is injective up to field order, undefined fields and the reading of an
      array that holds one undefined as empty, and no finer; over all values whose keys differ,
      arrays with undefined elements included. */
  lemma CanonicalTextIsMeaning(a: Value, b: Value)
    requires Clean(a) && Clean(b)
    ensures Canonicalize(a) == Canonicalize(b) <==> Meaning(a) == Meaning(b)
  {
    CanonicalTextReads(a);
    CanonicalTextReads(b);
    assert Canonicalize(a) + [] == Canonicalize(a) && Canonicalize(b) + [] == Canonicalize(b);
    ReadsApply(Canonicalize(a), Meaning(a), []);
    ReadsApply(Canonicalize(b), Meaning(b), []);
    if Meaning(a) == Meaning(b) {
      SameMeaningSameText(a, b);
    }
  }

  /** So two arrays without that one shape have the same text only when they agree element by
      element, holes included. */
  lemma ArraysAgreeByElement(xs: seq<Value>, ys: seq<Value>)
    requires Clean(Arr(xs)) && Clean(Arr(ys)) && xs != [Undefined] && ys != [Undefined]
    ensures Canonicalize(Arr(xs)) == Canonicalize(Arr(ys)) <==>
            |xs| == |ys| && forall i | 0 <= i < |xs| :: Canonicalize(xs[i]) == Canonicalize(ys[i])
  {
    if Canonicalize(Arr(xs)) == Canonicalize(Arr(ys)) {
      CanonicalTextIsMeaning(Arr(xs), Arr(ys));
      assert |xs| == |Meaning(Arr(xs)).items| == |Meaning(Arr(ys)).items| == |ys|;
      forall i | 0 <= i < |xs|
        ensures Canonicalize(xs[i]) == Canonicalize(ys[i])
      {
        assert Meaning(Arr(xs)).items[i] == Meaning(Arr(ys)).items[i];
        if !xs[i].Undefined? {
          SameMeaningSameText(xs[i], ys[i]);
        }
      }
    }
    if |xs| == |ys| && forall i | 0 <= i < |xs| :: Canonicalize(xs[i]) == Canonicalize(ys[i]) {
      SameItemsSameText(xs, ys);
    }
  }
}
