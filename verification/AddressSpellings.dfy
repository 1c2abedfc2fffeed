/** The address parsers accept exactly the spellings of addresses and read each as what it
    denotes, and the private-address verdict depends on that alone. */
module AddressSpellings {
  import opened Types
  import opened Addresses

  /** A run of colon-separated groups, possibly closed by a dotted quad. */
  datatype Side = Side(groups: seq<string>, quad: Option<seq<string>>)

  /** The textual forms of section 2.2 of RFC 4291, and one more that the parser takes: a quad
      may also close the side before the double colon. */
  datatype Spelling = Full(all: Side) | Compressed(left: Side, right: Side)

  /** One to four hexadecimal digits in either case; leading zeros are optional. */
  predicate ValidGroup(g: string) { IsGroupText(ToLower(g)) }

  predicate ValidQuad(q: seq<string>) {
    |q| == 4 && forall i | 0 <= i < 4 :: IsOctetText(q[i]) && NumberOf(q[i], 10) <= 255
  }

  predicate ValidSide(s: Side) {
    && (forall i | 0 <= i < |s.groups| :: ValidGroup(s.groups[i]))
    && (s.quad.Some? ==> ValidQuad(s.quad.value))
  }

  function Join(parts: seq<string>, separator: char): string {
    if parts == [] then ""
    else if |parts| == 1 then parts[0]
    else parts[0] + [separator] + Join(parts[1..], separator)
  }

  function Pieces(s: Side): seq<string> {
    s.groups + (if s.quad.Some? then [Join(s.quad.value, '.')] else [])
  }

  function Render(sp: Spelling): string {
    match sp
    case Full(all) => Join(Pieces(all), ':')
    case Compressed(left, right) => Join(Pieces(left), ':') + "::" + Join(Pieces(right), ':')
  }

  function GroupValues(groups: seq<string>): (r: seq<nat>)
    requires forall i | 0 <= i < |groups| :: ValidGroup(groups[i])
    ensures |r| == |groups|
  {
    seq(|groups|, i requires 0 <= i < |groups| && ValidGroup(groups[i]) => NumberOf(ToLower(groups[i]), 16))
  }

  function QuadValues(q: seq<string>): (r: seq<nat>)
    requires ValidQuad(q)
    ensures |r| == 4
  {
    seq(4, i requires 0 <= i < 4 => NumberOf(q[i], 10))
  }

  function SideWords(s: Side): seq<nat>
    requires ValidSide(s)
  {
    GroupValues(s.groups) + (if s.quad.Some? then QuadWords(QuadValues(s.quad.value)) else [])
  }

  predicate ValidSpelling(sp: Spelling) {
    match sp
    case Full(all) => ValidSide(all) && |SideWords(all)| == 8
    case Compressed(left, right) =>
      ValidSide(left) && ValidSide(right) && |SideWords(left)| + |SideWords(right)| < 8
  }

  /** The address a spelling denotes: the compressed run stands for zero words. */
  function WordsOf(sp: Spelling): (r: seq<nat>)
    requires ValidSpelling(sp)
    ensures |r| == 8
  {
    match sp
    case Full(all) => SideWords(all)
    case Compressed(left, right) =>
      SideWords(left) + Zeros(8 - |SideWords(left)| - |SideWords(right)|) + SideWords(right)
  }

  // --- Splitting undoes joining ------------------------------------------

  predicate Free(s: string, c: char) { forall i | 0 <= i < |s| :: s[i] != c }

  lemma {:induction false} SplitFree(s: string, c: char)
    requires Free(s, c)
    ensures Split(s, c) == [s]
  {
    if s != "" {
      SplitFree(s[1..], c);
      assert [s[0]] + s[1..] == s;
    }
  }

  lemma {:induction false} SplitFirst(s: string, c: char, t: string)
    requires Free(s, c)
    ensures Split(s + [c] + t, c) == [s] + Split(t, c)
  {
    var u := s + [c] + t;
    if s == "" {
      assert u[1..] == t;
    } else {
      SplitFirst(s[1..], c, t);
      assert u[1..] == s[1..] + [c] + t;
      assert [s[0]] + s[1..] == s;
    }
  }

  lemma {:induction false} SplitJoin(parts: seq<string>, c: char)
    requires parts != [] && forall i | 0 <= i < |parts| :: Free(parts[i], c)
    ensures Split(Join(parts, c), c) == parts
  {
    if |parts| == 1 {
      SplitFree(parts[0], c);
    } else {
      SplitJoin(parts[1..], c);
      SplitFirst(parts[0], c, Join(parts[1..], c));
      assert parts == [parts[0]] + parts[1..];
    }
  }

  /** No two neighbouring colons, and no colon at either end. */
  predicate Tidy(s: string) {
    && (forall i | 0 <= i < |s| - 1 :: !(s[i] == ':' && s[i + 1] == ':'))
    && (s != "" ==> s[0] != ':' && s[|s| - 1] != ':')
  }

  lemma {:induction false} JoinTidy(parts: seq<string>)
    requires forall i | 0 <= i < |parts| :: parts[i] != "" && Free(parts[i], ':')
    ensures Tidy(Join(parts, ':'))
    ensures parts != [] ==> Join(parts, ':') != ""
  {
    if |parts| > 1 {
      JoinTidy(parts[1..]);
      var head, rest := parts[0], Join(parts[1..], ':');
      var s := Join(parts, ':');
      assert s == head + [':'] + rest;
      forall i | 0 <= i < |s| - 1
        ensures !(s[i] == ':' && s[i + 1] == ':')
      {
        if i == |head| {
          assert s[i + 1] == rest[0];
        } else if i > |head| {
          assert s[i] == rest[i - |head| - 1] && s[i + 1] == rest[i - |head|];
        }
      }
      assert s[|s| - 1] == rest[|rest| - 1];
    }
  }

  lemma {:induction false} NoDouble(s: string)
    requires Tidy(s)
    ensures SplitDouble(s) == [s]
  {
    NoDoubleFound(s);
  }

  lemma {:induction false} NoDoubleFound(s: string)
    requires forall i | 0 <= i < |s| - 1 :: !(s[i] == ':' && s[i + 1] == ':')
    ensures FindDouble(s) == None
  {
    if |s| >= 2 {
      NoDoubleFound(s[1..]);
    }
  }

  lemma {:induction false} DoubleFound(l: string, r: string)
    requires forall i | 0 <= i < |l| - 1 :: !(l[i] == ':' && l[i + 1] == ':')
    requires l != "" ==> l[|l| - 1] != ':'
    ensures FindDouble(l + "::" + r) == Some(|l|)
  {
    var s := l + "::" + r;
    if l == "" {
      assert s[0] == ':' && s[1] == ':';
    } else {
      DoubleFound(l[1..], r);
      assert s[1..] == l[1..] + "::" + r;
      assert s[1] == if |l| > 1 then l[1] else ':';
    }
  }

  lemma OneDouble(l: string, r: string)
    requires Tidy(l) && Tidy(r)
    ensures SplitDouble(l + "::" + r) == [l, r]
  {
    var s := l + "::" + r;
    DoubleFound(l, r);
    assert s[..|l|] == l && s[|l| + 2..] == r;
    NoDouble(r);
  }

  // --- Lower-casing keeps the structure ----------------------------------

  function LowerAll(parts: seq<string>): (r: seq<string>)
    ensures |r| == |parts| && forall i | 0 <= i < |r| :: r[i] == ToLower(parts[i])
  {
    seq(|parts|, i requires 0 <= i < |parts| => ToLower(parts[i]))
  }

  lemma LowerConcat(a: string, b: string)
    ensures ToLower(a + b) == ToLower(a) + ToLower(b)
  {
  }

  lemma {:induction false} LowerJoin(parts: seq<string>, c: char)
    requires LowerChar(c) == c
    ensures ToLower(Join(parts, c)) == Join(LowerAll(parts), c)
  {
    if |parts| > 1 {
      LowerJoin(parts[1..], c);
      LowerConcat(parts[0] + [c], Join(parts[1..], c));
      LowerConcat(parts[0], [c]);
      assert ToLower([c]) == [c];
      assert LowerAll(parts)[1..] == LowerAll(parts[1..]);
    }
  }

  // --- One section -------------------------------------------------------

  lemma GroupHasNoMarks(g: string)
    requires IsGroupText(g)
    ensures Free(g, ':') && Free(g, '.')
  {
  }

  lemma QuadParses(q: seq<string>)
    requires ValidQuad(q)
    ensures ParseIPv4(Join(q, '.')) == Some(QuadValues(q))
    ensures '.' in Join(q, '.')
  {
    forall i | 0 <= i < 4
      ensures Free(q[i], '.')
    {
      assert AllDecimal(q[i]);
    }
    SplitJoin(q, '.');
    assert Join(q, '.') == q[0] + ['.'] + Join(q[1..], '.');
    assert Join(q, '.')[|q[0]|] == '.';
  }

  lemma {:induction false} JoinFree(parts: seq<string>, separator: char, c: char)
    requires separator != c && forall i | 0 <= i < |parts| :: Free(parts[i], c)
    ensures Free(Join(parts, separator), c)
  {
    if |parts| > 1 {
      JoinFree(parts[1..], separator, c);
    }
  }

  lemma QuadIsLower(q: seq<string>)
    requires ValidQuad(q)
    ensures LowerAll(q) == q && ToLower(Join(q, '.')) == Join(q, '.')
  {
    forall i | 0 <= i < 4
      ensures ToLower(q[i]) == q[i]
    {
      assert AllDecimal(q[i]);
    }
    LowerJoin(q, '.');
  }

  lemma QuadPiece(q: seq<string>)
    requires ValidQuad(q)
    ensures PartWords(Join(q, '.'), true) == Some(QuadWords(QuadValues(q)))
    ensures Join(q, '.') != "" && Free(Join(q, '.'), ':')
    ensures LowerAll([Join(q, '.')]) == [Join(q, '.')]
  {
    QuadParses(q);
    QuadIsLower(q);
    forall i | 0 <= i < 4
      ensures Free(q[i], ':')
    {
      assert AllDecimal(q[i]);
    }
    JoinFree(q, '.', ':');
  }

  lemma LastPart(part: string, words: seq<nat>)
    requires PartWords(part, true) == Some(words)
    ensures PartsWords([part]) == Some(words)
  {
    assert [part][1..] == [];
    assert words + [] == words;
  }

  lemma NextPart(part: string, word: nat, parts: seq<string>, words: seq<nat>)
    requires IsGroupText(part) && word == NumberOf(part, 16) && PartsWords(parts) == Some(words)
    ensures PartsWords([part] + parts) == Some([word] + words)
  {
    GroupHasNoMarks(part);
    assert ([part] + parts)[1..] == parts;
  }

  lemma LowerStep(s: Side)
    requires s.groups != []
    ensures LowerAll(Pieces(s)) == [ToLower(s.groups[0])] + LowerAll(Pieces(Side(s.groups[1..], s.quad)))
  {
    assert Pieces(s) == [s.groups[0]] + Pieces(Side(s.groups[1..], s.quad));
  }

  lemma WordsStep(s: Side)
    requires s.groups != [] && ValidSide(s)
    ensures SideWords(s) == [NumberOf(ToLower(s.groups[0]), 16)] + SideWords(Side(s.groups[1..], s.quad))
  {
    assert GroupValues(s.groups) == [NumberOf(ToLower(s.groups[0]), 16)] + GroupValues(s.groups[1..]);
  }

  /** Each lower-cased piece of a side gives that side's words. */
  lemma {:induction false} PiecesParse(s: Side)
    requires ValidSide(s)
    ensures PartsWords(LowerAll(Pieces(s))) == Some(SideWords(s))
    decreases |s.groups|
  {
    if s.groups != [] {
      var rest := Side(s.groups[1..], s.quad);
      PiecesParse(rest);
      LowerStep(s);
      WordsStep(s);
      assert ValidGroup(s.groups[0]);
      NextPart(ToLower(s.groups[0]), NumberOf(ToLower(s.groups[0]), 16), LowerAll(Pieces(rest)), SideWords(rest));
    } else if s.quad.Some? {
      var q := s.quad.value;
      QuadPiece(q);
      LastPart(Join(q, '.'), QuadWords(QuadValues(q)));
      assert Pieces(s) == [Join(q, '.')];
      assert SideWords(s) == QuadWords(QuadValues(q));
    } else {
      assert Pieces(s) == [] && SideWords(s) == [];
    }
  }

  lemma PiecesAreTidy(s: Side, i: nat)
    requires ValidSide(s) && i < |Pieces(s)|
    ensures LowerAll(Pieces(s))[i] != "" && Free(LowerAll(Pieces(s))[i], ':')
  {
    if i < |s.groups| {
      assert ValidGroup(s.groups[i]);
      GroupHasNoMarks(ToLower(s.groups[i]));
    } else {
      QuadPiece(s.quad.value);
      assert LowerAll(Pieces(s))[i] == LowerAll([Join(s.quad.value, '.')])[0];
    }
  }

  lemma SideParses(s: Side)
    requires ValidSide(s)
    ensures SectionWords(ToLower(Join(Pieces(s), ':'))) == Some(SideWords(s))
    ensures Tidy(ToLower(Join(Pieces(s), ':')))
  {
    LowerJoin(Pieces(s), ':');
    PiecesParse(s);
    var parts := LowerAll(Pieces(s));
    forall i | 0 <= i < |parts|
      ensures parts[i] != "" && Free(parts[i], ':')
    {
      PiecesAreTidy(s, i);
    }
    JoinTidy(parts);
    if parts != [] {
      SplitJoin(parts, ':');
    } else {
      assert SideWords(s) == [];
    }
  }

  lemma LowerCompressed(l: string, r: string)
    ensures ToLower(l + "::" + r) == ToLower(l) + "::" + ToLower(r)
  {
    LowerConcat(l + "::", r);
    LowerConcat(l, "::");
    assert ToLower("::") == "::";
  }

  lemma FromSections(address: string, l: string, r: string, left: seq<nat>, right: seq<nat>)
    requires SplitDouble(ToLower(address)) == [l, r]
    requires SectionWords(l) == Some(left) && SectionWords(r) == Some(right)
    requires |left| + |right| < 8
    ensures IPv6Words(address) == Some(left + Zeros(8 - |left| - |right|) + right)
  {
  }

  /** Parsing undoes every spelling: any compressed run, leading zeros, letter case and
      trailing dotted quad. */
  lemma ParsingUndoesSpelling(sp: Spelling)
    requires ValidSpelling(sp)
    ensures IPv6Words(Render(sp)) == Some(WordsOf(sp))
  {
    hide SplitDouble, SectionWords, PartsWords, NumberOf, Split, FindDouble, Join, Pieces;
    match sp
    case Full(all) =>
      SideParses(all);
      NoDouble(ToLower(Render(sp)));
    case Compressed(left, right) =>
      var l, r := Join(Pieces(left), ':'), Join(Pieces(right), ':');
      SideParses(left);
      SideParses(right);
      LowerCompressed(l, r);
      OneDouble(ToLower(l), ToLower(r));
      FromSections(Render(sp), ToLower(l), ToLower(r), SideWords(left), SideWords(right));
  }

  // --- Nothing but spellings is accepted ---------------------------------

  lemma {:induction false} JoinSplit(s: string, c: char)
    ensures Join(Split(s, c), c) == s
  {
    if s != "" {
      JoinSplit(s[1..], c);
      var rest := Split(s[1..], c);
      if s[0] == c {
        assert ([""] + rest)[1..] == rest;
        assert "" + [c] + s[1..] == s;
      } else {
        var first := [s[0]] + rest[0];
        assert ([first] + rest[1..])[1..] == rest[1..];
        assert [s[0]] + s[1..] == s;
        assert |rest| > 1 ==> [s[0]] + (rest[0] + [c] + Join(rest[1..], c)) == first + [c] + Join(rest[1..], c);
      }
    }
  }

  /** Four decimal octets of at most three digits, in the numbers they denote, and nothing else. */
  lemma IPv4ParserIsExact(s: string, octets: seq<nat>)
    ensures ParseIPv4(s) == Some(octets) <==>
            exists q :: ValidQuad(q) && Join(q, '.') == s && QuadValues(q) == octets
  {
    if ParseIPv4(s) == Some(octets) {
      var q := Split(s, '.');
      JoinSplit(s, '.');
      assert forall i | 0 <= i < 4 :: IsOctetText(q[i]) && NumberOf(q[i], 10) == octets[i];
      assert ValidQuad(q) && QuadValues(q) == octets;
    }
    if q :| ValidQuad(q) && Join(q, '.') == s && QuadValues(q) == octets {
      QuadParses(q);
    }
  }

  lemma LowerGroup(g: string)
    requires IsGroupText(g)
    ensures ToLower(g) == g
  {
  }

  lemma OneMoreGroup(part: string, side: Side)
    requires IsGroupText(part) && ValidSide(side)
    ensures var more := Side([part] + side.groups, side.quad);
            ValidSide(more) && Pieces(more) == [part] + Pieces(side) && SideWords(more) == [NumberOf(part, 16)] + SideWords(side)
  {
    hide NumberOf, Join;
    LowerGroup(part);
    var more := Side([part] + side.groups, side.quad);
    WordsStep(more);
    assert more.groups[1..] == side.groups;
  }

  /** The side that a list of accepted pieces spells. */
  lemma {:induction false} SideOfPieces(parts: seq<string>) returns (side: Side)
    requires PartsWords(parts).Some?
    ensures ValidSide(side) && Pieces(side) == parts && SideWords(side) == PartsWords(parts).value
  {
    hide ParseIPv4, NumberOf, Join, Split;
    if parts == [] {
      side := Side([], None);
    } else if '.' in parts[0] {
      assert parts == [parts[0]] && parts[1..] == [];
      var octets := ParseIPv4(parts[0]).value;
      IPv4ParserIsExact(parts[0], octets);
      var q :| ValidQuad(q) && Join(q, '.') == parts[0] && QuadValues(q) == octets;
      side := Side([], Some(q));
    } else {
      var rest := SideOfPieces(parts[1..]);
      OneMoreGroup(parts[0], rest);
      side := Side([parts[0]] + rest.groups, rest.quad);
    }
  }

  lemma SideOfSection(section: string) returns (side: Side)
    requires SectionWords(section).Some?
    ensures ValidSide(side) && Join(Pieces(side), ':') == section && SideWords(side) == SectionWords(section).value
  {
    if section == "" {
      side := Side([], None);
    } else {
      JoinSplit(section, ':');
      side := SideOfPieces(Split(section, ':'));
    }
  }

  lemma {:induction false} FoundAt(s: string)
    requires FindDouble(s).Some?
    ensures var i := FindDouble(s).value; s == s[..i] + "::" + s[i + 2..]
  {
    if !(s[0] == ':' && s[1] == ':') {
      FoundAt(s[1..]);
    }
  }

  lemma SectionsOf(s: string)
    ensures |SplitDouble(s)| == 1 ==> SplitDouble(s)[0] == s
    ensures |SplitDouble(s)| == 2 ==> s == SplitDouble(s)[0] + "::" + SplitDouble(s)[1]
  {
    if FindDouble(s).Some? {
      FoundAt(s);
    }
  }

  lemma SpellingOf(address: string) returns (sp: Spelling)
    requires IPv6Words(address).Some?
    ensures ValidSpelling(sp) && Render(sp) == ToLower(address) && WordsOf(sp) == IPv6Words(address).value
  {
    hide SplitDouble, SectionWords, Pieces, Join;
    var sections := SplitDouble(ToLower(address));
    SectionsOf(ToLower(address));
    var left := SideOfSection(sections[0]);
    if |sections| == 2 {
      var right := SideOfSection(sections[1]);
      sp := Compressed(left, right);
    } else {
      sp := Full(left);
    }
  }

  lemma LowerTwice(s: string)
    ensures ToLower(ToLower(s)) == ToLower(s)
  {
  }

  /** A text is read as eight words exactly when, but for letter case, it spells them. */
  lemma IPv6ParserIsExact(address: string, words: seq<nat>)
    ensures IPv6Words(address) == Some(words) <==>
            exists sp :: ValidSpelling(sp) && ToLower(Render(sp)) == ToLower(address) && WordsOf(sp) == words
  {
    if IPv6Words(address) == Some(words) {
      var sp := SpellingOf(address);
      LowerTwice(address);
    }
    if sp :| ValidSpelling(sp) && ToLower(Render(sp)) == ToLower(address) && WordsOf(sp) == words {
      ParsingUndoesSpelling(sp);
    }
  }

  /** The verdict depends only on the address. */
  lemma VerdictIgnoresSpelling(a: Spelling, b: Spelling)
    requires ValidSpelling(a) && ValidSpelling(b) && WordsOf(a) == WordsOf(b)
    ensures IsPrivateAddress(6, Render(a)) == IsPrivateAddress(6, Render(b))
    ensures IsPrivateAddress(6, Render(a)) == IsPrivateWords(WordsOf(a))
  {
    ParsingUndoesSpelling(a);
    ParsingUndoesSpelling(b);
  }

  ghost predicate Spells(sp: Spelling, address: string) {
    ValidSpelling(sp) && ToLower(Render(sp)) == ToLower(address)
  }

  /** The verdict on any text at all that the platform takes for IPv6: private exactly when it
      spells an address that is.  So a text that spells none, whatever the platform reads it as,
      is not held to be private. */
  lemma VerdictNeedsASpelling(address: string)
    ensures IsPrivateAddress(6, address) <==> exists sp :: Spells(sp, address) && IsPrivateWords(WordsOf(sp))
    ensures IPv6Words(address).None? <==> !exists sp :: Spells(sp, address)
  {
    hide IPv6Words, Render, WordsOf, IsPrivateWords, ValidSpelling;
    if IPv6Words(address).Some? {
      IPv6ParserIsExact(address, IPv6Words(address).value);
      var sp :| ValidSpelling(sp) && ToLower(Render(sp)) == ToLower(address) && WordsOf(sp) == IPv6Words(address).value;
      assert Spells(sp, address);
    }
    forall sp | Spells(sp, address)
      ensures IPv6Words(address) == Some(WordsOf(sp))
    {
      IPv6ParserIsExact(address, WordsOf(sp));
    }
  }

  /** The characters an address is spelled with, but for letter case. */
  predicate AddressText(s: string) {
    forall i | 0 <= i < |s| :: IsLowerHex(s[i]) || s[i] == ':' || s[i] == '.'
  }

  lemma {:induction false} JoinIsAddressText(parts: seq<string>, separator: char)
    requires separator == ':' || separator == '.'
    requires forall i | 0 <= i < |parts| :: AddressText(parts[i])
    ensures AddressText(Join(parts, separator))
  {
    if |parts| > 1 {
      JoinIsAddressText(parts[1..], separator);
    }
  }

  lemma SideIsAddressText(s: Side)
    requires ValidSide(s)
    ensures AddressText(ToLower(Join(Pieces(s), ':')))
  {
    var parts := LowerAll(Pieces(s));
    LowerJoin(Pieces(s), ':');
    forall i | 0 <= i < |parts|
      ensures AddressText(parts[i])
    {
      if i < |s.groups| {
        assert ValidGroup(s.groups[i]);
      } else {
        QuadIsAddressText(s.quad.value);
        QuadIsLower(s.quad.value);
      }
    }
    JoinIsAddressText(parts, ':');
  }

  lemma QuadIsAddressText(q: seq<string>)
    requires ValidQuad(q)
    ensures AddressText(Join(q, '.'))
  {
    forall i | 0 <= i < 4
      ensures AddressText(q[i])
    {
      assert AllDecimal(q[i]);
    }
    JoinIsAddressText(q, '.');
  }

  lemma SpellingIsAddressText(sp: Spelling)
    requires ValidSpelling(sp)
    ensures AddressText(ToLower(Render(sp)))
  {
    hide Join, Pieces, ValidSide;
    match sp
    case Full(all) => SideIsAddressText(all);
    case Compressed(left, right) =>
      SideIsAddressText(left);
      SideIsAddressText(right);
      LowerCompressed(Join(Pieces(left), ':'), Join(Pieces(right), ':'));
  }

  /** A scoped address, with its zone after a percent sign, spells no address: the verdict on it
      is "not private" whatever comes before the sign. */
  lemma ScopedIsNeverPrivate(address: string)
    requires '%' in address
    ensures IPv6Words(address).None? && !IsPrivateAddress(6, address)
  {
    VerdictNeedsASpelling(address);
    var i :| 0 <= i < |address| && address[i] == '%';
    assert ToLower(address)[i] == '%';
    forall sp | ValidSpelling(sp)
      ensures ToLower(Render(sp)) != ToLower(address)
    {
      SpellingIsAddressText(sp);
    }
    assert forall sp :: !Spells(sp, address);
  }

  // --- The verdict as membership in address blocks -----------------------

  lemma AndDoubled(a: nat, b: nat)
    ensures BitAnd(a, 2 * b) == 2 * BitAnd(a / 2, b)
    ensures BitAnd(a, 2 * b + 1) == 2 * BitAnd(a / 2, b) + a % 2
  {
  }

  function Ones(k: nat): nat {
    if k == 0 then 0 else 2 * Ones(k - 1) + 1
  }

  /** The k low bits. */
  function Low(a: nat, k: nat): nat
    decreases k
  {
    if k == 0 then 0 else 2 * Low(a / 2, k - 1) + a % 2
  }

  function ShiftLeft(a: nat, j: nat): nat
    decreases j
  {
    if j == 0 then a else 2 * ShiftLeft(a, j - 1)
  }

  function ShiftRight(a: nat, j: nat): nat
    decreases j
  {
    if j == 0 then a else ShiftRight(a / 2, j - 1)
  }

  /** A mask of ones, shifted left, keeps that many bits in their place. */
  lemma {:induction false} AndMask(a: nat, j: nat, k: nat)
    ensures BitAnd(a, ShiftLeft(Ones(k), j)) == ShiftLeft(Low(ShiftRight(a, j), k), j)
  {
    hide BitAnd;
    if j > 0 {
      AndDoubled(a, ShiftLeft(Ones(k), j - 1));
      AndMask(a / 2, j - 1, k);
    } else if k > 0 {
      AndDoubled(a, Ones(k - 1));
      AndMask(a / 2, 0, k - 1);
    } else {
      AndNothing(a);
    }
  }

  lemma AndNothing(a: nat)
    ensures BitAnd(a, 0) == 0
  {
  }

  lemma {:induction false} LowAndRest(a: nat, k: nat)
    ensures Low(a, k) + ShiftLeft(ShiftRight(a, k), k) == a && Low(a, k) <= Ones(k)
  {
    if k > 0 {
      LowAndRest(a / 2, k - 1);
    }
  }

  lemma Constants(a: nat)
    ensures Ones(6) == 0x3f && Ones(7) == 0x7f && Ones(8) == 0xff && Ones(9) == 0x1ff && Ones(10) == 0x3ff && Ones(16) == 0xffff
    ensures ShiftLeft(a, 6) == 0x40 * a && ShiftLeft(a, 8) == 0x100 * a && ShiftLeft(a, 9) == 0x200 * a
  {
    assert ShiftLeft(a, 2) == 4 * a && ShiftLeft(a, 4) == 16 * a;
    assert ShiftLeft(a, 6) == 0x40 * a && ShiftLeft(a, 7) == 0x80 * a;
  }

  lemma {:induction false} BitsEnd(a: nat, k: nat)
    requires a <= Ones(k)
    ensures ShiftRight(a, k) == 0
  {
    if k > 0 {
      BitsEnd(a / 2, k - 1);
    }
  }

  lemma {:induction false} ShiftTwice(a: nat, j: nat, k: nat)
    ensures ShiftRight(ShiftRight(a, j), k) == ShiftRight(a, j + k)
  {
    if j > 0 {
      ShiftTwice(a / 2, j - 1, k);
    }
  }

  lemma {:induction false} ShiftedZero(j: nat)
    ensures ShiftLeft(0, j) == 0
  {
    if j > 0 {
      ShiftedZero(j - 1);
    }
  }

  /** The mask keeps all bits but the j lowest. */
  lemma RoundedDown(w: nat, j: nat, k: nat)
    requires w <= Ones(j + k)
    ensures BitAnd(w, ShiftLeft(Ones(k), j)) == ShiftLeft(ShiftRight(w, j), j)
    ensures Low(w, j) + ShiftLeft(ShiftRight(w, j), j) == w && Low(w, j) <= Ones(j)
  {
    hide BitAnd, Low, ShiftLeft, ShiftRight, Ones;
    AndMask(w, j, k);
    LowAndRest(w, j);
    LowAndRest(ShiftRight(w, j), k);
    ShiftTwice(w, j, k);
    BitsEnd(w, j + k);
    ShiftedZero(k);
  }

  lemma AndOnes(a: nat, k: nat)
    ensures BitAnd(a, Ones(k)) == Low(a, k)
  {
    hide BitAnd, Low;
    AndMask(a, 0, k);
  }

  lemma AndByte(w: nat)
    ensures BitAnd(w, 0xff) == w % 0x100
  {
    hide BitAnd, Low, ShiftLeft, ShiftRight, Ones;
    Constants(ShiftRight(w, 8));
    AndOnes(w, 8);
    LowAndRest(w, 8);
  }

  /** A mask of the ten, seven or eight high bits rounds a word down. */
  lemma AndTop10(w: nat)
    requires w < 0x10000
    ensures BitAnd(w, 0xffc0) == 0x40 * (w / 0x40)
  {
    hide BitAnd, Low, ShiftLeft, ShiftRight, Ones;
    Constants(ShiftRight(w, 6));
    Constants(Ones(10));
    RoundedDown(w, 6, 10);
  }

  lemma AndTop7(w: nat)
    requires w < 0x10000
    ensures BitAnd(w, 0xfe00) == 0x200 * (w / 0x200)
  {
    hide BitAnd, Low, ShiftLeft, ShiftRight, Ones;
    Constants(ShiftRight(w, 9));
    Constants(Ones(7));
    RoundedDown(w, 9, 7);
  }

  lemma AndTop8(w: nat)
    requires w < 0x10000
    ensures BitAnd(w, 0xff00) == 0x100 * (w / 0x100)
  {
    hide BitAnd, Low, ShiftLeft, ShiftRight, Ones;
    Constants(ShiftRight(w, 8));
    Constants(Ones(8));
    RoundedDown(w, 8, 8);
  }

  /** The 32-bit number of four octets. */
  function Number32(octets: seq<nat>): nat
    requires |octets| == 4
  {
    ((octets[0] * 256 + octets[1]) * 256 + octets[2]) * 256 + octets[3]
  }

  /** Membership in a block given by its first address and its size. */
  predicate InBlock(n: nat, first: nat, size: nat) {
    first <= n < first + size
  }

  /** 0/8, 10/8, 100.64/10, 127/8, 169.254/16, 172.16/12, 192.168/16 and 224/3. */
  predicate InPrivateBlock32(n: nat) {
    || InBlock(n, 0, 0x100_0000)
    || InBlock(n, 0x0A00_0000, 0x100_0000)
    || InBlock(n, 0x6440_0000, 0x40_0000)
    || InBlock(n, 0x7F00_0000, 0x100_0000)
    || InBlock(n, 0xA9FE_0000, 0x1_0000)
    || InBlock(n, 0xAC10_0000, 0x10_0000)
    || InBlock(n, 0xC0A8_0000, 0x1_0000)
    || InBlock(n, 0xE000_0000, 0x2000_0000)
  }

  predicate AreOctets(octets: seq<nat>) {
    |octets| == 4 && forall i | 0 <= i < 4 :: octets[i] <= 255
  }

  lemma IPv4VerdictIsBlocks(octets: seq<nat>)
    requires AreOctets(octets)
    ensures IsPrivateIPv4(octets) <==> InPrivateBlock32(Number32(octets))
  {
  }

  predicate AreWords(words: seq<nat>) {
    |words| == 8 && forall i | 0 <= i < 8 :: words[i] < 0x10000
  }

  predicate Embeds(words: seq<nat>)
    requires |words| == 8
  {
    ZeroUpTo(words, 5) && (words[5] == 0 || words[5] == 0xffff)
  }

  /** fe80::/10, fc00::/7 and ff00::/8, by the first word. */
  predicate InPrivateBlock128(words: seq<nat>)
    requires |words| == 8
  {
    InBlock(words[0], 0xfe80, 0x40) || InBlock(words[0], 0xfc00, 0x200) || InBlock(words[0], 0xff00, 0x100)
  }

  lemma EmbeddedVerdict(words: seq<nat>)
    requires AreWords(words) && Embeds(words)
    ensures IsPrivateWords(words) <==>
            IsPrivateIPv4([words[6] / 256, words[6] % 256, words[7] / 256, words[7] % 256])
  {
    hide BitAnd;
    AndByte(words[6]);
    AndByte(words[7]);
  }

  lemma OtherVerdict(words: seq<nat>)
    requires AreWords(words) && !Embeds(words)
    ensures IsPrivateWords(words) <==> InPrivateBlock128(words)
  {
    hide BitAnd;
    AndTop10(words[0]);
    AndTop7(words[0]);
    AndTop8(words[0]);
  }

  /** Mapped and compatible addresses, the unspecified and loopback ones included, get the
      verdict of the IPv4 address in their last 32 bits; all others are judged by block. */
  lemma IPv6VerdictIsBlocks(words: seq<nat>)
    requires AreWords(words)
    ensures IsPrivateWords(words) <==>
            if Embeds(words) then InPrivateBlock32(words[6] * 0x10000 + words[7]) else InPrivateBlock128(words)
  {
    if Embeds(words) {
      var octets := [words[6] / 256, words[6] % 256, words[7] / 256, words[7] % 256];
      EmbeddedVerdict(words);
      IPv4VerdictIsBlocks(octets);
      assert Number32(octets) == words[6] * 0x10000 + words[7];
    } else {
      OtherVerdict(words);
    }
  }

  /** Any spelling of a mapped address gets the verdict of its dotted IPv4 form. */
  lemma MappedVerdictIsIPv4(sp: Spelling, quad: seq<string>)
    requires ValidSpelling(sp) && ValidQuad(quad)
    requires WordsOf(sp) == [0, 0, 0, 0, 0, 0xffff] + QuadWords(QuadValues(quad))
    ensures IsPrivateAddress(6, Render(sp)) == IsPrivateAddress(4, Join(quad, '.'))
  {
    ParsingUndoesSpelling(sp);
    QuadParses(quad);
    MappedWords(QuadValues(quad));
  }

  lemma MappedWords(o: seq<nat>)
    requires AreOctets(o)
    ensures IsPrivateWords([0, 0, 0, 0, 0, 0xffff] + QuadWords(o)) <==> IsPrivateIPv4(o)
  {
    var words := [0, 0, 0, 0, 0, 0xffff] + QuadWords(o);
    assert words[6] == o[0] * 256 + o[1] && words[7] == o[2] * 256 + o[3];
    EmbeddedVerdict(words);
  }
}
