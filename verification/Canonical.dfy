/** The canonical serialiser of receipts (termination.ts, scripts/verify-receipt.mjs) over
    JavaScript values whose strings are sequences of 16-bit code units. */
module Canonical {
  import opened Types

  type CodeUnit = x: int | 0 <= x < 0x10000

  type Text = seq<CodeUnit>

  /** A JavaScript value without functions or fractions.  Object fields are listed in the
      order enumeration yields them. */
  datatype Value =
    | Undefined
    | Null
    | Bool(b: bool)
    | Int(n: int)
    | Str(s: Text)
    | Arr(items: seq<Value>)
    | Obj(fields: seq<Field>)

  datatype Field = Field(key: Text, value: Value)

  const QUOTE: CodeUnit := 0x22
  const COMMA: CodeUnit := 0x2C
  const MINUS: CodeUnit := 0x2D
  const COLON: CodeUnit := 0x3A
  const OPEN_BRACKET: CodeUnit := 0x5B
  const BACKSLASH: CodeUnit := 0x5C
  const CLOSE_BRACKET: CodeUnit := 0x5D
  const LOWER_U: CodeUnit := 0x75
  const OPEN_BRACE: CodeUnit := 0x7B
  const CLOSE_BRACE: CodeUnit := 0x7D
  const NULL_TEXT: Text := [0x6E, 0x75, 0x6C, 0x6C]
  const TRUE_TEXT: Text := [0x74, 0x72, 0x75, 0x65]
  const FALSE_TEXT: Text := [0x66, 0x61, 0x6C, 0x73, 0x65]

  // --- Scalars, as JSON.stringify prints them ----------------------------

  function NatText(n: nat): Text {
    if n < 10 then [0x30 + n] else NatText(n / 10) + [0x30 + n % 10]
  }

  function IntText(n: int): Text {
    if n < 0 then [MINUS] + NatText(-n) else NatText(n)
  }

  function HexDigit(d: nat): CodeUnit
    requires d < 16
  {
    if d < 10 then 0x30 + d else 0x61 + d - 10
  }

  function UnicodeEscape(c: CodeUnit): Text {
    [BACKSLASH, LOWER_U, HexDigit(c / 4096), HexDigit(c / 256 % 16), HexDigit(c / 16 % 16), HexDigit(c % 16)]
  }

  predicate IsLead(c: CodeUnit) { 0xD800 <= c < 0xDC00 }

  predicate IsTrail(c: CodeUnit) { 0xDC00 <= c < 0xE000 }

  /** The letter of a two-character escape, if the unit has one. */
  function ShortEscape(c: CodeUnit): Option<CodeUnit> {
    if c == 0x08 then Some(0x62)
    else if c == 0x09 then Some(0x74)
    else if c == 0x0A then Some(0x6E)
    else if c == 0x0C then Some(0x66)
    else if c == 0x0D then Some(0x72)
    else if c == QUOTE then Some(QUOTE)
    else if c == BACKSLASH then Some(BACKSLASH)
    else None
  }

  function EscapeUnit(c: CodeUnit): Text {
    if ShortEscape(c).Some? then [BACKSLASH, ShortEscape(c).value]
    else if c < 0x20 || IsLead(c) || IsTrail(c) then UnicodeEscape(c)
    else [c]
  }

  /** Surrogate pairs are printed as they are; a lone surrogate is escaped. */
  function QuoteBody(s: Text): Text {
    if s == [] then []
    else if |s| > 1 && IsLead(s[0]) && IsTrail(s[1]) then [s[0], s[1]] + QuoteBody(s[2..])
    else EscapeUnit(s[0]) + QuoteBody(s[1..])
  }

  function Quote(s: Text): Text {
    [QUOTE] + QuoteBody(s) + [QUOTE]
  }

  // --- Containers --------------------------------------------------------

  /** String comparison by code units. */
  predicate Less(a: Text, b: Text) {
    if b == [] then false
    else if a == [] then true
    else if a[0] != b[0] then a[0] < b[0]
    else Less(a[1..], b[1..])
  }

  function Insert(e: (Text, Text), sorted: seq<(Text, Text)>): seq<(Text, Text)> {
    if sorted == [] then [e]
    else if Less(sorted[0].0, e.0) then [sorted[0]] + Insert(e, sorted[1..])
    else [e] + sorted
  }

  function Sort(entries: seq<(Text, Text)>): seq<(Text, Text)> {
    if entries == [] then [] else Insert(entries[0], Sort(entries[1..]))
  }

  function Join(parts: seq<Text>): Text {
    if parts == [] then []
    else if |parts| == 1 then parts[0]
    else parts[0] + [COMMA] + Join(parts[1..])
  }

  function EntryTexts(entries: seq<(Text, Text)>): (r: seq<Text>)
    ensures |r| == |entries|
    ensures forall i | 0 <= i < |r| :: r[i] == Quote(entries[i].0) + [COLON] + entries[i].1
  {
    seq(|entries|, i requires 0 <= i < |entries| => Quote(entries[i].0) + [COLON] + entries[i].1)
  }

  /** An undefined array element prints as nothing, because joining skips it; an undefined
      field is filtered out.  Entries are rendered first and sorted by key after, which gives
      the same list as sorting first. */
  function Canonicalize(v: Value): Text {
    match v
    case Undefined => []
    case Null => NULL_TEXT
    case Bool(b) => if b then TRUE_TEXT else FALSE_TEXT
    case Int(n) => IntText(n)
    case Str(s) => Quote(s)
    case Arr(items) => [OPEN_BRACKET] + Join(ItemTexts(items)) + [CLOSE_BRACKET]
    case Obj(fields) => [OPEN_BRACE] + Join(EntryTexts(Sort(Rendered(fields)))) + [CLOSE_BRACE]
  }

  function ItemTexts(items: seq<Value>): (r: seq<Text>)
    ensures |r| == |items|
  {
    if items == [] then [] else [Canonicalize(items[0])] + ItemTexts(items[1..])
  }

  function Rendered(fields: seq<Field>): seq<(Text, Text)> {
    if fields == [] then []
    else if fields[0].value.Undefined? then Rendered(fields[1..])
    else [(fields[0].key, Canonicalize(fields[0].value))] + Rendered(fields[1..])
  }

  // --- Meaning -----------------------------------------------------------

  /** A value up to field order, undefined fields, and one thing more: an array whose only
      element is undefined counts as empty.  A hole is an undefined element of another array. */
  datatype Tree =
    | THole
    | TNull
    | TBool(b: bool)
    | TInt(n: int)
    | TStr(s: Text)
    | TArr(items: seq<Tree>)
    | TObj(fields: map<Text, Tree>)

  predicate DistinctKeys(fields: seq<Field>) {
    forall i, j | 0 <= i < j < |fields| :: fields[i].key != fields[j].key
  }

  /** Built from null, booleans, integers, strings, arrays and objects whose keys differ;
      undefined occurs at most as the value of a field or as an element of an array. */
  predicate Clean(v: Value) {
    match v
    case Undefined => false
    case Arr(items) => forall i | 0 <= i < |items| :: items[i].Undefined? || Clean(items[i])
    case Obj(fields) => DistinctKeys(fields) && forall i | 0 <= i < |fields| :: fields[i].value.Undefined? || Clean(fields[i].value)
    case _ => true
  }

  /** No array has an undefined element, as in everything parsed from JSON. */
  predicate NoHoles(v: Value) {
    match v
    case Arr(items) => forall i | 0 <= i < |items| :: !items[i].Undefined? && NoHoles(items[i])
    case Obj(fields) => forall i | 0 <= i < |fields| :: NoHoles(fields[i].value)
    case _ => true
  }

  function Meaning(v: Value): Tree
    requires Clean(v)
  {
    match v
    case Null => TNull
    case Bool(b) => TBool(b)
    case Int(n) => TInt(n)
    case Str(s) => TStr(s)
    case Arr(items) =>
      if items == [Undefined] then TArr([])
      else TArr(seq(|items|, i requires 0 <= i < |items| => if items[i].Undefined? then THole else Meaning(items[i])))
    case Obj(fields) => TObj(FieldMeanings(fields))
  }

  predicate CleanFields(fields: seq<Field>) {
    DistinctKeys(fields) && forall i | 0 <= i < |fields| :: fields[i].value.Undefined? || Clean(fields[i].value)
  }

  function FieldMeanings(fields: seq<Field>): (m: map<Text, Tree>)
    requires CleanFields(fields)
    ensures forall k :: k in m <==> exists i | 0 <= i < |fields| :: fields[i].key == k && !fields[i].value.Undefined?
    ensures forall i | 0 <= i < |fields| && !fields[i].value.Undefined? :: m[fields[i].key] == Meaning(fields[i].value)
  {
    if fields == [] then map[]
    else
      var rest := FieldMeanings(fields[1..]);
      if fields[0].value.Undefined? then rest else rest[fields[0].key := Meaning(fields[0].value)]
  }
}
