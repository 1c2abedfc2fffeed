/** The address parsers and the private-address verdict of the egress proxy (egress-proxy.ts). */
module Addresses {
  import opened Types

  // --- Text helpers, as the JavaScript built-ins behave ------------------

  function LowerChar(c: char): char {
    if 'A' <= c <= 'Z' then c + 32 as char else c
  }

  function ToLower(s: string): (r: string)
    ensures |r| == |s| && forall i | 0 <= i < |s| :: r[i] == LowerChar(s[i])
  {
    seq(|s|, i requires 0 <= i < |s| => LowerChar(s[i]))
  }

  /** Pieces between occurrences of one character; the empty text has one empty piece. */
  function Split(s: string, separator: char): (parts: seq<string>)
    ensures parts != []
    decreases |s|
  {
    if s == "" then [""]
    else if s[0] == separator then [""] + Split(s[1..], separator)
    else
      var rest := Split(s[1..], separator);
      [[s[0]] + rest[0]] + rest[1..]
  }

  /** Index of the first double colon. */
  function FindDouble(s: string): (r: Option<nat>)
    ensures r.Some? ==> r.value + 2 <= |s|
  {
    if |s| < 2 then None
    else if s[0] == ':' && s[1] == ':' then Some(0)
    else
      match FindDouble(s[1..])
      case None => None
      case Some(i) => Some(i + 1)
  }

  /** Pieces between double colons, matched from the left without overlap. */
  function SplitDouble(s: string): (parts: seq<string>)
    ensures parts != []
    decreases |s|
  {
    match FindDouble(s)
    case None => [s]
    case Some(i) => [s[..i]] + SplitDouble(s[i + 2..])
  }

  predicate IsDecimal(c: char) { '0' <= c <= '9' }

  predicate IsLowerHex(c: char) { IsDecimal(c) || 'a' <= c <= 'f' }

  function DigitOf(c: char): (d: nat)
    requires IsLowerHex(c)
    ensures d < 16 && (IsDecimal(c) ==> d < 10)
  {
    if IsDecimal(c) then (c - '0') as int else (c - 'a') as int + 10
  }

  predicate AllLowerHex(s: string) { forall i | 0 <= i < |s| :: IsLowerHex(s[i]) }

  predicate AllDecimal(s: string)
    ensures AllDecimal(s) ==> AllLowerHex(s)
  {
    forall i | 0 <= i < |s| :: IsDecimal(s[i])
  }

  function NumberOf(s: string, radix: nat): nat
    requires AllLowerHex(s)
  {
    if s == "" then 0 else NumberOf(s[..|s| - 1], radix) * radix + DigitOf(s[|s| - 1])
  }

  predicate IsOctetText(part: string) { 1 <= |part| <= 3 && AllDecimal(part) }

  predicate IsGroupText(part: string) { 1 <= |part| <= 4 && AllLowerHex(part) }

  // --- Parsing -----------------------------------------------------------

  function ParseIPv4(address: string): (r: Option<seq<nat>>)
    ensures r.Some? ==> |r.value| == 4 && forall i | 0 <= i < 4 :: r.value[i] <= 255
  {
    var parts := Split(address, '.');
    if |parts| != 4 || exists i | 0 <= i < |parts| :: !IsOctetText(parts[i]) then None
    else
      var octets := seq(4, i requires 0 <= i < 4 => NumberOf(parts[i], 10));
      if forall i | 0 <= i < 4 :: octets[i] <= 255 then Some(octets) else None
  }

  function QuadWords(octets: seq<nat>): seq<nat>
    requires |octets| == 4
  {
    [octets[0] * 256 + octets[1], octets[2] * 256 + octets[3]]
  }

  /** The words one piece contributes; a dotted quad is allowed in the last position only. */
  function PartWords(part: string, last: bool): Option<seq<nat>> {
    if '.' in part then
      if !last then None
      else
        match ParseIPv4(part)
        case None => None
        case Some(octets) => Some(QuadWords(octets))
    else if !IsGroupText(part) then None
    else Some([NumberOf(part, 16)])
  }

  function PartsWords(parts: seq<string>): Option<seq<nat>> {
    if parts == [] then Some([])
    else
      var first := PartWords(parts[0], |parts| == 1);
      var rest := PartsWords(parts[1..]);
      if first.None? || rest.None? then None else Some(first.value + rest.value)
  }

  function SectionWords(section: string): Option<seq<nat>> {
    if section == "" then Some([]) else PartsWords(Split(section, ':'))
  }

  function Zeros(n: nat): (z: seq<nat>)
    ensures |z| == n && forall i | 0 <= i < n :: z[i] == 0
  {
    seq(n, i => 0)
  }

  function AssembleWords(left: seq<nat>, right: seq<nat>, compressed: bool): (r: Option<seq<nat>>)
    ensures r.Some? ==> |r.value| == 8 || (!compressed && right != [])
  {
    var missing := 8 - |left| - |right|;
    if compressed then
      if missing > 0 then Some(left + Zeros(missing) + right) else None
    else if missing == 0 then Some(left)
    else None
  }

  function IPv6Words(address: string): (r: Option<seq<nat>>)
    ensures r.Some? ==> |r.value| == 8
  {
    var sections := SplitDouble(ToLower(address));
    if |sections| > 2 then None
    else
      var left := SectionWords(sections[0]);
      var right := if |sections| == 2 then SectionWords(sections[1]) else Some([]);
      if left.None? || right.None? then None
      else AssembleWords(left.value, right.value, |sections| == 2)
  }

  lemma {:induction false} PartsWordsSnoc(parts: seq<string>, i: nat, words: seq<nat>)
    requires i <= |parts|
    requires forall k | 0 <= k < i :: PartWords(parts[k], k == |parts| - 1).Some?
    requires words == Gathered(parts, i)
    ensures PartsWords(parts) ==
            (match PartsWords(parts[i..])
             case None => None
             case Some(rest) => Some(words + rest))
  {
    if i == 0 {
      assert parts[0..] == parts;
      if PartsWords(parts).Some? {
        assert words + PartsWords(parts).value == PartsWords(parts).value;
      }
    } else {
      PartsWordsSnoc(parts, i - 1, Gathered(parts, i - 1));
      assert parts[i - 1..][1..] == parts[i..];
      assert parts[i - 1..][0] == parts[i - 1];
      if PartsWords(parts[i..]).Some? {
        var before, here, rest := Gathered(parts, i - 1), PartWords(parts[i - 1], i == |parts|).value, PartsWords(parts[i..]).value;
        assert before + (here + rest) == (before + here) + rest;
      }
    }
  }

  /** The words of the first pieces, gathered in order. */
  function Gathered(parts: seq<string>, i: nat): seq<nat>
    requires i <= |parts|
    requires forall k | 0 <= k < i :: PartWords(parts[k], k == |parts| - 1).Some?
  {
    if i == 0 then [] else Gathered(parts, i - 1) + PartWords(parts[i - 1], i == |parts|).value
  }

  /** The loop that fills the word list of one section. */
  method ParseSection(section: string) returns (r: Option<seq<nat>>)
    ensures r == SectionWords(section)
  {
    if section == "" { return Some([]); }
    var words: seq<nat> := [];
    var parts := Split(section, ':');
    for i := 0 to |parts|
      invariant forall k | 0 <= k < i :: PartWords(parts[k], k == |parts| - 1).Some?
      invariant words == Gathered(parts, i)
    {
      PartsWordsSnoc(parts, i, words);
      var part := parts[i];
      assert parts[i..][0] == part;
      if '.' in part {
        if i != |parts| - 1 { return None; }
        var octets := ParseIPv4(part);
        if octets.None? { return None; }
        words := words + [octets.value[0] * 256 + octets.value[1], octets.value[2] * 256 + octets.value[3]];
      } else {
        if !IsGroupText(part) { return None; }
        words := words + [NumberOf(part, 16)];
      }
    }
    PartsWordsSnoc(parts, |parts|, words);
    assert parts[|parts|..] == [];
    assert words + [] == words;
    r := Some(words);
  }

  method ParseIPv6(address: string) returns (r: Option<seq<nat>>)
    ensures r == IPv6Words(address)
  {
    var sections := SplitDouble(ToLower(address));
    if |sections| > 2 { return None; }
    var left := ParseSection(sections[0]);
    var right := Some([]);
    if |sections| == 2 { right := ParseSection(sections[1]); }
    if left.None? || right.None? { return None; }
    r := AssembleWords(left.value, right.value, |sections| == 2);
  }

  // --- The verdict -------------------------------------------------------

  predicate IsPrivateIPv4(parts: seq<nat>)
    requires |parts| >= 2
  {
    var a, b := parts[0], parts[1];
    || a == 127 || a == 0 || a == 10
    || (a == 100 && 64 <= b <= 127)
    || (a == 169 && b == 254)
    || (a == 172 && 16 <= b <= 31)
    || (a == 192 && b == 168)
    || a >= 224
  }

  /** Bitwise conjunction. */
  function BitAnd(a: nat, b: nat): nat {
    if a == 0 || b == 0 then 0
    else 2 * BitAnd(a / 2, b / 2) + (if a % 2 == 1 && b % 2 == 1 then 1 else 0)
  }

  predicate ZeroUpTo(words: seq<nat>, n: nat)
    requires n <= |words|
  {
    forall i | 0 <= i < n :: words[i] == 0
  }

  predicate IsPrivateWords(words: seq<nat>)
    requires |words| == 8
  {
    var isMapped := ZeroUpTo(words, 5) && words[5] == 0xffff;
    var isCompatible := ZeroUpTo(words, 6) && (words[6] != 0 || (words[7] != 0 && words[7] != 1));
    if isMapped || isCompatible then
      IsPrivateIPv4([words[6] / 256, BitAnd(words[6], 0xff), words[7] / 256, BitAnd(words[7], 0xff)])
    else
      || (ZeroUpTo(words, 7) && words[7] == 1)
      || ZeroUpTo(words, 8)
      || BitAnd(words[0], 0xffc0) == 0xfe80
      || BitAnd(words[0], 0xfe00) == 0xfc00
      || BitAnd(words[0], 0xff00) == 0xff00
  }

  /** `family` is what the platform's own classifier says the text is: 4, 6 or neither. */
  predicate IsPrivateAddress(family: nat, address: string) {
    if family == 4 then
      match ParseIPv4(address)
      case None => false
      case Some(octets) => IsPrivateIPv4(octets)
    else if family != 6 then false
    else
      match IPv6Words(address)
      case None => false
      case Some(words) => IsPrivateWords(words)
  }
}
