/** The JSON text that the audit chain hashes: Python's `json.dumps` with sorted
    keys, no blanks and ASCII escapes, for an object whose values are strings
    (RFC 8259, sections 4 and 7). Characters are Unicode scalar values. */
module JsonText {
  import opened Common

  const HEX := "0123456789abcdef"

  function HexDigit(n: nat): char
    requires n < 16
  {
    HEX[n]
  }

  function HexValue(c: char): Option<nat> {
    if '0' <= c <= '9' then Some(c as int - '0' as int)
    else if 'a' <= c <= 'f' then Some(c as int - 'a' as int + 10)
    else None
  }

  lemma HexRoundTrip(n: nat)
    requires n < 16
    ensures HexValue(HexDigit(n)) == Some(n)
  {}

  function Hex4(n: nat): (r: string)
    requires n < 0x10000
    ensures |r| == 4
  {
    [HexDigit(n / 4096), HexDigit(n / 256 % 16), HexDigit(n / 16 % 16), HexDigit(n % 16)]
  }

  /** The value of the first four characters, if all are hex digits. */
  function Hex4Value(t: string): Option<nat> {
    if |t| < 4 then None
    else
      match (HexValue(t[0]), HexValue(t[1]), HexValue(t[2]), HexValue(t[3]))
      case (Some(a), Some(b), Some(c), Some(d)) => Some(a * 4096 + b * 256 + c * 16 + d)
      case _ => None
  }

  lemma Hex4RoundTrip(n: nat, rest: string)
    requires n < 0x10000
    ensures Hex4Value(Hex4(n) + rest) == Some(n)
  {
    HexRoundTrip(n / 4096);
    HexRoundTrip(n / 256 % 16);
    HexRoundTrip(n / 16 % 16);
    HexRoundTrip(n % 16);
    assert n / 256 % 16 == n / 256 - n / 4096 * 16;
    assert n / 16 % 16 == n / 16 - n / 256 * 16;
  }

  function HighSurrogate(c: char): nat
    requires c as int >= 0x10000
  {
    0xd800 + (c as int - 0x10000) / 1024
  }

  function LowSurrogate(c: char): nat
    requires c as int >= 0x10000
  {
    0xdc00 + (c as int - 0x10000) % 1024
  }

  /** The letter after the backslash, for characters with a two-character escape. */
  function ShortEscape(c: char): Option<char> {
    if c == '"' || c == '\\' then Some(c)
    else if c == '\n' then Some('n')
    else if c == '\r' then Some('r')
    else if c == '\t' then Some('t')
    else if c == '\U{8}' then Some('b')
    else if c == '\U{c}' then Some('f')
    else None
  }

  function EscapeChar(c: char): string {
    if ShortEscape(c).Some? then ['\\', ShortEscape(c).value]
    else if ' ' <= c <= '~' then [c]
    else if c as int < 0x10000 then ['\\', 'u'] + Hex4(c as int)
    else ['\\', 'u'] + Hex4(HighSurrogate(c)) + (['\\', 'u'] + Hex4(LowSurrogate(c)))
  }

  function Escape(s: string): string {
    if s == "" then "" else EscapeChar(s[0]) + Escape(s[1..])
  }

  function Quote(s: string): string {
    ['"'] + Escape(s) + ['"']
  }

  // ---------- reading it back ----------

  function CharOf(n: nat): Option<char> {
    if n < 0xd800 || 0xe000 <= n < 0x110000 then Some(n as char) else None
  }

  /** The value of a `\uXXXX` at the start of t. */
  function UnitValue(t: string): Option<nat> {
    if |t| >= 6 && t[0] == '\\' && t[1] == 'u' then Hex4Value(t[2..]) else None
  }

  /** The character a two-character escape stands for. */
  function ShortValue(letter: char): Option<char> {
    if letter == '"' || letter == '\\' then Some(letter)
    else if letter == 'n' then Some('\n')
    else if letter == 'r' then Some('\r')
    else if letter == 't' then Some('\t')
    else if letter == 'b' then Some('\U{8}')
    else if letter == 'f' then Some('\U{c}')
    else None
  }

  /** Reads a `\uXXXX`, or a surrogate pair of them. */
  function ReadUnits(t: string): Option<(char, string)> {
    match UnitValue(t)
    case None => None
    case Some(n) =>
      if 0xd800 <= n < 0xdc00 then
        match UnitValue(t[6..])
        case Some(m) =>
          if 0xdc00 <= m < 0xe000 then
            Some(((0x10000 + (n - 0xd800) * 1024 + (m - 0xdc00)) as char, t[12..]))
          else None
        case None => None
      else
        match CharOf(n)
        case Some(c) => Some((c, t[6..]))
        case None => None
  }

  /** Reads one, possibly escaped, character; the closing quote is not one. */
  function ReadChar(t: string): Option<(char, string)> {
    if t == "" || t[0] == '"' then None
    else if t[0] != '\\' then Some((t[0], t[1..]))
    else if |t| < 2 then None
    else if ShortValue(t[1]).Some? then Some((ShortValue(t[1]).value, t[2..]))
    else ReadUnits(t)
  }

  lemma ReadCharShrinks(t: string)
    ensures ReadChar(t).Some? ==> |ReadChar(t).value.1| < |t|
  {}

  /** Reads up to and including the closing quote. */
  function ReadRest(t: string): Option<(string, string)>
    decreases |t|
  {
    if t != "" && t[0] == '"' then Some(("", t[1..]))
    else
      match ReadChar(t)
      case None => None
      case Some((c, t1)) =>
        ReadCharShrinks(t);
        match ReadRest(t1)
        case None => None
        case Some((s, t2)) => Some(([c] + s, t2))
  }

  function ReadString(t: string): Option<(string, string)> {
    if t != "" && t[0] == '"' then ReadRest(t[1..]) else None
  }

  lemma UnitRoundTrip(n: nat, rest: string)
    requires n < 0x10000
    ensures UnitValue(['\\', 'u'] + Hex4(n) + rest) == Some(n)
    ensures (['\\', 'u'] + Hex4(n) + rest)[6..] == rest
  {
    var t := ['\\', 'u'] + Hex4(n) + rest;
    assert t[2..] == Hex4(n) + rest;
    Hex4RoundTrip(n, rest);
  }

  lemma BmpRoundTrip(c: char, rest: string)
    requires c as int < 0x10000
    ensures ReadUnits(['\\', 'u'] + Hex4(c as int) + rest) == Some((c, rest))
  {
    UnitRoundTrip(c as int, rest);
  }

  lemma SurrogatesCombine(c: char)
    requires c as int >= 0x10000
    ensures 0xd800 <= HighSurrogate(c) < 0xdc00 <= LowSurrogate(c) < 0xe000
    ensures 0x10000 + (HighSurrogate(c) - 0xd800) * 1024 + (LowSurrogate(c) - 0xdc00) == c as int
  {
    var v := c as int - 0x10000;
    assert v == v / 1024 * 1024 + v % 1024;
  }

  lemma PairRoundTrip(c: char, rest: string)
    requires c as int >= 0x10000
    ensures ReadUnits(['\\', 'u'] + Hex4(HighSurrogate(c)) + (['\\', 'u'] + Hex4(LowSurrogate(c)) + rest)) == Some((c, rest))
  {
    var tail := ['\\', 'u'] + Hex4(LowSurrogate(c)) + rest;
    var t := ['\\', 'u'] + Hex4(HighSurrogate(c)) + tail;
    UnitRoundTrip(HighSurrogate(c), tail);
    UnitRoundTrip(LowSurrogate(c), rest);
    assert t[12..] == t[6..][6..];
    SurrogatesCombine(c);
  }

  lemma UnitsAreNotShort(t: string)
    requires |t| >= 2 && t[0] == '\\' && t[1] == 'u'
    ensures ReadChar(t) == ReadUnits(t)
  {}

  lemma AstralRoundTrip(c: char, rest: string)
    requires c as int >= 0x10000
    ensures ReadChar(EscapeChar(c) + rest) == Some((c, rest))
  {
    var tail := ['\\', 'u'] + Hex4(LowSurrogate(c)) + rest;
    assert EscapeChar(c) + rest == ['\\', 'u'] + Hex4(HighSurrogate(c)) + tail;
    PairRoundTrip(c, rest);
    UnitsAreNotShort(EscapeChar(c) + rest);
  }

  lemma CharRoundTrip(c: char, rest: string)
    ensures ReadChar(EscapeChar(c) + rest) == Some((c, rest))
  {
    if ShortEscape(c).Some? {
      var letter := ShortEscape(c).value;
      assert ShortValue(letter) == Some(c);
      assert (['\\', letter] + rest)[2..] == rest;
    } else if ' ' <= c <= '~' {
      assert ([c] + rest)[1..] == rest;
    } else if c as int < 0x10000 {
      BmpRoundTrip(c, rest);
      UnitsAreNotShort(EscapeChar(c) + rest);
    } else {
      AstralRoundTrip(c, rest);
    }
  }

  lemma EscapeStart(c: char)
    ensures EscapeChar(c) != "" && EscapeChar(c)[0] != '"'
  {}

  lemma {:induction false} RestRoundTrip(s: string, rest: string)
    ensures ReadRest(Escape(s) + ['"'] + rest) == Some((s, rest))
  {
    if s == "" {
      assert Escape(s) + ['"'] + rest == ['"'] + rest;
    } else {
      var tail := Escape(s[1..]) + ['"'] + rest;
      var t := Escape(s) + ['"'] + rest;
      assert t == EscapeChar(s[0]) + tail;
      EscapeStart(s[0]);
      CharRoundTrip(s[0], tail);
      RestRoundTrip(s[1..], rest);
      assert s == [s[0]] + s[1..];
    }
  }

  /** Reading a quoted string back gives the string and what followed it. */
  lemma StringRoundTrip(s: string, rest: string)
    ensures ReadString(Quote(s) + rest) == Some((s, rest))
  {
    assert (Quote(s) + rest)[1..] == Escape(s) + ['"'] + rest;
    RestRoundTrip(s, rest);
  }

  // ---------- objects with fixed keys ----------

  function Members(keys: seq<string>, values: seq<string>): string
    requires |keys| == |values|
  {
    if keys == [] then ['}']
    else Quote(keys[0]) + [':'] + (Quote(values[0]) + ((if |keys| > 1 then [','] else []) + Members(keys[1..], values[1..])))
  }

  /** The object's text: keys in the given (sorted) order. */
  function ObjectText(keys: seq<string>, values: seq<string>): string
    requires |keys| == |values|
  {
    ['{'] + Members(keys, values)
  }

  lemma Uncons(p: string, x: string, y: string)
    requires p + x == p + y
    ensures x == y
  {
    assert (p + x)[|p|..] == x && (p + y)[|p|..] == y;
  }

  lemma {:induction false} MembersDetermine(keys: seq<string>, a: seq<string>, b: seq<string>)
    requires |keys| == |a| == |b| && Members(keys, a) == Members(keys, b)
    ensures a == b
  {
    if keys != [] {
      var comma: string := if |keys| > 1 then [','] else [];
      var restA, restB := comma + Members(keys[1..], a[1..]), comma + Members(keys[1..], b[1..]);
      Uncons(Quote(keys[0]) + [':'], Quote(a[0]) + restA, Quote(b[0]) + restB);
      StringRoundTrip(a[0], restA);
      StringRoundTrip(b[0], restB);
      Uncons(comma, Members(keys[1..], a[1..]), Members(keys[1..], b[1..]));
      MembersDetermine(keys[1..], a[1..], b[1..]);
      assert a == [a[0]] + a[1..] && b == [b[0]] + b[1..];
    }
  }

  /** Two objects with the same keys and the same text have the same values. */
  lemma ObjectTextDetermines(keys: seq<string>, a: seq<string>, b: seq<string>)
    requires |keys| == |a| == |b| && ObjectText(keys, a) == ObjectText(keys, b)
    ensures a == b
  {
    Uncons(['{'], Members(keys, a), Members(keys, b));
    MembersDetermine(keys, a, b);
  }
}
