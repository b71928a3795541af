/**
  JSON values, the printer, and what the recursive-descent parser computes: from the
  characters ahead and the nesting depth, a value and the characters left, or an error.
*/
module Json {
  /** A number written as a sign and digits alone, below 10^15 in magnitude, is the integer it is; any other is the text it was read from. */
  datatype Num = Int(i: int) | Other(text: string)

  datatype Entry = Entry(key: string, value: Value)

  datatype Value =
    | Null
    | Bool(b: bool)
    | Number(n: Num)
    | String(s: string)
    | Array(items: seq<Value>)
    | Object(entries: seq<Entry>)

  datatype Parsed<+T> = Ok(value: T, rest: string) | Err

  const MAX_DEPTH := 64
  const EXACT := 1_000_000_000_000_000

  // ---------- printing ----------

  /** Every number in it is an integer the printer writes exactly. */
  ghost predicate Exact(v: Value) {
    match v
    case Number(n) => n.Int? && -EXACT < n.i < EXACT
    case Array(items) => forall i :: 0 <= i < |items| ==> Exact(items[i])
    case Object(es) => forall i :: 0 <= i < |es| ==> Exact(es[i].value)
    case _ => true
  }

  function DigitChar(d: nat): (c: char)
    requires d < 10
    ensures IsDigit(c) && DigitValue(c) == d
  {
    "0123456789"[d]
  }

  predicate IsDigit(c: char) { '0' <= c <= '9' }

  function DigitValue(c: char): nat
    requires IsDigit(c)
  {
    c as int - '0' as int
  }

  function Decimal(n: nat): string {
    if n < 10 then [DigitChar(n)] else Decimal(n / 10) + [DigitChar(n % 10)]
  }

  function PrintInt(i: int): string {
    if i < 0 then "-" + Decimal(-i) else Decimal(i)
  }

  function HexChar(d: nat): (c: char)
    requires d < 16
    ensures IsHex(c) && HexDigit(c) == d && c != '+'
  {
    "0123456789abcdef"[d]
  }

  predicate IsHex(c: char) { '0' <= c <= '9' || 'a' <= c <= 'f' || 'A' <= c <= 'F' }

  function HexDigit(c: char): nat
    requires IsHex(c)
  {
    if '0' <= c <= '9' then c as int - '0' as int
    else if 'a' <= c <= 'f' then c as int - 'a' as int + 10
    else c as int - 'A' as int + 10
  }

  /** One character of a string literal: five short escapes, \u for other controls, itself otherwise. */
  function PrintChar(c: char): string {
    if c == '"' then "\\\""
    else if c == '\\' then "\\\\"
    else if c == '\n' then "\\n"
    else if c == '\r' then "\\r"
    else if c == '\t' then "\\t"
    else if c as int < 0x20 then "\\u00" + [HexChar(c as int / 16), HexChar(c as int % 16)]
    else [c]
  }

  function PrintChars(s: string): string {
    if s == [] then [] else PrintChar(s[0]) + PrintChars(s[1..])
  }

  function PrintString(s: string): string {
    "\"" + PrintChars(s) + "\""
  }

  function Print(v: Value): string
    requires Exact(v)
    decreases v, 1
  {
    match v
    case Null => "null"
    case Bool(b) => if b then "true" else "false"
    case Number(n) => PrintInt(n.i)
    case String(s) => PrintString(s)
    case Array(items) => "[" + PrintItems(items) + "]"
    case Object(es) => "{" + PrintEntries(es) + "}"
  }

  function PrintItems(items: seq<Value>): string
    requires forall i :: 0 <= i < |items| ==> Exact(items[i])
    decreases items, 0
  {
    if items == [] then ""
    else if |items| == 1 then Print(items[0])
    else Print(items[0]) + "," + PrintItems(items[1..])
  }

  function PrintEntry(e: Entry): string
    requires Exact(e.value)
    decreases e, 0
  {
    PrintString(e.key) + ":" + Print(e.value)
  }

  function PrintEntries(es: seq<Entry>): string
    requires forall i :: 0 <= i < |es| ==> Exact(es[i].value)
    decreases es, 0
  {
    if es == [] then ""
    else if |es| == 1 then PrintEntry(es[0])
    else PrintEntry(es[0]) + "," + PrintEntries(es[1..])
  }

  // ---------- parsing: characters ----------

  /** Unicode White_Space. */
  predicate IsSpace(c: char) {
    var u := c as int;
    || 0x9 <= u <= 0xD || u == 0x20 || u == 0x85 || u == 0xA0 || u == 0x1680 || 0x2000 <= u <= 0x200A
    || u == 0x2028 || u == 0x2029 || u == 0x202F || u == 0x205F || u == 0x3000
  }

  function SkipSpace(s: string): (r: string)
    ensures |r| <= |s|
  {
    if s != [] && IsSpace(s[0]) then SkipSpace(s[1..]) else s
  }

  predicate At(s: string, c: char) { s != [] && s[0] == c }

  function ParseLiteral<T>(s: string, word: string, value: T): Parsed<T> {
    if word == [] then Ok(value, s)
    else if At(s, word[0]) then ParseLiteral(s[1..], word[1..], value)
    else Err
  }

  // ---------- parsing: strings ----------

  function HexValue(h: string): (v: nat)
    requires forall i :: 0 <= i < |h| ==> IsHex(h[i])
  {
    if h == [] then 0 else 16 * HexValue(h[..|h| - 1]) + HexDigit(h[|h| - 1])
  }

  /** Four characters read as a hexadecimal number, which may carry a plus sign in front. */
  function HexOf(h: string): Parsed<nat>
    requires |h| == 4
  {
    var digits := if h[0] == '+' then h[1..] else h;
    if forall i :: 0 <= i < |digits| ==> IsHex(digits[i]) then Ok(HexValue(digits), []) else Err
  }

  predicate IsScalar(u: nat) { u < 0xD800 || 0xE000 <= u < 0x11_0000 }

  function ParseUnicode(s: string): Parsed<char> {
    if |s| < 4 then Err else
    match HexOf(s[..4])
    case Ok(u, _) => if IsScalar(u) then Ok(u as char, s[4..]) else Err
    case Err => Err
  }

  /** The character after a backslash. */
  function ParseEscape(s: string): (r: Parsed<char>)
    ensures r.Ok? ==> |r.rest| < |s|
  {
    if s == [] then Err else
    var rest := s[1..];
    match s[0]
    case '"' => Ok('"', rest)
    case '\\' => Ok('\\', rest)
    case '/' => Ok('/', rest)
    case 'b' => Ok('\U{8}', rest)
    case 'f' => Ok('\U{C}', rest)
    case 'n' => Ok('\n', rest)
    case 'r' => Ok('\r', rest)
    case 't' => Ok('\t', rest)
    case 'u' => ParseUnicode(rest)
    case _ => Err
  }

  /** Up to and including the closing quote. */
  function ParseChars(s: string): (r: Parsed<string>)
    ensures r.Ok? ==> |r.rest| < |s|
    decreases |s|
  {
    if s == [] then Err
    else if s[0] == '"' then Ok([], s[1..])
    else
      var one := if s[0] == '\\' then ParseEscape(s[1..]) else Ok(s[0], s[1..]);
      if one.Err? then Err else
      match ParseChars(one.rest)
      case Ok(more, rest) => Ok([one.value] + more, rest)
      case Err => Err
  }

  function ParseString(s: string): (r: Parsed<string>)
    ensures r.Ok? ==> |r.rest| < |s|
  {
    if At(s, '"') then ParseChars(s[1..]) else Err
  }

  // ---------- parsing: numbers ----------

  function DigitsOf(s: string): (d: string)
    ensures |d| <= |s| && d == s[..|d|]
    ensures forall i :: 0 <= i < |d| ==> IsDigit(d[i])
  {
    if s != [] && IsDigit(s[0]) then [s[0]] + DigitsOf(s[1..]) else []
  }

  function NatOf(d: string): nat
    requires forall i :: 0 <= i < |d| ==> IsDigit(d[i])
  {
    if d == [] then 0 else 10 * NatOf(d[..|d| - 1]) + DigitValue(d[|d| - 1])
  }

  /** The pieces of a numeral: sign, whole digits, then optional fraction and exponent as written. */
  datatype Numeral = Numeral(negative: bool, whole: string, point: bool, fraction: string, mark: string, power: string)

  function Scan(s: string): (r: (Numeral, string))
    ensures |r.1| <= |s|
  {
    var negative := At(s, '-');
    var s1 := if negative then s[1..] else s;
    var whole := DigitsOf(s1);
    var s2 := s1[|whole|..];
    var point := At(s2, '.');
    var s3 := if point then s2[1..] else s2;
    var fraction := if point then DigitsOf(s3) else [];
    var s4 := s3[|fraction|..];
    var mark := if !(At(s4, 'e') || At(s4, 'E')) then []
                else if |s4| > 1 && (s4[1] == '+' || s4[1] == '-') then s4[..2] else s4[..1];
    var s5 := s4[|mark|..];
    var power := if mark == [] then [] else DigitsOf(s5);
    (Numeral(negative, whole, point, fraction, mark, power), s5[|power|..])
  }

  function TextOf(n: Numeral): string {
    (if n.negative then "-" else "") + n.whole + (if n.point then "." else "") + n.fraction + n.mark + n.power
  }

  /** What the float parser accepts: some digit before or after the point, and digits in any exponent. */
  predicate Accepted(n: Numeral) {
    |n.whole| + |n.fraction| > 0 && (n.mark != [] ==> n.power != [])
  }

  function NumOf(n: Numeral): Num
    requires forall i :: 0 <= i < |n.whole| ==> IsDigit(n.whole[i])
  {
    if !n.point && n.mark == [] && NatOf(n.whole) < EXACT
    then Int(if n.negative then 0 - NatOf(n.whole) else NatOf(n.whole))
    else Other(TextOf(n))
  }

  function ParseNumber(s: string): Parsed<Num> {
    var (n, rest) := Scan(s);
    if Accepted(n) then Ok(NumOf(n), rest) else Err
  }

  // ---------- parsing: values ----------

  lemma {:induction false} LiteralShorter<T>(s: string, word: string, value: T)
    ensures ParseLiteral(s, word, value).Ok? ==> |ParseLiteral(s, word, value).rest| == |s| - |word|
    decreases word
  {
    if word != [] && At(s, word[0]) {
      LiteralShorter(s[1..], word[1..], value);
    }
  }

  /** An accepted number takes at least one character. */
  lemma NumberShorter(s: string)
    ensures ParseNumber(s).Ok? ==> |ParseNumber(s).rest| < |s|
  {
    var (n, rest) := Scan(s);
    if Accepted(n) {
      var s1 := if At(s, '-') then s[1..] else s;
      var s2 := s1[|n.whole|..];
      var s3 := if n.point then s2[1..] else s2;
      assert |rest| <= |s3| - |n.fraction|;
    }
  }

  /** A value from `s`, when `depth` containers are already open. */
  function ParseValue(s: string, depth: nat): (r: Parsed<Value>)
    ensures r.Ok? ==> |r.rest| < |s|
    decreases |s|, 2
  {
    var s := SkipSpace(s);
    if s == [] then Err
    else if s[0] == '{' then ParseObject(s, depth)
    else if s[0] == '[' then ParseArray(s, depth)
    else if s[0] == '"' then
      match ParseString(s) case Ok(t, rest) => Ok(String(t), rest) case Err => Err
    else if s[0] == 't' then LiteralShorter(s, "true", Bool(true)); ParseLiteral(s, "true", Bool(true))
    else if s[0] == 'f' then LiteralShorter(s, "false", Bool(false)); ParseLiteral(s, "false", Bool(false))
    else if s[0] == 'n' then LiteralShorter(s, "null", Null); ParseLiteral(s, "null", Null)
    else if s[0] == '-' || IsDigit(s[0]) then
      NumberShorter(s);
      match ParseNumber(s) case Ok(n, rest) => Ok(Number(n), rest) case Err => Err
    else Err
  }

  function ParseArray(s: string, depth: nat): (r: Parsed<Value>)
    requires At(s, '[')
    ensures r.Ok? ==> |r.rest| < |s|
    decreases |s|, 1
  {
    if depth + 1 > MAX_DEPTH then Err else
    var s1 := SkipSpace(s[1..]);
    if At(s1, ']') then Ok(Array([]), s1[1..]) else
    match ParseItems(s1, depth + 1)
    case Ok(items, rest) => Ok(Array(items), rest)
    case Err => Err
  }

  /** The rest of an array from its next value on. */
  function ParseItems(s: string, depth: nat): (r: Parsed<seq<Value>>)
    ensures r.Ok? ==> |r.rest| < |s|
    decreases |s|, 3
  {
    match ParseValue(s, depth)
    case Err => Err
    case Ok(v, s1) =>
      var s2 := SkipSpace(s1);
      if At(s2, ',') then
        match ParseItems(s2[1..], depth)
        case Ok(more, rest) => Ok([v] + more, rest)
        case Err => Err
      else if At(s2, ']') then Ok([v], s2[1..])
      else Err
  }

  function ParseObject(s: string, depth: nat): (r: Parsed<Value>)
    requires At(s, '{')
    ensures r.Ok? ==> |r.rest| < |s|
    decreases |s|, 1
  {
    if depth + 1 > MAX_DEPTH then Err else
    var s1 := SkipSpace(s[1..]);
    if At(s1, '}') then Ok(Object([]), s1[1..]) else
    match ParseEntries(s1, depth + 1)
    case Ok(es, rest) => Ok(Object(es), rest)
    case Err => Err
  }

  function ParseEntry(s: string, depth: nat): (r: Parsed<Entry>)
    ensures r.Ok? ==> |r.rest| < |s|
    decreases |s|, 3
  {
    match ParseString(SkipSpace(s))
    case Err => Err
    case Ok(key, s1) =>
      var s2 := SkipSpace(s1);
      if !At(s2, ':') then Err else
      match ParseValue(s2[1..], depth)
      case Ok(v, rest) => Ok(Entry(key, v), rest)
      case Err => Err
  }

  function ParseEntries(s: string, depth: nat): (r: Parsed<seq<Entry>>)
    ensures r.Ok? ==> |r.rest| < |s|
    decreases |s|, 4
  {
    match ParseEntry(s, depth)
    case Err => Err
    case Ok(e, s1) =>
      var s2 := SkipSpace(s1);
      if At(s2, ',') then
        match ParseEntries(s2[1..], depth)
        case Ok(more, rest) => Ok([e] + more, rest)
        case Err => Err
      else if At(s2, '}') then Ok([e], s2[1..])
      else Err
  }

  /** The whole text is one value with white space around it. */
  function Parse(text: string): Parsed<Value> {
    match ParseValue(SkipSpace(text), 0)
    case Err => Err
    case Ok(v, rest) => if SkipSpace(rest) == [] then Ok(v, []) else Err
  }
}
