/**
  Printing then parsing gives the value back, with key order and every escape, for
  values nested at most 64 deep whose numbers the printer writes exactly; deeper
  values are refused.
*/
module JsonRoundTrip {
  import opened Json

  // ---------- what may follow a value ----------

  /** `tail` cannot be taken for more of a number. */
  predicate Ends(tail: string) {
    tail == [] || !(IsDigit(tail[0]) || tail[0] == '.' || tail[0] == 'e' || tail[0] == 'E')
  }

  lemma SkipNothing(s: string)
    requires s == [] || !IsSpace(s[0])
    ensures SkipSpace(s) == s
  {
  }

  lemma Assoc(a: string, b: string, c: string, d: string)
    ensures a + b + c + d == a + (b + (c + d))
  {
  }

  lemma Inside(open: string, x: string, close: string, tail: string)
    requires |open| == 1 && |close| == 1
    ensures var s := open + x + close + tail; s != [] && s[0] == open[0] && s[1..] == x + (close + tail)
    ensures (close + tail)[1..] == tail && close + tail != [] && (close + tail)[0] == close[0]
  {
  }

  // ---------- numbers ----------

  lemma {:induction false} DecimalDigits(n: nat)
    ensures Decimal(n) != [] && forall i :: 0 <= i < |Decimal(n)| ==> IsDigit(Decimal(n)[i])
    ensures NatOf(Decimal(n)) == n
  {
    if n >= 10 {
      DecimalDigits(n / 10);
      assert Decimal(n)[..|Decimal(n)| - 1] == Decimal(n / 10);
    } else {
      assert Decimal(n)[..0] == [];
    }
  }

  lemma {:induction false} DigitsTaken(d: string, tail: string)
    requires (forall i :: 0 <= i < |d| ==> IsDigit(d[i])) && (tail == [] || !IsDigit(tail[0]))
    ensures DigitsOf(d + tail) == d
  {
    if d == [] {
      assert d + tail == tail;
    } else {
      assert (d + tail)[1..] == d[1..] + tail;
      DigitsTaken(d[1..], tail);
    }
  }

  lemma ScanDecimal(n: nat, tail: string)
    requires Ends(tail)
    ensures Scan(Decimal(n) + tail) == (Numeral(false, Decimal(n), false, [], [], []), tail)
    ensures Scan("-" + (Decimal(n) + tail)) == (Numeral(true, Decimal(n), false, [], [], []), tail)
  {
    hide Scan, DigitsOf, Decimal, NatOf, Ends;
    DecimalDigits(n);
    EndsDigits(tail);
    DigitsTaken(Decimal(n), tail);
    ScanDigits(Decimal(n), Decimal(n) + tail, tail);
  }

  lemma EndsDigits(tail: string)
    requires Ends(tail)
    ensures tail == [] || !IsDigit(tail[0])
  {
  }

  /** A whole number and nothing after it that could belong to one. */
  lemma ScanDigits(d: string, s: string, tail: string)
    requires d != [] && IsDigit(d[0]) && s == d + tail && DigitsOf(s) == d && Ends(tail)
    ensures Scan(s) == (Numeral(false, d, false, [], [], []), tail)
    ensures Scan("-" + s) == (Numeral(true, d, false, [], [], []), tail)
  {
    hide DigitsOf;
    assert s[0] == d[0];
    assert s[|d|..] == tail;
    assert ("-" + s)[1..] == s;
    assert tail[0..] == tail;
  }

  lemma ScannedNumber(s: string, n: Numeral, rest: string)
    requires Scan(s) == (n, rest) && Accepted(n)
    requires forall i :: 0 <= i < |n.whole| ==> IsDigit(n.whole[i])
    ensures ParseNumber(s) == Ok(NumOf(n), rest)
  {
    hide Scan, NumOf;
  }

  lemma WholeNumber(n: nat, negative: bool)
    requires n < EXACT
    ensures var m := Numeral(negative, Decimal(n), false, [], [], []);
            && (forall i :: 0 <= i < |m.whole| ==> IsDigit(m.whole[i]))
            && Accepted(m) && NumOf(m) == Int(if negative then 0 - n else n)
  {
    DecimalDigits(n);
    hide Decimal, NatOf;
  }

  lemma PrintedInt(i: int, tail: string)
    ensures i < 0 ==> PrintInt(i) + tail == "-" + (Decimal(-i) + tail)
    ensures i >= 0 ==> PrintInt(i) == Decimal(i)
  {
    hide Decimal;
  }

  lemma NumberRoundTrip(i: int, tail: string)
    requires -EXACT < i < EXACT && Ends(tail)
    ensures ParseNumber(PrintInt(i) + tail) == Ok(Int(i), tail)
  {
    hide *;
    var n: nat := if i < 0 then -i else i;
    ScanDecimal(n, tail);
    WholeNumber(n, i < 0);
    PrintedInt(i, tail);
    ScannedNumber(PrintInt(i) + tail, Numeral(i < 0, Decimal(n), false, [], [], []), tail);
  }

  lemma FirstOfInt(i: int)
    ensures PrintInt(i) != [] && (PrintInt(i)[0] == '-' || IsDigit(PrintInt(i)[0]))
  {
    DecimalDigits(if i < 0 then -i else i);
  }

  // ---------- strings ----------

  lemma HexSnoc(h: string, c: char)
    requires IsHex(c) && forall i :: 0 <= i < |h| ==> IsHex(h[i])
    ensures (forall i :: 0 <= i < |h + [c]| ==> IsHex((h + [c])[i])) && HexValue(h + [c]) == 16 * HexValue(h) + HexDigit(c)
  {
    assert (h + [c])[..|h|] == h;
  }

  lemma HexPair(u: nat)
    requires u < 0x20
    ensures HexOf("00" + [HexChar(u / 16), HexChar(u % 16)]) == Ok(u, [])
  {
    hide HexValue, HexDigit, IsHex, HexChar;
    var a, b := HexChar(u / 16), HexChar(u % 16);
    HexZeros();
    HexSnoc("00", a);
    HexSnoc("00" + [a], b);
    assert "00" + [a] + [b] == "00" + [a, b];
    assert ("00" + [a, b])[0] == '0';
  }

  lemma HexZeros()
    ensures (forall i :: 0 <= i < |"00"| ==> IsHex("00"[i])) && HexValue("00") == 0
  {
    assert [] + ['0'] == "0" && "0" + ['0'] == "00";
    HexSnoc([], '0');
    HexSnoc("0", '0');
  }

  lemma UnicodeRoundTrip(c: char, tail: string)
    requires c as int < 0x20
    ensures ParseUnicode("00" + [HexChar(c as int / 16), HexChar(c as int % 16)] + tail) == Ok(c, tail)
  {
    var h := "00" + [HexChar(c as int / 16), HexChar(c as int % 16)];
    HexPair(c as int);
    assert (h + tail)[..4] == h && (h + tail)[4..] == tail;
  }

  lemma ShortEscape(c: char, tail: string)
    requires c == '"' || c == '\\' || c == '\n' || c == '\r' || c == '\t'
    ensures var s := PrintChar(c) + tail; s != [] && s[0] == '\\' && ParseEscape(s[1..]) == Ok(c, tail)
  {
    hide ParseUnicode;
    var s := PrintChar(c) + tail;
    assert |PrintChar(c)| == 2 && s[1..] == [PrintChar(c)[1]] + tail;
    assert s[1..][1..] == tail;
  }

  lemma Escaped(letter: string, rest: string)
    requires |letter| == 1
    ensures var s := "\\" + (letter + rest);
            s != [] && s[0] == '\\' && s[1..] == letter + rest && s[1..][1..] == rest && s[1..][0] == letter[0]
  {
  }

  lemma UnicodeForm(c: char)
    requires c as int < 0x20 && c != '\n' && c != '\r' && c != '\t'
    ensures PrintChar(c) == "\\" + "u" + ("00" + [HexChar(c as int / 16), HexChar(c as int % 16)])
  {
    hide HexChar;
  }

  lemma ControlEscape(c: char, tail: string)
    requires c as int < 0x20 && c != '\n' && c != '\r' && c != '\t'
    ensures var s := PrintChar(c) + tail; s != [] && s[0] == '\\' && ParseEscape(s[1..]) == Ok(c, tail)
  {
    hide ParseUnicode, PrintChar, HexChar;
    var h := "00" + [HexChar(c as int / 16), HexChar(c as int % 16)];
    UnicodeForm(c);
    UnicodeRoundTrip(c, tail);
    Assoc("\\", "u", h, tail);
    Escaped("u", h + tail);
  }

  /** Whatever a character is printed as inside a literal reads back as that character. */
  lemma CharRoundTrip(c: char, tail: string)
    ensures var s := PrintChar(c) + tail;
            && s != [] && s[0] != '"'
            && (s[0] == '\\' ==> ParseEscape(s[1..]) == Ok(c, tail))
            && (s[0] != '\\' ==> s[0] == c && s[1..] == tail)
  {
    hide ParseEscape;
    if c == '"' || c == '\\' || c == '\n' || c == '\r' || c == '\t' {
      ShortEscape(c, tail);
    } else if c as int < 0x20 {
      ControlEscape(c, tail);
    } else {
      assert PrintChar(c) + tail == [c] + tail;
    }
  }

  lemma ParseCharsStep(s: string, c: char, rest: string)
    requires s != [] && s[0] != '"'
    requires if s[0] == '\\' then ParseEscape(s[1..]) == Ok(c, rest) else s[0] == c && s[1..] == rest
    ensures ParseChars(s) == match ParseChars(rest) case Ok(more, r) => Ok([c] + more, r) case Err => Err
  {
    hide ParseEscape;
  }

  lemma PrintCharsStep(s: string, tail: string)
    requires s != []
    ensures PrintChars(s) + tail == PrintChar(s[0]) + (PrintChars(s[1..]) + tail)
  {
    hide PrintChar;
  }

  lemma NoChars(tail: string)
    ensures ParseChars(PrintChars([]) + ("\"" + tail)) == Ok([], tail)
  {
    hide ParseEscape;
    assert PrintChars([]) + ("\"" + tail) == "\"" + tail;
    assert ("\"" + tail)[1..] == tail;
  }

  lemma {:induction false} CharsRoundTrip(s: string, tail: string)
    ensures ParseChars(PrintChars(s) + ("\"" + tail)) == Ok(s, tail)
    decreases |s|
  {
    hide PrintChars, PrintChar, ParseEscape, ParseChars;
    if s == [] {
      NoChars(tail);
    } else {
      var more := PrintChars(s[1..]) + ("\"" + tail);
      CharsRoundTrip(s[1..], tail);
      CharRoundTrip(s[0], more);
      PrintCharsStep(s, "\"" + tail);
      ParseCharsStep(PrintChar(s[0]) + more, s[0], more);
      assert s == [s[0]] + s[1..];
    }
  }

  /** Every string survives, whatever quotes, backslashes and control characters it has. */
  lemma StringRoundTrip(s: string, tail: string)
    ensures ParseString(PrintString(s) + tail) == Ok(s, tail)
    ensures PrintString(s)[0] == '"'
  {
    CharsRoundTrip(s, tail);
    assert PrintString(s) + tail == "\"" + (PrintChars(s) + ("\"" + tail));
    assert (PrintString(s) + tail)[1..] == PrintChars(s) + ("\"" + tail);
  }

  // ---------- literals ----------

  lemma {:induction false} LiteralTaken<T>(word: string, tail: string, value: T)
    ensures ParseLiteral(word + tail, word, value) == Ok(value, tail)
    decreases word
  {
    if word == [] {
      assert word + tail == tail;
    } else {
      assert (word + tail)[1..] == word[1..] + tail;
      LiteralTaken(word[1..], tail, value);
    }
  }

  // ---------- values ----------

  function Max(a: nat, b: nat): nat { if a >= b then a else b }

  /** Containers around the innermost part of the value, itself included. */
  function Depth(v: Value): nat
    decreases v, 1
  {
    match v
    case Array(items) => 1 + DepthOf(items)
    case Object(es) => 1 + DepthIn(es)
    case _ => 0
  }

  function DepthOf(items: seq<Value>): nat
    decreases items, 0
  {
    if items == [] then 0 else Max(Depth(items[0]), DepthOf(items[1..]))
  }

  function DepthIn(es: seq<Entry>): nat
    decreases es, 0
  {
    if es == [] then 0 else Max(Depth(es[0].value), DepthIn(es[1..]))
  }

  /** How a printed value begins: never with white space or something that closes a container. */
  lemma FirstOf(v: Value)
    requires Exact(v)
    ensures Print(v) != [] && !IsSpace(Print(v)[0]) && Print(v)[0] !in "]},:"
    ensures Print(v)[0] == '{' <==> v.Object?
    ensures Print(v)[0] == '[' <==> v.Array?
    ensures Print(v)[0] == '"' <==> v.String?
    ensures Print(v)[0] == 't' <==> v == Bool(true)
    ensures Print(v)[0] == 'f' <==> v == Bool(false)
    ensures Print(v)[0] == 'n' <==> v.Null?
    ensures v.Number? ==> Print(v)[0] == '-' || IsDigit(Print(v)[0])
  {
    if v.Number? {
      FirstOfInt(v.n.i);
    }
  }

  /** What parsing the text of `v` should give with `depth` containers open. */
  function Expected<T>(v: T, depth: nat, needs: nat, rest: string): Parsed<T> {
    if depth + needs <= MAX_DEPTH then Ok(v, rest) else Err
  }

  lemma {:induction false} ValueRoundTrip(v: Value, tail: string, depth: nat)
    requires Exact(v) && Ends(tail) && depth <= MAX_DEPTH
    ensures ParseValue(Print(v) + tail, depth) == Expected(v, depth, Depth(v), tail)
    decreases v, 1
  {
    FirstOf(v);
    SkipNothing(Print(v) + tail);
    match v
    case Null => LiteralTaken("null", tail, v);
    case Bool(b) => LiteralTaken(if b then "true" else "false", tail, v);
    case Number(n) => NumberRoundTrip(n.i, tail);
    case String(t) => StringRoundTrip(t, tail);
    case Array(items) => ArrayRoundTrip(items, tail, depth);
    case Object(es) => ObjectRoundTrip(es, tail, depth);
  }

  lemma EmptyContainers(tail: string)
    ensures PrintItems([]) + tail == tail && DepthOf([]) == 0
    ensures PrintEntries([]) + tail == tail && DepthIn([]) == 0
  {
  }

  lemma ParseArrayStep(s: string, depth: nat)
    requires At(s, '[') && SkipSpace(s[1..]) == s[1..]
    ensures ParseArray(s, depth) ==
            if depth + 1 > MAX_DEPTH then Err
            else if At(s[1..], ']') then Ok(Array([]), s[1..][1..])
            else match ParseItems(s[1..], depth + 1) case Ok(items, rest) => Ok(Array(items), rest) case Err => Err
  {
    hide ParseItems, SkipSpace;
  }

  lemma {:induction false} ArrayRoundTrip(items: seq<Value>, tail: string, depth: nat)
    requires (forall i :: 0 <= i < |items| ==> Exact(items[i])) && depth <= MAX_DEPTH
    ensures ParseArray("[" + PrintItems(items) + "]" + tail, depth) == Expected(Array(items), depth, 1 + DepthOf(items), tail)
    decreases items, 2
  {
    hide Exact, Print, PrintItems, Depth, DepthOf, ParseItems, ParseArray, SkipSpace, IsSpace;
    var s := "[" + PrintItems(items) + "]" + tail;
    Inside("[", PrintItems(items), "]", tail);
    if items == [] {
      EmptyContainers("]" + tail);
      Closers();
      SkipNothing("]" + tail);
      ParseArrayStep(s, depth);
    } else {
      FirstOfItems(items, "]" + tail);
      SkipNothing(s[1..]);
      ParseArrayStep(s, depth);
      if depth + 1 <= MAX_DEPTH {
        ItemsRoundTrip(items, tail, depth + 1);
      }
    }
  }

  lemma FirstOfItems(items: seq<Value>, tail: string)
    requires items != [] && forall i :: 0 <= i < |items| ==> Exact(items[i])
    ensures var s := PrintItems(items) + tail; s != [] && !IsSpace(s[0]) && s[0] != ']'
  {
    FirstOf(items[0]);
    assert (PrintItems(items) + tail)[0] == Print(items[0])[0];
  }

  lemma ParseItemsStep(s: string, depth: nat, more: string)
    ensures var r, next := ParseValue(s, depth), ParseItems(more, depth);
            && (r.Err? ==> ParseItems(s, depth) == Err)
            && (r.Ok? && r.rest == "," + more ==>
                  ParseItems(s, depth) == match next case Ok(vs, rest) => Ok([r.value] + vs, rest) case Err => Err)
            && (r.Ok? && r.rest == "]" + more ==> ParseItems(s, depth) == Ok([r.value], more))
  {
    hide ParseValue, IsSpace;
    assert !IsSpace(',') && !IsSpace(']') by { Closers(); }
    SkipNothing("," + more);
    SkipNothing("]" + more);
    assert ("," + more)[1..] == more && ("]" + more)[1..] == more;
  }

  lemma Closers()
    ensures !IsSpace(',') && !IsSpace(']') && !IsSpace('}') && !IsSpace(':')
  {
  }

  lemma PrintItemsStep(items: seq<Value>, tail: string)
    requires items != [] && (forall i :: 0 <= i < |items| ==> Exact(items[i]))
    ensures |items| == 1 ==> PrintItems(items) + tail == Print(items[0]) + tail && DepthOf(items) == Depth(items[0])
    ensures |items| > 1 ==> PrintItems(items) + tail == Print(items[0]) + ("," + (PrintItems(items[1..]) + tail))
    ensures |items| > 1 ==> DepthOf(items) == Max(Depth(items[0]), DepthOf(items[1..]))
  {
    hide Print, Depth;
    if |items| == 1 {
      assert items[1..] == [];
    } else {
      Assoc(Print(items[0]), ",", PrintItems(items[1..]), tail);
    }
  }

  lemma {:induction false} ItemsRoundTrip(items: seq<Value>, tail: string, depth: nat)
    requires items != [] && (forall i :: 0 <= i < |items| ==> Exact(items[i])) && depth <= MAX_DEPTH
    ensures ParseItems(PrintItems(items) + ("]" + tail), depth) == Expected(items, depth, DepthOf(items), tail)
    decreases items, 1
  {
    hide Exact, Print, PrintItems, Depth, DepthOf, ParseItems, ParseValue;
    var v := items[0];
    PrintItemsStep(items, "]" + tail);
    if |items| == 1 {
      ValueRoundTrip(v, "]" + tail, depth);
      ParseItemsStep(Print(v) + ("]" + tail), depth, tail);
      assert items == [v];
    } else {
      var more := PrintItems(items[1..]) + ("]" + tail);
      ValueRoundTrip(v, "," + more, depth);
      ItemsRoundTrip(items[1..], tail, depth);
      ParseItemsStep(Print(v) + ("," + more), depth, more);
      assert items == [v] + items[1..];
    }
  }

  lemma ParseObjectStep(s: string, depth: nat)
    requires At(s, '{') && SkipSpace(s[1..]) == s[1..]
    ensures ParseObject(s, depth) ==
            if depth + 1 > MAX_DEPTH then Err
            else if At(s[1..], '}') then Ok(Object([]), s[1..][1..])
            else match ParseEntries(s[1..], depth + 1) case Ok(es, rest) => Ok(Object(es), rest) case Err => Err
  {
    hide ParseEntries, SkipSpace;
  }

  lemma {:induction false} ObjectRoundTrip(es: seq<Entry>, tail: string, depth: nat)
    requires (forall i :: 0 <= i < |es| ==> Exact(es[i].value)) && depth <= MAX_DEPTH
    ensures ParseObject("{" + PrintEntries(es) + "}" + tail, depth) == Expected(Object(es), depth, 1 + DepthIn(es), tail)
    decreases es, 2
  {
    hide Exact, Print, PrintEntries, Depth, DepthIn, ParseEntries, ParseObject, SkipSpace, IsSpace;
    var s := "{" + PrintEntries(es) + "}" + tail;
    Inside("{", PrintEntries(es), "}", tail);
    if es == [] {
      EmptyContainers("}" + tail);
      Closers();
      SkipNothing("}" + tail);
      ParseObjectStep(s, depth);
    } else {
      FirstOfEntries(es, "}" + tail);
      SkipNothing(s[1..]);
      ParseObjectStep(s, depth);
      if depth + 1 <= MAX_DEPTH {
        EntriesRoundTrip(es, tail, depth + 1);
      }
    }
  }

  lemma FirstOfEntries(es: seq<Entry>, tail: string)
    requires es != [] && forall i :: 0 <= i < |es| ==> Exact(es[i].value)
    ensures var s := PrintEntries(es) + tail; s != [] && s[0] == '"' && !IsSpace(s[0])
  {
    var e := es[0];
    assert PrintString(e.key) != [] && PrintString(e.key)[0] == '"';
    assert PrintEntry(e) != [] && PrintEntry(e)[0] == '"';
    hide PrintEntry, PrintString;
    assert PrintEntries(es) != [] && PrintEntries(es)[0] == '"';
  }

  lemma EntryRoundTrip(e: Entry, tail: string, depth: nat)
    requires Exact(e.value) && Ends(tail) && depth <= MAX_DEPTH
    ensures ParseEntry(PrintEntry(e) + tail, depth) == Expected(e, depth, Depth(e.value), tail)
    decreases e, 1
  {
    var rest := Print(e.value) + tail;
    assert PrintEntry(e) + tail == PrintString(e.key) + (":" + rest);
    StringRoundTrip(e.key, ":" + rest);
    SkipNothing(PrintEntry(e) + tail);
    SkipNothing(":" + rest);
    assert (":" + rest)[1..] == rest;
    ValueRoundTrip(e.value, tail, depth);
    hide Print, PrintString, ParseString, Depth;
  }

  lemma ParseEntriesStep(s: string, depth: nat, more: string)
    ensures var r, next := ParseEntry(s, depth), ParseEntries(more, depth);
            && (r.Err? ==> ParseEntries(s, depth) == Err)
            && (r.Ok? && r.rest == "," + more ==>
                  ParseEntries(s, depth) == match next case Ok(es, rest) => Ok([r.value] + es, rest) case Err => Err)
            && (r.Ok? && r.rest == "}" + more ==> ParseEntries(s, depth) == Ok([r.value], more))
  {
    hide ParseEntry, IsSpace;
    assert !IsSpace(',') && !IsSpace('}') by { Closers(); }
    SkipNothing("," + more);
    SkipNothing("}" + more);
    assert ("," + more)[1..] == more && ("}" + more)[1..] == more;
  }

  lemma PrintEntriesStep(es: seq<Entry>, tail: string)
    requires es != [] && (forall i :: 0 <= i < |es| ==> Exact(es[i].value))
    ensures |es| == 1 ==> PrintEntries(es) + tail == PrintEntry(es[0]) + tail && DepthIn(es) == Depth(es[0].value)
    ensures |es| > 1 ==> PrintEntries(es) + tail == PrintEntry(es[0]) + ("," + (PrintEntries(es[1..]) + tail))
    ensures |es| > 1 ==> DepthIn(es) == Max(Depth(es[0].value), DepthIn(es[1..]))
  {
    hide PrintEntry, Depth;
    if |es| == 1 {
      assert es[1..] == [];
    } else {
      Assoc(PrintEntry(es[0]), ",", PrintEntries(es[1..]), tail);
    }
  }

  lemma {:induction false} EntriesRoundTrip(es: seq<Entry>, tail: string, depth: nat)
    requires es != [] && (forall i :: 0 <= i < |es| ==> Exact(es[i].value)) && depth <= MAX_DEPTH
    ensures ParseEntries(PrintEntries(es) + ("}" + tail), depth) == Expected(es, depth, DepthIn(es), tail)
    decreases es, 1
  {
    hide Exact, PrintEntry, PrintEntries, Depth, DepthIn, ParseEntries, ParseEntry;
    var e := es[0];
    PrintEntriesStep(es, "}" + tail);
    if |es| == 1 {
      EntryRoundTrip(e, "}" + tail, depth);
      ParseEntriesStep(PrintEntry(e) + ("}" + tail), depth, tail);
      assert es == [e];
    } else {
      var more := PrintEntries(es[1..]) + ("}" + tail);
      EntryRoundTrip(e, "," + more, depth);
      EntriesRoundTrip(es[1..], tail, depth);
      ParseEntriesStep(PrintEntry(e) + ("," + more), depth, more);
      assert es == [e] + es[1..];
    }
  }

  /**
    Printing loses nothing: the text of a value parses back to that very value exactly
    when it is nested at most 64 deep, and is refused otherwise.
  */
  lemma RoundTrip(v: Value)
    requires Exact(v)
    ensures Parse(Print(v)) == if Depth(v) <= MAX_DEPTH then Ok(v, []) else Err
  {
    FirstOf(v);
    SkipNothing(Print(v));
    assert Print(v) + [] == Print(v);
    ValueRoundTrip(v, [], 0);
    SkipNothing([]);
  }

  /** Different values never print alike. */
  lemma PrintIsInjective(v: Value, w: Value)
    requires Exact(v) && Exact(w) && Depth(v) <= MAX_DEPTH && Print(v) == Print(w)
    ensures v == w
  {
    RoundTrip(v);
    RoundTrip(w);
  }
}
