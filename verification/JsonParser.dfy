/**
  The parser as it runs: a cursor over the characters and a nesting counter, moved by
  mutually recursive methods. Each is proved to return what the function of the same
  name in `Json` says, to stop where it says, and to leave the counter as it found it.
*/
module JsonParser {
  import opened Json

  datatype Result<+T> = Success(value: T) | Failure

  class Parser {
    const src: string
    var pos: nat
    var depth: nat

    predicate InText()
      reads this
    {
      pos <= |src|
    }

    /** The characters not yet consumed. */
    function Ahead(): string
      requires InText()
      reads this
    {
      src[pos..]
    }

    /** The method returned what `p` says and stopped where it says. */
    ghost predicate Left<T>(p: Parsed<T>, r: Result<T>)
      reads this
    {
      && InText()
      && match p
         case Err => r.Failure?
         case Ok(v, rest) => r == Success(v) && Ahead() == rest
    }

    constructor (src: string)
      ensures this.src == src && pos == 0 && depth == 0
    {
      this.src := src;
      pos, depth := 0, 0;
    }

    predicate Peeks(c: char)
      requires InText()
      reads this
      ensures Peeks(c) <==> At(Ahead(), c)
    {
      pos < |src| && src[pos] == c
    }

    /** Consumes one character. */
    method Next() returns (c: Result<char>)
      requires InText()
      modifies this`pos
      ensures InText() && pos >= old(pos)
      ensures old(Ahead()) == [] ==> c.Failure? && pos == old(pos)
      ensures old(Ahead()) != [] ==> c == Success(old(Ahead())[0]) && Ahead() == old(Ahead())[1..] && pos == old(pos) + 1
    {
      if pos == |src| {
        return Failure;
      }
      c := Success(src[pos]);
      assert src[pos..][1..] == src[pos + 1..];
      pos := pos + 1;
    }

    method SkipWhitespace()
      requires InText()
      modifies this`pos
      ensures InText() && pos >= old(pos) && Ahead() == SkipSpace(old(Ahead()))
    {
      while pos < |src| && IsSpace(src[pos])
        invariant InText() && pos >= old(pos)
        invariant SkipSpace(Ahead()) == SkipSpace(old(Ahead()))
      {
        var _ := Next();
      }
    }

    method Expect(c: char) returns (ok: bool)
      requires InText()
      modifies this`pos
      ensures InText() && pos >= old(pos) && ok == At(old(Ahead()), c)
      ensures ok ==> Ahead() == old(Ahead())[1..] && pos == old(pos) + 1
    {
      var got := Next();
      ok := got == Success(c);
    }

    method ExpectLiteral<T>(word: string, value: T) returns (r: Result<T>)
      requires InText()
      modifies this`pos
      ensures pos >= old(pos) && Left(ParseLiteral(old(Ahead()), word, value), r)
    {
      assert word[0..] == word;
      for i := 0 to |word|
        invariant InText() && pos >= old(pos)
        invariant ParseLiteral(Ahead(), word[i..], value) == ParseLiteral(old(Ahead()), word, value)
      {
        assert word[i..][1..] == word[i + 1..];
        var ok := Expect(word[i]);
        if !ok {
          return Failure;
        }
      }
      r := Success(value);
    }

    // ---------- strings ----------

    method ParseUnicodeEscape() returns (r: Result<char>)
      requires InText()
      modifies this`pos
      ensures pos >= old(pos) && Left(ParseUnicode(old(Ahead())), r)
    {
      var hex := "";
      for i := 0 to 4
        invariant InText() && pos >= old(pos) && i <= |old(Ahead())|
        invariant hex == old(Ahead())[..i] && Ahead() == old(Ahead())[i..]
      {
        var c := Next();
        if c.Failure? {
          return Failure;
        }
        hex := hex + [c.value];
      }
      var code := HexOf(hex);
      if code.Err? || !IsScalar(code.value) {
        return Failure;
      }
      r := Success(code.value as char);
    }

    method ParseEscape() returns (r: Result<char>)
      requires InText()
      modifies this`pos
      ensures pos >= old(pos) && Left(Json.ParseEscape(old(Ahead())), r)
    {
      var c := Next();
      if c.Failure? {
        return Failure;
      }
      match c.value
      case '"' => r := Success('"');
      case '\\' => r := Success('\\');
      case '/' => r := Success('/');
      case 'b' => r := Success('\U{8}');
      case 'f' => r := Success('\U{C}');
      case 'n' => r := Success('\n');
      case 'r' => r := Success('\r');
      case 't' => r := Success('\t');
      case 'u' => r := ParseUnicodeEscape();
      case _ => r := Failure;
    }

    method ParseString() returns (r: Result<string>)
      requires InText()
      modifies this`pos
      ensures pos >= old(pos) && Left(Json.ParseString(old(Ahead())), r)
    {
      hide Json.ParseEscape;
      var quoted := Expect('"');
      if !quoted {
        return Failure;
      }
      ghost var goal := ParseChars(Ahead());
      var s := "";
      assert forall m: string :: [] + m == m;
      while true
        invariant InText() && pos >= old(pos)
        invariant goal == Prefixed(s, ParseChars(Ahead()))
        decreases |src| - pos
      {
        ghost var before := Ahead();
        var c := Next();
        if c.Failure? {
          return Failure;
        }
        if c.value == '"' {
          assert s + [] == s;
          return Success(s);
        }
        var one := c;
        if c.value == '\\' {
          one := ParseEscape();
          if one.Failure? {
            return Failure;
          }
        }
        PrefixedStep(s, one.value, ParseChars(Ahead()));
        s := s + [one.value];
      }
    }

    // ---------- numbers ----------

    method TakeDigits() returns (d: string)
      requires InText()
      modifies this`pos
      ensures InText() && pos >= old(pos)
      ensures d == DigitsOf(old(Ahead())) && Ahead() == old(Ahead())[|d|..]
    {
      hide DigitsOf, IsDigit;
      d := "";
      ghost var s := Ahead();
      DigitsOn(d, s);
      while pos < |src| && IsDigit(src[pos])
        invariant InText() && pos == old(pos) + |d| && |d| <= |s| && Ahead() == s[|d|..]
        invariant DigitsOf(s) == d + DigitsOf(s[|d|..])
        invariant DigitsOf(s[|d|..]) == [] <==> |d| == |s| || !IsDigit(s[|d|])
      {
        ghost var before := d;
        assert s[|d|] == src[pos];
        var c := Next();
        d := d + [c.value];
        assert d[..|d| - 1] == before;
        DigitsOn(d, s);
      }
      assert d + [] == d;
    }

    /** The mark of an exponent with its sign, if one comes next. */
    method TakeMark() returns (mark: string)
      requires InText()
      modifies this`pos
      ensures InText() && pos >= old(pos) && |mark| <= |old(Ahead())| && Ahead() == old(Ahead())[|mark|..]
      ensures var s := old(Ahead());
              mark == if !(At(s, 'e') || At(s, 'E')) then []
                      else if |s| > 1 && (s[1] == '+' || s[1] == '-') then s[..2] else s[..1]
    {
      mark := "";
      ghost var s := Ahead();
      if Peeks('e') || Peeks('E') {
        var c := Next();
        mark := [c.value];
        if Peeks('+') || Peeks('-') {
          c := Next();
          mark := mark + [c.value];
        }
      }
    }

    method ParseNumber() returns (r: Result<Num>)
      requires InText()
      modifies this`pos
      ensures pos >= old(pos) && Left(Json.ParseNumber(old(Ahead())), r)
    {
      hide Scan, NumOf;
      var n := ScanNumber();
      r := if Accepted(n) then Success(NumOf(n)) else Failure;
    }

    method ScanNumber() returns (n: Numeral)
      requires InText()
      modifies this`pos
      ensures InText() && pos >= old(pos) && (n, Ahead()) == Scan(old(Ahead()))
      ensures forall i :: 0 <= i < |n.whole| ==> IsDigit(n.whole[i])
    {
      hide DigitsOf, IsDigit;
      var negative := Peeks('-');
      if negative {
        var _ := Next();
      }
      var whole := TakeDigits();
      var point, fraction := TakeFraction();
      var mark, power := TakeExponent();
      n := Numeral(negative, whole, point, fraction, mark, power);
    }

    method TakeFraction() returns (point: bool, fraction: string)
      requires InText()
      modifies this`pos
      ensures InText() && pos >= old(pos)
      ensures var s := old(Ahead());
              var s1 := if At(s, '.') then s[1..] else s;
              && point == At(s, '.') && fraction == (if point then DigitsOf(s1) else []) && |fraction| <= |s1|
              && Ahead() == s1[|fraction|..]
    {
      hide DigitsOf, IsDigit;
      point, fraction := Peeks('.'), "";
      if point {
        var _ := Next();
        fraction := TakeDigits();
      }
    }

    method TakeExponent() returns (mark: string, power: string)
      requires InText()
      modifies this`pos
      ensures InText() && pos >= old(pos)
      ensures var s := old(Ahead());
              && mark == (if !(At(s, 'e') || At(s, 'E')) then []
                          else if |s| > 1 && (s[1] == '+' || s[1] == '-') then s[..2] else s[..1])
              && power == (if mark == [] then [] else DigitsOf(s[|mark|..])) && |mark| + |power| <= |s|
              && Ahead() == s[|mark|..][|power|..]
    {
      hide DigitsOf, IsDigit;
      power := "";
      mark := TakeMark();
      if mark != [] {
        power := TakeDigits();
      }
    }

    // ---------- values ----------

    method ParseValue() returns (r: Result<Value>)
      requires InText()
      modifies this
      ensures depth == old(depth) && pos >= old(pos) && Left(Json.ParseValue(old(Ahead()), depth), r)
      decreases |src| - pos, 2
    {
      hide Json.ParseArray, Json.ParseObject, Json.ParseString, Json.ParseNumber, ParseLiteral;
      SkipWhitespace();
      if Peeks('{') {
        r := ParseObject();
      } else if Peeks('[') {
        r := ParseArray();
      } else if Peeks('"') {
        var s := ParseString();
        r := if s.Success? then Success(String(s.value)) else Failure;
      } else if Peeks('t') {
        r := ExpectLiteral("true", Bool(true));
      } else if Peeks('f') {
        r := ExpectLiteral("false", Bool(false));
      } else if Peeks('n') {
        r := ExpectLiteral("null", Null);
      } else if Peeks('-') || (pos < |src| && IsDigit(src[pos])) {
        var n := ParseNumber();
        r := if n.Success? then Success(Number(n.value)) else Failure;
      } else {
        r := Failure;
      }
    }

    method ParseArray() returns (r: Result<Value>)
      requires InText() && At(Ahead(), '[')
      modifies this
      ensures depth == old(depth) && pos >= old(pos) && Left(Json.ParseArray(old(Ahead()), depth), r)
      decreases |src| - pos, 1
    {
      depth := depth + 1;
      if depth > MAX_DEPTH {
        depth := depth - 1;
        return Failure;
      }
      r := ArrayBody();
      depth := depth - 1;
    }

    method ArrayBody() returns (r: Result<Value>)
      requires InText() && At(Ahead(), '[') && 1 <= depth <= MAX_DEPTH
      modifies this
      ensures depth == old(depth) && pos >= old(pos) && Left(Json.ParseArray(old(Ahead()), depth - 1), r)
      decreases |src| - pos, 0
    {
      hide Json.ParseValue, ParseItems;
      var _ := Expect('[');
      SkipWhitespace();
      if Peeks(']') {
        var _ := Next();
        return Success(Array([]));
      }
      ghost var start := Ahead();
      var items := [];
      NothingYet(ParseItems(start, depth));
      while true
        invariant InText() && pos > old(pos) && depth == old(depth)
        invariant ParseItems(start, depth) == Prefixed(items, ParseItems(Ahead(), depth))
        decreases |src| - pos
      {
        ghost var here := Ahead();
        var v := ParseValue();
        ItemsStep(here, depth);
        if v.Failure? {
          return Failure;
        }
        SkipWhitespace();
        var c := Next();
        PrefixedStep(items, v.value, ParseItems(Ahead(), depth));
        items := items + [v.value];
        if c == Success(']') {
          return Success(Array(items));
        }
        if c != Success(',') {
          return Failure;
        }
      }
    }

    method ParseObject() returns (r: Result<Value>)
      requires InText() && At(Ahead(), '{')
      modifies this
      ensures depth == old(depth) && pos >= old(pos) && Left(Json.ParseObject(old(Ahead()), depth), r)
      decreases |src| - pos, 1
    {
      depth := depth + 1;
      if depth > MAX_DEPTH {
        depth := depth - 1;
        return Failure;
      }
      r := ObjectBody();
      depth := depth - 1;
    }

    method ObjectBody() returns (r: Result<Value>)
      requires InText() && At(Ahead(), '{') && 1 <= depth <= MAX_DEPTH
      modifies this
      ensures depth == old(depth) && pos >= old(pos) && Left(Json.ParseObject(old(Ahead()), depth - 1), r)
      decreases |src| - pos, 0
    {
      hide Json.ParseValue, ParseEntries, Json.ParseEntry;
      var _ := Expect('{');
      SkipWhitespace();
      if Peeks('}') {
        var _ := Next();
        return Success(Object([]));
      }
      ghost var start := Ahead();
      var entries := [];
      NothingYet(ParseEntries(start, depth));
      while true
        invariant InText() && pos > old(pos) && depth == old(depth)
        invariant ParseEntries(start, depth) == Prefixed(entries, ParseEntries(Ahead(), depth))
        decreases |src| - pos
      {
        ghost var here := Ahead();
        var e := ParseEntry();
        EntriesStep(here, depth);
        if e.Failure? {
          return Failure;
        }
        SkipWhitespace();
        var c := Next();
        PrefixedStep(entries, e.value, ParseEntries(Ahead(), depth));
        entries := entries + [e.value];
        if c == Success('}') {
          return Success(Object(entries));
        }
        if c != Success(',') {
          return Failure;
        }
      }
    }

    method ParseEntry() returns (r: Result<Entry>)
      requires InText()
      modifies this
      ensures depth == old(depth) && pos >= old(pos) && Left(Json.ParseEntry(old(Ahead()), depth), r)
      decreases |src| - pos, 3
    {
      hide Json.ParseString, Json.ParseValue;
      SkipWhitespace();
      var key := ParseString();
      if key.Failure? {
        return Failure;
      }
      SkipWhitespace();
      var colon := Expect(':');
      if !colon {
        return Failure;
      }
      var v := ParseValue();
      r := if v.Success? then Success(Entry(key.value, v.value)) else Failure;
    }
  }

  /** Having read digits `d` off the front of `s`, what the next character says about the rest. */
  lemma DigitsOn(d: string, s: string)
    requires |d| <= |s|
    ensures d != [] && DigitsOf(s[|d| - 1..]) != [] && s[|d| - 1] == d[|d| - 1] ==>
              d[..|d| - 1] + DigitsOf(s[|d| - 1..]) == d + DigitsOf(s[|d|..])
    ensures DigitsOf(s[|d|..]) == [] <==> |d| == |s| || !IsDigit(s[|d|])
    ensures d == [] ==> DigitsOf(s) == d + DigitsOf(s[|d|..])
  {
    hide IsDigit;
    if d == [] {
      assert s[0..] == s && [] + DigitsOf(s) == DigitsOf(s);
    } else {
      var before := s[|d| - 1..];
      assert before[1..] == s[|d|..];
      assert d == d[..|d| - 1] + [d[|d| - 1]];
    }
  }

  /** What was collected so far, then what is still to come. */
  function Prefixed<T>(done: seq<T>, p: Parsed<seq<T>>): Parsed<seq<T>> {
    match p case Ok(more, rest) => Ok(done + more, rest) case Err => Err
  }

  lemma NothingYet<T>(p: Parsed<seq<T>>)
    ensures Prefixed([], p) == p
  {
    if p.Ok? { assert [] + p.value == p.value; }
  }

  lemma PrefixedStep<T>(done: seq<T>, x: T, p: Parsed<seq<T>>)
    ensures Prefixed(done, Prefixed([x], p)) == Prefixed(done + [x], p)
  {
    if p.Ok? { assert done + ([x] + p.value) == done + [x] + p.value; }
  }

  lemma ItemsStep(s: string, depth: nat)
    ensures match Json.ParseValue(s, depth)
            case Err => ParseItems(s, depth) == Err
            case Ok(v, s1) =>
              var s2 := SkipSpace(s1);
              ParseItems(s, depth) == if At(s2, ',') then Prefixed([v], ParseItems(s2[1..], depth))
                                      else if At(s2, ']') then Ok([v], s2[1..]) else Err
  {
    hide Json.ParseValue;
  }

  lemma EntriesStep(s: string, depth: nat)
    ensures match Json.ParseEntry(s, depth)
            case Err => ParseEntries(s, depth) == Err
            case Ok(e, s1) =>
              var s2 := SkipSpace(s1);
              ParseEntries(s, depth) == if At(s2, ',') then Prefixed([e], ParseEntries(s2[1..], depth))
                                        else if At(s2, '}') then Ok([e], s2[1..]) else Err
  {
    hide Json.ParseEntry;
  }

  /** The whole parser: every text is either refused or read as exactly the value `Parse` gives. */
  method ParseText(src: string) returns (r: Result<Value>)
    ensures r == match Parse(src) case Ok(v, _) => Success(v) case Err => Failure
  {
    hide Json.ParseValue;
    var parser := new Parser(src);
    assert parser.Ahead() == src;
    parser.SkipWhitespace();
    var v := parser.ParseValue();
    if v.Failure? {
      return Failure;
    }
    parser.SkipWhitespace();
    r := if parser.pos < |src| then Failure else v;
  }
}
