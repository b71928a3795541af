/**
  One chunk of a bitmap: a sorted list of 16-bit values while there are few, 1024
  words of bits once there are many. Every operation acts on the set of values the
  chunk stands for, whichever form it is in.
*/
module Containers {
  import opened Words

  const WORDS := 1024
  const THRESHOLD := 4096
  const SPAN := 65536

  datatype Form = Sparse(lows: seq<nat>) | Dense(words: seq<word>)

  ghost predicate Ascending(v: seq<nat>) {
    forall i, j :: 0 <= i < j < |v| ==> v[i] < v[j]
  }

  ghost predicate InSpan(v: seq<nat>) {
    forall i :: 0 <= i < |v| ==> v[i] < SPAN
  }

  /** A list is sorted without repeats and at most 4096 long; a bitset has all its words. */
  ghost predicate FormOk(f: Form) {
    match f
    case Sparse(v) => Ascending(v) && InSpan(v) && |v| <= THRESHOLD
    case Dense(words) => |words| == WORDS
  }

  predicate IsSet(words: seq<word>, low: nat)
    requires |words| == WORDS && low < SPAN
  {
    Bit(words[low / 64], low % 64)
  }

  ghost function Members(v: seq<nat>): set<nat> { set x | x in v }

  /** The set of values a chunk stands for. */
  ghost function Elems(f: Form): set<nat>
    requires FormOk(f)
  {
    match f
    case Sparse(v) => Members(v)
    case Dense(words) => set low: nat | low < SPAN && IsSet(words, low)
  }

  // ---------- lists ----------

  /** Binary search: the first position not below `low`. */
  function Position(v: seq<nat>, low: nat): (p: nat)
    ensures p <= |v|
    ensures forall i :: 0 <= i < p ==> v[i] < low
    ensures p < |v| ==> v[p] >= low
  {
    if v == [] || v[0] >= low then 0 else 1 + Position(v[1..], low)
  }

  predicate FoundAt(v: seq<nat>, low: nat) {
    Position(v, low) < |v| && v[Position(v, low)] == low
  }

  lemma FoundIsMember(v: seq<nat>, low: nat)
    requires Ascending(v)
    ensures FoundAt(v, low) <==> low in v
  {
    hide Position;
    var p := Position(v, low);
    if low in v {
      var i :| 0 <= i < |v| && v[i] == low;
      assert p <= i;
    }
  }

  lemma InsertedList(v: seq<nat>, low: nat)
    requires Ascending(v) && InSpan(v) && low < SPAN && !FoundAt(v, low)
    ensures var p := Position(v, low);
            var v' := v[..p] + [low] + v[p..];
            Ascending(v') && InSpan(v') && |v'| == |v| + 1 && forall x :: x in v' <==> x == low || x in v
  {
    hide Position, InSpan;
    PlacedList(v, low, Position(v, low));
  }

  /** A value put where everything before is less and everything from there on is more. */
  lemma PlacedList(v: seq<nat>, low: nat, p: nat)
    requires Ascending(v) && InSpan(v) && low < SPAN && p <= |v|
    requires (forall i :: 0 <= i < p ==> v[i] < low) && (p < |v| ==> v[p] > low)
    ensures var v' := v[..p] + [low] + v[p..];
            Ascending(v') && InSpan(v') && forall x :: x in v' <==> x == low || x in v
  {
    var v' := v[..p] + [low] + v[p..];
    assert forall i :: p <= i < |v| ==> v[i] > low;
    assert forall i :: 0 <= i < |v'| ==> v'[i] == (if i < p then v[i] else if i == p then low else v[i - 1]);
    forall x | x == low || x in v ensures x in v' {
      if x == low {
        assert v'[p] == low;
      } else {
        var i :| 0 <= i < |v| && v[i] == x;
        assert v'[if i < p then i else i + 1] == x;
      }
    }
  }

  lemma RemovedList(v: seq<nat>, p: nat)
    requires Ascending(v) && InSpan(v) && p < |v|
    ensures var v' := v[..p] + v[p + 1..];
            Ascending(v') && InSpan(v') && |v'| == |v| - 1 && forall x :: x in v' <==> x in v && x != v[p]
  {
    var v' := v[..p] + v[p + 1..];
    forall x | x in v && x != v[p] ensures x in v' {
      var i :| 0 <= i < |v| && v[i] == x;
      assert v'[if i < p then i else i - 1] == x;
    }
  }

  lemma AscendingSnoc(v: seq<nat>, x: nat)
    requires Ascending(v) && InSpan(v) && x < SPAN && forall y :: y in v ==> y < x
    ensures Ascending(v + [x]) && InSpan(v + [x])
  {
    forall i | 0 <= i < |v| ensures v[i] < x {
      assert v[i] in v;
    }
  }

  lemma AscendingInit(v: seq<nat>)
    requires v != [] && Ascending(v)
    ensures Ascending(v[..|v| - 1]) && v[|v| - 1] !in v[..|v| - 1]
    ensures Members(v) == Members(v[..|v| - 1]) + {v[|v| - 1]}
  {
    assert v == v[..|v| - 1] + [v[|v| - 1]];
  }

  lemma {:induction false} AscendingSize(v: seq<nat>)
    requires Ascending(v)
    ensures |Members(v)| == |v|
  {
    if v != [] {
      hide Ascending;
      AscendingInit(v);
      AscendingSize(v[..|v| - 1]);
      assert v[|v| - 1] !in Members(v[..|v| - 1]);
    }
  }

  // ---------- bitsets ----------

  /** The values below `n` whose bits are set, in order. */
  ghost function Listed(words: seq<word>, n: nat): seq<nat>
    requires |words| == WORDS && n <= SPAN
  {
    if n == 0 then [] else Listed(words, n - 1) + if IsSet(words, n - 1) then [n - 1] else []
  }

  lemma {:induction false} ListedExactly(words: seq<word>, n: nat)
    requires |words| == WORDS && n <= SPAN
    ensures Ascending(Listed(words, n)) && InSpan(Listed(words, n))
    ensures forall x: nat :: x in Listed(words, n) <==> x < n && IsSet(words, x)
  {
    hide IsSet, Listed, Ascending, InSpan;
    if n == 0 {
      ListedNone(words);
    } else {
      ListedExactly(words, n - 1);
      ListedUnfolds(words, n);
      var init := Listed(words, n - 1);
      if IsSet(words, n - 1) {
        AscendingSnoc(init, n - 1);
        assert Listed(words, n) == init + [n - 1];
      } else {
        assert Listed(words, n) == init;
      }
    }
  }

  lemma ListedNone(words: seq<word>)
    requires |words| == WORDS
    ensures Listed(words, 0) == [] && Ascending([]) && InSpan([])
  {
  }

  lemma ListedUnfolds(words: seq<word>, n: nat)
    requires |words| == WORDS && 0 < n <= SPAN
    ensures Listed(words, n) == Listed(words, n - 1) + if IsSet(words, n - 1) then [n - 1] else []
  {
  }

  /** Counting ones word by word counts the values. */
  lemma {:induction false} CountedWord(words: seq<word>, i: nat, b: nat)
    requires |words| == WORDS && i < WORDS && b <= 64
    ensures |Listed(words, 64 * i + b)| == |Listed(words, 64 * i)| + Ones(words[i], b)
  {
    hide Bit;
    if b > 0 {
      CountedWord(words, i, b - 1);
      assert (64 * i + b - 1) / 64 == i && (64 * i + b - 1) % 64 == b - 1;
    }
  }

  lemma DenseSize(words: seq<word>)
    requires |words| == WORDS
    ensures |Elems(Dense(words))| == |Listed(words, SPAN)|
    ensures Elems(Dense(words)) == Members(Listed(words, SPAN))
  {
    ListedExactly(words, SPAN);
    AscendingSize(Listed(words, SPAN));
    hide IsSet, Listed;
    assert Elems(Dense(words)) == Members(Listed(words, SPAN));
  }

  method CountOnes(words: seq<word>) returns (n: nat)
    requires |words| == WORDS
    ensures n == |Elems(Dense(words))|
  {
    hide IsSet, Ones;
    n := 0;
    for i := 0 to WORDS
      invariant n == |Listed(words, 64 * i)|
    {
      CountedWord(words, i, 64);
      n := n + Ones(words[i], 64);
    }
    DenseSize(words);
  }

  /** Setting the bit of one value adds that value. */
  lemma SetOne(words: seq<word>, low: nat)
    requires |words| == WORDS && low < SPAN
    ensures var words' := words[low / 64 := SetBit(words[low / 64], low % 64)];
            forall x: nat :: x < SPAN ==> (IsSet(words', x) <==> x == low || IsSet(words, x))
  {
    var words' := words[low / 64 := SetBit(words[low / 64], low % 64)];
    forall x: nat | x < SPAN ensures IsSet(words', x) <==> x == low || IsSet(words, x) {
      hide Bit, SetBit;
      MaskBit(words[low / 64], low % 64, x % 64);
      if x / 64 == low / 64 && x % 64 == low % 64 { assert x == low; }
    }
  }

  lemma ClearOne(words: seq<word>, low: nat)
    requires |words| == WORDS && low < SPAN
    ensures var words' := words[low / 64 := ClearBit(words[low / 64], low % 64)];
            forall x: nat :: x < SPAN ==> (IsSet(words', x) <==> x != low && IsSet(words, x))
  {
    var words' := words[low / 64 := ClearBit(words[low / 64], low % 64)];
    forall x: nat | x < SPAN ensures IsSet(words', x) <==> x != low && IsSet(words, x) {
      hide Bit, ClearBit;
      MaskBit(words[low / 64], low % 64, x % 64);
      if x / 64 == low / 64 && x % 64 == low % 64 { assert x == low; }
    }
  }

  lemma TestOne(words: seq<word>, low: nat)
    requires |words| == WORDS && low < SPAN
    ensures IsSet(words, low) <==> TestBit(words[low / 64], low % 64)
  {
    hide Bit, TestBit, SetBit, ClearBit;
    MaskBit(words[low / 64], low % 64, low % 64);
  }

  function Zeroed(): (words: seq<word>)
    ensures |words| == WORDS
  {
    seq(WORDS, _ => 0)
  }

  lemma ZeroedEmpty()
    ensures forall x: nat :: x < SPAN ==> !IsSet(Zeroed(), x)
  {
    forall x: nat | x < SPAN ensures !IsSet(Zeroed(), x) {
      hide Bit;
      OrBit(0, 0, x % 64);
    }
  }

  /** Sets the bits of a list of values. */
  method SetAll(words: seq<word>, v: seq<nat>) returns (out: seq<word>)
    requires |words| == WORDS && InSpan(v)
    ensures |out| == WORDS
    ensures forall x: nat :: x < SPAN ==> (IsSet(out, x) <==> x in v || IsSet(words, x))
  {
    hide IsSet, SetBit;
    out := words;
    for i := 0 to |v|
      invariant |out| == WORDS
      invariant forall x: nat :: x < SPAN ==> (IsSet(out, x) <==> x in v[..i] || IsSet(words, x))
    {
      SetOne(out, v[i]);
      assert v[..i + 1] == v[..i] + [v[i]];
      out := out[v[i] / 64 := SetBit(out[v[i] / 64], v[i] % 64)];
    }
    assert v[..|v|] == v;
  }

  method OrWords(words: seq<word>, more: seq<word>) returns (out: seq<word>)
    requires |words| == WORDS && |more| == WORDS
    ensures |out| == WORDS
    ensures forall x: nat :: x < SPAN ==> (IsSet(out, x) <==> IsSet(more, x) || IsSet(words, x))
  {
    hide IsSet, Or;
    out := words;
    for i := 0 to WORDS
      invariant |out| == WORDS
      invariant forall j :: 0 <= j < i ==> out[j] == Or(words[j], more[j])
      invariant forall j :: i <= j < WORDS ==> out[j] == words[j]
    {
      out := out[i := Or(out[i], more[i])];
    }
    OrSets(words, more, out);
  }

  lemma OrSets(words: seq<word>, more: seq<word>, out: seq<word>)
    requires |words| == |more| == |out| == WORDS && forall i :: 0 <= i < WORDS ==> out[i] == Or(words[i], more[i])
    ensures forall x: nat :: x < SPAN ==> (IsSet(out, x) <==> IsSet(more, x) || IsSet(words, x))
  {
    hide Bit, Or;
    forall x: nat | x < SPAN ensures IsSet(out, x) <==> IsSet(more, x) || IsSet(words, x) {
      OrBit(words[x / 64], more[x / 64], x % 64);
    }
  }

  // ---------- reading a chunk ----------

  method Length(f: Form) returns (n: nat)
    requires FormOk(f)
    ensures n == |Elems(f)|
  {
    match f
    case Sparse(v) =>
      AscendingSize(v);
      n := |v|;
    case Dense(words) =>
      n := CountOnes(words);
  }

  method Has(f: Form, low: nat) returns (found: bool)
    requires FormOk(f) && low < SPAN
    ensures found == (low in Elems(f))
  {
    match f
    case Sparse(v) =>
      hide Position, FoundAt;
      FoundIsMember(v, low);
      found := FoundAt(v, low);
    case Dense(words) =>
      TestOne(words, low);
      hide IsSet;
      found := TestBit(words[low / 64], low % 64);
  }

  /** The values in ascending order. */
  method Items(f: Form) returns (out: seq<nat>)
    requires FormOk(f)
    ensures Ascending(out) && InSpan(out) && (forall x :: x in out <==> x in Elems(f))
    ensures |out| == |Elems(f)|
  {
    match f
    case Sparse(v) =>
      AscendingSize(v);
      out := v;
    case Dense(words) =>
      out := DenseItems(words);
      ListedExactly(words, SPAN);
      DenseSize(words);
      hide IsSet, Listed;
  }

  method DenseItems(words: seq<word>) returns (out: seq<nat>)
    requires |words| == WORDS
    ensures out == Listed(words, SPAN)
  {
    hide IsSet, TestBit, Listed;
    out := [];
    ListedNone(words);
    for w := 0 to WORDS
      invariant out == Listed(words, 64 * w)
    {
      for b := 0 to 64
        invariant out == Listed(words, 64 * w + b)
      {
        assert (64 * w + b) / 64 == w && (64 * w + b) % 64 == b;
        TestOne(words, 64 * w + b);
        ListedUnfolds(words, 64 * w + b + 1);
        if TestBit(words[w], b) {
          out := out + [w * 64 + b];
        }
      }
    }
  }

  // ---------- changing a chunk in place ----------

  class Container {
    var form: Form

    ghost predicate Valid()
      reads this
    {
      FormOk(form)
    }

    ghost function Values(): set<nat>
      requires Valid()
      reads this
    {
      Elems(form)
    }

    constructor (form: Form)
      requires FormOk(form)
      ensures this.form == form && Valid()
    {
      this.form := form;
    }

    constructor Empty()
      ensures form == Sparse([]) && Valid() && Values() == {}
    {
      form := Sparse([]);
    }

    /** Adds `low`, promoting the list to a bitset when it grows past the threshold. */
    method Insert(low: nat) returns (added: bool)
      requires Valid() && low < SPAN
      modifies this
      ensures Valid() && Values() == old(Values()) + {low} && added == (low !in old(Values()))
    {
      match form
      case Sparse(v) =>
        added := InsertSparse(v, low);
      case Dense(words) =>
        added := InsertDense(words, low);
    }

    method InsertSparse(v: seq<nat>, low: nat) returns (added: bool)
      requires Valid() && low < SPAN && form == Sparse(v)
      modifies this
      ensures Valid() && Values() == old(Values()) + {low} && added == (low !in old(Values()))
    {
      hide Position, FoundAt, IsSet;
      FoundIsMember(v, low);
      if FoundAt(v, low) {
        added := false;
      } else {
        InsertedList(v, low);
        var p := Position(v, low);
        var v' := v[..p] + [low] + v[p..];
        if |v'| > THRESHOLD {
          var words := SetAll(Zeroed(), v');
          ZeroedEmpty();
          form := Dense(words);
        } else {
          form := Sparse(v');
        }
        added := true;
      }
    }

    method InsertDense(words: seq<word>, low: nat) returns (added: bool)
      requires Valid() && low < SPAN && form == Dense(words)
      modifies this
      ensures Valid() && Values() == old(Values()) + {low} && added == (low !in old(Values()))
    {
      hide IsSet, SetBit, TestBit;
      SetOne(words, low);
      TestOne(words, low);
      added := !TestBit(words[low / 64], low % 64);
      form := Dense(words[low / 64 := SetBit(words[low / 64], low % 64)]);
    }

    /** Removes `low`; a bitset stays a bitset however few values are left. */
    method Remove(low: nat) returns (removed: bool)
      requires Valid() && low < SPAN
      modifies this
      ensures Valid() && Values() == old(Values()) - {low} && removed == (low in old(Values()))
      ensures form.Sparse? == old(form).Sparse?
    {
      match form
      case Sparse(v) =>
        hide Position, FoundAt;
        FoundIsMember(v, low);
        removed := FoundAt(v, low);
        if removed {
          FoundInside(v, low);
          var p := Position(v, low);
          RemovedList(v, p);
          form := Sparse(v[..p] + v[p + 1..]);
        }
      case Dense(words) =>
        removed := RemoveDense(words, low);
    }

    method RemoveDense(words: seq<word>, low: nat) returns (removed: bool)
      requires Valid() && low < SPAN && form == Dense(words)
      modifies this
      ensures Valid() && Values() == old(Values()) - {low} && removed == (low in old(Values())) && form.Dense?
    {
      hide IsSet, ClearBit, TestBit;
      ClearOne(words, low);
      TestOne(words, low);
      removed := TestBit(words[low / 64], low % 64);
      form := Dense(words[low / 64 := ClearBit(words[low / 64], low % 64)]);
    }
  }

  lemma FoundInside(v: seq<nat>, low: nat)
    requires FoundAt(v, low)
    ensures Position(v, low) < |v| && v[Position(v, low)] == low
  {
  }

  // ---------- combining chunks ----------

  method OrInto(f: Form, bits: seq<word>) returns (out: seq<word>)
    requires FormOk(f) && |bits| == WORDS
    ensures |out| == WORDS && Elems(Dense(out)) == Elems(Dense(bits)) + Elems(f)
  {
    hide IsSet;
    match f
    case Sparse(v) =>
      out := SetAll(bits, v);
    case Dense(words) =>
      out := OrWords(bits, words);
  }

  /** A bitset with few values becomes a list again; the values stay. */
  method ShrinkIfSparse(words: seq<word>) returns (f: Form)
    requires |words| == WORDS
    ensures FormOk(f) && Elems(f) == Elems(Dense(words))
    ensures f.Sparse? <==> |Elems(f)| <= THRESHOLD
  {
    hide IsSet;
    var count := CountOnes(words);
    if count <= THRESHOLD {
      var lows := Items(Dense(words));
      f := Sparse(lows);
      assert Elems(f) == Elems(Dense(words));
    } else {
      f := Dense(words);
    }
  }

  method Union(a: Form, b: Form) returns (f: Form)
    requires FormOk(a) && FormOk(b)
    ensures FormOk(f) && Elems(f) == Elems(a) + Elems(b)
    ensures f.Sparse? <==> |Elems(f)| <= THRESHOLD
  {
    hide IsSet;
    ZeroedEmpty();
    var bits := OrInto(a, Zeroed());
    bits := OrInto(b, bits);
    f := ShrinkIfSparse(bits);
  }

  /** Keeps the values of `items` that are, or are not, in `other`. */
  method Filter(items: seq<nat>, other: Form, wanted: bool) returns (f: Form)
    requires InSpan(items) && FormOk(other)
    ensures FormOk(f) && Elems(f) == set x | x in items && (x in Elems(other)) == wanted
  {
    hide Elems, FormOk;
    var out := new Container.Empty();
    for i := 0 to |items|
      invariant out.Valid()
      invariant out.Values() == set x | x in items[..i] && (x in Elems(other)) == wanted
    {
      assert items[..i + 1] == items[..i] + [items[i]];
      var found := Has(other, items[i]);
      if found == wanted {
        var _ := out.Insert(items[i]);
      }
    }
    assert items[..|items|] == items;
    f := out.form;
  }

  method Intersect(a: Form, b: Form) returns (f: Form)
    requires FormOk(a) && FormOk(b)
    ensures FormOk(f) && Elems(f) == Elems(a) * Elems(b)
  {
    hide Elems, FormOk;
    var n := Length(a);
    var m := Length(b);
    var small, large := if n <= m then a else b, if n <= m then b else a;
    var items := Items(small);
    f := Filter(items, large, true);
  }

  method Difference(a: Form, b: Form) returns (f: Form)
    requires FormOk(a) && FormOk(b)
    ensures FormOk(f) && Elems(f) == Elems(a) - Elems(b)
  {
    hide Elems, FormOk;
    var items := Items(a);
    f := Filter(items, b, false);
  }
}
