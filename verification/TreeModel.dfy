/**
  The tree as a value: what `insert`, `delete`, `get` and `scan_all` do to its
  shape and contents, and that they act on it as a finite sorted map.
*/
module TreeModel {
  import opened NodeCodec
  import opened Options

  datatype Tree = Leaf(entries: seq<Pair>) | Branch(keys: seq<Key>, children: seq<Tree>)

  /** How many entries a leaf and how many keys an internal node may hold. */
  datatype Caps = Caps(leaf: nat, branch: nat)

  predicate CapsOk(c: Caps) { c.leaf >= 1 && c.branch >= 1 }

  // ---------- sorted sequences of pairs ----------

  ghost predicate Ascending(es: seq<Pair>) {
    forall i, j :: 0 <= i < j < |es| ==> es[i].key < es[j].key
  }

  /** Binary search: the first position whose key is not below `k`. */
  function Search(es: seq<Pair>, k: Key): (p: nat)
    ensures p <= |es|
    ensures forall i :: 0 <= i < p ==> es[i].key < k
    ensures p < |es| ==> es[p].key >= k
  {
    if es == [] || es[0].key >= k then 0 else 1 + Search(es[1..], k)
  }

  predicate Found(es: seq<Pair>, k: Key) {
    Search(es, k) < |es| && es[Search(es, k)].key == k
  }

  function Put(es: seq<Pair>, k: Key, v: Value): seq<Pair> {
    var p := Search(es, k);
    if Found(es, k) then es[p := Pair(k, v)] else es[..p] + [Pair(k, v)] + es[p..]
  }

  function Drop(es: seq<Pair>, k: Key): seq<Pair> {
    var p := Search(es, k);
    if Found(es, k) then es[..p] + es[p + 1..] else es
  }

  function Find(es: seq<Pair>, k: Key): Option<Value> {
    if Found(es, k) then Some(es[Search(es, k)].value) else None
  }

  lemma FindFound(es: seq<Pair>, k: Key)
    ensures Find(es, k).Some? <==> Found(es, k)
  {
  }

  /** `partition_point` over separators: how many leading ones are at most `k`. */
  function Rank(ks: seq<Key>, k: Key): (r: nat)
    ensures r <= |ks|
    ensures forall i :: 0 <= i < r ==> ks[i] <= k
    ensures r < |ks| ==> ks[r] > k
  {
    if ks == [] || ks[0] > k then 0 else 1 + Rank(ks[1..], k)
  }

  // ---------- sequences as maps ----------

  function MapOf(es: seq<Pair>): map<Key, Value> {
    if es == [] then map[] else MapOf(es[1..])[es[0].key := es[0].value]
  }

  lemma {:induction false} MapOfKeys(es: seq<Pair>, k: Key)
    requires Ascending(es)
    ensures k in MapOf(es) <==> exists i :: 0 <= i < |es| && es[i].key == k
    ensures forall i :: 0 <= i < |es| && es[i].key == k ==> k in MapOf(es) && MapOf(es)[k] == es[i].value
  {
    if es != [] {
      MapOfKeys(es[1..], k);
      if k in MapOf(es[1..]) {
        var i :| 0 <= i < |es[1..]| && es[1..][i].key == k;
        assert es[i + 1].key == k;
      }
      forall i | 0 <= i < |es| && es[i].key == k ensures k in MapOf(es) && MapOf(es)[k] == es[i].value {
        if i > 0 {
          assert es[1..][i - 1].key == k;
          assert es[0].key < es[i].key;
        }
      }
    }
  }

  lemma PutAscending(es: seq<Pair>, k: Key, v: Value)
    requires Ascending(es)
    ensures Ascending(Put(es, k, v))
    ensures forall p :: p in Put(es, k, v) <==> p == Pair(k, v) || (p in es && p.key != k)
  {
    hide Search;
    var p := Search(es, k);
    var es' := Put(es, k, v);
    assert forall i :: p <= i < |es| ==> es[i].key >= k;
    if Found(es, k) {
      assert es'[p] == Pair(k, v);
      forall q | q in es && q.key != k ensures q in es' {
        var i :| 0 <= i < |es| && es[i] == q;
        assert es'[i] == q;
      }
    } else {
      assert es'[p] == Pair(k, v);
      forall q | q in es ensures q in es' {
        var i :| 0 <= i < |es| && es[i] == q;
        assert es'[if i < p then i else i + 1] == q;
      }
    }
  }

  lemma CutAscending(es: seq<Pair>, p: nat)
    requires Ascending(es) && p < |es|
    ensures Ascending(es[..p] + es[p + 1..])
    ensures forall q :: q in es[..p] + es[p + 1..] <==> q in es && q.key != es[p].key
  {
    var es' := es[..p] + es[p + 1..];
    forall q | q in es && q.key != es[p].key ensures q in es' {
      var i :| 0 <= i < |es| && es[i] == q;
      assert es'[if i < p then i else i - 1] == q;
    }
  }

  lemma DropAscending(es: seq<Pair>, k: Key)
    requires Ascending(es)
    ensures Ascending(Drop(es, k))
    ensures forall p :: p in Drop(es, k) <==> p in es && p.key != k
  {
    hide Search;
    var p := Search(es, k);
    if Found(es, k) {
      hide Ascending;
      CutAscending(es, p);
    } else {
      Absent(es, k);
      hide Ascending;
    }
  }

  lemma Absent(es: seq<Pair>, k: Key)
    requires Ascending(es) && !Found(es, k)
    ensures forall q :: q in es ==> q.key != k
  {
    hide Search;
    assert forall i :: Search(es, k) <= i < |es| ==> es[i].key > k;
  }

  /** The map's view of a pair. */
  lemma InMap(es: seq<Pair>, k: Key, v: Value)
    requires Ascending(es)
    ensures Pair(k, v) in es <==> k in MapOf(es) && MapOf(es)[k] == v
  {
    MapOfKeys(es, k);
    if k in MapOf(es) && MapOf(es)[k] == v {
      var i :| 0 <= i < |es| && es[i].key == k;
      assert es[i] == Pair(k, v);
    }
  }

  lemma SamePairsSameMap(es: seq<Pair>, m: map<Key, Value>)
    requires Ascending(es)
    requires forall k, v :: Pair(k, v) in es <==> k in m && m[k] == v
    ensures MapOf(es) == m
  {
    forall k ensures k in MapOf(es) <==> k in m
             ensures k in m ==> k in MapOf(es) && MapOf(es)[k] == m[k]
    {
      if k in m { InMap(es, k, m[k]); }
      if k in MapOf(es) { InMap(es, k, MapOf(es)[k]); }
    }
  }

  /** Putting a pair into a sorted sequence is updating the map it stands for. */
  lemma PutIsUpdate(es: seq<Pair>, k: Key, v: Value)
    requires Ascending(es)
    ensures Ascending(Put(es, k, v)) && MapOf(Put(es, k, v)) == MapOf(es)[k := v]
  {
    PutAscending(es, k, v);
    forall k', v' ensures Pair(k', v') in Put(es, k, v)
                          <==> k' in MapOf(es)[k := v] && MapOf(es)[k := v][k'] == v'
    {
      InMap(es, k', v');
    }
    SamePairsSameMap(Put(es, k, v), MapOf(es)[k := v]);
  }

  /** Dropping a key is removing it from the map. */
  lemma DropIsRemoval(es: seq<Pair>, k: Key)
    requires Ascending(es)
    ensures Ascending(Drop(es, k)) && MapOf(Drop(es, k)) == MapOf(es) - {k}
  {
    DropAscending(es, k);
    forall k', v' ensures Pair(k', v') in Drop(es, k) <==> k' in MapOf(es) - {k} && (MapOf(es) - {k})[k'] == v' {
      InMap(es, k', v');
    }
    SamePairsSameMap(Drop(es, k), MapOf(es) - {k});
  }

  /** Finding a key is looking it up in the map. */
  lemma FindIsLookup(es: seq<Pair>, k: Key)
    requires Ascending(es)
    ensures Find(es, k) == if k in MapOf(es) then Some(MapOf(es)[k]) else None
  {
    MapOfKeys(es, k);
    if k in MapOf(es) {
      var i :| 0 <= i < |es| && es[i].key == k;
      assert Search(es, k) <= i;
      assert Search(es, k) == i;
    }
  }

  // ---------- a neighbourhood decides ----------

  ghost predicate AllBelow(es: seq<Pair>, k: int) { forall i :: 0 <= i < |es| ==> es[i].key < k }

  ghost predicate AllFrom(es: seq<Pair>, k: int) { forall i :: 0 <= i < |es| ==> es[i].key >= k }

  lemma {:induction false} SearchBefore(b: seq<Pair>, c: seq<Pair>, k: Key)
    requires AllFrom(c, k + 1)
    ensures Search(b + c, k) == Search(b, k)
  {
    if b == [] {
      assert b + c == c;
    } else {
      assert (b + c)[1..] == b[1..] + c;
      SearchBefore(b[1..], c, k);
    }
  }

  lemma {:induction false} SearchAfter(a: seq<Pair>, b: seq<Pair>, k: Key)
    requires AllBelow(a, k)
    ensures Search(a + b, k) == |a| + Search(b, k)
  {
    if a == [] {
      assert a + b == b;
    } else {
      assert (a + b)[1..] == a[1..] + b;
      SearchAfter(a[1..], b, k);
    }
  }

  lemma SearchMiddle(a: seq<Pair>, b: seq<Pair>, c: seq<Pair>, k: Key)
    requires AllBelow(a, k) && AllFrom(c, k + 1)
    ensures Search(a + b + c, k) == |a| + Search(b, k)
  {
    SearchBefore(a + b, c, k);
    SearchAfter(a, b, k);
  }

  lemma FoundMiddle(a: seq<Pair>, b: seq<Pair>, c: seq<Pair>, k: Key)
    requires AllBelow(a, k) && AllFrom(c, k + 1)
    ensures Search(a + b + c, k) == |a| + Search(b, k)
    ensures Found(a + b + c, k) <==> Found(b, k)
    ensures Found(b, k) ==> (a + b + c)[|a| + Search(b, k)] == b[Search(b, k)]
  {
    SearchMiddle(a, b, c, k);
    var s, q := a + b + c, Search(b, k);
    if q < |b| {
      assert s[|a| + q] == b[q];
    } else if |a| + q < |s| {
      assert s[|a| + q] == c[0];
    }
  }

  lemma UpdateMiddle<T>(a: seq<T>, b: seq<T>, c: seq<T>, q: nat, x: T)
    requires q < |b|
    ensures (a + b + c)[|a| + q := x] == a + b[q := x] + c
    ensures (a + b + c)[..|a| + q] + (a + b + c)[|a| + q + 1..] == a + (b[..q] + b[q + 1..]) + c
  {
  }

  lemma InsertMiddle<T>(a: seq<T>, b: seq<T>, c: seq<T>, q: nat, x: T)
    requires q <= |b|
    ensures (a + b + c)[..|a| + q] + [x] + (a + b + c)[|a| + q..] == a + (b[..q] + [x] + b[q..]) + c
  {
  }

  lemma PutMiddle(a: seq<Pair>, b: seq<Pair>, c: seq<Pair>, k: Key, v: Value)
    requires AllBelow(a, k) && AllFrom(c, k + 1)
    ensures Put(a + b + c, k, v) == a + Put(b, k, v) + c
  {
    if Found(b, k) {
      ReplaceMiddle(a, b, c, k, v);
    } else {
      AddMiddle(a, b, c, k, v);
    }
  }

  lemma ReplaceMiddle(a: seq<Pair>, b: seq<Pair>, c: seq<Pair>, k: Key, v: Value)
    requires AllBelow(a, k) && AllFrom(c, k + 1) && Found(b, k)
    ensures Put(a + b + c, k, v) == a + Put(b, k, v) + c
  {
    FoundMiddle(a, b, c, k);
    FoundInside(b, k);
    hide Found, AllBelow, AllFrom, Search;
    UpdateMiddle(a, b, c, Search(b, k), Pair(k, v));
  }

  lemma AddMiddle(a: seq<Pair>, b: seq<Pair>, c: seq<Pair>, k: Key, v: Value)
    requires AllBelow(a, k) && AllFrom(c, k + 1) && !Found(b, k)
    ensures Put(a + b + c, k, v) == a + Put(b, k, v) + c
  {
    FoundMiddle(a, b, c, k);
    hide Found, AllBelow, AllFrom, Search;
    InsertMiddle(a, b, c, Search(b, k), Pair(k, v));
  }

  lemma FoundInside(es: seq<Pair>, k: Key)
    requires Found(es, k)
    ensures Search(es, k) < |es|
  {
  }

  lemma DropMiddle(a: seq<Pair>, b: seq<Pair>, c: seq<Pair>, k: Key)
    requires AllBelow(a, k) && AllFrom(c, k + 1)
    ensures Drop(a + b + c, k) == a + Drop(b, k) + c
    ensures Find(a + b + c, k) == Find(b, k)
  {
    if Found(b, k) {
      CutMiddle(a, b, c, k);
    } else {
      FoundMiddle(a, b, c, k);
      hide Found, AllBelow, AllFrom, Search;
    }
  }

  lemma CutMiddle(a: seq<Pair>, b: seq<Pair>, c: seq<Pair>, k: Key)
    requires AllBelow(a, k) && AllFrom(c, k + 1) && Found(b, k)
    ensures Drop(a + b + c, k) == a + Drop(b, k) + c
    ensures Find(a + b + c, k) == Find(b, k)
  {
    hide AllBelow, AllFrom, Search;
    FoundMiddle(a, b, c, k);
    FoundInside(b, k);
    var q, s := Search(b, k), a + b + c;
    UpdateMiddle(a, b, c, q, b[q]);
    assert Drop(s, k) == s[..|a| + q] + s[|a| + q + 1..];
    assert Drop(b, k) == b[..q] + b[q + 1..];
    hide Found, Drop;
  }

  // ---------- trees ----------

  function Flatten(t: Tree): seq<Pair> {
    match t
    case Leaf(es) => es
    case Branch(_, cs) => FlattenAll(cs)
  }

  function FlattenAll(cs: seq<Tree>): seq<Pair> {
    if cs == [] then [] else Flatten(cs[0]) + FlattenAll(cs[1..])
  }

  /** n keys with n + 1 children everywhere, and every leaf exactly `h` levels down. */
  ghost predicate Level(t: Tree, h: nat) {
    match t
    case Leaf(_) => h == 0
    case Branch(ks, cs) => h > 0 && |cs| == |ks| + 1 && forall i :: 0 <= i < |cs| ==> Level(cs[i], h - 1)
  }

  function Lower(ks: seq<Key>, lo: int, i: nat): int
    requires i <= |ks|
  {
    if i == 0 then lo else ks[i - 1]
  }

  function Upper(ks: seq<Key>, hi: int, i: nat): int
    requires i <= |ks|
  {
    if i == |ks| then hi else ks[i]
  }

  ghost predicate KeysBetween(ks: seq<Key>, lo: int, hi: int) {
    && (forall i, j :: 0 <= i < j < |ks| ==> ks[i] < ks[j])
    && (forall i :: 0 <= i < |ks| ==> lo < ks[i] < hi)
  }

  /** Node fill within capacity, and every key within the separators around it. */
  ghost predicate Proper(t: Tree, lo: int, hi: int, c: Caps) {
    match t
    case Leaf(es) => Ascending(es) && AllFrom(es, lo) && AllBelow(es, hi) && |es| <= c.leaf
    case Branch(ks, cs) =>
      && |cs| == |ks| + 1 && |ks| <= c.branch && KeysBetween(ks, lo, hi)
      && forall i :: 0 <= i < |cs| ==> Proper(cs[i], Lower(ks, lo, i), Upper(ks, hi, i), c)
  }

  /** The same of a row of subtrees, whatever its length. */
  ghost predicate Row(ks: seq<Key>, cs: seq<Tree>, lo: int, hi: int, c: Caps) {
    && |cs| == |ks| + 1 && KeysBetween(ks, lo, hi)
    && forall i :: 0 <= i < |cs| ==> Proper(cs[i], Lower(ks, lo, i), Upper(ks, hi, i), c)
  }

  // ---------- contents of a row ----------

  lemma {:induction false} FlattenConcat(a: seq<Tree>, b: seq<Tree>)
    ensures FlattenAll(a + b) == FlattenAll(a) + FlattenAll(b)
  {
    if a == [] {
      assert a + b == b;
    } else {
      assert (a + b)[1..] == a[1..] + b;
      FlattenConcat(a[1..], b);
    }
  }

  lemma FlattenAt(cs: seq<Tree>, i: nat)
    requires i < |cs|
    ensures FlattenAll(cs) == FlattenAll(cs[..i]) + Flatten(cs[i]) + FlattenAll(cs[i + 1..])
  {
    assert cs == cs[..i] + cs[i..];
    FlattenConcat(cs[..i], cs[i..]);
  }

  lemma RowTail(ks: seq<Key>, cs: seq<Tree>, lo: int, hi: int, c: Caps, i: nat)
    requires Row(ks, cs, lo, hi, c) && i <= |ks|
    ensures Row(ks[i..], cs[i..], Lower(ks, lo, i), hi, c)
  {
    var ks', cs' := ks[i..], cs[i..];
    forall j | 0 <= j < |cs'|
      ensures Proper(cs'[j], Lower(ks', Lower(ks, lo, i), j), Upper(ks', hi, j), c)
    {
      assert Proper(cs[i + j], Lower(ks, lo, i + j), Upper(ks, hi, i + j), c);
    }
  }

  lemma RowInit(ks: seq<Key>, cs: seq<Tree>, lo: int, hi: int, c: Caps, i: nat)
    requires Row(ks, cs, lo, hi, c) && i <= |ks|
    ensures Row(ks[..i], cs[..i + 1], lo, Upper(ks, hi, i), c)
  {
    var ks', cs' := ks[..i], cs[..i + 1];
    forall j | 0 <= j < |cs'|
      ensures Proper(cs'[j], Lower(ks', lo, j), Upper(ks', Upper(ks, hi, i), j), c)
    {
      assert Proper(cs[j], Lower(ks, lo, j), Upper(ks, hi, j), c);
    }
  }

  lemma JoinAscending(a: seq<Pair>, b: seq<Pair>, lo: int, mid: int, hi: int)
    requires Ascending(a) && AllFrom(a, lo) && AllBelow(a, mid)
    requires Ascending(b) && AllFrom(b, mid) && AllBelow(b, hi) && lo <= mid <= hi
    ensures Ascending(a + b) && AllFrom(a + b, lo) && AllBelow(a + b, hi)
  {
  }

  /** A proper tree reads out in strictly ascending order within its bounds. */
  lemma {:induction false} FlattenSorted(t: Tree, lo: int, hi: int, c: Caps)
    requires Proper(t, lo, hi, c)
    ensures Ascending(Flatten(t)) && AllFrom(Flatten(t), lo) && AllBelow(Flatten(t), hi)
    decreases t, 1
  {
    if t.Branch? {
      RowSorted(t.keys, t.children, lo, hi, c);
    }
  }

  lemma {:induction false} RowSorted(ks: seq<Key>, cs: seq<Tree>, lo: int, hi: int, c: Caps)
    requires Row(ks, cs, lo, hi, c)
    ensures Ascending(FlattenAll(cs)) && AllFrom(FlattenAll(cs), lo) && AllBelow(FlattenAll(cs), hi)
    decreases cs, 0
  {
    FlattenSorted(cs[0], lo, Upper(ks, hi, 0), c);
    if |cs| > 1 {
      RowTail(ks, cs, lo, hi, c, 1);
      RowSorted(ks[1..], cs[1..], ks[0], hi, c);
      JoinAscending(Flatten(cs[0]), FlattenAll(cs[1..]), lo, ks[0], hi);
    } else {
      assert FlattenAll(cs) == Flatten(cs[0]);
    }
  }

  /** Around the child that `k` descends into, everything left is below `k` and everything right above. */
  lemma Neighbours(ks: seq<Key>, cs: seq<Tree>, lo: int, hi: int, c: Caps, k: Key)
    requires Row(ks, cs, lo, hi, c) && lo <= k < hi
    ensures var i := Rank(ks, k);
            && Lower(ks, lo, i) <= k < Upper(ks, hi, i)
            && AllBelow(FlattenAll(cs[..i]), k)
            && AllFrom(FlattenAll(cs[i + 1..]), k + 1)
  {
    hide Row, FlattenAll, AllBelow, AllFrom;
    var i := Rank(ks, k);
    LeftBelow(ks, cs, lo, hi, c, k, i);
    RightFrom(ks, cs, lo, hi, c, k, i);
  }

  lemma LeftBelow(ks: seq<Key>, cs: seq<Tree>, lo: int, hi: int, c: Caps, k: Key, i: nat)
    requires Row(ks, cs, lo, hi, c) && i <= |ks| && (i > 0 ==> ks[i - 1] <= k)
    ensures AllBelow(FlattenAll(cs[..i]), k)
  {
    if i > 0 {
      RowInit(ks, cs, lo, hi, c, i - 1);
      assert cs[..i - 1 + 1] == cs[..i];
      hide Row, FlattenAll;
      RowSorted(ks[..i - 1], cs[..i], lo, ks[i - 1], c);
    }
  }

  lemma RightFrom(ks: seq<Key>, cs: seq<Tree>, lo: int, hi: int, c: Caps, k: Key, i: nat)
    requires Row(ks, cs, lo, hi, c) && i <= |ks| && (i < |ks| ==> ks[i] > k)
    ensures AllFrom(FlattenAll(cs[i + 1..]), k + 1)
  {
    if i < |ks| {
      RowTail(ks, cs, lo, hi, c, i + 1);
      hide Row, FlattenAll;
      RowSorted(ks[i + 1..], cs[i + 1..], ks[i], hi, c);
    }
  }

  // ---------- insert ----------

  datatype Outcome = Replaced(tree: Tree) | Split(left: Tree, sep: Key, right: Tree)

  function InsertAt<T>(s: seq<T>, i: nat, x: T): seq<T>
    requires i <= |s|
  {
    s[..i] + [x] + s[i..]
  }

  function SplitLeaf(es: seq<Pair>): Outcome
    requires |es| >= 2
  {
    var mid := |es| / 2;
    Split(Leaf(es[..mid]), es[mid].key, Leaf(es[mid..]))
  }

  function SplitBranch(ks: seq<Key>, cs: seq<Tree>): Outcome
    requires |ks| >= 2 && |cs| == |ks| + 1
  {
    var mid := |ks| / 2;
    Split(Branch(ks[..mid], cs[..mid + 1]), ks[mid], Branch(ks[mid + 1..], cs[mid + 1..]))
  }

  function PutInLeaf(es: seq<Pair>, k: Key, v: Value, c: Caps): Outcome
    requires CapsOk(c)
  {
    var es' := Put(es, k, v);
    if |es'| <= c.leaf then Replaced(Leaf(es')) else SplitLeaf(es')
  }

  /** What a branch becomes once its child `i` has. */
  function Absorb(ks: seq<Key>, cs: seq<Tree>, i: nat, o: Outcome, c: Caps): Outcome
    requires |cs| == |ks| + 1 && i < |cs| && CapsOk(c)
  {
    match o
    case Replaced(t) => Replaced(Branch(ks, cs[i := t]))
    case Split(l, sep, r) =>
      var ks', cs' := InsertAt(ks, i, sep), InsertAt(cs[i := l], i + 1, r);
      if |ks'| <= c.branch then Replaced(Branch(ks', cs')) else SplitBranch(ks', cs')
  }

  ghost predicate Shaped(t: Tree) {
    t.Branch? ==> |t.children| == |t.keys| + 1 && forall i :: 0 <= i < |t.children| ==> Shaped(t.children[i])
  }

  lemma {:induction false} LevelShaped(t: Tree, h: nat)
    requires Level(t, h)
    ensures Shaped(t)
    decreases h
  {
    if t.Branch? {
      forall i | 0 <= i < |t.children| ensures Shaped(t.children[i]) {
        LevelShaped(t.children[i], h - 1);
      }
    }
  }

  ghost function Insert(t: Tree, k: Key, v: Value, c: Caps): Outcome
    requires Shaped(t) && CapsOk(c)
    decreases t
  {
    match t
    case Leaf(es) => PutInLeaf(es, k, v, c)
    case Branch(ks, cs) =>
      var i := Rank(ks, k);
      Absorb(ks, cs, i, Insert(cs[i], k, v, c), c)
  }

  ghost predicate OutcomeProper(o: Outcome, lo: int, hi: int, h: nat, c: Caps) {
    match o
    case Replaced(t) => Proper(t, lo, hi, c) && Level(t, h)
    case Split(l, sep, r) =>
      lo < sep < hi && Proper(l, lo, sep, c) && Proper(r, sep, hi, c) && Level(l, h) && Level(r, h)
  }

  ghost function OutcomePairs(o: Outcome): seq<Pair> {
    match o
    case Replaced(t) => Flatten(t)
    case Split(l, _, r) => Flatten(l) + Flatten(r)
  }

  lemma PutBounds(es: seq<Pair>, lo: int, hi: int, k: Key, v: Value)
    requires Ascending(es) && AllFrom(es, lo) && AllBelow(es, hi) && lo <= k < hi
    ensures Ascending(Put(es, k, v)) && AllFrom(Put(es, k, v), lo) && AllBelow(Put(es, k, v), hi)
    ensures |Put(es, k, v)| <= |es| + 1
  {
    PutAscending(es, k, v);
    var es' := Put(es, k, v);
    assert |es'| <= |es| + 1;
    hide Put, Ascending;
    forall i | 0 <= i < |es'| ensures lo <= es'[i].key < hi {
      assert es'[i] in es';
    }
  }

  lemma SplitLeafKeeps(es: seq<Pair>, lo: int, hi: int, c: Caps)
    requires Ascending(es) && AllFrom(es, lo) && AllBelow(es, hi) && c.leaf < |es| <= c.leaf + 1 && c.leaf >= 1
    ensures OutcomeProper(SplitLeaf(es), lo, hi, 0, c)
    ensures OutcomePairs(SplitLeaf(es)) == es
  {
    var mid := |es| / 2;
    assert es[0].key < es[mid].key;
    assert es == es[..mid] + es[mid..];
  }

  lemma PutLeafKeeps(es: seq<Pair>, lo: int, hi: int, k: Key, v: Value, c: Caps)
    requires Proper(Leaf(es), lo, hi, c) && lo <= k < hi && CapsOk(c)
    ensures OutcomeProper(PutInLeaf(es, k, v, c), lo, hi, 0, c)
    ensures OutcomePairs(PutInLeaf(es, k, v, c)) == Put(es, k, v)
  {
    PutBounds(es, lo, hi, k, v);
    hide Put, Ascending, AllFrom, AllBelow;
    if |Put(es, k, v)| > c.leaf {
      SplitLeafKeeps(Put(es, k, v), lo, hi, c);
    }
  }

  lemma KeysGain(ks: seq<Key>, lo: int, hi: int, i: nat, sep: Key)
    requires KeysBetween(ks, lo, hi) && i <= |ks| && Lower(ks, lo, i) < sep < Upper(ks, hi, i) && lo < sep < hi
    ensures KeysBetween(InsertAt(ks, i, sep), lo, hi)
  {
  }

  lemma RowGains(ks: seq<Key>, cs: seq<Tree>, lo: int, hi: int, c: Caps, i: nat, l: Tree, sep: Key, r: Tree)
    requires Row(ks, cs, lo, hi, c) && i < |cs|
    requires Lower(ks, lo, i) < sep < Upper(ks, hi, i) && lo < sep < hi
    requires Proper(l, Lower(ks, lo, i), sep, c) && Proper(r, sep, Upper(ks, hi, i), c)
    ensures Row(InsertAt(ks, i, sep), InsertAt(cs[i := l], i + 1, r), lo, hi, c)
  {
    var ks', cs' := InsertAt(ks, i, sep), InsertAt(cs[i := l], i + 1, r);
    KeysGain(ks, lo, hi, i, sep);
    forall j | 0 <= j < |cs'| ensures Proper(cs'[j], Lower(ks', lo, j), Upper(ks', hi, j), c) {
      if j < i {
        assert cs'[j] == cs[j];
        assert Proper(cs[j], Lower(ks, lo, j), Upper(ks, hi, j), c);
      } else if j == i {
        assert cs'[j] == l;
      } else if j == i + 1 {
        assert cs'[j] == r;
      } else {
        assert cs'[j] == cs[j - 1];
        assert Proper(cs[j - 1], Lower(ks, lo, j - 1), Upper(ks, hi, j - 1), c);
      }
    }
  }

  lemma FlattenGains(cs: seq<Tree>, i: nat, l: Tree, r: Tree)
    requires i < |cs|
    ensures FlattenAll(InsertAt(cs[i := l], i + 1, r))
            == FlattenAll(cs[..i]) + (Flatten(l) + Flatten(r)) + FlattenAll(cs[i + 1..])
  {
    var cs' := InsertAt(cs[i := l], i + 1, r);
    assert cs' == cs[..i] + ([l, r] + cs[i + 1..]);
    FlattenConcat(cs[..i], [l, r] + cs[i + 1..]);
    FlattenConcat([l, r], cs[i + 1..]);
    assert [l, r][1..] == [r];
    assert FlattenAll([r]) == Flatten(r);
  }

  lemma FlattenReplaces(cs: seq<Tree>, i: nat, t: Tree)
    requires i < |cs|
    ensures FlattenAll(cs[i := t]) == FlattenAll(cs[..i]) + Flatten(t) + FlattenAll(cs[i + 1..])
  {
    FlattenAt(cs[i := t], i);
    assert cs[i := t][..i] == cs[..i] && cs[i := t][i + 1..] == cs[i + 1..];
  }

  lemma SplitBranchKeeps(ks: seq<Key>, cs: seq<Tree>, lo: int, hi: int, h: nat, c: Caps)
    requires Row(ks, cs, lo, hi, c) && |ks| >= 2 && |ks| <= c.branch + 1 && h > 0
    requires forall i :: 0 <= i < |cs| ==> Level(cs[i], h - 1)
    ensures OutcomeProper(SplitBranch(ks, cs), lo, hi, h, c)
    ensures OutcomePairs(SplitBranch(ks, cs)) == FlattenAll(cs)
  {
    var mid := |ks| / 2;
    RowInit(ks, cs, lo, hi, c, mid);
    RowTail(ks, cs, lo, hi, c, mid + 1);
    assert cs == cs[..mid + 1] + cs[mid + 1..];
    FlattenConcat(cs[..mid + 1], cs[mid + 1..]);
  }

  lemma LevelsGain(cs: seq<Tree>, i: nat, l: Tree, r: Tree, h: nat)
    requires i < |cs| && Level(l, h) && Level(r, h)
    requires forall j :: 0 <= j < |cs| ==> Level(cs[j], h)
    ensures var cs' := InsertAt(cs[i := l], i + 1, r); forall j :: 0 <= j < |cs'| ==> Level(cs'[j], h)
  {
    var cs' := InsertAt(cs[i := l], i + 1, r);
    forall j | 0 <= j < |cs'| ensures Level(cs'[j], h) {
      assert cs'[j] == if j < i then cs[j] else if j == i then l else if j == i + 1 then r else cs[j - 1];
    }
  }

  /** Whatever the child did, the branch above stays proper and level, and reads out with it in place. */
  lemma AbsorbKeeps(ks: seq<Key>, cs: seq<Tree>, lo: int, hi: int, h: nat, c: Caps, i: nat, o: Outcome)
    requires Row(ks, cs, lo, hi, c) && |ks| <= c.branch && i < |cs| && CapsOk(c) && h > 0
    requires forall j :: 0 <= j < |cs| ==> Level(cs[j], h - 1)
    requires OutcomeProper(o, Lower(ks, lo, i), Upper(ks, hi, i), h - 1, c)
    ensures OutcomeProper(Absorb(ks, cs, i, o, c), lo, hi, h, c)
    ensures OutcomePairs(Absorb(ks, cs, i, o, c))
            == FlattenAll(cs[..i]) + OutcomePairs(o) + FlattenAll(cs[i + 1..])
  {
    match o
    case Replaced(t) =>
      FlattenReplaces(cs, i, t);
    case Split(l, sep, r) =>
      RowGains(ks, cs, lo, hi, c, i, l, sep, r);
      FlattenGains(cs, i, l, r);
      LevelsGain(cs, i, l, r, h - 1);
      var ks', cs' := InsertAt(ks, i, sep), InsertAt(cs[i := l], i + 1, r);
      hide Row, Flatten, FlattenAll;
      if |ks'| > c.branch {
        SplitBranchKeeps(ks', cs', lo, hi, h, c);
      }
  }

  lemma {:induction false} InsertKeeps(t: Tree, lo: int, hi: int, h: nat, k: Key, v: Value, c: Caps)
    requires Proper(t, lo, hi, c) && Level(t, h) && lo <= k < hi && CapsOk(c)
    ensures Shaped(t)
    ensures OutcomeProper(Insert(t, k, v, c), lo, hi, h, c)
    ensures OutcomePairs(Insert(t, k, v, c)) == Put(Flatten(t), k, v)
    decreases t
  {
    LevelShaped(t, h);
    match t
    case Leaf(es) => PutLeafKeeps(es, lo, hi, k, v, c);
    case Branch(ks, cs) =>
      var i := Rank(ks, k);
      Neighbours(ks, cs, lo, hi, c, k);
      InsertKeeps(cs[i], Lower(ks, lo, i), Upper(ks, hi, i), h - 1, k, v, c);
      AbsorbKeeps(ks, cs, lo, hi, h, c, i, Insert(cs[i], k, v, c));
      FlattenAt(cs, i);
      PutMiddle(FlattenAll(cs[..i]), Flatten(cs[i]), FlattenAll(cs[i + 1..]), k, v);
  }

  /** A root that splits gets a new root above its halves. */
  function Rooted(o: Outcome): Tree {
    match o
    case Replaced(t) => t
    case Split(l, sep, r) => Branch([sep], [l, r])
  }

  /** The whole of `insert` on a tree with keys below `space`. */
  lemma InsertRefines(t: Tree, h: nat, space: nat, k: Key, v: Value, c: Caps) returns (h': nat)
    requires Proper(t, -1, space, c) && Level(t, h) && k < space && CapsOk(c)
    ensures Shaped(t)
    ensures var t' := Rooted(Insert(t, k, v, c));
            && Proper(t', -1, space, c) && Level(t', h') && h' <= h + 1
            && Flatten(t') == Put(Flatten(t), k, v)
            && MapOf(Flatten(t')) == MapOf(Flatten(t))[k := v]
  {
    InsertKeeps(t, -1, space, h, k, v, c);
    FlattenSorted(t, -1, space, c);
    PutIsUpdate(Flatten(t), k, v);
    var o := Insert(t, k, v, c);
    hide Insert, Put, MapOf, Ascending;
    h' := if o.Replaced? then h else h + 1;
    RootedKeeps(o, space, h, c);
  }

  lemma RootedKeeps(o: Outcome, space: nat, h: nat, c: Caps)
    requires OutcomeProper(o, -1, space, h, c) && CapsOk(c)
    ensures Proper(Rooted(o), -1, space, c) && Level(Rooted(o), if o.Replaced? then h else h + 1)
    ensures Flatten(Rooted(o)) == OutcomePairs(o)
  {
    if o.Split? {
      assert [o.left, o.right][1..] == [o.right];
      assert FlattenAll([o.right]) == Flatten(o.right) + FlattenAll([o.right][1..]);
      assert FlattenAll([o.left, o.right]) == Flatten(o.left) + Flatten(o.right);
    }
  }

  // ---------- delete ----------

  ghost function Delete(t: Tree, k: Key): Tree
    requires Shaped(t)
    decreases t
  {
    match t
    case Leaf(es) => Leaf(Drop(es, k))
    case Branch(ks, cs) =>
      var i := Rank(ks, k);
      Branch(ks, cs[i := Delete(cs[i], k)])
  }

  lemma {:induction false} DeleteKeeps(t: Tree, lo: int, hi: int, h: nat, k: Key, c: Caps)
    requires Proper(t, lo, hi, c) && Level(t, h) && lo <= k < hi
    ensures Shaped(t)
    ensures Proper(Delete(t, k), lo, hi, c) && Level(Delete(t, k), h)
    ensures Flatten(Delete(t, k)) == Drop(Flatten(t), k)
    decreases t
  {
    LevelShaped(t, h);
    match t
    case Leaf(es) => DropLeafKeeps(es, lo, hi, k, c);
    case Branch(ks, cs) =>
      var i := Rank(ks, k);
      Neighbours(ks, cs, lo, hi, c, k);
      DeleteKeeps(cs[i], Lower(ks, lo, i), Upper(ks, hi, i), h - 1, k, c);
      ChildSwapped(ks, cs, lo, hi, h, c, i, Delete(cs[i], k));
      hide Proper, Level, Ascending;
      FlattenReplaces(cs, i, Delete(cs[i], k));
      FlattenAt(cs, i);
      DropMiddle(FlattenAll(cs[..i]), Flatten(cs[i]), FlattenAll(cs[i + 1..]), k);
      hide Drop, AllFrom, AllBelow, FlattenAll, Rank;
  }

  lemma ChildSwapped(ks: seq<Key>, cs: seq<Tree>, lo: int, hi: int, h: nat, c: Caps, i: nat, t: Tree)
    requires Proper(Branch(ks, cs), lo, hi, c) && Level(Branch(ks, cs), h) && i < |cs|
    requires Proper(t, Lower(ks, lo, i), Upper(ks, hi, i), c) && Level(t, h - 1)
    ensures Proper(Branch(ks, cs[i := t]), lo, hi, c) && Level(Branch(ks, cs[i := t]), h)
  {
    hide KeysBetween, Lower, Upper;
  }

  lemma DropLeafKeeps(es: seq<Pair>, lo: int, hi: int, k: Key, c: Caps)
    requires Proper(Leaf(es), lo, hi, c)
    ensures Proper(Leaf(Drop(es, k)), lo, hi, c)
  {
    DropAscending(es, k);
    hide Search, Ascending, Found;
    var p, es' := Search(es, k), Drop(es, k);
    forall i | 0 <= i < |es'| ensures lo <= es'[i].key < hi {
      if Found(es, k) {
        assert es'[i] == if i < p then es[i] else es[i + 1];
      }
    }
  }

  /** The whole of `delete`: underfull nodes are kept, the contents lose exactly `k`. */
  lemma DeleteRefines(t: Tree, h: nat, space: nat, k: Key, c: Caps)
    requires Proper(t, -1, space, c) && Level(t, h) && k < space
    ensures Shaped(t)
    ensures var t' := Delete(t, k);
            && Proper(t', -1, space, c) && Level(t', h)
            && Flatten(t') == Drop(Flatten(t), k)
            && MapOf(Flatten(t')) == MapOf(Flatten(t)) - {k}
  {
    DeleteKeeps(t, -1, space, h, k, c);
    FlattenSorted(t, -1, space, c);
    DropIsRemoval(Flatten(t), k);
  }

  // ---------- get ----------

  ghost function Lookup(t: Tree, k: Key): Option<Value>
    requires Shaped(t)
    decreases t
  {
    match t
    case Leaf(es) => Find(es, k)
    case Branch(ks, cs) => Lookup(cs[Rank(ks, k)], k)
  }

  lemma {:induction false} LookupFinds(t: Tree, lo: int, hi: int, h: nat, k: Key, c: Caps)
    requires Proper(t, lo, hi, c) && Level(t, h) && lo <= k < hi
    ensures Shaped(t) && Lookup(t, k) == Find(Flatten(t), k)
    decreases t
  {
    LevelShaped(t, h);
    if t.Branch? {
      var ks, cs := t.keys, t.children;
      var i := Rank(ks, k);
      Neighbours(ks, cs, lo, hi, c, k);
      LookupFinds(cs[i], Lower(ks, lo, i), Upper(ks, hi, i), h - 1, k, c);
      FlattenAt(cs, i);
      DropMiddle(FlattenAll(cs[..i]), Flatten(cs[i]), FlattenAll(cs[i + 1..]), k);
    }
  }

  /** `get` answers what the map holds. */
  lemma LookupRefines(t: Tree, h: nat, space: nat, k: Key, c: Caps)
    requires Proper(t, -1, space, c) && Level(t, h) && k < space
    ensures Shaped(t)
    ensures Lookup(t, k) == if k in MapOf(Flatten(t)) then Some(MapOf(Flatten(t))[k]) else None
  {
    LookupFinds(t, -1, space, h, k, c);
    FlattenSorted(t, -1, space, c);
    FindIsLookup(Flatten(t), k);
  }

  /** Deleting a key that is not there changes nothing at all. */
  lemma {:induction false} DeleteAbsent(t: Tree, k: Key)
    requires Shaped(t) && Lookup(t, k).None?
    ensures Delete(t, k) == t
    decreases t
  {
    if t.Branch? {
      var i := Rank(t.keys, k);
      DeleteAbsent(t.children[i], k);
      assert t.children[i := t.children[i]] == t.children;
    }
  }
}
