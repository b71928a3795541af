/**
  Trees laid out on pages: which page holds which node, and that a tree is read
  back from the file exactly, page by page.
*/
module PageTree {
  import opened Bytes
  import opened NodeCodec
  import opened TreeModel
  import opened Options
  import opened Pager

  datatype PTree =
    | PLeaf(id: nat, entries: seq<Pair>)
    | PBranch(id: nat, keys: seq<Key>, children: seq<PTree>)

  datatype POutcome = PReplaced(tree: PTree) | PSplit(left: PTree, sep: Key, right: PTree)

  function CapsOf(c: Config): Caps
    requires c.pageSize >= HEADER && c.keyLen + c.valueLen > 0
  {
    Caps(LeafCapacity(c), InternalCapacity(c))
  }

  // ---------- forgetting the pages ----------

  function Strip(t: PTree): Tree {
    match t
    case PLeaf(_, es) => Leaf(es)
    case PBranch(_, ks, cs) => Branch(ks, StripAll(cs))
  }

  function StripAll(cs: seq<PTree>): (ts: seq<Tree>)
    ensures |ts| == |cs|
    ensures forall i :: 0 <= i < |cs| ==> ts[i] == Strip(cs[i])
  {
    if cs == [] then [] else [Strip(cs[0])] + StripAll(cs[1..])
  }

  function StripOutcome(o: POutcome): Outcome {
    match o
    case PReplaced(t) => Replaced(Strip(t))
    case PSplit(l, sep, r) => Split(Strip(l), sep, Strip(r))
  }

  function ChildIds(cs: seq<PTree>): (ids: seq<nat>)
    ensures |ids| == |cs|
    ensures forall i :: 0 <= i < |cs| ==> ids[i] == cs[i].id
  {
    seq(|cs|, i requires 0 <= i < |cs| => cs[i].id)
  }

  function NodeOf(t: PTree): Node {
    match t
    case PLeaf(_, es) => LeafNode(es)
    case PBranch(_, ks, cs) => InternalNode(ks, ChildIds(cs))
  }

  // ---------- pages used ----------

  function Ids(t: PTree): multiset<nat> {
    match t
    case PLeaf(id, _) => multiset{id}
    case PBranch(id, _, cs) => multiset{id} + IdsAll(cs)
  }

  function IdsAll(cs: seq<PTree>): multiset<nat> {
    if cs == [] then multiset{} else Ids(cs[0]) + IdsAll(cs[1..])
  }

  ghost function OutcomeIds(o: POutcome): multiset<nat> {
    match o
    case PReplaced(t) => Ids(t)
    case PSplit(l, _, r) => Ids(l) + Ids(r)
  }

  lemma {:induction false} IdsConcat(a: seq<PTree>, b: seq<PTree>)
    ensures IdsAll(a + b) == IdsAll(a) + IdsAll(b)
  {
    if a == [] {
      assert a + b == b;
    } else {
      assert (a + b)[1..] == a[1..] + b;
      IdsConcat(a[1..], b);
    }
  }

  lemma IdsAt(cs: seq<PTree>, i: nat)
    requires i < |cs|
    ensures IdsAll(cs) == IdsAll(cs[..i]) + Ids(cs[i]) + IdsAll(cs[i + 1..])
  {
    assert cs == cs[..i] + cs[i..];
    IdsConcat(cs[..i], cs[i..]);
  }

  lemma IdsReplaced(cs: seq<PTree>, i: nat, t: PTree)
    requires i < |cs|
    ensures IdsAll(cs[i := t]) == IdsAll(cs[..i]) + Ids(t) + IdsAll(cs[i + 1..])
  {
    IdsAt(cs[i := t], i);
    assert cs[i := t][..i] == cs[..i] && cs[i := t][i + 1..] == cs[i + 1..];
  }

  lemma IdsGained(cs: seq<PTree>, i: nat, l: PTree, r: PTree)
    requires i < |cs|
    ensures IdsAll(InsertAt(cs[i := l], i + 1, r)) == IdsAll(cs[..i]) + (Ids(l) + Ids(r)) + IdsAll(cs[i + 1..])
  {
    assert InsertAt(cs[i := l], i + 1, r) == cs[..i] + ([l, r] + cs[i + 1..]);
    IdsConcat(cs[..i], [l, r] + cs[i + 1..]);
    IdsConcat([l, r], cs[i + 1..]);
    assert [l, r][1..] == [r] && [r][1..] == [];
    assert IdsAll([r]) == Ids(r) + IdsAll([r][1..]);
    assert IdsAll([l, r]) == Ids(l) + IdsAll([l, r][1..]);
  }

  /** A child's pages are among its parent's. */
  lemma ChildIdsWithin(t: PTree, i: nat)
    requires t.PBranch? && i < |t.children|
    ensures forall x :: Ids(t.children[i])[x] <= Ids(t)[x]
    ensures Ids(t)[t.id] >= 1 + Ids(t.children[i])[t.id]
  {
    IdsAt(t.children, i);
  }

  // ---------- reading a tree from the file ----------

  ghost predicate Shows(c: Config, a: Image, t: PTree)
    requires ConfigOk(c) && Sized(c, a)
  {
    && 1 <= t.id < a.header.pageCount
    && Decode(c, a.pages[t.id]) == NodeOf(t)
    && (t.PBranch? ==> forall i :: 0 <= i < |t.children| ==> Shows(c, a, t.children[i]))
  }

  lemma {:induction false} ShowsInRange(c: Config, a: Image, t: PTree)
    requires ConfigOk(c) && Sized(c, a) && Shows(c, a, t)
    ensures forall x :: Ids(t)[x] > 0 ==> 1 <= x < a.header.pageCount
    decreases t, 1
  {
    if t.PBranch? {
      ShowAllInRange(c, a, t.children);
    }
  }

  lemma {:induction false} ShowAllInRange(c: Config, a: Image, cs: seq<PTree>)
    requires ConfigOk(c) && Sized(c, a) && forall i :: 0 <= i < |cs| ==> Shows(c, a, cs[i])
    ensures forall x :: IdsAll(cs)[x] > 0 ==> 1 <= x < a.header.pageCount
    decreases cs, 0
  {
    if cs != [] {
      ShowsInRange(c, a, cs[0]);
      ShowAllInRange(c, a, cs[1..]);
    }
  }

  /** A tree stays readable as long as its own pages are left alone. */
  lemma {:induction false} ShowsUnchanged(c: Config, a: Image, b: Image, t: PTree)
    requires ConfigOk(c) && Sized(c, a) && Sized(c, b) && Shows(c, a, t)
    requires a.header.pageCount <= b.header.pageCount
    requires forall x :: Ids(t)[x] > 0 && x < a.header.pageCount ==> b.pages[x] == a.pages[x]
    ensures Shows(c, b, t)
    decreases t
  {
    if t.PBranch? {
      forall i | 0 <= i < |t.children| ensures Shows(c, b, t.children[i]) {
        ChildIdsWithin(t, i);
        ShowsUnchanged(c, a, b, t.children[i]);
      }
    }
  }

  /** The file determines the tree: what is read from a page is one tree only. */
  lemma {:induction false} ReadOnce(c: Config, a: Image, t: PTree, u: PTree)
    requires ConfigOk(c) && Sized(c, a) && Shows(c, a, t) && Shows(c, a, u) && t.id == u.id
    ensures t == u
    decreases t
  {
    assert NodeOf(t) == NodeOf(u);
    if t.PBranch? {
      assert |ChildIds(t.children)| == |ChildIds(u.children)|;
      forall i | 0 <= i < |t.children| ensures t.children[i] == u.children[i] {
        assert ChildIds(t.children)[i] == ChildIds(u.children)[i];
        ReadOnce(c, a, t.children[i], u.children[i]);
      }
      assert t.children == u.children;
    }
  }

  // ---------- what is read fits its page ----------

  lemma {:induction false} ReadPairsFit(c: Config, s: seq<byte>, n: nat)
    requires n * (c.keyLen + c.valueLen) <= |s|
    ensures |ReadPairs(c, s, n)| == n
    ensures forall i :: 0 <= i < n ==> FitsPair(c, ReadPairs(c, s, n)[i])
  {
    if n > 0 {
      var w := c.keyLen + c.valueLen;
      OneLess(n, w);
      ReadPairsFit(c, s[w..], n - 1);
      BEBound(s[..c.keyLen]);
      var tail := ReadPairs(c, s[w..], n - 1);
      assert ReadPairs(c, s, n) == ReadPair(c, s) + tail;
      assert |ReadPair(c, s)| == 1 && FitsPair(c, ReadPair(c, s)[0]);
      hide ReadPair, ReadPairs, FitsPair, FromBE;
      forall i | 0 <= i < n ensures FitsPair(c, (ReadPair(c, s) + tail)[i]) {
        assert (ReadPair(c, s) + tail)[i] == if i == 0 then ReadPair(c, s)[0] else tail[i - 1];
      }
    }
  }

  lemma {:induction false} ReadKeysFit(c: Config, s: seq<byte>, n: nat)
    requires n * c.keyLen <= |s|
    ensures |ReadKeys(c, s, n)| == n
    ensures forall i :: 0 <= i < n ==> FitsKey(c, ReadKeys(c, s, n)[i])
  {
    if n > 0 {
      OneLess(n, c.keyLen);
      ReadKeysFit(c, s[c.keyLen..], n - 1);
      BEBound(s[..c.keyLen]);
    }
  }

  lemma {:induction false} LEBound(s: seq<byte>)
    ensures FromLE(s) < Pow256(|s|)
  {
    if s != [] {
      LEBound(s[1..]);
    }
  }

  lemma {:induction false} ReadChildrenFit(s: seq<byte>, n: nat)
    requires 4 * n <= |s|
    ensures |ReadChildren(s, n)| == n
    ensures forall i :: 0 <= i < n ==> ReadChildren(s, n)[i] < 0x1_0000_0000
  {
    if n > 0 {
      ReadChildrenFit(s[4..], n - 1);
      LEBound(s[..4]);
      Pow4();
    }
  }

  /** Whatever decodes as a node is within capacity and can be encoded again. */
  lemma DecodeFits(c: Config, page: Page)
    requires ConfigOk(c) && |page| == c.pageSize && Decode(c, page) != Corrupt
    ensures NodeFits(c, Decode(c, page))
  {
    var n, body := FromLE(page[1..3]), page[HEADER..];
    if page[0] == LEAF {
      LeafCountInRange(c, n);
      ReadPairsFit(c, body, n);
    } else {
      InternalCountInRange(c, n);
      ReadKeysFit(c, body, n);
      ReadChildrenFit(body[n * c.keyLen..], n + 1);
    }
  }

  lemma NodeFitsOf(c: Config, a: Image, t: PTree)
    requires ConfigOk(c) && Sized(c, a) && Shows(c, a, t)
    ensures NodeFits(c, NodeOf(t))
  {
    DecodeFits(c, a.pages[t.id]);
  }

  lemma {:induction false} ShownShaped(c: Config, a: Image, t: PTree)
    requires ConfigOk(c) && Sized(c, a) && Shows(c, a, t)
    ensures Shaped(Strip(t))
    decreases t
  {
    NodeFitsOf(c, a, t);
    if t.PBranch? {
      forall i | 0 <= i < |t.children| ensures Shaped(Strip(t.children[i])) {
        ShownShaped(c, a, t.children[i]);
      }
    }
  }

  // ---------- building on pages ----------

  lemma StripReplaced(cs: seq<PTree>, i: nat, t: PTree)
    requires i < |cs|
    ensures StripAll(cs[i := t]) == StripAll(cs)[i := Strip(t)]
  {
  }

  lemma StripGained(cs: seq<PTree>, i: nat, l: PTree, r: PTree)
    requires i < |cs|
    ensures StripAll(InsertAt(cs[i := l], i + 1, r)) == InsertAt(StripAll(cs)[i := Strip(l)], i + 1, Strip(r))
  {
  }

  lemma StripCut(cs: seq<PTree>, i: nat)
    requires i <= |cs|
    ensures StripAll(cs[..i]) == StripAll(cs)[..i] && StripAll(cs[i..]) == StripAll(cs)[i..]
  {
  }

  // ---------- a tree and a freelist that share no page ----------

  /** No page is both in the tree and free, and none is in either twice. */
  ghost predicate Apart(ids: multiset<nat>, f: seq<nat>) {
    forall x :: ids[x] + multiset(f)[x] <= 1
  }

  function InFile(n: nat, x: nat): nat { if 1 <= x < n then 1 else 0 }

  ghost function MaybeIds(t: Option<PTree>): multiset<nat> {
    if t.None? then multiset{} else Ids(t.value)
  }

  /** The file's root names tree `t` and its freelist is `f`. */
  ghost predicate Holds(c: Config, a: Image, t: Option<PTree>, f: seq<nat>) {
    && ConfigOk(c) && Free(c, a, f)
    && (if t.None? then a.header.root == 0 else a.header.root == t.value.id && Shows(c, a, t.value))
    && Apart(MaybeIds(t), f)
  }

  /** Work that stays off the tree leaves the file holding it. */
  lemma HoldsWithin(c: Config, a: Image, t: Option<PTree>, f: seq<nat>, b: Image, g: seq<nat>)
    requires Holds(c, a, t, f) && Moved(c, a, f, b, g)
    ensures Holds(c, b, t, g)
  {
    SuffixMembers(g, f);
    if t.Some? {
      ShowsInRange(c, a, t.value);
      ShowsUnchanged(c, a, b, t.value);
    }
  }

  // ---------- the map in the file ----------

  ghost function PairsOf(t: Option<PTree>): seq<Pair> {
    if t.None? then [] else Flatten(Strip(t.value))
  }

  ghost predicate Sound(c: Config, t: Option<PTree>)
    requires ConfigOk(c)
  {
    t.Some? ==> Proper(Strip(t.value), -1, Pow256(c.keyLen), CapsOf(c)) && exists h :: Level(Strip(t.value), h)
  }

  /** Opening this file finds a sound tree with exactly the map `m`, clear of a well-formed freelist. */
  ghost predicate Stores(c: Config, a: Image, m: map<Key, Value>) {
    exists t, f :: Holds(c, a, t, f) && Sound(c, t) && MapOf(PairsOf(t)) == m
  }

  /** A file never stores two maps. */
  lemma StoresOne(c: Config, a: Image, m: map<Key, Value>, n: map<Key, Value>)
    requires Stores(c, a, m) && Stores(c, a, n)
    ensures m == n
  {
    var t, f :| Holds(c, a, t, f) && Sound(c, t) && MapOf(PairsOf(t)) == m;
    var u, g :| Holds(c, a, u, g) && Sound(c, u) && MapOf(PairsOf(u)) == n;
    hide Sound, PairsOf;
    if t.Some? && u.Some? {
      ReadOnce(c, a, t.value, u.value);
    }
  }
}
