/**
  What building fresh pages for an update keeps: the trees that were readable stay
  readable, no page is lost or used twice, and the new pages read out as the tree
  the update leads to.
*/
module TreeUpdates {
  import opened Bytes
  import opened NodeCodec
  import opened TreeModel
  import opened Options
  import opened Pager
  import opened PageTree

  // ---------- bookkeeping of pages ----------

  /**
    From pages `ids0` in use and `g0` free in a file of `n0` pages, to `ids1` in
    use, `path` superseded and `g1` free in one of `n1`: nothing lost, nothing doubled.
  */
  ghost predicate Balanced(ids0: multiset<nat>, g0: seq<nat>, n0: nat,
                           ids1: multiset<nat>, path: seq<nat>, g1: seq<nat>, n1: nat) {
    forall x :: ids1[x] + multiset(path)[x] + multiset(g1)[x] + InFile(n0, x)
                == ids0[x] + multiset(g0)[x] + InFile(n1, x)
  }

  lemma BalanceSum(p: nat, rest: multiset<nat>, ids: multiset<nat>, g: seq<nat>, n: nat,
                   out: multiset<nat>, path: seq<nat>, g1: seq<nat>, n1: nat,
                   made: multiset<nat>, g2: seq<nat>, n2: nat)
    requires Balanced(ids, g, n, out, path, g1, n1)
    requires Balanced(multiset{}, g1, n1, made, [], g2, n2)
    ensures Balanced(multiset{p} + (rest + ids), g, n, made + (rest + out), path + [p], g2, n2)
  {
    assert multiset(path + [p]) == multiset(path) + multiset{p};
    forall x
      ensures (made + (rest + out))[x] + multiset(path + [p])[x] + multiset(g2)[x] + InFile(n, x)
              == (multiset{p} + (rest + ids))[x] + multiset(g)[x] + InFile(n2, x)
    {
      assert out[x] + multiset(path)[x] + multiset(g1)[x] + InFile(n, x)
             == ids[x] + multiset(g)[x] + InFile(n1, x);
      assert made[x] + multiset(g2)[x] + InFile(n1, x) == multiset(g1)[x] + InFile(n2, x);
    }
  }

  /** The pages in a tree and the free ones are all in the file. */
  ghost predicate InRange(ids: multiset<nat>, g: seq<nat>, n: nat) {
    forall x :: ids[x] + multiset(g)[x] <= InFile(n, x)
  }

  lemma RangeOf(c: Config, a: Image, t: PTree, g: seq<nat>)
    requires ConfigOk(c) && Free(c, a, g) && Shows(c, a, t) && Apart(Ids(t), g)
    ensures InRange(Ids(t), g, a.header.pageCount)
  {
    ShowsInRange(c, a, t);
    ChainInRange(c, a, a.header.freeHead, g);
    forall x: nat ensures Ids(t)[x] + multiset(g)[x] <= InFile(a.header.pageCount, x) {
      if x in g { assert 1 <= x < a.header.pageCount; }
    }
  }

  /** Pages in use, superseded and free are still disjoint and in the file afterwards. */
  lemma BalanceRange(ids0: multiset<nat>, g0: seq<nat>, n0: nat, ids1: multiset<nat>, path: seq<nat>, g1: seq<nat>, n1: nat)
    requires Balanced(ids0, g0, n0, ids1, path, g1, n1) && InRange(ids0, g0, n0)
    ensures forall x :: ids1[x] + multiset(path)[x] + multiset(g1)[x] <= InFile(n1, x)
    ensures Apart(ids1, g1)
  {
    forall x ensures ids1[x] + multiset(path)[x] + multiset(g1)[x] <= InFile(n1, x) {
      assert ids1[x] + multiset(path)[x] + multiset(g1)[x] + InFile(n0, x)
             == ids0[x] + multiset(g0)[x] + InFile(n1, x);
      assert ids0[x] + multiset(g0)[x] <= InFile(n0, x);
    }
  }

  // ---------- trees across work elsewhere ----------

  lemma ShowsMoved(c: Config, a: Image, f: seq<nat>, b: Image, g: seq<nat>, t: PTree)
    requires ConfigOk(c) && Moved(c, a, f, b, g) && Shows(c, a, t) && Apart(Ids(t), f)
    ensures Shows(c, b, t) && Apart(Ids(t), g)
  {
    SuffixMembers(g, f);
    ShowsInRange(c, a, t);
    ShowsUnchanged(c, a, b, t);
  }

  ghost predicate AllShow(c: Config, a: Image, cs: seq<PTree>)
    requires ConfigOk(c) && Sized(c, a)
  {
    forall i :: 0 <= i < |cs| ==> Shows(c, a, cs[i])
  }

  lemma AllShowMoved(c: Config, a: Image, f: seq<nat>, b: Image, g: seq<nat>, cs: seq<PTree>)
    requires ConfigOk(c) && Moved(c, a, f, b, g) && AllShow(c, a, cs) && Apart(IdsAll(cs), f)
    ensures AllShow(c, b, cs)
  {
    assert Sized(c, a) && Sized(c, b);
    hide Moved, Shows, Ids, IdsAll;
    forall i | 0 <= i < |cs| ensures Shows(c, b, cs[i]) {
      IdsOfOne(cs, i);
      ShowsMoved(c, a, f, b, g, cs[i]);
    }
  }

  lemma IdsOfOne(cs: seq<PTree>, i: nat)
    requires i < |cs|
    ensures forall x :: Ids(cs[i])[x] <= IdsAll(cs)[x]
  {
    IdsAt(cs, i);
  }

  datatype PageOutcome = IdReplaced(id: nat) | IdSplit(left: nat, sep: Key, right: nat)

  ghost function OutcomePages(q: POutcome): PageOutcome {
    match q
    case PReplaced(t) => IdReplaced(t.id)
    case PSplit(l, sep, r) => IdSplit(l.id, sep, r.id)
  }

  ghost predicate OutcomeShown(c: Config, a: Image, q: POutcome)
    requires ConfigOk(c) && Sized(c, a)
  {
    match q
    case PReplaced(t) => Shows(c, a, t)
    case PSplit(l, sep, r) => Shows(c, a, l) && Shows(c, a, r) && FitsKey(c, sep)
  }

  // ---------- rebuilding a branch ----------

  /** The children of a branch once child `i` became `q`. */
  ghost function NewKeys(ks: seq<Key>, i: nat, q: POutcome): seq<Key>
    requires i <= |ks|
  {
    if q.PReplaced? then ks else InsertAt(ks, i, q.sep)
  }

  ghost function NewChildren(cs: seq<PTree>, i: nat, q: POutcome): seq<PTree>
    requires i < |cs|
  {
    if q.PReplaced? then cs[i := q.tree] else InsertAt(cs[i := q.left], i + 1, q.right)
  }

  lemma NewChildrenIds(cs: seq<PTree>, i: nat, q: POutcome)
    requires i < |cs|
    ensures IdsAll(NewChildren(cs, i, q)) == (IdsAll(cs[..i]) + IdsAll(cs[i + 1..])) + OutcomeIds(q)
    ensures IdsAll(cs) == (IdsAll(cs[..i]) + IdsAll(cs[i + 1..])) + Ids(cs[i])
  {
    IdsAt(cs, i);
    if q.PReplaced? {
      IdsReplaced(cs, i, q.tree);
    } else {
      IdsGained(cs, i, q.left, q.right);
    }
  }

  lemma NewChildrenShow(c: Config, a: Image, cs: seq<PTree>, i: nat, q: POutcome)
    requires ConfigOk(c) && Sized(c, a) && i < |cs| && OutcomeShown(c, a, q)
    requires forall j :: 0 <= j < |cs| && j != i ==> Shows(c, a, cs[j])
    ensures AllShow(c, a, NewChildren(cs, i, q))
  {
    hide Shows;
    var cs' := NewChildren(cs, i, q);
    forall j | 0 <= j < |cs'| ensures Shows(c, a, cs'[j]) {
      if q.PSplit? {
        assert cs'[j] == if j < i then cs[j] else if j == i then q.left else if j == i + 1 then q.right else cs[j - 1];
      }
    }
  }

  lemma NewChildrenStrip(ks: seq<Key>, cs: seq<PTree>, i: nat, q: POutcome, caps: Caps)
    requires |cs| == |ks| + 1 && i < |cs| && CapsOk(caps)
    ensures var ks', cs' := NewKeys(ks, i, q), NewChildren(cs, i, q);
            |cs'| == |ks'| + 1 &&
            Absorb(ks, StripAll(cs), i, StripOutcome(q), caps)
            == if q.PReplaced? || |ks'| <= caps.branch then Replaced(Branch(ks', StripAll(cs')))
               else SplitBranch(ks', StripAll(cs'))
  {
    if q.PReplaced? {
      StripReplaced(cs, i, q.tree);
    } else {
      StripGained(cs, i, q.left, q.right);
    }
  }

  lemma NewKeysFit(c: Config, ks: seq<Key>, i: nat, q: POutcome)
    requires i <= |ks| && (forall j :: 0 <= j < |ks| ==> FitsKey(c, ks[j]))
    requires q.PSplit? ==> FitsKey(c, q.sep)
    ensures forall j :: 0 <= j < |NewKeys(ks, i, q)| ==> FitsKey(c, NewKeys(ks, i, q)[j])
  {
    hide FitsKey;
    if q.PSplit? {
      var ks' := InsertAt(ks, i, q.sep);
      forall j | 0 <= j < |ks'| ensures FitsKey(c, ks'[j]) {
        assert ks'[j] == if j < i then ks[j] else if j == i then q.sep else ks[j - 1];
      }
    }
  }

  lemma ChildIdsFit(c: Config, a: Image, cs: seq<PTree>)
    requires ConfigOk(c) && Sized(c, a) && AllShow(c, a, cs)
    ensures forall i :: 0 <= i < |cs| ==> ChildIds(cs)[i] < 0x1_0000_0000
  {
  }

  // ---------- what a page id list says of a tree ----------

  lemma IdListsReplaced(cs: seq<PTree>, i: nat, t: PTree)
    requires i < |cs|
    ensures ChildIds(cs[i := t]) == ChildIds(cs)[i := t.id]
  {
  }

  lemma IdListsGained(cs: seq<PTree>, i: nat, l: PTree, r: PTree)
    requires i < |cs|
    ensures ChildIds(InsertAt(cs[i := l], i + 1, r)) == InsertAt(ChildIds(cs)[i := l.id], i + 1, r.id)
  {
  }

  lemma IdListsCut(cs: seq<PTree>, i: nat)
    requires i <= |cs|
    ensures ChildIds(cs[..i]) == ChildIds(cs)[..i] && ChildIds(cs[i..]) == ChildIds(cs)[i..]
  {
  }

  // ---------- one insertion, from a page of the old tree to pages of the new ----------

  /** What rebuilding the subtree `t` for an insertion amounts to. */
  ghost predicate Inserted(c: Config, a: Image, g: seq<nat>, t: PTree, h: nat, key: Key, value: Value,
                           b: Image, q: POutcome, g': seq<nat>, path: seq<nat>)
    requires ConfigOk(c)
  {
    && Rebuilt(c, a, g, t, b, q, g', path)
    && Shaped(Strip(t)) && StripOutcome(q) == Insert(Strip(t), key, value, CapsOf(c))
    && b.header.pageCount <= a.header.pageCount + 2 * (h + 1)
  }

  lemma PutFits(c: Config, es: seq<Pair>, key: Key, value: Value)
    requires forall i :: 0 <= i < |es| ==> FitsPair(c, es[i])
    requires FitsPair(c, Pair(key, value))
    ensures forall i :: 0 <= i < |Put(es, key, value)| ==> FitsPair(c, Put(es, key, value)[i])
  {
    hide FitsPair, Search;
    var p, es' := Search(es, key), Put(es, key, value);
    forall i | 0 <= i < |es'| ensures FitsPair(c, es'[i]) {
      if !Found(es, key) {
        assert es'[i] == if i < p then es[i] else if i == p then Pair(key, value) else es[i - 1];
      }
    }
  }

  lemma LeafReplaced(c: Config, a: Image, g: seq<nat>, t: PTree, key: Key, value: Value, b: Image, id: nat, g': seq<nat>)
    requires ConfigOk(c) && t.PLeaf? && Moved(c, a, g, b, g')
    requires |Put(t.entries, key, value)| <= LeafCapacity(c)
    requires 1 <= id < b.header.pageCount && Decode(c, b.pages[id]) == LeafNode(Put(t.entries, key, value))
    requires Balanced(multiset{}, g, a.header.pageCount, multiset{id}, [], g', b.header.pageCount)
    requires b.header.pageCount <= a.header.pageCount + 2
    ensures Inserted(c, a, g, t, 0, key, value, b, PReplaced(PLeaf(id, Put(t.entries, key, value))), g', [t.id])
  {
    hide Moved, Put, Decode;
    OnePage(id, t.id, g, a.header.pageCount, g', b.header.pageCount);
  }

  lemma LeafSplit(c: Config, a: Image, g: seq<nat>, t: PTree, key: Key, value: Value,
                  b: Image, left: nat, right: nat, g': seq<nat>)
    requires ConfigOk(c) && t.PLeaf? && Moved(c, a, g, b, g')
    requires var es := Put(t.entries, key, value);
             && |es| > LeafCapacity(c) && (forall i :: 0 <= i < |es| ==> FitsPair(c, es[i]))
             && 1 <= left < b.header.pageCount && Decode(c, b.pages[left]) == LeafNode(es[..|es| / 2])
             && 1 <= right < b.header.pageCount && Decode(c, b.pages[right]) == LeafNode(es[|es| / 2..])
    requires Balanced(multiset{}, g, a.header.pageCount, multiset{right, left}, [], g', b.header.pageCount)
    requires b.header.pageCount <= a.header.pageCount + 2
    ensures var es := Put(t.entries, key, value);
            Inserted(c, a, g, t, 0, key, value, b,
                     PSplit(PLeaf(left, es[..|es| / 2]), es[|es| / 2].key, PLeaf(right, es[|es| / 2..])), g', [t.id])
  {
    var es := Put(t.entries, key, value);
    var q := PSplit(PLeaf(left, es[..|es| / 2]), es[|es| / 2].key, PLeaf(right, es[|es| / 2..]));
    assert FitsKey(c, es[|es| / 2].key) by { assert FitsPair(c, es[|es| / 2]); }
    hide Moved, Put, Decode, FitsPair, FitsKey;
    TwoPages(left, right, t.id, g, a.header.pageCount, g', b.header.pageCount);
    hide Balanced;
    InsertedOf(c, a, g, t, 0, key, value, b, q, g', [t.id]);
  }

  lemma TwoPages(left: nat, right: nat, was: nat, g: seq<nat>, n: nat, g': seq<nat>, n': nat)
    requires Balanced(multiset{}, g, n, multiset{right, left}, [], g', n')
    ensures Balanced(multiset{was}, g, n, multiset{left} + multiset{right}, [was], g', n')
  {
    forall x
      ensures (multiset{left} + multiset{right})[x] + multiset([was])[x] + multiset(g')[x] + InFile(n, x)
              == multiset{was}[x] + multiset(g)[x] + InFile(n', x)
    {
      assert multiset{right, left}[x] + multiset(g')[x] + InFile(n, x) == multiset(g)[x] + InFile(n', x);
    }
  }

  /** Child `t` was rebuilt as `q` on pages of `m`, giving up the pages in `path`. */
  ghost predicate Rebuilt(c: Config, a: Image, g: seq<nat>, t: PTree, m: Image, q: POutcome, g1: seq<nat>, path: seq<nat>)
    requires ConfigOk(c)
  {
    && Moved(c, a, g, m, g1)
    && OutcomeShown(c, m, q)
    && Balanced(Ids(t), g, a.header.pageCount, OutcomeIds(q), path, g1, m.header.pageCount)
  }

  /** After the child was rebuilt: the new row of children, all readable and off the freelist. */
  lemma RowRebuilt(c: Config, a: Image, g: seq<nat>, t: PTree, i: nat, m: Image, q: POutcome, g1: seq<nat>, path: seq<nat>)
    requires ConfigOk(c) && t.PBranch? && i < |t.children| && Free(c, a, g) && Shows(c, a, t) && Apart(Ids(t), g)
    requires Rebuilt(c, a, g, t.children[i], m, q, g1, path)
    ensures Sized(c, m)
    ensures AllShow(c, m, NewChildren(t.children, i, q))
    ensures Apart(IdsAll(NewChildren(t.children, i, q)), g1)
  {
    var cs, ci := t.children, t.children[i];
    var rest := IdsAll(cs[..i]) + IdsAll(cs[i + 1..]);
    NewChildrenIds(cs, i, q);
    RangeOf(c, a, t, g);
    SiblingsShow(c, a, g, t, i, m, g1);
    NewChildrenShow(c, m, cs, i, q);
    hide Moved, Shows;
    assert Balanced(Ids(ci), g, a.header.pageCount, OutcomeIds(q), path, g1, m.header.pageCount);
    RestApart(t.id, rest, Ids(ci), g, a.header.pageCount, OutcomeIds(q), path, g1, m.header.pageCount);
  }

  lemma RestApart(p: nat, rest: multiset<nat>, ids: multiset<nat>, g: seq<nat>, n: nat,
                  out: multiset<nat>, path: seq<nat>, g1: seq<nat>, n1: nat)
    requires Balanced(ids, g, n, out, path, g1, n1) && InRange(multiset{p} + (rest + ids), g, n) && n <= n1
    ensures Apart(rest + out, g1)
  {
    forall x ensures (rest + out)[x] + multiset(g1)[x] <= 1 {
      assert out[x] + multiset(path)[x] + multiset(g1)[x] + InFile(n, x) == ids[x] + multiset(g)[x] + InFile(n1, x);
      assert (multiset{p} + (rest + ids))[x] + multiset(g)[x] <= InFile(n, x);
    }
  }

  lemma SiblingsShow(c: Config, a: Image, g: seq<nat>, t: PTree, i: nat, m: Image, g1: seq<nat>)
    requires ConfigOk(c) && t.PBranch? && Moved(c, a, g, m, g1) && Shows(c, a, t) && Apart(Ids(t), g)
    ensures forall j :: 0 <= j < |t.children| && j != i ==> Shows(c, m, t.children[j])
  {
    hide Moved;
    assert Sized(c, m) by { MovedSized(c, a, g, m, g1); }
    forall j | 0 <= j < |t.children| && j != i ensures Shows(c, m, t.children[j]) {
      ChildIdsWithin(t, j);
      ShowsMoved(c, a, g, m, g1, t.children[j]);
    }
  }

  lemma MovedSized(c: Config, a: Image, f: seq<nat>, b: Image, g: seq<nat>)
    requires Moved(c, a, f, b, g)
    ensures Sized(c, a) && Sized(c, b) && a.header.pageCount <= b.header.pageCount
    ensures Free(c, a, f) && Free(c, b, g)
  {
  }

  /** The key and page-id lists of the rebuilt branch fit a page when there are few enough. */
  lemma RebuiltFits(c: Config, a: Image, t: PTree, i: nat, m: Image, q: POutcome)
    requires ConfigOk(c) && Sized(c, a) && Sized(c, m) && t.PBranch? && i < |t.children| && Shows(c, a, t)
    requires AllShow(c, m, NewChildren(t.children, i, q)) && OutcomeShown(c, m, q)
    ensures |t.children| == |t.keys| + 1 && |t.keys| <= InternalCapacity(c)
    ensures |NewChildren(t.children, i, q)| == |NewKeys(t.keys, i, q)| + 1
    ensures |NewKeys(t.keys, i, q)| <= InternalCapacity(c) + 1
    ensures forall j :: 0 <= j < |NewKeys(t.keys, i, q)| ==> FitsKey(c, NewKeys(t.keys, i, q)[j])
    ensures forall j :: 0 <= j < |ChildIds(NewChildren(t.children, i, q))| ==>
              ChildIds(NewChildren(t.children, i, q))[j] < 0x1_0000_0000
  {
    NodeFitsOf(c, a, t);
    hide Shows, Decode;
    NewKeysFit(c, t.keys, i, q);
    ChildIdsFit(c, m, NewChildren(t.children, i, q));
  }

  /** Child `i` of `t` was rebuilt as `q`; then more pages were written. */
  ghost predicate ChildRebuilt(c: Config, a: Image, g: seq<nat>, t: PTree, h: nat, i: nat,
                               m: Image, q: POutcome, g1: seq<nat>, path: seq<nat>, b: Image, g2: seq<nat>)
    requires ConfigOk(c)
  {
    && t.PBranch? && h > 0 && i < |t.children| == |t.keys| + 1
    && Free(c, a, g) && Shows(c, a, t) && Apart(Ids(t), g)
    && Rebuilt(c, a, g, t.children[i], m, q, g1, path)
    && m.header.pageCount <= a.header.pageCount + 2 * h
    && Moved(c, m, g1, b, g2)
    && b.header.pageCount <= m.header.pageCount + 2
  }

  /** Child `i` is where `key` belongs, and `q` is what inserting there makes of it. */
  ghost predicate ChildInserted(c: Config, t: PTree, i: nat, key: Key, value: Value, q: POutcome)
    requires ConfigOk(c)
  {
    && t.PBranch? && i < |t.children| && i == Rank(t.keys, key)
    && Shaped(Strip(t.children[i])) && StripOutcome(q) == Insert(Strip(t.children[i]), key, value, CapsOf(c))
  }

  lemma RebuiltShows(c: Config, a: Image, g: seq<nat>, t: PTree, h: nat, i: nat,
                     m: Image, q: POutcome, g1: seq<nat>, path: seq<nat>, b: Image, g2: seq<nat>)
    requires ConfigOk(c) && ChildRebuilt(c, a, g, t, h, i, m, q, g1, path, b, g2)
    ensures Moved(c, a, g, b, g2) && Sized(c, a) && Shows(c, a, t)
    ensures AllShow(c, b, NewChildren(t.children, i, q))
  {
    hide Shows, AllShow, OutcomeShown;
    RowRebuilt(c, a, g, t, i, m, q, g1, path);
    MovedTransitive(c, a, g, m, g1, b, g2);
    hide Moved, Balanced;
    AllShowMoved(c, m, g1, b, g2, NewChildren(t.children, i, q));
  }

  lemma RebuiltStrip(c: Config, a: Image, t: PTree, i: nat, key: Key, value: Value, q: POutcome)
    requires ConfigOk(c) && Sized(c, a) && Shows(c, a, t) && ChildInserted(c, t, i, key, value, q)
    requires |t.children| == |t.keys| + 1
    ensures var ks', cs' := NewKeys(t.keys, i, q), NewChildren(t.children, i, q);
            && Shaped(Strip(t)) && |cs'| == |ks'| + 1
            && Insert(Strip(t), key, value, CapsOf(c))
               == if q.PReplaced? || |ks'| <= InternalCapacity(c) then Replaced(Branch(ks', StripAll(cs')))
                  else SplitBranch(ks', StripAll(cs'))
  {
    ShownShaped(c, a, t);
    hide Shows;
    NewChildrenStrip(t.keys, t.children, i, q, CapsOf(c));
  }

  lemma RebuiltBalance(c: Config, a: Image, g: seq<nat>, t: PTree, h: nat, i: nat,
                       m: Image, q: POutcome, g1: seq<nat>, path: seq<nat>, b: Image, g2: seq<nat>, made: multiset<nat>)
    requires ConfigOk(c) && ChildRebuilt(c, a, g, t, h, i, m, q, g1, path, b, g2)
    requires Balanced(multiset{}, g1, m.header.pageCount, made, [], g2, b.header.pageCount)
    ensures Balanced(Ids(t), g, a.header.pageCount,
                     made + IdsAll(NewChildren(t.children, i, q)), path + [t.id], g2, b.header.pageCount)
    ensures b.header.pageCount <= a.header.pageCount + 2 * (h + 1)
  {
    NewChildrenIds(t.children, i, q);
    hide Moved, Shows, NewChildren;
    var child := t.children[i];
    assert Balanced(Ids(child), g, a.header.pageCount, OutcomeIds(q), path, g1, m.header.pageCount);
    hide Balanced;
    BalanceSum(t.id, IdsAll(t.children[..i]) + IdsAll(t.children[i + 1..]), Ids(child), g, a.header.pageCount,
               OutcomeIds(q), path, g1, m.header.pageCount, made, g2, b.header.pageCount);
  }

  /** Page `id` holds the branch with these keys and children. */
  ghost predicate Laid(c: Config, b: Image, id: nat, ks: seq<Key>, cs: seq<PTree>)
    requires ConfigOk(c) && Sized(c, b)
  {
    1 <= id < b.header.pageCount && Decode(c, b.pages[id]) == InternalNode(ks, ChildIds(cs))
  }

  lemma LaidShows(c: Config, b: Image, id: nat, ks: seq<Key>, cs: seq<PTree>)
    requires ConfigOk(c) && Sized(c, b) && Laid(c, b, id, ks, cs) && AllShow(c, b, cs)
    ensures Shows(c, b, PBranch(id, ks, cs))
  {
  }

  lemma BranchReplaced(c: Config, a: Image, g: seq<nat>, t: PTree, h: nat, i: nat, key: Key, value: Value,
                       m: Image, q: POutcome, g1: seq<nat>, path: seq<nat>, b: Image, g2: seq<nat>,
                       id: nat, ks: seq<Key>, cs: seq<PTree>)
    requires ConfigOk(c) && ChildRebuilt(c, a, g, t, h, i, m, q, g1, path, b, g2) && ChildInserted(c, t, i, key, value, q)
    requires ks == NewKeys(t.keys, i, q) && cs == NewChildren(t.children, i, q)
    requires |ks| <= InternalCapacity(c) && Sized(c, b) && Laid(c, b, id, ks, cs)
    requires Balanced(multiset{}, g1, m.header.pageCount, multiset{id}, [], g2, b.header.pageCount)
    ensures Inserted(c, a, g, t, h, key, value, b, PReplaced(PBranch(id, ks, cs)), g2, path + [t.id])
  {
    hide *;
    ChildIndex(c, a, g, t, h, i, m, q, g1, path, b, g2);
    RebuiltShows(c, a, g, t, h, i, m, q, g1, path, b, g2);
    RebuiltStrip(c, a, t, i, key, value, q);
    RebuiltBalance(c, a, g, t, h, i, m, q, g1, path, b, g2, multiset{id});
    LaidOutcome(c, b, id, ks, cs);
    InsertedOf(c, a, g, t, h, key, value, b, PReplaced(PBranch(id, ks, cs)), g2, path + [t.id]);
  }

  lemma ChildIndex(c: Config, a: Image, g: seq<nat>, t: PTree, h: nat, i: nat,
                   m: Image, q: POutcome, g1: seq<nat>, path: seq<nat>, b: Image, g2: seq<nat>)
    requires ConfigOk(c) && ChildRebuilt(c, a, g, t, h, i, m, q, g1, path, b, g2)
    ensures t.PBranch? && i < |t.children| == |t.keys| + 1
    ensures c.pageSize >= HEADER && c.keyLen + c.valueLen > 0
  {
    hide Moved, Shows, Rebuilt;
  }

  lemma LaidOutcome(c: Config, b: Image, id: nat, ks: seq<Key>, cs: seq<PTree>)
    requires ConfigOk(c) && Sized(c, b) && Laid(c, b, id, ks, cs) && AllShow(c, b, cs)
    ensures var q := PReplaced(PBranch(id, ks, cs));
            && OutcomeShown(c, b, q) && StripOutcome(q) == Replaced(Branch(ks, StripAll(cs)))
            && OutcomeIds(q) == multiset{id} + IdsAll(cs)
  {
    LaidShows(c, b, id, ks, cs);
    hide Shows, Laid, AllShow;
  }

  lemma BranchSplit(c: Config, a: Image, g: seq<nat>, t: PTree, h: nat, i: nat, key: Key, value: Value,
                    m: Image, q: POutcome, g1: seq<nat>, path: seq<nat>, b: Image, g2: seq<nat>,
                    left: nat, right: nat, ks: seq<Key>, cs: seq<PTree>)
    requires ConfigOk(c) && ChildRebuilt(c, a, g, t, h, i, m, q, g1, path, b, g2) && ChildInserted(c, t, i, key, value, q)
    requires ks == NewKeys(t.keys, i, q) && cs == NewChildren(t.children, i, q)
    requires q.PSplit? && |ks| > InternalCapacity(c) && |ks| >= 2 && |cs| == |ks| + 1
    requires Sized(c, b)
    requires var mid := |ks| / 2;
             && FitsKey(c, ks[mid])
             && Laid(c, b, left, ks[..mid], cs[..mid + 1]) && Laid(c, b, right, ks[mid + 1..], cs[mid + 1..])
    requires Balanced(multiset{}, g1, m.header.pageCount, multiset{left, right}, [], g2, b.header.pageCount)
    ensures Inserted(c, a, g, t, h, key, value, b, Halves(left, right, ks, cs), g2, path + [t.id])
  {
    hide *;
    ChildIndex(c, a, g, t, h, i, m, q, g1, path, b, g2);
    RebuiltShows(c, a, g, t, h, i, m, q, g1, path, b, g2);
    RebuiltStrip(c, a, t, i, key, value, q);
    RebuiltBalance(c, a, g, t, h, i, m, q, g1, path, b, g2, multiset{left, right});
    HalvesShow(c, b, left, right, ks, cs);
    HalvesStrip(left, right, ks, cs);
    InsertedOf(c, a, g, t, h, key, value, b, Halves(left, right, ks, cs), g2, path + [t.id]);
  }

  /** The two pages an overflowing branch is split into. */
  ghost function Halves(left: nat, right: nat, ks: seq<Key>, cs: seq<PTree>): POutcome
    requires |cs| == |ks| + 1 && |ks| >= 2
  {
    var mid := |ks| / 2;
    PSplit(PBranch(left, ks[..mid], cs[..mid + 1]), ks[mid], PBranch(right, ks[mid + 1..], cs[mid + 1..]))
  }

  lemma InsertedOf(c: Config, a: Image, g: seq<nat>, t: PTree, h: nat, key: Key, value: Value,
                   b: Image, q: POutcome, g2: seq<nat>, path: seq<nat>)
    requires ConfigOk(c) && Moved(c, a, g, b, g2) && Sized(c, b) && OutcomeShown(c, b, q)
    requires Shaped(Strip(t)) && StripOutcome(q) == Insert(Strip(t), key, value, CapsOf(c))
    requires Balanced(Ids(t), g, a.header.pageCount, OutcomeIds(q), path, g2, b.header.pageCount)
    requires b.header.pageCount <= a.header.pageCount + 2 * (h + 1)
    ensures Inserted(c, a, g, t, h, key, value, b, q, g2, path)
  {
    hide Moved, Shows, OutcomeShown, Insert, Shaped, Balanced, Ids, OutcomeIds, StripOutcome, Strip;
  }

  lemma HalvesShow(c: Config, b: Image, left: nat, right: nat, ks: seq<Key>, cs: seq<PTree>)
    requires ConfigOk(c) && Sized(c, b) && AllShow(c, b, cs)
    requires |ks| >= 2 && |cs| == |ks| + 1
    requires var mid := |ks| / 2;
             && FitsKey(c, ks[mid])
             && Laid(c, b, left, ks[..mid], cs[..mid + 1]) && Laid(c, b, right, ks[mid + 1..], cs[mid + 1..])
    ensures OutcomeShown(c, b, Halves(left, right, ks, cs))
  {
    hide Laid, Shows, FitsKey;
    var mid := |ks| / 2;
    LaidShows(c, b, left, ks[..mid], cs[..mid + 1]);
    LaidShows(c, b, right, ks[mid + 1..], cs[mid + 1..]);
  }

  lemma HalvesStrip(left: nat, right: nat, ks: seq<Key>, cs: seq<PTree>)
    requires |cs| == |ks| + 1 && |ks| >= 2
    ensures StripOutcome(Halves(left, right, ks, cs)) == SplitBranch(ks, StripAll(cs))
    ensures OutcomeIds(Halves(left, right, ks, cs)) == multiset{left, right} + IdsAll(cs)
  {
    var mid := |ks| / 2;
    StripCut(cs, mid + 1);
    assert cs == cs[..mid + 1] + cs[mid + 1..];
    IdsConcat(cs[..mid + 1], cs[mid + 1..]);
  }

  // ---------- allocation ----------

  /** Where an update started: the file, its freelist, and what had been seen by then. */
  datatype Base = Base(image: Image, free: seq<nat>, seen: seq<Image>)

  lemma AllocationKeeps(c: Config, b: Base, a: Image, g: seq<nat>, trace: seq<Image>)
    requires Moved(c, b.image, b.free, a, g) && a.header.pageCount < MAX_PAGES
    requires b.seen <= trace && AllWithin(c, b.image, b.free, trace[|b.seen|..])
    ensures a.header.freeHead < |a.pages|
    ensures var xs := AllocationSteps(c, a);
            && |xs| == 2
            && Moved(c, b.image, b.free, xs[1], FreeAfter(g))
            && AllWithin(c, b.image, b.free, (trace + xs)[|b.seen|..])
  {
    hide AllocationSteps, Within;
    AllocationMoves(c, a, g);
    var xs := AllocationSteps(c, a);
    hide Moved;
    MovedTransitive(c, b.image, b.free, a, g, xs[1], FreeAfter(g));
    assert (trace + xs)[|b.seen|..] == trace[|b.seen|..] + xs;
    assert AllWithin(c, a, g, xs);
    WithinAfter(c, b.image, b.free, a, g, xs);
  }

  lemma AllocationBalance(c: Config, a: Image, g: seq<nat>)
    requires Free(c, a, g) && a.header.pageCount < MAX_PAGES && a.header.freeHead < |a.pages|
    ensures var id, b := AllocatedId(a), AllocationSteps(c, a)[1];
            && 1 <= id < b.header.pageCount && id !in FreeAfter(g)
            && (id in g || id == a.header.pageCount)
            && b.header.pageCount <= a.header.pageCount + 1
            && Balanced(multiset{}, g, a.header.pageCount, multiset{id}, [], FreeAfter(g), b.header.pageCount)
  {
    ChainInRange(c, a, a.header.freeHead, g);
    if g != [] {
      assert g == [g[0]] + g[1..];
      assert multiset(g) == multiset{g[0]} + multiset(g[1..]);
      assert multiset(g)[g[0]] <= 1;
    }
  }

  lemma StoreKeeps(c: Config, b: Base, a: Image, g: seq<nat>, trace: seq<Image>, id: nat, page: Page)
    requires Moved(c, b.image, b.free, a, g) && id < a.header.pageCount && id !in g && |page| == c.pageSize
    requires id in b.free || id >= b.image.header.pageCount
    requires b.seen <= trace && AllWithin(c, b.image, b.free, trace[|b.seen|..])
    ensures var cleared := a.(pages := a.pages[id := Zeros(c.pageSize)]);
            var done := a.(pages := a.pages[id := page]);
            && Moved(c, b.image, b.free, done, g)
            && AllWithin(c, b.image, b.free, (trace + [cleared, done])[|b.seen|..])
  {
    WriteMoves(c, b.image, b.free, a, g, id, Zeros(c.pageSize));
    WriteMoves(c, b.image, b.free, a, g, id, page);
    var cleared := a.(pages := a.pages[id := Zeros(c.pageSize)]);
    var done := a.(pages := a.pages[id := page]);
    hide Moved;
    assert (trace + [cleared, done])[|b.seen|..] == trace[|b.seen|..] + [cleared, done];
  }

  lemma SecondFresh(c: Config, a: Image, g1: seq<nat>, b: Image, g2: seq<nat>, id1: nat, id2: nat, n0: nat, g: seq<nat>)
    requires Moved(c, a, g1, b, g2) && id1 !in g1 && id1 < a.header.pageCount
    requires id2 in g1 || id2 >= a.header.pageCount
    requires Balanced(multiset{}, g, n0, multiset{id1}, [], g1, a.header.pageCount)
    requires Balanced(multiset{}, g1, a.header.pageCount, multiset{id2}, [], g2, b.header.pageCount)
    requires Suffix(g1, g) && n0 <= a.header.pageCount
    ensures id1 != id2 && id1 !in g2 && (id2 in g || id2 >= n0)
    ensures Balanced(multiset{}, g, n0, multiset{id1, id2}, [], g2, b.header.pageCount)
  {
    SuffixMembers(g2, g1);
    SuffixMembers(g1, g);
    forall x
      ensures multiset{id1, id2}[x] + multiset(g2)[x] + InFile(n0, x)
              == multiset(g)[x] + InFile(b.header.pageCount, x)
    {
      assert multiset{id1}[x] + multiset(g1)[x] + InFile(n0, x) == multiset(g)[x] + InFile(a.header.pageCount, x);
      assert multiset{id2}[x] + multiset(g2)[x] + InFile(a.header.pageCount, x)
             == multiset(g1)[x] + InFile(b.header.pageCount, x);
    }
  }

  /** Child `Rank(t.keys, key)` of `t` became `q`; `ks`, `ids` and `cs` are the branch that has to be written above it. */
  ghost predicate Pending(c: Config, a: Image, g: seq<nat>, t: PTree, h: nat, key: Key, value: Value,
                          m: Image, q: POutcome, g1: seq<nat>, p1: seq<nat>,
                          ks: seq<Key>, ids: seq<nat>, cs: seq<PTree>)
    requires ConfigOk(c)
  {
    && t.PBranch? && h > 0 && |t.children| == |t.keys| + 1
    && Free(c, a, g) && Shows(c, a, t) && Apart(Ids(t), g)
    && Inserted(c, a, g, t.children[Rank(t.keys, key)], h - 1, key, value, m, q, g1, p1)
    && ks == NewKeys(t.keys, Rank(t.keys, key), q) && cs == NewChildren(t.children, Rank(t.keys, key), q)
    && ids == ChildIds(cs) && |cs| == |ks| + 1
    && |ks| <= InternalCapacity(c) + 1 && (q.PReplaced? ==> |ks| <= InternalCapacity(c))
    && (forall j :: 0 <= j < |ks| ==> FitsKey(c, ks[j]))
    && (forall j :: 0 <= j < |ids| ==> ids[j] < 0x1_0000_0000)
  }

  lemma PendingFits(c: Config, a: Image, g: seq<nat>, t: PTree, h: nat, key: Key, value: Value,
                    m: Image, q: POutcome, g1: seq<nat>, p1: seq<nat>, ks: seq<Key>, ids: seq<nat>, cs: seq<PTree>)
    requires ConfigOk(c) && Pending(c, a, g, t, h, key, value, m, q, g1, p1, ks, ids, cs)
    ensures |ids| == |cs| == |ks| + 1 && ids == ChildIds(cs)
    ensures |ks| <= InternalCapacity(c) ==> NodeFits(c, InternalNode(ks, ids))
    ensures |ks| > InternalCapacity(c) ==>
              var mid := |ks| / 2;
              && FitsKey(c, ks[mid]) && q.PSplit?
              && NodeFits(c, InternalNode(ks[..mid], ids[..mid + 1]))
              && NodeFits(c, InternalNode(ks[mid + 1..], ids[mid + 1..]))
              && ids[..mid + 1] == ChildIds(cs[..mid + 1]) && ids[mid + 1..] == ChildIds(cs[mid + 1..])
  {
    hide Shows, Inserted, Free, Apart, NewKeys, NewChildren, FitsKey;
    if |ks| > InternalCapacity(c) {
      HalvesFit(c, ks, ids);
      IdListsCut(cs, |ks| / 2 + 1);
    }
  }

  lemma PendingRebuilt(c: Config, a: Image, g: seq<nat>, t: PTree, h: nat, key: Key, value: Value,
                       m: Image, q: POutcome, g1: seq<nat>, p1: seq<nat>, ks: seq<Key>, ids: seq<nat>, cs: seq<PTree>,
                       b: Image, g2: seq<nat>)
    requires ConfigOk(c) && Pending(c, a, g, t, h, key, value, m, q, g1, p1, ks, ids, cs)
    requires Moved(c, m, g1, b, g2) && b.header.pageCount <= m.header.pageCount + 2
    ensures Rank(t.keys, key) < |t.children| && Sized(c, b)
    ensures ChildRebuilt(c, a, g, t, h, Rank(t.keys, key), m, q, g1, p1, b, g2)
    ensures ChildInserted(c, t, Rank(t.keys, key), key, value, q)
    ensures ks == NewKeys(t.keys, Rank(t.keys, key), q) && cs == NewChildren(t.children, Rank(t.keys, key), q)
  {
    hide Moved, Shows, Free, Apart, NewKeys, NewChildren, Insert, Shaped, Rebuilt, FitsKey, ChildIds, Strip, StripOutcome, Ids, Sized, ConfigOk;
    MovedSized(c, m, g1, b, g2);
  }

  lemma PendingOf(c: Config, a: Image, g: seq<nat>, t: PTree, h: nat, key: Key, value: Value,
                  m: Image, q: POutcome, g1: seq<nat>, p1: seq<nat>)
    requires ConfigOk(c) && t.PBranch? && h > 0 && |t.children| == |t.keys| + 1
    requires Free(c, a, g) && Shows(c, a, t) && Apart(Ids(t), g)
    requires Inserted(c, a, g, t.children[Rank(t.keys, key)], h - 1, key, value, m, q, g1, p1)
    ensures var i := Rank(t.keys, key);
            Pending(c, a, g, t, h, key, value, m, q, g1, p1,
                    NewKeys(t.keys, i, q), ChildIds(NewChildren(t.children, i, q)), NewChildren(t.children, i, q))
  {
    hide Shows, Inserted, ChildIds, NewChildren, NewKeys, FitsKey, Apart, Free, Ids, Level, InternalCapacity, ConfigOk, Rank;
    PendingLists(c, a, g, t, h, m, q, g1, p1, Rank(t.keys, key), key, value);
  }

  lemma PendingLists(c: Config, a: Image, g: seq<nat>, t: PTree, h: nat, m: Image, q: POutcome, g1: seq<nat>, p1: seq<nat>,
                     i: nat, key: Key, value: Value)
    requires ConfigOk(c) && t.PBranch? && h > 0 && i < |t.children| == |t.keys| + 1
    requires Free(c, a, g) && Shows(c, a, t) && Apart(Ids(t), g)
    requires Inserted(c, a, g, t.children[i], h - 1, key, value, m, q, g1, p1)
    ensures |NewChildren(t.children, i, q)| == |NewKeys(t.keys, i, q)| + 1
    ensures |NewKeys(t.keys, i, q)| <= InternalCapacity(c) + 1
    ensures q.PReplaced? ==> |NewKeys(t.keys, i, q)| <= InternalCapacity(c)
    ensures forall j :: 0 <= j < |NewKeys(t.keys, i, q)| ==> FitsKey(c, NewKeys(t.keys, i, q)[j])
    ensures forall j :: 0 <= j < |ChildIds(NewChildren(t.children, i, q))| ==>
              ChildIds(NewChildren(t.children, i, q))[j] < 0x1_0000_0000
  {
    hide *;
    InsertedParts(c, a, g, t.children[i], h - 1, key, value, m, q, g1, p1);
    RowRebuilt(c, a, g, t, i, m, q, g1, p1);
    RebuiltFits(c, a, t, i, m, q);
    RebuiltFew(c, a, t, q, i);
  }

  lemma InsertedParts(c: Config, a: Image, g: seq<nat>, t: PTree, h: nat, key: Key, value: Value,
                      b: Image, q: POutcome, g': seq<nat>, path: seq<nat>)
    requires ConfigOk(c) && Inserted(c, a, g, t, h, key, value, b, q, g', path)
    ensures Rebuilt(c, a, g, t, b, q, g', path) && Moved(c, a, g, b, g') && Sized(c, b) && OutcomeShown(c, b, q)
    ensures Sized(c, a)
  {
  }

  lemma RebuiltFew(c: Config, a: Image, t: PTree, q: POutcome, i: nat)
    requires ConfigOk(c) && Sized(c, a) && t.PBranch? && Shows(c, a, t) && i <= |t.keys|
    ensures q.PReplaced? ==> |NewKeys(t.keys, i, q)| <= InternalCapacity(c)
  {
    NodeFitsOf(c, a, t);
  }

  /** The lists the code edits are the lists of the rebuilt branch. */
  lemma EditedLists(ks: seq<Key>, cs: seq<PTree>, i: nat, q: POutcome)
    requires i < |cs| && i <= |ks|
    ensures match OutcomePages(q)
            case IdReplaced(id) => ks == NewKeys(ks, i, q) && ChildIds(cs)[i := id] == ChildIds(NewChildren(cs, i, q))
            case IdSplit(left, sep, right) =>
              && InsertAt(ks, i, sep) == NewKeys(ks, i, q)
              && InsertAt(ChildIds(cs)[i := left], i + 1, right) == ChildIds(NewChildren(cs, i, q))
  {
    if q.PReplaced? {
      IdListsReplaced(cs, i, q.tree);
    } else {
      IdListsGained(cs, i, q.left, q.right);
    }
  }

  lemma BranchOf(c: Config, a: Image, t: PTree, h: nat)
    requires ConfigOk(c) && Sized(c, a) && Shows(c, a, t) && Level(Strip(t), h)
    requires Decode(c, a.pages[t.id]).InternalNode?
    ensures t.PBranch? && h > 0 && |t.children| == |t.keys| + 1
    ensures Decode(c, a.pages[t.id]) == InternalNode(t.keys, ChildIds(t.children))
    ensures forall i :: 0 <= i < |t.children| ==> Shows(c, a, t.children[i]) && Level(Strip(t.children[i]), h - 1)
  {
    NodeFitsOf(c, a, t);
  }

  lemma InsertedGrowth(c: Config, a: Image, g: seq<nat>, t: PTree, h: nat, key: Key, value: Value,
                       b: Image, q: POutcome, g': seq<nat>, path: seq<nat>)
    requires ConfigOk(c) && Inserted(c, a, g, t, h, key, value, b, q, g', path)
    ensures b.header.pageCount <= a.header.pageCount + 2 * (h + 1)
  {
  }

  lemma ChildApart(t: PTree, g: seq<nat>, i: nat)
    requires t.PBranch? && i < |t.children| && Apart(Ids(t), g)
    ensures Apart(Ids(t.children[i]), g)
  {
    ChildIdsWithin(t, i);
  }

  lemma HalvesFit(c: Config, ks: seq<Key>, ids: seq<nat>)
    requires ConfigOk(c) && |ids| == |ks| + 1 && |ks| == InternalCapacity(c) + 1
    requires forall j :: 0 <= j < |ks| ==> FitsKey(c, ks[j])
    requires forall j :: 0 <= j < |ids| ==> ids[j] < 0x1_0000_0000
    ensures var mid := |ks| / 2;
            && FitsKey(c, ks[mid])
            && NodeFits(c, InternalNode(ks[..mid], ids[..mid + 1]))
            && NodeFits(c, InternalNode(ks[mid + 1..], ids[mid + 1..]))
  {
    hide FitsKey;
  }

  lemma LeafHalvesFit(c: Config, es: seq<Pair>)
    requires ConfigOk(c) && |es| == LeafCapacity(c) + 1 && forall j :: 0 <= j < |es| ==> FitsPair(c, es[j])
    ensures NodeFits(c, LeafNode(es[..|es| / 2])) && NodeFits(c, LeafNode(es[|es| / 2..]))
  {
    hide FitsPair;
  }

  lemma PutSize(es: seq<Pair>, key: Key, value: Value)
    ensures |Put(es, key, value)| <= |es| + 1
  {
  }

  lemma RootFits(c: Config, a: Image, q: POutcome)
    requires ConfigOk(c) && Sized(c, a) && OutcomeShown(c, a, q) && q.PSplit?
    ensures NodeFits(c, InternalNode([q.sep], [q.left.id, q.right.id]))
  {
    hide Decode;
  }

  lemma RootSplit(c: Config, a: Image, f: seq<nat>, u: PTree, m: Image, q: POutcome, g1: seq<nat>, path: seq<nat>,
                  b: Image, g: seq<nat>, id: nat)
    requires ConfigOk(c) && Free(c, a, f) && Shows(c, a, u) && Apart(Ids(u), f)
    requires Rebuilt(c, a, f, u, m, q, g1, path) && q.PSplit? && Moved(c, m, g1, b, g)
    requires 1 <= id < b.header.pageCount
    requires Sized(c, b) && Decode(c, b.pages[id]) == InternalNode([q.sep], [q.left.id, q.right.id])
    requires Balanced(multiset{}, g1, m.header.pageCount, multiset{id}, [], g, b.header.pageCount)
    ensures var t := PBranch(id, [q.sep], [q.left, q.right]);
            && Shows(c, b, t)
            && Strip(t) == Rooted(StripOutcome(q))
            && Balanced(Ids(u), f, a.header.pageCount, Ids(t), path, g, b.header.pageCount)
  {
    hide *;
    RebuiltParts(c, a, f, u, m, q, g1, path);
    RangeOf(c, a, u, f);
    BalanceRange(Ids(u), f, a.header.pageCount, OutcomeIds(q), path, g1, m.header.pageCount);
    RootHalvesMove(c, m, g1, b, g, q);
    BalanceMore(Ids(u), f, a.header.pageCount, OutcomeIds(q), path, g1, m.header.pageCount,
                multiset{id}, g, b.header.pageCount);
    RootLaid(c, b, q, id);
  }

  lemma RebuiltParts(c: Config, a: Image, g: seq<nat>, t: PTree, m: Image, q: POutcome, g1: seq<nat>, path: seq<nat>)
    requires ConfigOk(c) && Rebuilt(c, a, g, t, m, q, g1, path)
    ensures Moved(c, a, g, m, g1) && Sized(c, a) && Sized(c, m) && OutcomeShown(c, m, q)
    ensures Balanced(Ids(t), g, a.header.pageCount, OutcomeIds(q), path, g1, m.header.pageCount)
  {
  }

  lemma RootLaid(c: Config, b: Image, q: POutcome, id: nat)
    requires ConfigOk(c) && Sized(c, b) && q.PSplit? && Shows(c, b, q.left) && Shows(c, b, q.right)
    requires 1 <= id < b.header.pageCount && Decode(c, b.pages[id]) == InternalNode([q.sep], [q.left.id, q.right.id])
    ensures var t := PBranch(id, [q.sep], [q.left, q.right]);
            Shows(c, b, t) && Strip(t) == Rooted(StripOutcome(q)) && Ids(t) == multiset{id} + OutcomeIds(q)
  {
    TwoChildren(q.left, q.right);
    hide Decode, StripAll, ChildIds, IdsAll;
  }

  lemma TwoChildren(l: PTree, r: PTree)
    ensures IdsAll([l, r]) == Ids(l) + Ids(r)
    ensures StripAll([l, r]) == [Strip(l), Strip(r)]
    ensures ChildIds([l, r]) == [l.id, r.id]
  {
    assert [l, r][1..] == [r] && [r][1..] == [];
    assert IdsAll([r]) == Ids(r) + IdsAll([r][1..]);
    assert IdsAll([l, r]) == Ids(l) + IdsAll([l, r][1..]);
    hide IdsAll, Ids, Strip;
    assert StripAll([l, r])[0] == Strip(l) && StripAll([l, r])[1] == Strip(r);
  }

  lemma BalanceMore(ids: multiset<nat>, g: seq<nat>, n: nat, out: multiset<nat>, path: seq<nat>, g1: seq<nat>, n1: nat,
                    made: multiset<nat>, g2: seq<nat>, n2: nat)
    requires Balanced(ids, g, n, out, path, g1, n1)
    requires Balanced(multiset{}, g1, n1, made, [], g2, n2)
    ensures Balanced(ids, g, n, made + out, path, g2, n2)
  {
    forall x
      ensures (made + out)[x] + multiset(path)[x] + multiset(g2)[x] + InFile(n, x) == ids[x] + multiset(g)[x] + InFile(n2, x)
    {
      assert out[x] + multiset(path)[x] + multiset(g1)[x] + InFile(n, x) == ids[x] + multiset(g)[x] + InFile(n1, x);
      assert made[x] + multiset(g2)[x] + InFile(n1, x) == multiset(g1)[x] + InFile(n2, x);
    }
  }

  lemma RootHalvesMove(c: Config, m: Image, g1: seq<nat>, b: Image, g: seq<nat>, q: POutcome)
    requires ConfigOk(c) && Moved(c, m, g1, b, g) && OutcomeShown(c, m, q) && q.PSplit? && Apart(OutcomeIds(q), g1)
    ensures Shows(c, b, q.left) && Shows(c, b, q.right)
  {
    hide Moved, Shows, Ids;
    assert forall x :: Ids(q.left)[x] <= OutcomeIds(q)[x] && Ids(q.right)[x] <= OutcomeIds(q)[x];
    ShowsMoved(c, m, g1, b, g, q.left);
    ShowsMoved(c, m, g1, b, g, q.right);
  }

  // ---------- one deletion ----------

  /** What rebuilding the subtree `t` for a deletion amounts to. */
  ghost predicate Deleted(c: Config, a: Image, g: seq<nat>, t: PTree, h: nat, key: Key,
                          b: Image, removed: Option<Value>, q: PTree, g': seq<nat>, path: seq<nat>)
    requires ConfigOk(c)
  {
    && Rebuilt(c, a, g, t, b, PReplaced(q), g', path)
    && Shaped(Strip(t)) && Strip(q) == Delete(Strip(t), key) && removed == Lookup(Strip(t), key)
    && b.header.pageCount <= a.header.pageCount + 2 * (h + 1)
    && (removed.None? ==> b == a && g' == g && q == t && path == [])
    && (removed.Some? ==> q.id != t.id)
  }

  lemma NothingDeleted(c: Config, a: Image, g: seq<nat>, t: PTree, h: nat, key: Key)
    requires ConfigOk(c) && Free(c, a, g) && Shows(c, a, t) && Shaped(Strip(t)) && Lookup(Strip(t), key).None?
    ensures Deleted(c, a, g, t, h, key, a, None, t, g, [])
  {
    MovedSelf(c, a, g);
    DeleteAbsent(Strip(t), key);
    hide Shows, Moved, Delete, Lookup, Strip, Shaped;
    var none: seq<nat> := [];
    assert multiset(none) == multiset{};
  }

  lemma DropFits(c: Config, es: seq<Pair>, key: Key)
    requires ConfigOk(c) && NodeFits(c, LeafNode(es))
    ensures NodeFits(c, LeafNode(Drop(es, key)))
  {
    hide FitsPair, Search;
    var p, es' := Search(es, key), Drop(es, key);
    forall i | 0 <= i < |es'| ensures FitsPair(c, es'[i]) {
      if Found(es, key) {
        assert es'[i] == if i < p then es[i] else es[i + 1];
      }
    }
  }

  lemma LeafDropped(c: Config, a: Image, g: seq<nat>, t: PTree, key: Key, b: Image, id: nat, g': seq<nat>)
    requires ConfigOk(c) && t.PLeaf? && Moved(c, a, g, b, g') && Found(t.entries, key)
    requires 1 <= id < b.header.pageCount && Decode(c, b.pages[id]) == LeafNode(Drop(t.entries, key)) && id != t.id
    requires Balanced(multiset{}, g, a.header.pageCount, multiset{id}, [], g', b.header.pageCount)
    requires b.header.pageCount <= a.header.pageCount + 2
    ensures Deleted(c, a, g, t, 0, key, b, Find(t.entries, key), PLeaf(id, Drop(t.entries, key)), g', [t.id])
  {
    hide Moved, Drop, Decode, Search, Found;
    OnePage(id, t.id, g, a.header.pageCount, g', b.header.pageCount);
  }

  lemma OnePage(id: nat, was: nat, g: seq<nat>, n: nat, g': seq<nat>, n': nat)
    requires Balanced(multiset{}, g, n, multiset{id}, [], g', n')
    ensures Balanced(multiset{was}, g, n, multiset{id}, [was], g', n')
  {
    forall x
      ensures multiset{id}[x] + multiset([was])[x] + multiset(g')[x] + InFile(n, x)
              == multiset{was}[x] + multiset(g)[x] + InFile(n', x)
    {
      assert multiset{id}[x] + multiset(g')[x] + InFile(n, x) == multiset(g)[x] + InFile(n', x);
    }
  }

  /** Child `i` is where `key` belongs, and `q` is what deleting there leaves of it. */
  ghost predicate ChildDeleted(c: Config, t: PTree, i: nat, key: Key, removed: Option<Value>, q: PTree)
    requires ConfigOk(c)
  {
    && t.PBranch? && i < |t.children| && i == Rank(t.keys, key) && removed.Some?
    && Shaped(Strip(t.children[i])) && Strip(q) == Delete(Strip(t.children[i]), key)
    && removed == Lookup(Strip(t.children[i]), key)
  }

  lemma ThinnedStrip(c: Config, a: Image, t: PTree, i: nat, key: Key, removed: Option<Value>, q: PTree)
    requires ConfigOk(c) && Sized(c, a) && Shows(c, a, t) && ChildDeleted(c, t, i, key, removed, q)
    requires |t.children| == |t.keys| + 1
    ensures Shaped(Strip(t)) && removed == Lookup(Strip(t), key)
    ensures Delete(Strip(t), key) == Branch(t.keys, StripAll(t.children[i := q]))
  {
    ShownShaped(c, a, t);
    hide Shows;
    StripReplaced(t.children, i, q);
  }

  lemma BranchThinned(c: Config, a: Image, g: seq<nat>, t: PTree, h: nat, i: nat, key: Key,
                      m: Image, removed: Option<Value>, q: PTree, g1: seq<nat>, path: seq<nat>,
                      b: Image, g2: seq<nat>, id: nat)
    requires ConfigOk(c) && ChildRebuilt(c, a, g, t, h, i, m, PReplaced(q), g1, path, b, g2)
    requires ChildDeleted(c, t, i, key, removed, q)
    requires Sized(c, b) && id != t.id && Laid(c, b, id, t.keys, t.children[i := q])
    requires Balanced(multiset{}, g1, m.header.pageCount, multiset{id}, [], g2, b.header.pageCount)
    ensures Deleted(c, a, g, t, h, key, b, removed, PBranch(id, t.keys, t.children[i := q]), g2, path + [t.id])
  {
    hide *;
    ChildIndex(c, a, g, t, h, i, m, PReplaced(q), g1, path, b, g2);
    var cs := t.children[i := q];
    RebuiltShows(c, a, g, t, h, i, m, PReplaced(q), g1, path, b, g2);
    RowReplaced(t, i, q);
    ThinnedStrip(c, a, t, i, key, removed, q);
    RebuiltBalance(c, a, g, t, h, i, m, PReplaced(q), g1, path, b, g2, multiset{id});
    LaidOutcome(c, b, id, t.keys, cs);
    ChildFound(c, t, i, key, removed, q);
    DeletedOf(c, a, g, t, h, key, b, removed, PBranch(id, t.keys, cs), g2, path + [t.id]);
  }

  lemma RowReplaced(t: PTree, i: nat, q: PTree)
    requires t.PBranch? && i < |t.children|
    ensures NewChildren(t.children, i, PReplaced(q)) == t.children[i := q]
    ensures StripAll(t.children[i := q]) == StripAll(t.children)[i := Strip(q)]
  {
    StripReplaced(t.children, i, q);
  }

  lemma ChildFound(c: Config, t: PTree, i: nat, key: Key, removed: Option<Value>, q: PTree)
    requires ConfigOk(c) && ChildDeleted(c, t, i, key, removed, q)
    ensures removed.Some?
  {
  }

  lemma DeletedOf(c: Config, a: Image, g: seq<nat>, t: PTree, h: nat, key: Key,
                  b: Image, removed: Option<Value>, q: PTree, g2: seq<nat>, path: seq<nat>)
    requires ConfigOk(c) && Moved(c, a, g, b, g2) && Sized(c, b) && OutcomeShown(c, b, PReplaced(q))
    requires Shaped(Strip(t)) && StripOutcome(PReplaced(q)) == Replaced(Delete(Strip(t), key))
    requires removed == Lookup(Strip(t), key) && removed.Some? && q.id != t.id
    requires Balanced(Ids(t), g, a.header.pageCount, OutcomeIds(PReplaced(q)), path, g2, b.header.pageCount)
    requires b.header.pageCount <= a.header.pageCount + 2 * (h + 1)
    ensures Deleted(c, a, g, t, h, key, b, removed, q, g2, path)
  {
    hide Moved, Shows, OutcomeShown, Delete, Lookup, Shaped, Balanced, Ids, OutcomeIds, Strip;
  }

  lemma DeletedParts(c: Config, a: Image, g: seq<nat>, t: PTree, h: nat, key: Key,
                     b: Image, removed: Option<Value>, q: PTree, g': seq<nat>, path: seq<nat>)
    requires ConfigOk(c) && Deleted(c, a, g, t, h, key, b, removed, q, g', path)
    ensures Rebuilt(c, a, g, t, b, PReplaced(q), g', path) && Moved(c, a, g, b, g') && Sized(c, b) && Sized(c, a)
    ensures Shows(c, b, q) && Free(c, b, g')
    ensures Balanced(Ids(t), g, a.header.pageCount, Ids(q), path, g', b.header.pageCount)
    ensures b.header.pageCount <= a.header.pageCount + 2 * (h + 1)
    ensures removed.None? <==> q.id == t.id
    ensures removed.None? ==> b == a && g' == g && q == t && path == []
    ensures Shaped(Strip(t)) && Strip(q) == Delete(Strip(t), key) && removed == Lookup(Strip(t), key)
  {
    hide Delete, Lookup, Shaped, Balanced, Ids, Strip;
  }

  lemma NothingDeletedBelow(c: Config, a: Image, g: seq<nat>, t: PTree, h: nat, i: nat, key: Key)
    requires ConfigOk(c) && Free(c, a, g) && Shows(c, a, t)
    requires t.PBranch? && i < |t.children| && i == Rank(t.keys, key)
    requires Shaped(Strip(t.children[i])) && Lookup(Strip(t.children[i]), key).None?
    ensures Deleted(c, a, g, t, h, key, a, None, t, g, [])
  {
    ShownShaped(c, a, t);
    NothingDeleted(c, a, g, t, h, key);
  }

  lemma ThinnedFits(c: Config, a: Image, g: seq<nat>, t: PTree, i: nat, m: Image, q: PTree, g1: seq<nat>, p1: seq<nat>)
    requires ConfigOk(c) && Sized(c, a) && Sized(c, m) && Shows(c, a, t)
    requires t.PBranch? && i < |t.children| == |t.keys| + 1 && Shows(c, m, q)
    ensures NodeFits(c, InternalNode(t.keys, ChildIds(t.children)[i := q.id]))
  {
    NodeFitsOf(c, a, t);
    hide FitsKey, Decode;
  }

  lemma ThinnedChild(c: Config, a: Image, g: seq<nat>, t: PTree, h: nat, i: nat, key: Key,
                     m: Image, removed: Option<Value>, q: PTree, g1: seq<nat>, p1: seq<nat>, b: Image, g2: seq<nat>)
    requires ConfigOk(c) && t.PBranch? && h > 0 && i < |t.children| == |t.keys| + 1
    requires i == Rank(t.keys, key) && removed.Some?
    requires Free(c, a, g) && Shows(c, a, t) && Apart(Ids(t), g)
    requires Deleted(c, a, g, t.children[i], h - 1, key, m, removed, q, g1, p1)
    requires Moved(c, m, g1, b, g2) && b.header.pageCount <= m.header.pageCount + 2
    ensures ChildRebuilt(c, a, g, t, h, i, m, PReplaced(q), g1, p1, b, g2)
    ensures ChildDeleted(c, t, i, key, removed, q)
  {
    hide Moved, Shows, Free, Apart, Rebuilt, Shaped, Delete, Lookup, Rank, Strip, Ids;
  }

  lemma FreshAbove(c: Config, a: Image, g: seq<nat>, t: PTree, m: Image, g1: seq<nat>, id: nat)
    requires ConfigOk(c) && Moved(c, a, g, m, g1) && Shows(c, a, t) && Apart(Ids(t), g)
    requires id in g1 || id >= m.header.pageCount
    ensures id != t.id
  {
    SuffixMembers(g1, g);
    assert Ids(t)[t.id] + multiset(g)[t.id] <= 1;
  }

  lemma LaidThinned(c: Config, b: Image, id: nat, ks: seq<Key>, cs: seq<PTree>, ids: seq<nat>)
    requires ConfigOk(c) && Sized(c, b) && 1 <= id < b.header.pageCount && ids == ChildIds(cs)
    requires Decode(c, b.pages[id]) == InternalNode(ks, ids)
    ensures Laid(c, b, id, ks, cs)
  {
  }

  lemma KeyInSpace(c: Config, k: Key)
    requires FitsKey(c, k)
    ensures k < Pow256(c.keyLen)
  {
  }

  lemma PairInSpace(c: Config, k: Key, v: Value)
    requires FitsPair(c, Pair(k, v))
    ensures k < Pow256(c.keyLen)
  {
  }

  // ---------- publishing ----------

  /** Opening the file finds tree `t` on its root, clear of some well-formed freelist. */
  ghost predicate Kept(c: Config, a: Image, t: Option<PTree>) {
    exists f :: Holds(c, a, t, f)
  }

  /** The states before the `k`th keep tree `t`, from it on they keep tree `u`. */
  ghost predicate KeptFrom(c: Config, xs: seq<Image>, k: nat, t: Option<PTree>, u: Option<PTree>) {
    k <= |xs| && (forall i :: 0 <= i < k ==> Kept(c, xs[i], t)) && forall i :: k <= i < |xs| ==> Kept(c, xs[i], u)
  }

  /** At one moment, and once, the file goes over from tree `t` to tree `u`. */
  ghost predicate AllKept(c: Config, xs: seq<Image>, t: Option<PTree>, u: Option<PTree>) {
    exists k: nat :: KeptFrom(c, xs, k, t, u)
  }

  /** Nothing written before the root changes what the file holds. */
  lemma UnpublishedKept(c: Config, a: Image, t: Option<PTree>, f: seq<nat>, xs: seq<Image>, u: Option<PTree>)
    requires Holds(c, a, t, f) && AllWithin(c, a, f, xs)
    ensures KeptFrom(c, xs, |xs|, t, u)
  {
    hide Holds, Moved;
    forall i | 0 <= i < |xs| ensures Kept(c, xs[i], t) {
      assert xs[i] in xs;
      var g :| Moved(c, a, f, xs[i], g);
      HoldsWithin(c, a, t, f, xs[i], g);
    }
  }

  /**
    A page caught half written does no harm: whatever bytes an update has left on a page that
    was free or did not exist before, the file still stores the old map.
  */
  lemma TornPage(c: Config, a: Image, t: Option<PTree>, f: seq<nat>, b: Image, g: seq<nat>, id: nat, page: Page)
    requires Holds(c, a, t, f) && Sound(c, t) && Moved(c, a, f, b, g)
    requires id < b.header.pageCount && id !in g && (id in f || id >= a.header.pageCount) && |page| == c.pageSize
    ensures Stores(c, b.(pages := b.pages[id := page]), MapOf(PairsOf(t)))
  {
    WriteMoves(c, a, f, b, g, id, page);
    hide Moved, Holds, Sound, PairsOf, MapOf;
    HoldsWithin(c, a, t, f, b.(pages := b.pages[id := page]), g);
  }

  /** A file differing only in root and sequence number shows the same trees and freelist. */
  lemma SamePages(c: Config, a: Image, b: Image, t: PTree, g: seq<nat>)
    requires ConfigOk(c) && Free(c, a, g) && Shows(c, a, t) && Apart(Ids(t), g)
    requires b.pages == a.pages && b.header.pageCount == a.header.pageCount && b.header.freeHead == a.header.freeHead
    requires b.header.root == t.id
    ensures Holds(c, b, Some(t), g)
  {
    ChainInRange(c, a, a.header.freeHead, g);
    ChainUnchanged(c, a, b, a.header.freeHead, g);
    ShowsInRange(c, a, t);
    ShowsUnchanged(c, a, b, t);
  }

  /** Freeing a page outside the tree keeps the tree, before and after the header follows. */
  lemma FreeOne(c: Config, a: Image, t: PTree, f: seq<nat>, p: nat)
    requires Holds(c, a, Some(t), f) && 1 <= p < a.header.pageCount
    requires Ids(t)[p] + multiset(f)[p] == 0
    ensures var linked := a.(pages := a.pages[p := Linked(a.pages[p], a.header.freeHead)]);
            var done := linked.(header := a.header.(freeHead := p));
            Holds(c, linked, Some(t), f) && Holds(c, done, Some(t), [p] + f)
  {
    var linked := a.(pages := a.pages[p := Linked(a.pages[p], a.header.freeHead)]);
    var done := linked.(header := a.header.(freeHead := p));
    FreeingChains(c, a, f, p);
    ShowsUnchanged(c, a, linked, t);
    ShowsUnchanged(c, a, done, t);
    assert multiset([p] + f) == multiset{p} + multiset(f);
  }

  lemma HeldPages(c: Config, a: Image, t: PTree, f: seq<nat>)
    requires Holds(c, a, Some(t), f)
    ensures a.header.pageCount <= |a.pages| && forall p :: 0 <= p < |a.pages| ==> |a.pages[p]| >= 4
  {
    hide Shows, Chain, Apart;
  }

  lemma KeptTwice(c: Config, trace: seq<Image>, seen: seq<Image>, x: Image, y: Image,
                  old_: Option<PTree>, t: PTree, f: seq<nat>, g: seq<nat>)
    requires seen <= trace && AllKept(c, trace[|seen|..], old_, Some(t))
    requires Holds(c, x, Some(t), f) && Holds(c, y, Some(t), g)
    ensures seen <= trace + [x, y] && AllKept(c, (trace + [x, y])[|seen|..], old_, Some(t))
  {
    hide Holds, Kept;
    var k: nat :| KeptFrom(c, trace[|seen|..], k, old_, Some(t));
    KeptOn(c, trace, seen, x, y, k, old_, t, f, g);
  }

  lemma HeldKept(c: Config, a: Image, t: Option<PTree>, f: seq<nat>)
    requires Holds(c, a, t, f)
    ensures Kept(c, a, t)
  {
    hide Holds;
  }

  lemma KeptOn(c: Config, trace: seq<Image>, seen: seq<Image>, x: Image, y: Image, k: nat,
               old_: Option<PTree>, t: PTree, f: seq<nat>, g: seq<nat>)
    requires seen <= trace && KeptFrom(c, trace[|seen|..], k, old_, Some(t))
    requires Holds(c, x, Some(t), f) && Holds(c, y, Some(t), g)
    ensures seen <= trace + [x, y] && KeptFrom(c, (trace + [x, y])[|seen|..], k, old_, Some(t))
  {
    hide Holds, Kept;
    HeldKept(c, x, Some(t), f);
    HeldKept(c, y, Some(t), g);
    assert (trace + [x, y])[|seen|..] == trace[|seen|..] + [x, y];
  }

  /** Pages of the new tree, still to be freed, and free are disjoint and in the file. */
  ghost predicate Accounted(ids: multiset<nat>, path: seq<nat>, f: seq<nat>, n: nat) {
    forall x :: ids[x] + multiset(path)[x] + multiset(f)[x] <= InFile(n, x)
  }

  lemma AccountedStep(ids: multiset<nat>, path: seq<nat>, f: seq<nat>, n: nat)
    requires Accounted(ids, path, f, n) && path != []
    ensures 1 <= path[0] < n && ids[path[0]] + multiset(f)[path[0]] == 0
    ensures Accounted(ids, path[1..], [path[0]] + f, n)
    ensures multiset([path[0]] + f) + multiset(path[1..]) == multiset(f) + multiset(path)
  {
    var p := path[0];
    assert path == [p] + path[1..];
    assert multiset(path) == multiset{p} + multiset(path[1..]);
    assert multiset([p] + f) == multiset{p} + multiset(f);
    assert ids[p] + multiset(path)[p] + multiset(f)[p] <= InFile(n, p);
    forall x ensures ids[x] + multiset(path[1..])[x] + multiset([p] + f)[x] <= InFile(n, x) {
      assert ids[x] + multiset(path)[x] + multiset(f)[x] <= InFile(n, x);
    }
  }

  lemma PublishKeeps(c: Config, b: Base, old_: Option<PTree>, t: PTree, path: seq<nat>,
                     a: Image, g: seq<nat>, trace: seq<Image>, shown: Image, done: Image)
    requires ConfigOk(c) && Moved(c, b.image, b.free, a, g) && Holds(c, b.image, old_, b.free) && Shows(c, a, t)
    requires b.seen <= trace && AllWithin(c, b.image, b.free, trace[|b.seen|..])
    requires Balanced(MaybeIds(old_), b.free, b.image.header.pageCount, Ids(t), path, g, a.header.pageCount)
    requires shown == a.(header := a.header.(root := t.id))
    requires done == a.(header := a.header.(root := t.id, commitSeq := a.header.commitSeq + 1))
    ensures Holds(c, done, Some(t), g) && Accounted(Ids(t), path, g, done.header.pageCount)
    ensures b.seen <= trace + [shown, done]
    ensures KeptFrom(c, (trace + [shown, done])[|b.seen|..], |trace| - |b.seen|, old_, Some(t))
    ensures AllKept(c, (trace + [shown, done])[|b.seen|..], old_, Some(t))
  {
    hide *;
    HoldsRange(c, b.image, old_, b.free);
    MovedSized(c, b.image, b.free, a, g);
    BalanceRange(MaybeIds(old_), b.free, b.image.header.pageCount, Ids(t), path, g, a.header.pageCount);
    RangeAccounted(Ids(t), path, g, a.header.pageCount);
    UnpublishedKept(c, b.image, old_, b.free, trace[|b.seen|..], Some(t));
    SamePages(c, a, shown, t, g);
    SamePages(c, a, done, t, g);
    KeptOn(c, trace, b.seen, shown, done, |trace| - |b.seen|, old_, t, g, g);
    OverAt(c, (trace + [shown, done])[|b.seen|..], |trace| - |b.seen|, old_, Some(t));
  }

  lemma RangeAccounted(ids: multiset<nat>, path: seq<nat>, g: seq<nat>, n: nat)
    requires forall x :: ids[x] + multiset(path)[x] + multiset(g)[x] <= InFile(n, x)
    ensures Accounted(ids, path, g, n)
  {
  }

  // ---------- counting pages ----------

  /** Page `x` is in the file but neither in the tree nor free. */
  ghost function Leak(a: Image, t: Option<PTree>, f: seq<nat>, x: nat): int {
    InFile(a.header.pageCount, x) - MaybeIds(t)[x] - multiset(f)[x]
  }

  lemma LeaksUnchanged(a: Image, t: Option<PTree>, f: seq<nat>,
                       b: Image, u: PTree, path: seq<nat>, g: seq<nat>, n: nat, f': seq<nat>)
    requires Balanced(MaybeIds(t), f, a.header.pageCount, Ids(u), path, g, n) && b.header.pageCount == n
    requires multiset(f') == multiset(path) + multiset(g)
    ensures forall x: nat :: Leak(b, Some(u), f', x) == Leak(a, t, f, x)
  {
    forall x: nat ensures Leak(b, Some(u), f', x) == Leak(a, t, f, x) {
      assert Ids(u)[x] + multiset(path)[x] + multiset(g)[x] + InFile(a.header.pageCount, x)
             == MaybeIds(t)[x] + multiset(f)[x] + InFile(n, x);
    }
  }

  lemma HoldsRange(c: Config, a: Image, t: Option<PTree>, f: seq<nat>)
    requires Holds(c, a, t, f)
    ensures InRange(MaybeIds(t), f, a.header.pageCount)
  {
    ChainInRange(c, a, a.header.freeHead, f);
    if t.Some? {
      RangeOf(c, a, t.value, f);
    } else {
      forall x: nat ensures multiset(f)[x] <= InFile(a.header.pageCount, x) {
        if x in f { assert 1 <= x < a.header.pageCount; }
      }
    }
  }

  /** A file that keeps a sound tree stores the map that tree stands for. */
  lemma KeptStores(c: Config, a: Image, t: Option<PTree>)
    requires ConfigOk(c) && Kept(c, a, t) && Sound(c, t)
    ensures Stores(c, a, MapOf(PairsOf(t)))
  {
    var f :| Holds(c, a, t, f);
  }

  lemma OverAt(c: Config, xs: seq<Image>, k: nat, t: Option<PTree>, u: Option<PTree>)
    requires KeptFrom(c, xs, k, t, u)
    ensures AllKept(c, xs, t, u)
  {
  }

  ghost predicate StoresFrom(c: Config, xs: seq<Image>, k: nat, m: map<Key, Value>, n: map<Key, Value>) {
    k <= |xs| && (forall i :: 0 <= i < k ==> Stores(c, xs[i], m)) && forall i :: k <= i < |xs| ==> Stores(c, xs[i], n)
  }

  /** Up to some state the file stores map `m`, from it on map `n`. */
  ghost predicate GoesOver(c: Config, xs: seq<Image>, m: map<Key, Value>, n: map<Key, Value>) {
    exists k: nat :: StoresFrom(c, xs, k, m, n)
  }

  lemma NothingSeen(c: Config, m: map<Key, Value>, n: map<Key, Value>)
    ensures GoesOver(c, [], m, n)
  {
    assert StoresFrom(c, [], 0, m, n);
  }

  /** Before and after: the states on the way store the old map, then the new one. */
  lemma AllStore(c: Config, xs: seq<Image>, t: Option<PTree>, u: Option<PTree>)
    requires ConfigOk(c) && AllKept(c, xs, t, u) && Sound(c, t) && Sound(c, u)
    ensures GoesOver(c, xs, MapOf(PairsOf(t)), MapOf(PairsOf(u)))
  {
    hide Kept, Sound, Stores, MapOf, PairsOf;
    var k: nat :| KeptFrom(c, xs, k, t, u);
    forall i | 0 <= i < k ensures Stores(c, xs[i], MapOf(PairsOf(t))) {
      KeptStores(c, xs[i], t);
    }
    forall i | k <= i < |xs| ensures Stores(c, xs[i], MapOf(PairsOf(u))) {
      KeptStores(c, xs[i], u);
    }
    assert StoresFrom(c, xs, k, MapOf(PairsOf(t)), MapOf(PairsOf(u)));
  }

  lemma StoredTree(c: Config, a: Image, m: map<Key, Value>)
    returns (t: Option<PTree>, f: seq<nat>, h: nat)
    requires ConfigOk(c) && Stores(c, a, m)
    ensures Holds(c, a, t, f) && Sound(c, t) && MapOf(PairsOf(t)) == m && Sized(c, a)
    ensures t.Some? ==> Level(Strip(t.value), h)
  {
    t, f :| Holds(c, a, t, f) && Sound(c, t) && MapOf(PairsOf(t)) == m;
    hide MapOf, PairsOf, Proper, Level, Chain, Shows;
    h := if t.Some? then var h: nat :| Level(Strip(t.value), h); h else 0;
  }

  lemma SinglePair(c: Config, id: nat, key: Key, value: Value)
    requires ConfigOk(c) && FitsKey(c, key)
    ensures var t := Some(PLeaf(id, [Pair(key, value)]));
            && Sound(c, t) && Level(Strip(t.value), 0)
            && MapOf(PairsOf(t)) == map[key := value]
  {
    var es := [Pair(key, value)];
    assert es[1..] == [];
    assert MapOf(es) == MapOf(es[1..])[key := value];
    assert Level(Leaf(es), 0);
  }

  // ---------- reading ----------

  lemma ShownPage(c: Config, a: Image, t: PTree)
    requires ConfigOk(c) && Sized(c, a) && Shows(c, a, t)
    ensures t.id < |a.pages| && |a.pages[t.id]| == c.pageSize
  {
  }

  lemma ShownNode(c: Config, a: Image, t: PTree)
    requires ConfigOk(c) && Sized(c, a) && Shows(c, a, t)
    ensures t.id < |a.pages| && Decode(c, a.pages[t.id]) == NodeOf(t)
    ensures NodeOf(t) == if t.PLeaf? then LeafNode(t.entries) else InternalNode(t.keys, ChildIds(t.children))
  {
  }

  lemma LeafLookup(t: PTree, key: Key)
    requires t.PLeaf? && Shaped(Strip(t))
    ensures Lookup(Strip(t), key) == Find(t.entries, key)
  {
  }

  lemma BranchLookup(t: PTree, key: Key)
    requires t.PBranch? && Shaped(Strip(t))
    ensures |t.children| == |t.keys| + 1 && Shaped(Strip(t.children[Rank(t.keys, key)]))
    ensures Lookup(Strip(t), key) == Lookup(Strip(t.children[Rank(t.keys, key)]), key)
  {
  }

  lemma FlattenSnoc(ts: seq<Tree>, i: nat)
    requires i < |ts|
    ensures FlattenAll(ts[..i + 1]) == FlattenAll(ts[..i]) + Flatten(ts[i])
  {
    assert ts[..i + 1] == ts[..i] + [ts[i]];
    FlattenConcat(ts[..i], [ts[i]]);
    assert FlattenAll([ts[i]]) == Flatten(ts[i]) + FlattenAll([ts[i]][1..]);
  }

  lemma Scanned(t: PTree)
    ensures t.PLeaf? ==> Flatten(Strip(t)) == t.entries
    ensures t.PBranch? ==>
              && Flatten(Strip(t)) == FlattenAll(StripAll(t.children)[..|t.children|])
              && FlattenAll(StripAll(t.children)[..0]) == []
  {
    if t.PBranch? {
      assert StripAll(t.children)[..|t.children|] == StripAll(t.children);
    }
  }

  lemma EmptyScan()
    ensures Ascending([]) && MapOf([]) == map[]
  {
  }
}
