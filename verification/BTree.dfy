/**
  The copy-on-write B-tree over the paged file. Updates build fresh pages
  bottom-up, publish a new root with one write, and only then free the pages they
  replaced. Every state the file passes through on the way opens as exactly the
  old map or exactly the new one, and no page is lost or used twice.
*/
module BTrees {
  import opened Bytes
  import opened NodeCodec
  import opened TreeModel
  import opened Options
  import opened Pager
  import opened PageTree
  import opened TreeUpdates

  class BTree {
    const pager: PageFile
    var pendingFree: seq<nat>
    ghost var tree: Option<PTree>
    ghost var height: nat
    ghost var free: seq<nat>

    /** Since `b` the file has only been worked on off its tree, and `g` is free now. */
    ghost predicate On(b: Base, g: seq<nat>)
      reads pager
    {
      && pager.Synced()
      && Moved(pager.config, b.image, b.free, pager.file, g)
      && b.seen <= pager.trace
      && AllWithin(pager.config, b.image, b.free, pager.trace[|b.seen|..])
    }

    ghost predicate Valid()
      reads this`tree, this`height, this`free, pager
    {
      && pager.Synced()
      && Holds(pager.config, pager.file, tree, free)
      && Sound(pager.config, tree)
      && (tree.Some? ==> Level(Strip(tree.value), height))
    }

    /** The map this tree stands for. */
    ghost function Contents(): map<Key, Value>
      reads this`tree
    {
      MapOf(PairsOf(tree))
    }

    /** Page ids are 32-bit: an update needs this many more pages at most. */
    ghost predicate Roomy()
      reads this`height, pager
    {
      pager.file.header.pageCount + 2 * height + 3 <= MAX_PAGES
    }

    constructor Create(config: Config)
      requires ConfigOk(config)
      ensures Valid() && fresh(pager) && Contents() == map[] && pager.config == config
      ensures forall x: nat :: Leak(pager.file, tree, free, x) == 0
    {
      pager := new PageFile.Create(config);
      pendingFree := [];
      tree := None;
      height := 0;
      free := [];
    }

    /** Reopening a file left at any state that stores `m`. */
    constructor Open(config: Config, found: Image, ghost m: map<Key, Value>)
      requires ConfigOk(config) && Stores(config, found, m)
      ensures Valid() && fresh(pager) && Contents() == m && pager.config == config && pager.file == found
    {
      ghost var t, f, h := StoredTree(config, found, m);
      hide *;
      pager := new PageFile.Open(config, found);
      pendingFree := [];
      tree := t;
      height := h;
      free := f;
      new;
      OpenedValid(m);
    }

    lemma OpenedValid(m: map<Key, Value>)
      requires ConfigOk(pager.config) && pager.Synced() && Holds(pager.config, pager.file, tree, free)
      requires Sound(pager.config, tree) && MapOf(PairsOf(tree)) == m
      requires tree.Some? ==> Level(Strip(tree.value), height)
      ensures Valid() && Contents() == m
    {
      hide Holds, Sound, MapOf, PairsOf;
    }

    lemma OnFacts(b: Base, g: seq<nat>)
      requires On(b, g)
      ensures ConfigOk(pager.config) && Sized(pager.config, pager.file) && Free(pager.config, pager.file, g)
      ensures Moved(pager.config, b.image, b.free, pager.file, g)
      ensures b.seen <= pager.trace && AllWithin(pager.config, b.image, b.free, pager.trace[|b.seen|..])
      ensures pager.Synced() && pager.header == pager.file.header
    {
    }

    method Allocate(ghost b: Base, ghost g: seq<nat>) returns (id: nat, ghost g': seq<nat>)
      requires On(b, g) && pager.file.header.pageCount < MAX_PAGES
      modifies pager
      ensures On(b, g') && (id in b.free || id >= b.image.header.pageCount)
      ensures Moved(pager.config, old(pager.file), g, pager.file, g')
      ensures 1 <= id < pager.file.header.pageCount && id !in g'
      ensures id in g || id >= old(pager.file.header.pageCount)
      ensures pager.file.header.pageCount <= old(pager.file.header.pageCount) + 1
      ensures Balanced(multiset{}, g, old(pager.file.header.pageCount),
                       multiset{id}, [], g', pager.file.header.pageCount)
    {
      AllocationMoves(pager.config, pager.file, g);
      ghost var before, trace := pager.file, pager.trace;
      id := pager.AllocatePage();
      g' := FreeAfter(g);
      AllocationKeeps(pager.config, b, before, g, trace);
      AllocationBalance(pager.config, before, g);
      SuffixMembers(g, b.free);
    }

    method Store(ghost b: Base, ghost g: seq<nat>, id: nat, node: Node)
      requires On(b, g) && NodeFits(pager.config, node)
      requires id < pager.file.header.pageCount && id !in g && (id in b.free || id >= b.image.header.pageCount)
      modifies pager
      ensures On(b, g)
      ensures pager.file == old(pager.file).(pages := old(pager.file).pages[id := NodePage(pager.config, node)])
      ensures Decode(pager.config, pager.file.pages[id]) == node
    {
      assert node != Corrupt;
      hide Moved, AllWithin, Decode, NodeFits;
      ghost var before, trace := pager.file, pager.trace;
      var page;
      if node.LeafNode? {
        page := EncodeLeaf(pager.config, node.entries);
      } else {
        page := EncodeInternal(pager.config, node.keys, node.children);
      }
      NodeRoundTrip(pager.config, node);
      StoreKeeps(pager.config, b, before, g, trace, id, page);
      pager.WritePage(id, page);
    }

    /** A fresh page with `node` in it. */
    method WriteNew(ghost b: Base, ghost g: seq<nat>, node: Node) returns (id: nat, ghost g': seq<nat>)
      requires On(b, g) && pager.file.header.pageCount < MAX_PAGES && NodeFits(pager.config, node)
      modifies pager
      ensures On(b, g')
      ensures Moved(pager.config, old(pager.file), g, pager.file, g')
      ensures 1 <= id < pager.file.header.pageCount && Decode(pager.config, pager.file.pages[id]) == node
      ensures id in g || id >= old(pager.file.header.pageCount)
      ensures pager.file.header.pageCount <= old(pager.file.header.pageCount) + 1
      ensures Balanced(multiset{}, g, old(pager.file.header.pageCount),
                       multiset{id}, [], g', pager.file.header.pageCount)
    {
      id, g' := Allocate(b, g);
      ghost var mid := pager.file;
      Store(b, g', id, node);
      WriteMoves(pager.config, old(pager.file), g, mid, g', id, NodePage(pager.config, node));
    }

    /** Two fresh pages, both allocated before either is written. */
    method WriteTwo(ghost b: Base, ghost g: seq<nat>, first: Node, second: Node)
      returns (id1: nat, id2: nat, ghost g': seq<nat>)
      requires On(b, g) && pager.file.header.pageCount + 2 <= MAX_PAGES
      requires NodeFits(pager.config, first) && NodeFits(pager.config, second)
      modifies pager
      ensures On(b, g')
      ensures Moved(pager.config, old(pager.file), g, pager.file, g')
      ensures 1 <= id1 < pager.file.header.pageCount && Decode(pager.config, pager.file.pages[id1]) == first
      ensures 1 <= id2 < pager.file.header.pageCount && Decode(pager.config, pager.file.pages[id2]) == second
      ensures id1 != id2
      ensures id1 in g || id1 >= old(pager.file.header.pageCount)
      ensures id2 in g || id2 >= old(pager.file.header.pageCount)
      ensures pager.file.header.pageCount <= old(pager.file.header.pageCount) + 2
      ensures Balanced(multiset{}, g, old(pager.file.header.pageCount),
                       multiset{id1, id2}, [], g', pager.file.header.pageCount)
    {
      hide *;
      OnFacts(b, g);
      NodeRoundTrip(pager.config, first);
      NodeRoundTrip(pager.config, second);
      ghost var c, a := pager.config, pager.file;
      ghost var g1;
      id1, g1 := Allocate(b, g);
      ghost var m1 := pager.file;
      id2, g' := Allocate(b, g1);
      ghost var m2 := pager.file;
      MovedTransitive(c, a, g, m1, g1, m2, g');
      SecondFresh(c, m1, g1, m2, g', id1, id2, a.header.pageCount, g);
      OnFacts(b, g');
      Store(b, g', id1, first);
      WriteMoves(c, a, g, m2, g', id1, NodePage(c, first));
      ghost var m3 := pager.file;
      Store(b, g', id2, second);
      WriteMoves(c, a, g, m3, g', id2, NodePage(c, second));
    }

    // ---------- insert ----------

    method InsertLeaf(es: seq<Pair>, pageId: nat, key: Key, value: Value,
                      ghost b: Base, ghost t: PTree, ghost g: seq<nat>)
      returns (o: PageOutcome, ghost q: POutcome, ghost g': seq<nat>, ghost path: seq<nat>)
      requires On(b, g) && Shows(pager.config, pager.file, t) && t == PLeaf(pageId, es)
      requires FitsPair(pager.config, Pair(key, value)) && pager.file.header.pageCount + 2 <= MAX_PAGES
      modifies pager, this`pendingFree
      ensures On(b, g') && o == OutcomePages(q) && pendingFree == old(pendingFree) + path
      ensures Inserted(pager.config, old(pager.file), g, t, 0, key, value, pager.file, q, g', path)
    {
      ghost var c, a := pager.config, pager.file;
      NodeFitsOf(c, a, t);
      PutFits(c, es, key, value);
      PutSize(es, key, value);
      hide Moved, AllWithin, Decode, Put, FitsPair;
      var es' := Put(es, key, value);
      var mid := |es'| / 2;
      path := [pageId];
      if |es'| <= LeafCapacity(pager.config) {
        var id;
        id, g' := WriteNew(b, g, LeafNode(es'));
        LeafReplaced(c, a, g, t, key, value, pager.file, id, g');
        o, q := IdReplaced(id), PReplaced(PLeaf(id, es'));
      } else {
        LeafHalvesFit(c, es');
        var left, right;
        right, left, g' := WriteTwo(b, g, LeafNode(es'[mid..]), LeafNode(es'[..mid]));
        LeafSplit(c, a, g, t, key, value, pager.file, left, right, g');
        o, q := IdSplit(left, es'[mid].key, right), PSplit(PLeaf(left, es'[..mid]), es'[mid].key, PLeaf(right, es'[mid..]));
      }
      pendingFree := pendingFree + [pageId];
    }

    /** The branch above a rebuilt child, when it does not overflow. */
    method WriteWhole(ks: seq<Key>, ids: seq<nat>,
                      ghost b: Base, ghost a: Image, ghost g: seq<nat>, ghost t: PTree, ghost h: nat,
                      ghost key: Key, ghost value: Value,
                      ghost qc: POutcome, ghost g1: seq<nat>, ghost p1: seq<nat>, ghost cs: seq<PTree>)
      returns (o: PageOutcome, ghost q: POutcome, ghost g': seq<nat>)
      requires On(b, g1) && Pending(pager.config, a, g, t, h, key, value, pager.file, qc, g1, p1, ks, ids, cs)
      requires |ks| <= InternalCapacity(pager.config) && pager.file.header.pageCount + 2 <= MAX_PAGES
      modifies pager
      ensures On(b, g') && o == OutcomePages(q)
      ensures Inserted(pager.config, a, g, t, h, key, value, pager.file, q, g', p1 + [t.id])
    {
      ghost var c, m := pager.config, pager.file;
      PendingFits(c, a, g, t, h, key, value, m, qc, g1, p1, ks, ids, cs);
      hide Moved, AllWithin, Decode, Balanced, Inserted, Pending;
      var id;
      id, g' := WriteNew(b, g1, InternalNode(ks, ids));
      PendingRebuilt(c, a, g, t, h, key, value, m, qc, g1, p1, ks, ids, cs, pager.file, g');
      BranchReplaced(c, a, g, t, h, Rank(t.keys, key), key, value, m, qc, g1, p1, pager.file, g', id, ks, cs);
      o, q := IdReplaced(id), PReplaced(PBranch(id, ks, cs));
    }

    /** The two branches above a split child, when one would overflow. */
    method WriteHalves(ks: seq<Key>, ids: seq<nat>,
                       ghost b: Base, ghost a: Image, ghost g: seq<nat>, ghost t: PTree, ghost h: nat,
                       ghost key: Key, ghost value: Value,
                       ghost qc: POutcome, ghost g1: seq<nat>, ghost p1: seq<nat>, ghost cs: seq<PTree>)
      returns (o: PageOutcome, ghost q: POutcome, ghost g': seq<nat>)
      requires On(b, g1) && Pending(pager.config, a, g, t, h, key, value, pager.file, qc, g1, p1, ks, ids, cs)
      requires |ks| > InternalCapacity(pager.config) && pager.file.header.pageCount + 2 <= MAX_PAGES
      modifies pager
      ensures On(b, g') && o == OutcomePages(q)
      ensures Inserted(pager.config, a, g, t, h, key, value, pager.file, q, g', p1 + [t.id])
    {
      hide On, Moved, AllWithin, Decode, Balanced, Inserted, Pending, NodeFits, FitsKey, ChildIds;
      OnFacts(b, g1);
      ghost var c, m := pager.config, pager.file;
      PendingFits(c, a, g, t, h, key, value, m, qc, g1, p1, ks, ids, cs);
      var mid := |ks| / 2;
      var left, right;
      left, right, g' := WriteTwo(b, g1, InternalNode(ks[..mid], ids[..mid + 1]), InternalNode(ks[mid + 1..], ids[mid + 1..]));
      PendingRebuilt(c, a, g, t, h, key, value, m, qc, g1, p1, ks, ids, cs, pager.file, g');
      BranchSplit(c, a, g, t, h, Rank(t.keys, key), key, value, m, qc, g1, p1, pager.file, g', left, right, ks, cs);
      o := IdSplit(left, ks[mid], right);
      q := Halves(left, right, ks, cs);
    }

    /** Put the rebuilt child into the lists of its branch, then write that branch, split if it overflows. */
    method RebuildBranch(ks: seq<Key>, ids: seq<nat>, i: nat, child: PageOutcome,
                         ghost b: Base, ghost a: Image, ghost g: seq<nat>, ghost t: PTree, ghost h: nat,
                         ghost key: Key, ghost value: Value, ghost qc: POutcome, ghost g1: seq<nat>, ghost p1: seq<nat>)
      returns (o: PageOutcome, ghost q: POutcome, ghost g': seq<nat>)
      requires On(b, g1) && t.PBranch? && t.keys == ks && ids == ChildIds(t.children)
      requires i == Rank(ks, key) && i < |ids| && child == OutcomePages(qc)
      requires Pending(pager.config, a, g, t, h, key, value, pager.file, qc, g1, p1,
                       NewKeys(ks, i, qc), ChildIds(NewChildren(t.children, i, qc)), NewChildren(t.children, i, qc))
      requires pager.file.header.pageCount + 2 <= MAX_PAGES
      modifies pager
      ensures On(b, g') && o == OutcomePages(q)
      ensures Inserted(pager.config, a, g, t, h, key, value, pager.file, q, g', p1 + [t.id])
    {
      EditedLists(ks, t.children, i, qc);
      hide Moved, AllWithin, Inserted, Pending, NewKeys, NewChildren, ChildIds, InsertAt;
      ghost var cs := NewChildren(t.children, i, qc);
      var ks' := if child.IdReplaced? then ks else InsertAt(ks, i, child.sep);
      var ids' := if child.IdReplaced? then ids[i := child.id] else InsertAt(ids[i := child.left], i + 1, child.right);
      if |ks'| <= InternalCapacity(pager.config) {
        o, q, g' := WriteWhole(ks', ids', b, a, g, t, h, key, value, qc, g1, p1, cs);
      } else {
        o, q, g' := WriteHalves(ks', ids', b, a, g, t, h, key, value, qc, g1, p1, cs);
      }
    }

    method InsertRec(pageId: nat, key: Key, value: Value, ghost b: Base, ghost t: PTree, ghost h: nat, ghost g: seq<nat>)
      returns (o: PageOutcome, ghost q: POutcome, ghost g': seq<nat>, ghost path: seq<nat>)
      requires On(b, g) && Shows(pager.config, pager.file, t) && t.id == pageId
      requires Level(Strip(t), h) && Apart(Ids(t), g)
      requires FitsPair(pager.config, Pair(key, value)) && pager.file.header.pageCount + 2 * (h + 1) <= MAX_PAGES
      modifies pager, this`pendingFree
      ensures On(b, g') && o == OutcomePages(q) && pendingFree == old(pendingFree) + path
      ensures Inserted(pager.config, old(pager.file), g, t, h, key, value, pager.file, q, g', path)
      decreases h
    {
      var node := DecodeNode(pager.config, pager.file.pages[pageId]);
      if node.LeafNode? {
        assert h == 0;
        o, q, g', path := InsertLeaf(node.entries, pageId, key, value, b, t, g);
      } else {
        o, q, g', path := InsertInside(node.keys, node.children, pageId, key, value, b, t, h, g);
      }
    }

    method InsertInside(ks: seq<Key>, ids: seq<nat>, pageId: nat, key: Key, value: Value,
                        ghost b: Base, ghost t: PTree, ghost h: nat, ghost g: seq<nat>)
      returns (o: PageOutcome, ghost q: POutcome, ghost g': seq<nat>, ghost path: seq<nat>)
      requires On(b, g) && Shows(pager.config, pager.file, t) && t.id == pageId
      requires Level(Strip(t), h) && Apart(Ids(t), g)
      requires Decode(pager.config, pager.file.pages[pageId]) == InternalNode(ks, ids)
      requires FitsPair(pager.config, Pair(key, value)) && pager.file.header.pageCount + 2 * (h + 1) <= MAX_PAGES
      modifies pager, this`pendingFree
      ensures On(b, g') && o == OutcomePages(q) && pendingFree == old(pendingFree) + path
      ensures Inserted(pager.config, old(pager.file), g, t, h, key, value, pager.file, q, g', path)
      decreases h, 0
    {
      hide *;
      ghost var c, a := pager.config, pager.file;
      OnFacts(b, g);
      BranchOf(c, a, t, h);
      var i := Rank(ks, key);
      ChildApart(t, g, i);
      ghost var qc, g1, p1;
      var child;
      child, qc, g1, p1 := InsertRec(ids[i], key, value, b, t.children[i], h - 1, g);
      InsertedGrowth(c, a, g, t.children[i], h - 1, key, value, pager.file, qc, g1, p1);
      PendingOf(c, a, g, t, h, key, value, pager.file, qc, g1, p1);
      o, q, g' := RebuildBranch(ks, ids, i, child, b, a, g, t, h, key, value, qc, g1, p1);
      pendingFree := pendingFree + [pageId];
      path := p1 + [pageId];
    }

    // ---------- publish, then free ----------

    method FreePending(ghost t: PTree, ghost f: seq<nat>, ghost old_: Option<PTree>, ghost seen: seq<Image>)
      returns (ghost f': seq<nat>)
      requires pager.Synced() && Holds(pager.config, pager.file, Some(t), f)
      requires Accounted(Ids(t), pendingFree, f, pager.file.header.pageCount)
      requires seen <= pager.trace && AllKept(pager.config, pager.trace[|seen|..], old_, Some(t))
      modifies pager, this`pendingFree
      ensures pager.Synced() && Holds(pager.config, pager.file, Some(t), f') && pendingFree == []
      ensures multiset(f') == multiset(old(pendingFree)) + multiset(f)
      ensures pager.file.header.pageCount == old(pager.file.header.pageCount)
      ensures seen <= pager.trace && AllKept(pager.config, pager.trace[|seen|..], old_, Some(t))
    {
      hide Shows, Proper, Chain, Decode;
      f' := f;
      while pendingFree != []
        invariant pager.Synced() && Holds(pager.config, pager.file, Some(t), f')
        invariant Accounted(Ids(t), pendingFree, f', pager.file.header.pageCount)
        invariant multiset(f') + multiset(pendingFree) == multiset(old(pendingFree)) + multiset(f)
        invariant pager.file.header.pageCount == old(pager.file.header.pageCount)
        invariant seen <= pager.trace && AllKept(pager.config, pager.trace[|seen|..], old_, Some(t))
        decreases |pendingFree|
      {
        f' := FreeNext(t, f', old_, seen);
      }
    }

    method FreeNext(ghost t: PTree, ghost f: seq<nat>, ghost old_: Option<PTree>, ghost seen: seq<Image>)
      returns (ghost f': seq<nat>)
      requires pendingFree != []
      requires pager.Synced() && Holds(pager.config, pager.file, Some(t), f)
      requires Accounted(Ids(t), pendingFree, f, pager.file.header.pageCount)
      requires seen <= pager.trace && AllKept(pager.config, pager.trace[|seen|..], old_, Some(t))
      modifies pager, this`pendingFree
      ensures pager.Synced() && Holds(pager.config, pager.file, Some(t), f')
      ensures pendingFree == old(pendingFree)[1..]
      ensures Accounted(Ids(t), pendingFree, f', pager.file.header.pageCount)
      ensures multiset(f') + multiset(pendingFree) == multiset(f) + multiset(old(pendingFree))
      ensures pager.file.header.pageCount == old(pager.file.header.pageCount)
      ensures seen <= pager.trace && AllKept(pager.config, pager.trace[|seen|..], old_, Some(t))
    {
      assert pager.header == pager.file.header;
      hide *;
      ghost var c, a, trace := pager.config, pager.file, pager.trace;
      var p := pendingFree[0];
      HeldPages(c, a, t, f);
      AccountedStep(Ids(t), pendingFree, f, a.header.pageCount);
      assert |a.pages[p]| >= 4;
      FreeOne(c, a, t, f, p);
      pager.FreePage(p);
      pendingFree := pendingFree[1..];
      f' := [p] + f;
      ghost var linked := a.(pages := a.pages[p := Linked(a.pages[p], a.header.freeHead)]);
      KeptTwice(c, trace, seen, linked, pager.file, old_, t, f, f');
    }

    /** The new tree is written; make it the root, then give back what it replaced. */
    method Publish(newRoot: nat, ghost b: Base, ghost t: PTree, ghost g: seq<nat>)
      requires On(b, g) && Holds(pager.config, b.image, tree, b.free)
      requires Shows(pager.config, pager.file, t) && newRoot == t.id
      requires Balanced(MaybeIds(tree), b.free, b.image.header.pageCount, Ids(t), pendingFree, g, pager.file.header.pageCount)
      modifies pager, this`pendingFree, this`tree, this`free
      ensures pager.Synced() && Holds(pager.config, pager.file, tree, free) && tree == Some(t)
      ensures b.seen <= pager.trace && AllKept(pager.config, pager.trace[|b.seen|..], old(tree), tree)
      ensures forall x: nat :: Leak(pager.file, tree, free, x) == Leak(b.image, old(tree), b.free, x)
    {
      hide *;
      ghost var c, a, trace, path := pager.config, pager.file, pager.trace, pendingFree;
      ghost var shown := a.(header := a.header.(root := newRoot));
      ghost var done := a.(header := a.header.(root := newRoot, commitSeq := a.header.commitSeq + 1));
      OnFacts(b, g);
      PublishKeeps(c, b, tree, t, path, a, g, trace, shown, done);
      pager.PublishRoot(newRoot);
      assert pager.file == done && pager.trace == trace + [shown, done];
      ghost var f' := FreePending(t, g, tree, b.seen);
      LeaksUnchanged(b.image, tree, b.free, pager.file, t, path, g, a.header.pageCount, f');
      tree, free := Some(t), f';
    }

    // ---------- insert ----------

    /** Write the tree that `insert` leads to, without publishing it. */
    method BuildInserted(key: Key, value: Value, ghost b: Base)
      returns (newRoot: nat, ghost t: PTree, ghost g: seq<nat>, ghost h: nat)
      requires Valid() && Roomy() && FitsPair(pager.config, Pair(key, value)) && pendingFree == []
      requires b == Base(pager.file, free, pager.trace)
      modifies pager, this`pendingFree
      ensures On(b, g) && Shows(pager.config, pager.file, t) && newRoot == t.id
      ensures Balanced(MaybeIds(tree), b.free, b.image.header.pageCount, Ids(t), pendingFree, g, pager.file.header.pageCount)
      ensures Sound(pager.config, Some(t)) && Level(Strip(t), h)
      ensures MapOf(PairsOf(Some(t))) == Contents()[key := value]
    {
      ghost var c := pager.config;
      if pager.header.root == 0 {
        newRoot, t, g := BuildFirst(key, value, b);
        h := 0;
      } else {
        newRoot, t, g, h := BuildNext(key, value, b);
      }
    }

    method BuildFirst(key: Key, value: Value, ghost b: Base)
      returns (newRoot: nat, ghost t: PTree, ghost g: seq<nat>)
      requires Valid() && Roomy() && FitsPair(pager.config, Pair(key, value)) && pendingFree == []
      requires b == Base(pager.file, free, pager.trace) && pager.header.root == 0
      modifies pager
      ensures On(b, g) && Shows(pager.config, pager.file, t) && newRoot == t.id
      ensures Balanced(MaybeIds(tree), b.free, b.image.header.pageCount, Ids(t), pendingFree, g, pager.file.header.pageCount)
      ensures Sound(pager.config, Some(t)) && Level(Strip(t), 0)
      ensures MapOf(PairsOf(Some(t))) == Contents()[key := value]
    {
      assert tree.None?;
      MovedSelf(pager.config, pager.file, free);
      hide Decode, Moved, Proper, Chain;
      newRoot, g := WriteNew(b, free, LeafNode([Pair(key, value)]));
      t := PLeaf(newRoot, [Pair(key, value)]);
      SinglePair(pager.config, newRoot, key, value);
    }

    method BuildNext(key: Key, value: Value, ghost b: Base)
      returns (newRoot: nat, ghost t: PTree, ghost g: seq<nat>, ghost h: nat)
      requires Valid() && Roomy() && FitsPair(pager.config, Pair(key, value)) && pendingFree == []
      requires b == Base(pager.file, free, pager.trace) && pager.header.root != 0
      modifies pager, this`pendingFree
      ensures On(b, g) && Shows(pager.config, pager.file, t) && newRoot == t.id
      ensures Balanced(MaybeIds(tree), b.free, b.image.header.pageCount, Ids(t), pendingFree, g, pager.file.header.pageCount)
      ensures Sound(pager.config, Some(t)) && Level(Strip(t), h)
      ensures MapOf(PairsOf(Some(t))) == Contents()[key := value]
    {
      hide *;
      ghost var c, a := pager.config, pager.file;
      ghost var u := RootTree(b);
      PairInSpace(c, key, value);
      ghost var q, g1, path;
      var o;
      o, q, g1, path := InsertRec(pager.header.root, key, value, b, u, height, free);
      InsertedGrowth(c, a, free, u, height, key, value, pager.file, q, g1, path);
      assert [] + path == path;
      newRoot, t, g := NewRoot(o, b, a, free, u, height, key, value, q, g1, path);
      h := InsertRefines(Strip(u), height, Pow256(c.keyLen), key, value, CapsOf(c));
      BuiltSound(u, t, key, value, h);
    }

    /** What an update of a non-empty tree starts from. */
    lemma RootTree(b: Base) returns (u: PTree)
      requires Valid() && Roomy() && pager.header.root != 0
      requires b == Base(pager.file, free, pager.trace)
      ensures tree == Some(u) && u.id == pager.header.root && MaybeIds(tree) == Ids(u) && On(b, free)
      ensures ConfigOk(pager.config) && Sized(pager.config, pager.file) && Free(pager.config, pager.file, free)
      ensures Shows(pager.config, pager.file, u) && Level(Strip(u), height) && Apart(Ids(u), free)
      ensures pager.config.pageSize >= HEADER && pager.config.keyLen + pager.config.valueLen > 0
      ensures CapsOk(CapsOf(pager.config))
      ensures Proper(Strip(u), -1, Pow256(pager.config.keyLen), CapsOf(pager.config))
      ensures pager.file.header.pageCount + 2 * (height + 1) < MAX_PAGES
    {
      u := tree.value;
      hide Shows, Chain, Level, Proper, Decode, Ids;
      MovedSelf(pager.config, pager.file, free);
    }

    lemma BuiltSound(u: PTree, t: PTree, key: Key, value: Value, h: nat)
      requires tree == Some(u) && Shaped(Strip(u)) && ConfigOk(pager.config) && CapsOk(CapsOf(pager.config))
      requires var t' := Rooted(TreeModel.Insert(Strip(u), key, value, CapsOf(pager.config)));
               && Strip(t) == t' && Proper(t', -1, Pow256(pager.config.keyLen), CapsOf(pager.config)) && Level(t', h)
               && MapOf(Flatten(t')) == MapOf(Flatten(Strip(u)))[key := value]
      ensures Sound(pager.config, Some(t)) && Level(Strip(t), h)
      ensures MapOf(PairsOf(Some(t))) == Contents()[key := value]
    {
      hide TreeModel.Insert, Proper, Level, MapOf, Flatten, Rooted, Strip;
    }

    /** A split root gets a new root above it. */
    method NewRoot(o: PageOutcome, ghost b: Base, ghost a: Image, ghost f: seq<nat>, ghost u: PTree, ghost h: nat,
                   ghost key: Key, ghost value: Value, ghost q: POutcome, ghost g1: seq<nat>, ghost path: seq<nat>)
      returns (newRoot: nat, ghost t: PTree, ghost g: seq<nat>)
      requires On(b, g1) && o == OutcomePages(q) && pager.file.header.pageCount < MAX_PAGES
      requires Inserted(pager.config, a, f, u, h, key, value, pager.file, q, g1, path)
      requires Free(pager.config, a, f) && Shows(pager.config, a, u) && Apart(Ids(u), f)
      modifies pager
      ensures On(b, g) && Shows(pager.config, pager.file, t) && newRoot == t.id
      ensures Shaped(Strip(u)) && Strip(t) == Rooted(TreeModel.Insert(Strip(u), key, value, CapsOf(pager.config)))
      ensures Balanced(Ids(u), f, a.header.pageCount, Ids(t), path, g, pager.file.header.pageCount)
    {
      hide Decode, Moved, Balanced, Shows, TreeModel.Insert, Shaped;
      ghost var c, m := pager.config, pager.file;
      match o {
        case IdReplaced(id) =>
          newRoot, t, g := id, q.tree, g1;
        case IdSplit(left, sep, right) =>
          RootFits(c, m, q);
          newRoot, g := WriteNew(b, g1, InternalNode([sep], [left, right]));
          t := PBranch(newRoot, [sep], [q.left, q.right]);
          RootSplit(c, a, f, u, m, q, g1, path, pager.file, g, newRoot);
      }
    }

    /** The states since `b` store the old map, then the new one. */
    lemma UpdateStores(b: Base, was: Option<PTree>)
      requires Valid() && Sound(pager.config, was)
      requires b.seen <= pager.trace && AllKept(pager.config, pager.trace[|b.seen|..], was, tree)
      ensures GoesOver(pager.config, pager.trace[|b.seen|..], MapOf(PairsOf(was)), Contents())
    {
      hide Stores, Holds, AllKept, MapOf, PairsOf;
      AllStore(pager.config, pager.trace[|b.seen|..], was, tree);
    }

    /**
      Afterwards the map has `key` bound to `value` and nothing else changed. On the way the file
      only ever stored the old map or the new one, and no page was lost or used twice.
    */
    method Insert(key: Key, value: Value)
      requires Valid() && Roomy() && FitsPair(pager.config, Pair(key, value))
      modifies this, pager
      ensures Valid() && Contents() == old(Contents())[key := value]
      ensures old(pager.trace) <= pager.trace
      ensures GoesOver(pager.config, pager.trace[|old(pager.trace)|..], old(Contents()), Contents())
      ensures forall x: nat :: Leak(pager.file, tree, free, x) == Leak(old(pager.file), old(tree), old(free), x)
    {
      hide *;
      StartFacts();
      pendingFree := [];
      ghost var b := Base(pager.file, free, pager.trace);
      var newRoot;
      ghost var t, g, h;
      newRoot, t, g, h := BuildInserted(key, value, b);
      Publish(newRoot, b, t, g);
      height := h;
      FinishFacts();
      UpdateStores(b, old(tree));
    }

    lemma StartFacts()
      requires Valid()
      ensures ConfigOk(pager.config) && Sized(pager.config, pager.file)
      ensures Holds(pager.config, pager.file, tree, free) && Sound(pager.config, tree)
      ensures pager.Synced() && pager.header == pager.file.header
      ensures Contents() == MapOf(PairsOf(tree))
    {
      hide Holds, Sound, MapOf, PairsOf;
    }

    lemma FinishFacts()
      requires pager.Synced() && Holds(pager.config, pager.file, tree, free)
      requires ConfigOk(pager.config) && Sound(pager.config, tree)
      requires tree.Some? && Level(Strip(tree.value), height)
      ensures Valid() && Contents() == MapOf(PairsOf(tree))
    {
      hide Holds, Sound, MapOf, PairsOf, Level, Strip;
    }

    // ---------- delete ----------

    method DeleteLeaf(es: seq<Pair>, pageId: nat, key: Key, ghost b: Base, ghost t: PTree, ghost g: seq<nat>)
      returns (newId: nat, removed: Option<Value>, ghost q: PTree, ghost g': seq<nat>, ghost path: seq<nat>)
      requires On(b, g) && Shows(pager.config, pager.file, t) && t == PLeaf(pageId, es) && Apart(Ids(t), g)
      requires pager.file.header.pageCount + 2 <= MAX_PAGES
      modifies pager, this`pendingFree
      ensures On(b, g') && newId == q.id && pendingFree == old(pendingFree) + path
      ensures Deleted(pager.config, old(pager.file), g, t, 0, key, pager.file, removed, q, g', path)
      ensures removed.None? ==> pager.trace == old(pager.trace) && pager.header == old(pager.header)
    {
      ghost var c, a := pager.config, pager.file;
      NodeFitsOf(c, a, t);
      DropFits(c, es, key);
      assert Shaped(Strip(t)) && Lookup(Strip(t), key) == Find(es, key);
      assert Decode(c, a.pages[pageId]) == LeafNode(es);
      OnFacts(b, g);
      assert Ids(t)[pageId] + multiset(g)[pageId] <= 1;
      hide *;
      MovedSelf(c, a, g);
      removed := Find(es, key);
      FindFound(es, key);
      if removed.None? {
        NothingDeleted(c, a, g, t, 0, key);
        newId, q, g', path := pageId, t, g, [];
        assert pendingFree == old(pendingFree) + path;
      } else {
        newId, g' := WriteNew(b, g, LeafNode(Drop(es, key)));
        q, path := PLeaf(newId, Drop(es, key)), [pageId];
        FreshAbove(c, a, g, t, a, g, newId);
        LeafDropped(c, a, g, t, key, pager.file, newId, g');
        pendingFree := pendingFree + [pageId];
      }
    }

    method DeleteRec(pageId: nat, key: Key, ghost b: Base, ghost t: PTree, ghost h: nat, ghost g: seq<nat>)
      returns (newId: nat, removed: Option<Value>, ghost q: PTree, ghost g': seq<nat>, ghost path: seq<nat>)
      requires On(b, g) && Shows(pager.config, pager.file, t) && t.id == pageId
      requires Level(Strip(t), h) && Apart(Ids(t), g)
      requires pager.file.header.pageCount + 2 * (h + 1) <= MAX_PAGES
      modifies pager, this`pendingFree
      ensures On(b, g') && newId == q.id && pendingFree == old(pendingFree) + path
      ensures Deleted(pager.config, old(pager.file), g, t, h, key, pager.file, removed, q, g', path)
      ensures removed.None? ==> pager.trace == old(pager.trace) && pager.header == old(pager.header)
      decreases h
    {
      var node := DecodeNode(pager.config, pager.file.pages[pageId]);
      if node.LeafNode? {
        assert h == 0;
        newId, removed, q, g', path := DeleteLeaf(node.entries, pageId, key, b, t, g);
      } else {
        newId, removed, q, g', path := DeleteInside(node.keys, node.children, pageId, key, b, t, h, g);
      }
    }

    method DeleteInside(ks: seq<Key>, ids: seq<nat>, pageId: nat, key: Key,
                        ghost b: Base, ghost t: PTree, ghost h: nat, ghost g: seq<nat>)
      returns (newId: nat, removed: Option<Value>, ghost q: PTree, ghost g': seq<nat>, ghost path: seq<nat>)
      requires On(b, g) && Shows(pager.config, pager.file, t) && t.id == pageId
      requires Level(Strip(t), h) && Apart(Ids(t), g)
      requires Decode(pager.config, pager.file.pages[pageId]) == InternalNode(ks, ids)
      requires pager.file.header.pageCount + 2 * (h + 1) <= MAX_PAGES
      modifies pager, this`pendingFree
      ensures On(b, g') && newId == q.id && pendingFree == old(pendingFree) + path
      ensures Deleted(pager.config, old(pager.file), g, t, h, key, pager.file, removed, q, g', path)
      ensures removed.None? ==> pager.trace == old(pager.trace) && pager.header == old(pager.header)
      decreases h, 0
    {
      hide *;
      ghost var c, a := pager.config, pager.file;
      OnFacts(b, g);
      BranchOf(c, a, t, h);
      var i := Rank(ks, key);
      ChildApart(t, g, i);
      ghost var qc, g1, p1;
      var child;
      child, removed, qc, g1, p1 := DeleteRec(ids[i], key, b, t.children[i], h - 1, g);
      DeletedParts(c, a, g, t.children[i], h - 1, key, pager.file, removed, qc, g1, p1);
      if child == ids[i] {
        NothingDeletedBelow(c, a, g, t, h, i, key);
        newId, q, g', path := pageId, t, g, [];
        assert pendingFree == old(pendingFree) + path;
      } else {
        newId, q, g' := WriteThinned(ks, ids[i := child], b, a, g, t, h, i, key, removed, qc, g1, p1);
        pendingFree := pendingFree + [pageId];
        path := p1 + [pageId];
      }
    }

    /** The branch above a child that lost a key. */
    method WriteThinned(ks: seq<Key>, ids: seq<nat>, ghost b: Base, ghost a: Image, ghost g: seq<nat>,
                        ghost t: PTree, ghost h: nat, ghost i: nat, ghost key: Key,
                        ghost removed: Option<Value>, ghost qc: PTree, ghost g1: seq<nat>, ghost p1: seq<nat>)
      returns (newId: nat, ghost q: PTree, ghost g': seq<nat>)
      requires On(b, g1) && t.PBranch? && t.keys == ks && i < |t.children| == |ks| + 1 && h > 0
      requires ids == ChildIds(t.children)[i := qc.id] && i == Rank(ks, key) && removed.Some?
      requires Free(pager.config, a, g) && Shows(pager.config, a, t) && Apart(Ids(t), g)
      requires Deleted(pager.config, a, g, t.children[i], h - 1, key, pager.file, removed, qc, g1, p1)
      requires pager.file.header.pageCount + 2 <= MAX_PAGES
      modifies pager
      ensures On(b, g') && newId == q.id
      ensures Deleted(pager.config, a, g, t, h, key, pager.file, removed, q, g', p1 + [t.id])
    {
      hide *;
      ghost var c, m := pager.config, pager.file;
      ghost var cs := t.children[i := qc];
      OnFacts(b, g1);
      IdListsReplaced(t.children, i, qc);
      DeletedParts(c, a, g, t.children[i], h - 1, key, m, removed, qc, g1, p1);
      ThinnedFits(c, a, g, t, i, m, qc, g1, p1);
      newId, g' := WriteNew(b, g1, InternalNode(ks, ids));
      q := PBranch(newId, ks, cs);
      MovedSized(c, m, g1, pager.file, g');
      ThinnedChild(c, a, g, t, h, i, key, m, removed, qc, g1, p1, pager.file, g');
      FreshAbove(c, a, g, t, m, g1, newId);
      LaidThinned(c, pager.file, newId, ks, cs, ids);
      BranchThinned(c, a, g, t, h, i, key, m, removed, qc, g1, p1, pager.file, g', newId);
    }

    /** Afterwards `key` is gone, nothing else changed, and the answer is what it was bound to. */
    method Delete(key: Key) returns (removed: Option<Value>)
      requires Valid() && Roomy() && FitsKey(pager.config, key)
      modifies this, pager
      ensures removed == if key in old(Contents()) then Some(old(Contents())[key]) else None
      ensures Valid() && Contents() == old(Contents()) - {key}
      ensures old(pager.trace) <= pager.trace
      ensures GoesOver(pager.config, pager.trace[|old(pager.trace)|..], old(Contents()), Contents())
      ensures forall x: nat :: Leak(pager.file, tree, free, x) == Leak(old(pager.file), old(tree), old(free), x)
    {
      hide *;
      StartFacts();
      pendingFree := [];
      ghost var b := Base(pager.file, free, pager.trace);
      var root := pager.header.root;
      KeyInSpace(pager.config, key);
      NothingSeen(pager.config, Contents(), Contents());
      if root == 0 {
        EmptyFacts(key);
        assert pager.trace[|old(pager.trace)|..] == [];
        return None;
      }
      ghost var u := RootTree(b);
      ghost var q, g, path;
      var newRoot;
      newRoot, removed, q, g, path := DeleteRec(root, key, b, u, height, free);
      DeletedParts(pager.config, b.image, free, u, height, key, pager.file, removed, q, g, path);
      DeleteRefines(Strip(u), height, Pow256(pager.config.keyLen), key, CapsOf(pager.config));
      LookupRefines(Strip(u), height, Pow256(pager.config.keyLen), key, CapsOf(pager.config));
      ThinnedSound(u, q, key);
      OnFacts(b, g);
      assert [] + path == path;
      if newRoot != root {
        Publish(newRoot, b, q, g);
        FinishFacts();
        UpdateStores(b, old(tree));
      } else {
        FinishFacts();
        assert pager.trace[|old(pager.trace)|..] == [];
      }
    }

    lemma EmptyFacts(key: Key)
      requires Valid() && pager.header.root == 0
      ensures Contents() == map[] && Contents() - {key} == Contents()
    {
      hide Proper, Level, Chain;
    }

    lemma ThinnedSound(u: PTree, q: PTree, key: Key)
      requires tree == Some(u) && Shaped(Strip(u)) && ConfigOk(pager.config)
      requires var t' := TreeModel.Delete(Strip(u), key);
               && Strip(q) == t' && Proper(t', -1, Pow256(pager.config.keyLen), CapsOf(pager.config)) && Level(t', height)
               && MapOf(Flatten(t')) == MapOf(Flatten(Strip(u))) - {key}
      ensures Sound(pager.config, Some(q)) && Level(Strip(q), height)
      ensures MapOf(PairsOf(Some(q))) == Contents() - {key} && Contents() == MapOf(Flatten(Strip(u)))
    {
      hide TreeModel.Delete, Proper, Level, MapOf, Flatten, Strip;
    }

    // ---------- get and scan ----------

    /** Descends to the one leaf where `key` can be. */
    method Get(key: Key) returns (found: Option<Value>)
      requires Valid() && FitsKey(pager.config, key)
      ensures found == if key in Contents() then Some(Contents()[key]) else None
    {
      hide *;
      StartFacts();
      var pageId := pager.header.root;
      if pageId == 0 {
        EmptyFacts(key);
        return None;
      }
      ghost var t, h := RootLookup(key);
      while true
        invariant Shows(pager.config, pager.file, t) && t.id == pageId && Level(Strip(t), h) && Shaped(Strip(t))
        invariant Lookup(Strip(t), key) == if key in Contents() then Some(Contents()[key]) else None
        decreases h
      {
        assert pageId < |pager.file.pages| && |pager.file.pages[pageId]| == pager.config.pageSize by {
          ShownPage(pager.config, pager.file, t);
        }
        var node := DecodeNode(pager.config, pager.file.pages[pageId]);
        ShownNode(pager.config, pager.file, t);
        if node.LeafNode? {
          LeafLookup(t, key);
          return Find(node.entries, key);
        }
        BranchOf(pager.config, pager.file, t, h);
        var i := Rank(node.keys, key);
        BranchLookup(t, key);
        pageId, t, h := node.children[i], t.children[i], h - 1;
      }
    }

    lemma RootLookup(key: Key) returns (t: PTree, h: nat)
      requires Valid() && pager.header.root != 0 && FitsKey(pager.config, key)
      ensures Shows(pager.config, pager.file, t) && t.id == pager.header.root && Level(Strip(t), h) && Shaped(Strip(t))
      ensures Lookup(Strip(t), key) == if key in Contents() then Some(Contents()[key]) else None
    {
      t, h := tree.value, height;
      KeyInSpace(pager.config, key);
      hide Shows, Level, Proper, Chain, Lookup, MapOf, Flatten, Strip, Shaped;
      LookupRefines(Strip(t), h, Pow256(pager.config.keyLen), key, CapsOf(pager.config));
    }

    /** Reads out the whole map in strictly ascending key order. */
    method ScanAll() returns (out: seq<Pair>)
      requires Valid()
      ensures Ascending(out) && MapOf(out) == Contents()
    {
      hide *;
      StartFacts();
      out := [];
      if pager.header.root != 0 {
        ghost var t, h := RootScan();
        out := ScanRec(pager.header.root, [], t, h);
        assert [] + Flatten(Strip(t)) == Flatten(Strip(t));
      } else {
        EmptyFacts(0);
        EmptyScan();
      }
    }

    lemma RootScan() returns (t: PTree, h: nat)
      requires Valid() && pager.header.root != 0
      ensures Shows(pager.config, pager.file, t) && t.id == pager.header.root && Level(Strip(t), h)
      ensures Ascending(Flatten(Strip(t))) && MapOf(Flatten(Strip(t))) == Contents()
    {
      t, h := tree.value, height;
      hide Shows, Level, Proper, Chain, MapOf, Flatten, Strip, Ascending;
      FlattenSorted(Strip(t), -1, Pow256(pager.config.keyLen), CapsOf(pager.config));
    }

    method ScanRec(pageId: nat, before: seq<Pair>, ghost t: PTree, ghost h: nat) returns (out: seq<Pair>)
      requires pager.Synced() && Shows(pager.config, pager.file, t) && t.id == pageId && Level(Strip(t), h)
      ensures out == before + Flatten(Strip(t))
      decreases h
    {
      hide *;
      ghost var c, a := pager.config, pager.file;
      ScanFacts();
      ShownPage(c, a, t);
      var node := DecodeNode(pager.config, pager.file.pages[pageId]);
      ShownNode(c, a, t);
      Scanned(t);
      if node.LeafNode? {
        out := before + node.entries;
      } else {
        BranchOf(c, a, t, h);
        out := before;
        for i := 0 to |node.children|
          invariant out == before + FlattenAll(StripAll(t.children)[..i])
        {
          out := ScanRec(node.children[i], out, t.children[i], h - 1);
          FlattenSnoc(StripAll(t.children), i);
        }
      }
    }

    lemma ScanFacts()
      requires pager.Synced()
      ensures ConfigOk(pager.config) && Sized(pager.config, pager.file)
    {
    }
  }
}
