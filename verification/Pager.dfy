/**
  The paged file: a header, pages, a freelist threaded through the first four
  bytes of free pages, and a root published by one write. The pager records, for
  the proofs only, every state the file passes through, one per ordered write.
*/
module Pager {
  import opened Bytes
  import opened NodeCodec

  datatype Header = Header(root: nat, freeHead: nat, pageCount: nat, commitSeq: nat)

  /** What is in the file. Page 0 holds the header and is never a node. */
  datatype Image = Image(header: Header, pages: seq<Page>)

  const MAX_PAGES := 0x1_0000_0000

  // ---------- the freelist ----------

  ghost predicate Sized(c: Config, a: Image) {
    && c.pageSize >= 34
    && 1 <= a.header.pageCount <= |a.pages| && a.header.pageCount <= MAX_PAGES
    && forall i :: 0 <= i < |a.pages| ==> |a.pages[i]| == c.pageSize
  }

  function NextFree(p: Page): nat
    requires |p| >= 4
  {
    FromLE(p[..4])
  }

  function Linked(p: Page, next: nat): (q: Page)
    requires |p| >= 4
    ensures |q| == |p|
  {
    LE(next, 4) + p[4..]
  }

  lemma LinkedNext(p: Page, next: nat)
    requires |p| >= 4 && next < MAX_PAGES
    ensures NextFree(Linked(p, next)) == next
  {
    assert Linked(p, next)[..4] == LE(next, 4);
    IdRoundTrip(next);
  }

  /** Following the links from `head` visits exactly the pages `f` and ends. */
  ghost predicate Chain(c: Config, a: Image, head: nat, f: seq<nat>)
    requires Sized(c, a)
    decreases |f|
  {
    if f == [] then head == 0
    else head == f[0] && 1 <= head < a.header.pageCount && Chain(c, a, NextFree(a.pages[head]), f[1..])
  }

  ghost predicate Free(c: Config, a: Image, f: seq<nat>) {
    && Sized(c, a)
    && Chain(c, a, a.header.freeHead, f)
    && forall x :: multiset(f)[x] <= 1
  }

  lemma {:induction false} ChainUnchanged(c: Config, a: Image, b: Image, head: nat, f: seq<nat>)
    requires Sized(c, a) && Sized(c, b) && Chain(c, a, head, f)
    requires a.header.pageCount <= b.header.pageCount
    requires forall x :: x in f ==> x < |a.pages| && x < |b.pages| && b.pages[x] == a.pages[x]
    ensures Chain(c, b, head, f)
    decreases |f|
  {
    if f != [] {
      assert f[0] in f;
      forall x | x in f[1..] ensures x in f {
      }
      ChainUnchanged(c, a, b, NextFree(a.pages[head]), f[1..]);
    }
  }

  lemma {:induction false} ChainInRange(c: Config, a: Image, head: nat, f: seq<nat>)
    requires Sized(c, a) && Chain(c, a, head, f)
    ensures forall x :: x in f ==> 1 <= x < a.header.pageCount
    ensures head < a.header.pageCount
    decreases |f|
  {
    if f != [] {
      ChainInRange(c, a, NextFree(a.pages[head]), f[1..]);
      forall x | x in f ensures 1 <= x < a.header.pageCount {
        if x != f[0] { assert x in f[1..]; }
      }
    }
  }

  ghost predicate Suffix(g: seq<nat>, f: seq<nat>) {
    |g| <= |f| && g == f[|f| - |g|..]
  }

  lemma SuffixMembers(g: seq<nat>, f: seq<nat>)
    requires Suffix(g, f)
    ensures forall x :: x in g ==> x in f
    ensures forall x :: multiset(g)[x] <= multiset(f)[x]
  {
    var k := |f| - |g|;
    assert f == f[..k] + g;
    assert multiset(f) == multiset(f[..k]) + multiset(g);
  }

  lemma SuffixTransitive(g: seq<nat>, f: seq<nat>, e: seq<nat>)
    requires Suffix(g, f) && Suffix(f, e)
    ensures Suffix(g, e)
  {
  }

  // ---------- work on pages nobody reads ----------

  /**
    From `a` with freelist `f` to `b` with freelist `g`, touching only pages that
    were free in `a` or did not exist yet.
  */
  ghost predicate Moved(c: Config, a: Image, f: seq<nat>, b: Image, g: seq<nat>) {
    && Free(c, a, f) && Free(c, b, g) && Suffix(g, f)
    && b.header.root == a.header.root
    && a.header.pageCount <= b.header.pageCount
    && forall x :: 0 <= x < a.header.pageCount && x !in f ==> b.pages[x] == a.pages[x]
  }

  ghost predicate Within(c: Config, a: Image, f: seq<nat>, x: Image) {
    exists g :: Moved(c, a, f, x, g)
  }

  ghost predicate AllWithin(c: Config, a: Image, f: seq<nat>, xs: seq<Image>) {
    forall x :: x in xs ==> Within(c, a, f, x)
  }

  lemma MovedSelf(c: Config, a: Image, f: seq<nat>)
    requires Free(c, a, f)
    ensures Moved(c, a, f, a, f)
  {
  }

  lemma MovedTransitive(c: Config, a: Image, f: seq<nat>, b: Image, g: seq<nat>, d: Image, e: seq<nat>)
    requires Moved(c, a, f, b, g) && Moved(c, b, g, d, e)
    ensures Moved(c, a, f, d, e)
  {
    SuffixMembers(g, f);
    SuffixTransitive(e, g, f);
  }

  lemma WithinAfter(c: Config, a: Image, f: seq<nat>, b: Image, g: seq<nat>, xs: seq<Image>)
    requires Moved(c, a, f, b, g) && AllWithin(c, b, g, xs)
    ensures AllWithin(c, a, f, xs)
  {
    hide Moved;
    forall x | x in xs ensures Within(c, a, f, x) {
      var e :| Moved(c, b, g, x, e);
      MovedTransitive(c, a, f, b, g, x, e);
    }
  }

  // ---------- allocation ----------

  function Resized(c: Config, pages: seq<Page>, n: nat): seq<Page> {
    if |pages| >= n then pages[..n] else pages + seq(n - |pages|, _ => Zeros(c.pageSize))
  }

  /** The file states an allocation passes through: a freelist pop, or one page of growth. */
  ghost function AllocationSteps(c: Config, a: Image): seq<Image>
    requires Sized(c, a) && a.header.freeHead < |a.pages|
  {
    var id := a.header.freeHead;
    if id != 0 then
      var popped := a.(header := a.header.(freeHead := NextFree(a.pages[id])));
      [popped, popped.(pages := popped.pages[id := Zeros(c.pageSize)])]
    else
      var grown := a.(pages := Resized(c, a.pages, a.header.pageCount + 1));
      [grown, grown.(header := a.header.(pageCount := a.header.pageCount + 1))]
  }

  ghost function AllocatedId(a: Image): nat {
    if a.header.freeHead != 0 then a.header.freeHead else a.header.pageCount
  }

  ghost function FreeAfter(f: seq<nat>): seq<nat> {
    if f == [] then [] else f[1..]
  }

  lemma AllocationMoves(c: Config, a: Image, f: seq<nat>)
    requires Free(c, a, f) && a.header.pageCount < MAX_PAGES
    ensures a.header.freeHead < |a.pages|
    ensures var xs := AllocationSteps(c, a);
            |xs| == 2 && Moved(c, a, f, xs[1], FreeAfter(f)) && AllWithin(c, a, f, xs)
  {
    ChainInRange(c, a, a.header.freeHead, f);
    if f != [] {
      PopMoves(c, a, f);
    } else {
      GrowMoves(c, a);
    }
    var xs := AllocationSteps(c, a);
    assert Within(c, a, f, xs[0]) && Within(c, a, f, xs[1]);
    assert xs == [xs[0], xs[1]];
  }

  lemma PopMoves(c: Config, a: Image, f: seq<nat>)
    requires Free(c, a, f) && f != [] && a.header.freeHead < |a.pages|
    ensures var xs := AllocationSteps(c, a);
            Moved(c, a, f, xs[0], f[1..]) && Moved(c, a, f, xs[1], f[1..])
  {
    var xs, id := AllocationSteps(c, a), f[0];
    assert f == [id] + f[1..];
    assert multiset(f)[id] == 1 + multiset(f[1..])[id];
    assert id !in f[1..];
    ChainInRange(c, a, a.header.freeHead, f);
    forall x | x in f[1..] ensures x in f {
    }
    ChainUnchanged(c, a, xs[0], NextFree(a.pages[id]), f[1..]);
    ChainUnchanged(c, a, xs[1], NextFree(a.pages[id]), f[1..]);
    assert forall x :: multiset(f[1..])[x] <= multiset(f)[x];
  }

  lemma GrowMoves(c: Config, a: Image)
    requires Free(c, a, []) && a.header.pageCount < MAX_PAGES && a.header.freeHead < |a.pages|
    ensures var xs := AllocationSteps(c, a);
            Moved(c, a, [], xs[0], []) && Moved(c, a, [], xs[1], [])
  {
  }

  // ---------- writes ----------

  /** Writing a page that is neither free nor part of what `a` had in use. */
  lemma WriteMoves(c: Config, a: Image, f: seq<nat>, b: Image, g: seq<nat>, id: nat, page: Page)
    requires Moved(c, a, f, b, g) && id < b.header.pageCount && id !in g && |page| == c.pageSize
    requires id in f || id >= a.header.pageCount
    ensures Moved(c, a, f, b.(pages := b.pages[id := page]), g)
  {
    var d := b.(pages := b.pages[id := page]);
    ChainInRange(c, b, b.header.freeHead, g);
    ChainUnchanged(c, b, d, b.header.freeHead, g);
  }

  // ---------- freeing ----------

  /** Threading a page that is in use nowhere onto the freelist. */
  lemma FreeingChains(c: Config, a: Image, f: seq<nat>, id: nat)
    requires Free(c, a, f) && 1 <= id < a.header.pageCount && id !in f
    ensures var linked := a.(pages := a.pages[id := Linked(a.pages[id], a.header.freeHead)]);
            var done := linked.(header := a.header.(freeHead := id));
            Free(c, linked, f) && Free(c, done, [id] + f)
  {
    var linked := a.(pages := a.pages[id := Linked(a.pages[id], a.header.freeHead)]);
    var done := linked.(header := a.header.(freeHead := id));
    ChainInRange(c, a, a.header.freeHead, f);
    LinkedNext(a.pages[id], a.header.freeHead);
    ChainUnchanged(c, a, linked, a.header.freeHead, f);
    ChainUnchanged(c, a, done, a.header.freeHead, f);
    assert ([id] + f)[1..] == f;
    assert multiset([id] + f) == multiset{id} + multiset(f);
  }

  // ---------- the pager ----------

  class PageFile {
    const config: Config
    var header: Header
    var file: Image
    ghost var trace: seq<Image>

    /** The in-memory header is what was last written. */
    ghost predicate Synced()
      reads this
    {
      ConfigOk(config) && Sized(config, file) && header == file.header
    }

    constructor Create(config: Config)
      requires ConfigOk(config)
      ensures this.config == config && Synced() && trace == []
      ensures file == Image(Header(0, 0, 1, 0), [Zeros(config.pageSize)])
    {
      this.config := config;
      header := Header(0, 0, 1, 0);
      file := Image(Header(0, 0, 1, 0), [Zeros(config.pageSize)]);
      trace := [];
    }

    /** Reopening takes the header from the file, whatever state it was left in. */
    constructor Open(config: Config, found: Image)
      requires ConfigOk(config) && Sized(config, found)
      ensures this.config == config && Synced() && file == found && trace == []
    {
      this.config := config;
      header := found.header;
      file := found;
      trace := [];
    }

    method WriteHeader()
      modifies this
      ensures header == old(header) && file == old(file).(header := header) && trace == old(trace) + [file]
    {
      file := file.(header := header);
      trace := trace + [file];
    }

    /** One write of the root field makes the new tree visible; the rest of the header follows. */
    method PublishRoot(newRoot: nat)
      requires Synced()
      modifies this
      ensures Synced()
      ensures file == old(file).(header := old(header).(root := newRoot, commitSeq := old(header).commitSeq + 1))
      ensures trace == old(trace) + [old(file).(header := old(header).(root := newRoot)), file]
    {
      header := header.(root := newRoot, commitSeq := header.commitSeq + 1);
      file := file.(header := file.header.(root := newRoot));
      trace := trace + [file];
      WriteHeader();
    }

    method AllocatePage() returns (id: nat)
      requires Synced() && header.freeHead < |file.pages| && header.pageCount < MAX_PAGES
      modifies this
      ensures id == AllocatedId(old(file))
      ensures var xs := AllocationSteps(config, old(file)); file == xs[1] && trace == old(trace) + xs
      ensures header == file.header
    {
      if header.freeHead != 0 {
        id := header.freeHead;
        var next := NextFree(file.pages[id]);
        header := header.(freeHead := next);
        WriteHeader();
        file := file.(pages := file.pages[id := Zeros(config.pageSize)]);
        trace := trace + [file];
      } else {
        id := header.pageCount;
        file := file.(pages := Resized(config, file.pages, id + 1));
        trace := trace + [file];
        header := header.(pageCount := header.pageCount + 1);
        WriteHeader();
      }
    }

    /** Encoding a node clears the page and then fills it in. */
    method WritePage(id: nat, page: Page)
      requires Synced() && id < |file.pages| && |page| == config.pageSize
      modifies this
      ensures Synced() && file == old(file).(pages := old(file).pages[id := page])
      ensures trace == old(trace) + [old(file).(pages := old(file).pages[id := Zeros(config.pageSize)]), file]
    {
      file := file.(pages := file.pages[id := Zeros(config.pageSize)]);
      trace := trace + [file];
      file := file.(pages := file.pages[id := page]);
      trace := trace + [file];
    }

    method FreePage(id: nat)
      requires Synced() && id < |file.pages|
      modifies this
      ensures Synced()
      ensures var linked := old(file).(pages := old(file).pages[id := Linked(old(file).pages[id], old(header).freeHead)]);
              && file == linked.(header := old(header).(freeHead := id))
              && trace == old(trace) + [linked, file]
    {
      var next := header.freeHead;
      file := file.(pages := file.pages[id := Linked(file.pages[id], next)]);
      trace := trace + [file];
      header := header.(freeHead := id);
      WriteHeader();
    }
  }
}
