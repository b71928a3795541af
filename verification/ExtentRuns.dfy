/**
  Runs of the extent allocator: which slots it hands out, when those are safe to use
  side by side, and how far that lasts as the file grows.
*/
module ExtentRuns {
  import opened Options
  import opened Extents

  datatype Place = Place(extent: nat, slot: nat)

  datatype Pointer = Pointer(extent: nat, slot: nat, kind: Class)

  /**
    What the file and the manager hold: how often the file has grown, the manager's list
    of classes by position, the bits set in each extent's bitmap, the class byte in each header.
  */
  datatype Table = Table(grown: nat, extents: seq<Class>, taken: set<Place>, labels: map<nat, Class>)

  function At(p: Pointer): Place { Place(p.extent, p.slot) }

  // ---------- allocation ----------

  function FirstFree(taken: set<Place>, e: nat, i: nat, n: nat): Option<nat>
    requires i <= n
    decreases n - i
  {
    if i == n then None else if Place(e, i) !in taken then Some(i) else FirstFree(taken, e, i + 1, n)
  }

  lemma {:induction false} FirstFreeIs(taken: set<Place>, e: nat, i: nat, n: nat)
    requires i <= n
    ensures match FirstFree(taken, e, i, n)
            case Some(k) => i <= k < n && Place(e, k) !in taken && forall j :: i <= j < k ==> Place(e, j) in taken
            case None => forall j :: i <= j < n ==> Place(e, j) in taken
    decreases n - i
  {
    if i < n && Place(e, i) in taken {
      FirstFreeIs(taken, e, i + 1, n);
    }
  }

  /** The first position from `i` on that has the class and a free slot. */
  function FirstRoom(t: Table, c: Class, i: nat): Option<Place>
    requires i <= |t.extents|
    decreases |t.extents| - i
  {
    if i == |t.extents| then None
    else if t.extents[i] != c then FirstRoom(t, c, i + 1)
    else match FirstFree(t.taken, i, 0, Slots(c))
      case Some(k) => Some(Place(i, k))
      case None => FirstRoom(t, c, i + 1)
  }

  lemma {:induction false} FirstRoomIs(t: Table, c: Class, i: nat)
    requires i <= |t.extents|
    ensures match FirstRoom(t, c, i)
            case Some(p) => i <= p.extent < |t.extents| && t.extents[p.extent] == c && p.slot < Slots(c) && p !in t.taken
            case None => forall j, k :: i <= j < |t.extents| && t.extents[j] == c && 0 <= k < Slots(c) ==> Place(j, k) in t.taken
    decreases |t.extents| - i
  {
    hide Slots;
    if i < |t.extents| {
      FirstRoomIs(t, c, i + 1);
      FirstFreeIs(t.taken, i, 0, Slots(c));
    }
  }

  /** The new extent's header goes where the length says; its class goes at the end of the list. */
  function Grown(t: Table, c: Class, page: nat): Table
    requires page > 0
  {
    Table(t.grown + 1, t.extents + [c], t.taken, t.labels[IndexOfGrowth(t.grown, page) := c])
  }

  function Taking(t: Table, p: Place): Table { t.(taken := t.taken + {p}) }

  predicate Grows(t: Table, c: Class) { FirstRoom(t, c, 0).None? }

  /** Where the next slot of a class comes from; none only if even a new extent is full. */
  function NextPlace(t: Table, c: Class, page: nat): Option<Place>
    requires page > 0
  {
    match FirstRoom(t, c, 0)
    case Some(p) => Some(p)
    case None =>
      var e := IndexOfGrowth(t.grown, page);
      match FirstFree(t.taken, e, 0, Slots(c)) case Some(k) => Some(Place(e, k)) case None => None
  }

  function Allocated(t: Table, c: Class, page: nat): Table
    requires page > 0
  {
    var t' := if Grows(t, c) then Grown(t, c, page) else t;
    match NextPlace(t, c, page) case Some(p) => Taking(t', p) case None => t'
  }

  function Label(labels: map<nat, Class>, e: nat): Class {
    if e in labels then labels[e] else 0
  }

  function Labels(labels: map<nat, Class>, n: nat): seq<Class> {
    seq(n, e requires 0 <= e < n => Label(labels, e))
  }

  /** Opening counts whole extents in the mapping and reads each one's class byte. */
  function Reopened(t: Table, page: nat): Table
    requires page > 0
  {
    t.(extents := Labels(t.labels, IndexOfGrowth(t.grown, page)))
  }

  // ---------- runs ----------

  datatype Op = Allocate(size: nat) | Free(p: Pointer) | Reopen

  /** The file with the pointers handed out and not yet given back. */
  datatype Sys = Sys(table: Table, held: set<Pointer>)

  function Step(s: Sys, op: Op, page: nat): Sys
    requires page > 0
  {
    match op
    case Allocate(size) =>
      (match ClassFor(size)
       case None => s
       case Some(c) =>
         Sys(Allocated(s.table, c, page),
             match NextPlace(s.table, c, page)
             case Some(p) => s.held + {Pointer(p.extent, p.slot, c)}
             case None => s.held))
    case Free(p) =>
      if p in s.held then Sys(s.table.(taken := s.table.taken - {At(p)}), s.held - {p}) else s
    case Reopen => s.(table := Reopened(s.table, page))
  }

  const Empty := Sys(Table(0, [], {}, map[]), {})

  function Run(ops: seq<Op>, page: nat): Sys
    requires page > 0
  {
    if ops == [] then Empty else Step(Run(ops[..|ops| - 1], page), ops[|ops| - 1], page)
  }

  // ---------- what every run keeps ----------

  /** Nothing lies at or beyond the index the next extent will get. */
  ghost predicate Bounded(t: Table, page: nat)
    requires page > 0
  {
    && |t.extents| <= IndexOfGrowth(t.grown, page)
    && (forall p :: p in t.taken ==> p.extent < IndexOfGrowth(t.grown, page))
    && (forall e :: e in t.labels ==> e < IndexOfGrowth(t.grown, page))
  }

  lemma BoundedStep(s: Sys, op: Op, page: nat)
    requires page > 0 && Bounded(s.table, page)
    ensures Bounded(Step(s, op, page).table, page)
    ensures op.Allocate? && ClassFor(op.size).Some? ==> NextPlace(s.table, ClassFor(op.size).value, page).Some?
  {
    hide IndexOfGrowth, Slots, ClassFor, FirstRoom, FirstFree;
    if op.Allocate? && ClassFor(op.size).Some? {
      var t, c := s.table, ClassFor(op.size).value;
      FirstRoomIs(t, c, 0);
      SlotsTile(c);
      var e := IndexOfGrowth(t.grown, page);
      FirstFreeIs(t.taken, e, 0, Slots(c));
      assert Place(e, 0) !in t.taken;
      IndexRises(t.grown, page);
    }
  }

  lemma {:induction false} AlwaysBounded(ops: seq<Op>, page: nat)
    requires page > 0
    ensures Bounded(Run(ops, page).table, page)
  {
    hide IndexOfGrowth, Step;
    if ops == [] {
      assert IndexOfGrowth(0, page) == 0 by { IndexExact(0, page); }
    } else {
      AlwaysBounded(ops[..|ops| - 1], page);
      BoundedStep(Run(ops[..|ops| - 1], page), ops[|ops| - 1], page);
    }
  }

  /** Every size up to the largest block gets a slot; a new extent always has a free one. */
  lemma NeverFull(ops: seq<Op>, size: nat, page: nat)
    requires page > 0 && ClassFor(size).Some?
    ensures NextPlace(Run(ops, page).table, ClassFor(size).value, page).Some?
  {
    AlwaysBounded(ops, page);
    BoundedStep(Run(ops, page), Allocate(size), page);
  }

  // ---------- safety ----------

  /** With these classes by extent, the bitmaps hold exactly the held pointers. */
  ghost predicate Matched(held: set<Pointer>, taken: set<Place>, kinds: seq<Class>) {
    && (forall p :: p in held ==> p.extent < |kinds| && kinds[p.extent] == p.kind && p.slot < Slots(p.kind) && At(p) in taken)
    && (forall p :: p in taken ==> p.extent < |kinds| && Pointer(p.extent, p.slot, kinds[p.extent]) in held)
  }

  /** The list of classes says what the headers say, and goes with the bitmaps. */
  ghost predicate Sound(s: Sys) {
    && (forall e :: 0 <= e < |s.table.extents| ==> Label(s.table.labels, e) == s.table.extents[e])
    && (forall e :: e in s.table.labels ==> e < |s.table.extents|)
    && Matched(s.held, s.table.taken, s.table.extents)
  }

  lemma MatchedFree(held: set<Pointer>, taken: set<Place>, kinds: seq<Class>, p: Pointer)
    requires Matched(held, taken, kinds) && p in held
    ensures Matched(held - {p}, taken - {At(p)}, kinds)
  {
    hide Slots;
    forall q | q in held && q != p ensures At(q) != At(p) {
      assert kinds[p.extent] == p.kind && kinds[q.extent] == q.kind;
    }
  }

  lemma AllocateSound(s: Sys, size: nat, page: nat)
    requires page > 0 && Sound(s) && ClassFor(size).Some?
    requires Grows(s.table, ClassFor(size).value) ==> IndexOfGrowth(s.table.grown, page) == |s.table.extents|
    ensures Sound(Step(s, Allocate(size), page))
  {
    hide IndexOfGrowth, Slots, ClassFor, FirstRoom, FirstFree;
    var t, c := s.table, ClassFor(size).value;
    FirstRoomIs(t, c, 0);
    FirstFreeIs(t.taken, IndexOfGrowth(t.grown, page), 0, Slots(c));
  }

  lemma FreeSound(s: Sys, p: Pointer, page: nat)
    requires page > 0 && Sound(s)
    ensures Sound(Step(s, Free(p), page))
  {
    hide Matched;
    if p in s.held {
      MatchedFree(s.held, s.table.taken, s.table.extents, p);
    }
  }

  lemma ReopenSound(s: Sys, page: nat)
    requires page > 0 && Sound(s) && Bounded(s.table, page)
    ensures Sound(Step(s, Reopen, page))
    ensures IndexOfGrowth(s.table.grown, page) == |s.table.extents| <==> Step(s, Reopen, page) == s
  {
    hide IndexOfGrowth, Slots;
    var n := IndexOfGrowth(s.table.grown, page);
    assert forall e :: 0 <= e < |s.table.extents| ==> Labels(s.table.labels, n)[e] == s.table.extents[e];
    if n == |s.table.extents| {
      assert Labels(s.table.labels, n) == s.table.extents;
    }
  }

  /** While the extents fit their slack, every extent's position is its index. */
  ghost predicate Aligned(s: Sys, page: nat)
    requires page > 0
  {
    s.table.grown * Slack(page) < EXTENT_SIZE ==> |s.table.extents| == s.table.grown
  }

  lemma GrowsByOne(s: Sys, op: Op, page: nat)
    requires page > 0
    ensures var n, n' := s.table.grown, Step(s, op, page).table.grown;
            n' == if op.Allocate? && ClassFor(op.size).Some? && Grows(s.table, ClassFor(op.size).value) then n + 1 else n
  {
    hide IndexOfGrowth, ClassFor, Grows, FirstRoom, NextPlace;
  }

  lemma AlignedStep(s: Sys, op: Op, page: nat)
    requires page > 0 && Sound(s) && Bounded(s.table, page) && Aligned(s, page)
    requires Step(s, op, page).table.grown > s.table.grown ==> s.table.grown * Slack(page) < EXTENT_SIZE
    ensures Sound(Step(s, op, page)) && Aligned(Step(s, op, page), page)
  {
    GrowsByOne(s, op, page);
    IndexExact(s.table.grown, page);
    hide IndexOfGrowth, Sound, ClassFor, FirstRoom, NextPlace, Slack;
    match op
    case Allocate(size) =>
      if ClassFor(size).Some? {
        AllocateSound(s, size, page);
      }
    case Free(p) => FreeSound(s, p, page);
    case Reopen => ReopenSound(s, page);
  }

  lemma {:induction false} RunSound(ops: seq<Op>, page: nat)
    requires page > 0
    requires var n := Run(ops, page).table.grown; n > 0 ==> (n - 1) * Slack(page) < EXTENT_SIZE
    ensures Sound(Run(ops, page)) && Aligned(Run(ops, page), page)
  {
    if ops != [] {
      hide Step, Sound, Aligned, Slack, Bounded;
      var init, op := ops[..|ops| - 1], ops[|ops| - 1];
      var s := Run(init, page);
      GrowsByOne(s, op, page);
      var n := s.table.grown;
      if n > 0 && Run(ops, page).table.grown == n + 1 {
        MulMono(n - 1, n, Slack(page));
      }
      RunSound(init, page);
      AlwaysBounded(init, page);
      AlignedStep(s, op, page);
    }
  }

  // ---------- byte ranges ----------

  function Start(p: Pointer): nat { p.extent * EXTENT_SIZE + DATA_OFFSET + p.slot * BlockSize(p.kind) }

  function End(p: Pointer): nat { Start(p) + BlockSize(p.kind) }

  predicate Apart(p: Pointer, q: Pointer) { End(p) <= Start(q) || End(q) <= Start(p) }

  /** Not a byte of the header or bitmap of extent `e`. */
  predicate MissesHead(p: Pointer, e: nat) {
    End(p) <= e * EXTENT_SIZE || e * EXTENT_SIZE + DATA_OFFSET <= Start(p)
  }

  /** A slot lies inside the data region of its extent. */
  lemma SlotInside(p: Pointer)
    requires p.slot < Slots(p.kind)
    ensures p.extent * EXTENT_SIZE + DATA_OFFSET <= Start(p) <= End(p) <= (p.extent + 1) * EXTENT_SIZE
  {
    SlotsTile(p.kind);
    BlockInside(p.slot, Slots(p.kind), BlockSize(p.kind));
    hide BlockSize, Slots;
  }

  lemma BlockInside(i: nat, n: nat, block: nat)
    requires i < n
    ensures 0 <= i * block && i * block + block <= n * block
  {
    Distribute(i, 1, block);
    MulMono(i + 1, n, block);
  }

  lemma SlotsApart(p: Pointer, q: Pointer)
    requires p.slot < Slots(p.kind) && q.slot < Slots(q.kind)
    requires p.extent == q.extent ==> p.kind == q.kind && p.slot != q.slot
    ensures Apart(p, q)
  {
    if p.extent < q.extent {
      SlotInside(p); SlotInside(q);
    } else if q.extent < p.extent {
      SlotInside(p); SlotInside(q);
    } else {
      var b := BlockSize(p.kind);
      if p.slot < q.slot { BlockInside(p.slot, q.slot, b); } else { BlockInside(q.slot, p.slot, b); }
    }
  }

  /** Held slots share no byte with each other, with any header or bitmap, or with what is not mapped. */
  ghost predicate Safe(s: Sys, page: nat)
    requires page > 0
  {
    && (forall p, q :: p in s.held && q in s.held && p != q ==> Apart(p, q))
    && (forall p, e: nat :: p in s.held ==> MissesHead(p, e))
    && (forall p :: p in s.held ==> End(p) <= s.table.grown * Stride(page))
  }

  lemma ClearOfHeaders(p: Pointer, e: nat)
    requires p.slot < Slots(p.kind)
    ensures MissesHead(p, e)
  {
    SlotInside(p);
  }

  lemma InsideMapping(p: Pointer, grown: nat, page: nat)
    requires page > 0 && p.slot < Slots(p.kind) && p.extent < IndexOfGrowth(grown, page)
    ensures End(p) <= grown * Stride(page)
  {
    SlotInside(p);
    var m := grown * Stride(page);
    MulMono(p.extent + 1, m / EXTENT_SIZE, EXTENT_SIZE);
  }

  lemma MatchedIsSafe(s: Sys, kinds: seq<Class>, page: nat)
    requires page > 0 && Matched(s.held, s.table.taken, kinds) && Bounded(s.table, page)
    ensures Safe(s, page)
  {
    hide Start, End, IndexOfGrowth, Apart, MissesHead;
    forall p, q | p in s.held && q in s.held && p != q ensures Apart(p, q) {
      assert kinds[p.extent] == p.kind && kinds[q.extent] == q.kind;
      SlotsApart(p, q);
    }
    forall p, e: nat | p in s.held ensures MissesHead(p, e) {
      ClearOfHeaders(p, e);
    }
    forall p | p in s.held ensures End(p) <= s.table.grown * Stride(page) {
      InsideMapping(p, s.table.grown, page);
    }
  }

  lemma SoundMatched(s: Sys)
    requires Sound(s)
    ensures Matched(s.held, s.table.taken, s.table.extents)
  {
  }

  /**
    In every run of allocations, frees and reopenings, held slots are safe as long as
    each extent was added while the slack before it stayed below one extent.
  */
  lemma SafeWithinSlack(ops: seq<Op>, page: nat)
    requires page > 0
    requires var n := Run(ops, page).table.grown; n > 0 ==> (n - 1) * Slack(page) < EXTENT_SIZE
    ensures Safe(Run(ops, page), page)
  {
    hide *;
    RunSound(ops, page);
    AlwaysBounded(ops, page);
    SoundMatched(Run(ops, page));
    MatchedIsSafe(Run(ops, page), Run(ops, page).table.extents, page);
  }

  /** An allocation hands out a slot nobody holds, large enough and of the smallest class that is. */
  lemma AllocateFresh(ops: seq<Op>, size: nat, page: nat)
    requires page > 0 && ClassFor(size).Some?
    requires var n := Run(ops, page).table.grown; n > 0 ==> (n - 1) * Slack(page) < EXTENT_SIZE
    ensures var s := Run(ops, page);
            var p := NextPlace(s.table, ClassFor(size).value, page);
            p.Some? && forall q :: q in s.held ==> At(q) != p.value
    ensures BestFit(size, ClassFor(size))
  {
    NeverFull(ops, size, page);
    ClassFromFits(size, 0);
    RunSound(ops, page);
    var t, c := Run(ops, page).table, ClassFor(size).value;
    hide Run, Slots, IndexOfGrowth, ClassFor, FirstRoom, FirstFree;
    FirstRoomIs(t, c, 0);
    FirstFreeIs(t.taken, IndexOfGrowth(t.grown, page), 0, Slots(c));
  }

  ghost predicate NeverReopened(ops: seq<Op>) {
    forall i :: 0 <= i < |ops| ==> !ops[i].Reopen?
  }

  /** How often the file had grown when it was last opened. */
  function GrownAtOpen(ops: seq<Op>, page: nat): nat
    requires page > 0
  {
    if ops == [] then 0
    else if ops[|ops| - 1].Reopen? then Run(ops, page).table.grown
    else GrownAtOpen(ops[..|ops| - 1], page)
  }

  /** Opening lists every whole extent of the mapping; from then on the list grows with the file. */
  lemma {:induction false} ListLength(ops: seq<Op>, page: nat)
    requires page > 0
    ensures var n, g := Run(ops, page).table.grown, GrownAtOpen(ops, page);
            g <= n && |Run(ops, page).table.extents| == IndexOfGrowth(g, page) + (n - g)
    ensures NeverReopened(ops) ==> GrownAtOpen(ops, page) == 0
  {
    if ops == [] {
      IndexExact(0, page);
    } else {
      ListLength(ops[..|ops| - 1], page);
      hide IndexOfGrowth, ClassFor, FirstRoom, NextPlace;
    }
  }

  /** How many extents' worth of slack `n` growths have put into the mapping. */
  function Drift(n: nat, page: nat): nat
    requires page > 0
  {
    n * Slack(page) / EXTENT_SIZE
  }

  /**
    The manager lists the next new extent at the index it is given exactly when no whole
    extent of slack has built up since the file was opened; within one process that is
    while the extents so far times the slack are below one extent.
  */
  lemma NewExtentIndex(ops: seq<Op>, page: nat)
    requires page > 0
    ensures var t := Run(ops, page).table;
            && (IndexOfGrowth(t.grown, page) == |t.extents| <==> Drift(t.grown, page) == Drift(GrownAtOpen(ops, page), page))
            && (NeverReopened(ops) ==>
                  (IndexOfGrowth(t.grown, page) == |t.extents| <==> |t.extents| * Slack(page) < EXTENT_SIZE))
  {
    ListLength(ops, page);
    IndexExact(Run(ops, page).table.grown, page);
    IndexExact(GrownAtOpen(ops, page), page);
  }

  /** Within the bound, opening the file again gives the same manager exactly when the next extent would be listed at its index. */
  lemma ReopenSame(ops: seq<Op>, page: nat)
    requires page > 0
    requires var n := Run(ops, page).table.grown; n > 0 ==> (n - 1) * Slack(page) < EXTENT_SIZE
    ensures var s := Run(ops, page);
            Step(s, Reopen, page) == s <==> Drift(s.table.grown, page) == Drift(GrownAtOpen(ops, page), page)
  {
    NewExtentIndex(ops, page);
    RunSound(ops, page);
    AlwaysBounded(ops, page);
    ReopenSound(Run(ops, page), page);
  }

  // ---------- past the bound ----------

  /** Enough extents that the slack has grown to a whole one, and no more. */
  ghost predicate FirstMiss(n: nat, page: nat)
    requires page > 0
  {
    n * Slack(page) >= EXTENT_SIZE && forall i: nat :: i < n ==> i * Slack(page) < EXTENT_SIZE
  }

  function Big(k: nat): seq<Op> {
    if k == 0 then [] else Big(k - 1) + [Allocate(DATA_SIZE)]
  }

  lemma BigClass()
    ensures ClassFor(DATA_SIZE) == Some(15) && ClassFor(1) == Some(0) && Slots(15) == 1 && Slots(0) == BITMAP_BITS
    ensures BlockSize(15) == DATA_SIZE && BlockSize(0) == MIN_BLOCK
  {
    var c := ClassFor(DATA_SIZE);
    Sizes();
    SlotsTile(15);
    SlotsTile(0);
    assert ClassFrom(DATA_SIZE, 15) == Some(15);
    assert ClassFrom(DATA_SIZE, 12) == Some(15);
    assert ClassFrom(DATA_SIZE, 8) == Some(15);
    assert ClassFrom(DATA_SIZE, 4) == Some(15);
  }

  lemma BeforeMiss(i: nat, n: nat, page: nat)
    requires page > 0 && FirstMiss(n, page) && i < n
    ensures IndexOfGrowth(i, page) == i
  {
    IndexExact(i, page);
    hide IndexOfGrowth, Slack;
  }

  /** One slot taken in each of the first `k` extents, all of the largest class. */
  ghost predicate BigState(s: Sys, k: nat) {
    && s.table.grown == k && s.table.extents == seq(k, _ => 15)
    && (forall p :: p in s.table.taken <==> p.extent < k && p.slot == 0)
    && (forall e :: e in s.table.labels <==> 0 <= e < k)
    && (forall e :: e in s.table.labels ==> s.table.labels[e] == 15)
  }

  /** One whole-extent value after another, each in a new extent of its own. */
  lemma {:induction false} BigRun(k: nat, n: nat, page: nat)
    requires page > 0 && FirstMiss(n, page) && k <= n
    ensures BigState(Run(Big(k), page), k)
  {
    if k > 0 {
      hide Run, Step, IndexOfGrowth, Slack, FirstMiss, BigState;
      var s := Run(Big(k - 1), page);
      BigRun(k - 1, n, page);
      BeforeMiss(k - 1, n, page);
      BigNext(s, k - 1, page);
      RunOne(Big(k - 1), Allocate(DATA_SIZE), page);
    }
  }

  lemma BigNext(s: Sys, k: nat, page: nat)
    requires page > 0 && BigState(s, k) && IndexOfGrowth(k, page) == k
    ensures BigState(Step(s, Allocate(DATA_SIZE), page), k + 1)
  {
    BigStep(s, k, page);
    hide Step, IndexOfGrowth;
  }

  lemma BigStep(s: Sys, k: nat, page: nat)
    requires page > 0 && BigState(s, k)
    ensures var s' := Step(s, Allocate(DATA_SIZE), page);
            var e := IndexOfGrowth(k, page);
            && s'.table.grown == k + 1 && s'.table.extents == seq(k + 1, _ => 15)
            && s'.table.taken == s.table.taken + {Place(e, 0)} && s'.table.labels == s.table.labels[e := 15]
            && s'.held == s.held + {Pointer(e, 0, 15)}
  {
    BigClass();
    var e := IndexOfGrowth(k, page);
    assert e >= k by { IndexExact(k, page); }
    hide IndexOfGrowth, ClassFor, Slots, FirstRoom, FirstFree;
    FirstRoomIs(s.table, 15, 0);
    FirstFreeIs(s.table.taken, e, 0, 1);
    assert Place(e, 0) !in s.table.taken;
  }

  /** A small value gets an extent listed where the last big value's extent lies. */
  lemma SmallStep(s: Sys, n: nat, page: nat)
    requires page > 0 && s.table.grown == n + 1 && s.table.extents == seq(n + 1, _ => 15)
    requires IndexOfGrowth(n, page) == n + 1
    requires forall p :: p in s.table.taken <==> (p.extent < n || p.extent == n + 1) && p.slot == 0
    ensures var s' := Step(s, Allocate(1), page);
            && s'.table.grown == n + 2 && s'.table.extents == s.table.extents + [0] && s.held <= s'.held
            && forall p: Place :: p.extent <= n + 1 ==> (p in s'.table.taken <==> p in s.table.taken)
  {
    BigClass();
    var e := IndexOfGrowth(n + 1, page);
    assert e > n + 1 by { IndexRises(n, page); }
    hide IndexOfGrowth, ClassFor, Slots, FirstRoom, FirstFree;
    FirstRoomIs(s.table, 0, 0);
    FirstFreeIs(s.table.taken, e, 0, BITMAP_BITS);
    assert Place(e, 0) !in s.table.taken;
  }

  lemma OverlapStep(s: Sys, n: nat, page: nat)
    requires page > 0 && s.table.extents == seq(n + 1, _ => 15) + [0]
    requires Place(n + 1, 0) in s.table.taken && Place(n + 1, 1) !in s.table.taken
    ensures Pointer(n + 1, 1, 0) in Step(s, Allocate(1), page).held && s.held <= Step(s, Allocate(1), page).held
    ensures Step(s, Allocate(1), page).table.grown == s.table.grown
  {
    BigClass();
    hide IndexOfGrowth, ClassFor, Slots, FirstRoom, FirstFree;
    FirstRoomIs(s.table, 0, 0);
    var r := FirstRoom(s.table, 0, 0);
    assert s.table.extents[n + 1] == 0;
    assert r.Some? && r.value.extent == n + 1;
    RoomIsFirst(s.table, 0, 0);
    FirstFreeIs(s.table.taken, n + 1, 0, BITMAP_BITS);
  }

  /** Within its extent, the slot found is the first free one. */
  lemma {:induction false} RoomIsFirst(t: Table, c: Class, i: nat)
    requires i <= |t.extents|
    ensures match FirstRoom(t, c, i)
            case Some(p) => FirstFree(t.taken, p.extent, 0, Slots(c)) == Some(p.slot)
            case None => true
    decreases |t.extents| - i
  {
    hide Slots, FirstFree;
    if i < |t.extents| { RoomIsFirst(t, c, i + 1); }
  }

  lemma MissIndex(n: nat, page: nat)
    requires page > 0 && FirstMiss(n, page) && Slack(page) <= EXTENT_SIZE
    ensures n > 0 && IndexOfGrowth(n, page) == n + 1
  {
    IndexExact(n, page);
    var slack := Slack(page);
    assert (n - 1) * slack < EXTENT_SIZE;
    Distribute(n - 1, 1, slack);
    assert n * slack == (n - 1) * slack + slack;
    DivUnique(n * slack, 1, n * slack - EXTENT_SIZE, EXTENT_SIZE);
  }

  lemma {:induction false} BigNeverReopens(k: nat)
    ensures NeverReopened(Big(k))
  {
    if k > 0 {
      BigNeverReopens(k - 1);
    }
  }

  /** Whole-extent values until the index first skips one, then two small values. */
  function Clash(n: nat): seq<Op> { Big(n + 1) + [Allocate(1)] + [Allocate(1)] }

  /** The second small value is put inside the last big one. */
  lemma ClashOverlaps(n: nat, page: nat)
    requires page > 0 && FirstMiss(n, page) && Slack(page) <= EXTENT_SIZE
    ensures var held := Run(Clash(n), page).held;
            Pointer(n + 1, 0, 15) in held && Pointer(n + 1, 1, 0) in held
    ensures NeverReopened(Clash(n)) && Run(Clash(n), page).table.grown == n + 2
    ensures !Apart(Pointer(n + 1, 0, 15), Pointer(n + 1, 1, 0))
  {
    hide Run, Step, Big, Slack, FirstMiss, IndexOfGrowth, ClassFor, Slots;
    MissIndex(n, page);
    BigRun(n, n, page);
    var s0 := Run(Big(n), page);
    BigStep(s0, n, page);
    var s1 := Step(s0, Allocate(DATA_SIZE), page);
    SmallStep(s1, n, page);
    var s2 := Step(s1, Allocate(1), page);
    OverlapStep(s2, n, page);
    BigClass();
    ClashRun(n, page);
    BigNeverReopens(n + 1);
  }

  lemma ClashRun(n: nat, page: nat)
    requires page > 0
    ensures var s1 := Step(Run(Big(n), page), Allocate(DATA_SIZE), page);
            Run(Clash(n), page) == Step(Step(s1, Allocate(1), page), Allocate(1), page)
  {
    hide Step;
    RunOne(Big(n), Allocate(DATA_SIZE), page);
    RunOne(Big(n + 1), Allocate(1), page);
    RunOne(Big(n + 1) + [Allocate(1)], Allocate(1), page);
  }

  lemma RunOne(ops: seq<Op>, op: Op, page: nat)
    requires page > 0
    ensures Run(ops + [op], page) == Step(Run(ops, page), op, page)
  {
    hide Step;
    assert (ops + [op])[..|ops|] == ops;
  }

  // ---------- the blank extent the skip leaves behind ----------

  /** No earlier position has the class. */
  lemma {:induction false} SkipTo(t: Table, c: Class, i: nat, j: nat)
    requires i <= j <= |t.extents| && forall k :: i <= k < j ==> t.extents[k] != c
    ensures FirstRoom(t, c, i) == FirstRoom(t, c, j)
    decreases j - i
  {
    hide Slots, FirstFree;
    if i < j { SkipTo(t, c, i + 1, j); }
  }

  lemma SecondClass()
    ensures ClassFor(1024) == Some(1) && Slots(1) == 16384 && BlockSize(1) == 1024
  {
    Sizes();
    assert ClassFrom(1024, 1) == Some(1);
  }

  /** A value of the second class gets the extent after the one skipped. */
  lemma SkippingStep(s: Sys, n: nat, page: nat)
    requires page > 0 && BigState(s, n) && IndexOfGrowth(n, page) == n + 1
    ensures var s' := Step(s, Allocate(1024), page);
            && s'.table == Table(n + 1, s.table.extents + [1], s.table.taken + {Place(n + 1, 0)}, s.table.labels[n + 1 := 1])
  {
    SecondClass();
    hide IndexOfGrowth, ClassFor, Slots, FirstRoom, FirstFree;
    FirstRoomIs(s.table, 1, 0);
    FirstFreeIs(s.table.taken, n + 1, 0, 16384);
    assert Place(n + 1, 0) !in s.table.taken;
  }

  /** The next one goes where the list says that extent is, on the extent that was skipped. */
  lemma BlankStep(s: Sys, t: Table, n: nat, page: nat)
    requires page > 0 && BigState(s, n)
    requires t == Table(n + 1, s.table.extents + [1], s.table.taken + {Place(n + 1, 0)}, s.table.labels[n + 1 := 1])
    ensures NextPlace(t, 1, page) == Some(Place(n, 0)) && Allocated(t, 1, page) == Taking(t, Place(n, 0))
  {
    SecondClass();
    hide IndexOfGrowth, ClassFor, Slots, FirstFree;
    SkipTo(t, 1, 0, n);
    FirstFreeIs(t.taken, n, 0, 16384);
    assert Place(n, 0) !in t.taken;
    assert t.extents[n] == 1;
  }

  /** Opening reads the smallest class off the blank header, and a small value goes inside the held slot. */
  lemma BlankOverlap(s: Sys, t: Table, n: nat, page: nat)
    requires page > 0 && BigState(s, n) && IndexOfGrowth(n + 1, page) > n + 1
    requires t == Table(n + 1, s.table.extents + [1], s.table.taken + {Place(n + 1, 0)} + {Place(n, 0)}, s.table.labels[n + 1 := 1])
    ensures var u := Reopened(t, page);
            NextPlace(u, 0, page) == Some(Place(n, 1)) && Allocated(u, 0, page).grown == n + 1
  {
    BigClass();
    var u := Reopened(t, page);
    hide IndexOfGrowth, ClassFor, Slots, FirstFree;
    assert forall e :: 0 <= e < n ==> u.extents[e] == 15;
    SkipTo(u, 0, 0, n);
    FirstFreeIs(u.taken, n, 0, BITMAP_BITS);
    assert Place(n, 0) in u.taken && Place(n, 1) !in u.taken;
    assert u.extents[n] == 0;
  }

  /** Whole-extent values up to the first skip, two of the second class, a reopening, and a small one. */
  function BlankClash(n: nat): seq<Op> { Big(n) + [Allocate(1024)] + [Allocate(1024)] + [Reopen] + [Allocate(1)] }

  /** With one extent added past the bound a run hands out a slot inside a held one. */
  lemma BlankClashOverlaps(n: nat, page: nat)
    requires page > 0 && FirstMiss(n, page) && Slack(page) <= EXTENT_SIZE
    ensures var held := Run(BlankClash(n), page).held;
            Pointer(n, 0, 1) in held && Pointer(n, 1, 0) in held
    ensures Run(BlankClash(n), page).table.grown == n + 1
    ensures !Apart(Pointer(n, 0, 1), Pointer(n, 1, 0))
  {
    MissIndex(n, page);
    IndexRises(n, page);
    BigRun(n, n, page);
    var s0 := Run(Big(n), page);
    SecondClass();
    BigClass();
    SkippingStep(s0, n, page);
    var s1 := Step(s0, Allocate(1024), page);
    BlankStep(s0, s1.table, n, page);
    var s2 := Step(s1, Allocate(1024), page);
    BlankOverlap(s0, s2.table, n, page);
    RunOne(Big(n), Allocate(1024), page);
    RunOne(Big(n) + [Allocate(1024)], Allocate(1024), page);
    RunOne(Big(n) + [Allocate(1024)] + [Allocate(1024)], Reopen, page);
    RunOne(Big(n) + [Allocate(1024)] + [Allocate(1024)] + [Reopen], Allocate(1), page);
    hide Run, Big, Slack, IndexOfGrowth, ClassFor, Slots, NextPlace, Allocated, Reopened, BigState;
  }

  // ---------- one extent too many, never reopened ----------

  lemma MatchedTake(held: set<Pointer>, taken: set<Place>, kinds: seq<Class>, p: Pointer)
    requires Matched(held, taken, kinds) && p.extent < |kinds| && kinds[p.extent] == p.kind && p.slot < Slots(p.kind)
    ensures Matched(held + {p}, taken + {At(p)}, kinds)
  {
    hide Slots;
  }

  /** The extent past the skipped one has the class listed for the skipped one. */
  ghost predicate Shifted(s: Sys, n: nat) {
    && s.table.grown == n + 1 && |s.table.extents| == n + 1
    && Matched(s.held, s.table.taken, s.table.extents + [s.table.extents[n]])
  }

  lemma ShiftStarts(s: Sys, size: nat, n: nat, page: nat)
    requires page > 0 && Sound(s) && |s.table.extents| == n && IndexOfGrowth(n, page) == n + 1 && s.table.grown == n
    requires ClassFor(size).Some? && Grows(s.table, ClassFor(size).value)
    ensures Shifted(Step(s, Allocate(size), page), n)
  {
    hide IndexOfGrowth, Slots, ClassFor, FirstRoom, FirstFree;
    var t, c := s.table, ClassFor(size).value;
    FirstFreeIs(t.taken, n + 1, 0, Slots(c));
  }

  lemma ShiftKept(s: Sys, op: Op, n: nat, page: nat)
    requires page > 0 && Shifted(s, n) && !op.Reopen? && Step(s, op, page).table.grown == n + 1
    ensures Shifted(Step(s, op, page), n)
  {
    var kinds := s.table.extents + [s.table.extents[n]];
    GrowsByOne(s, op, page);
    hide IndexOfGrowth, Slots, ClassFor, FirstRoom, Matched;
    match op
    case Allocate(size) =>
      if ClassFor(size).Some? {
        var c := ClassFor(size).value;
        FirstRoomIs(s.table, c, 0);
        var p := FirstRoom(s.table, c, 0).value;
        MatchedTake(s.held, s.table.taken, kinds, Pointer(p.extent, p.slot, c));
      }
    case Free(p) =>
      if p in s.held {
        MatchedFree(s.held, s.table.taken, kinds, p);
      }
  }

  lemma {:induction false} RunShifted(ops: seq<Op>, n: nat, page: nat)
    requires page > 0 && NeverReopened(ops) && FirstMiss(n, page) && Slack(page) <= EXTENT_SIZE
    requires Run(ops, page).table.grown == n + 1
    ensures Shifted(Run(ops, page), n)
  {
    var init, op := ops[..|ops| - 1], ops[|ops| - 1];
    var s := Run(init, page);
    GrowsByOne(s, op, page);
    MissIndex(n, page);
    ListLength(init, page);
    assert (n - 1) * Slack(page) < EXTENT_SIZE;
    hide Step, Sound, Slack, IndexOfGrowth, Shifted, ClassFor, Grows;
    if s.table.grown == n {
      RunSound(init, page);
      IndexExact(0, page);
      ShiftStarts(s, op.size, n, page);
    } else {
      RunShifted(init, n, page);
      ShiftKept(s, op, n, page);
    }
  }

  lemma {:induction false} FindMiss(k: nat, page: nat) returns (n: nat)
    requires page > 0 && forall i: nat :: i < k ==> i * Slack(page) < EXTENT_SIZE
    requires Slack(page) > 0 && k <= EXTENT_SIZE
    ensures FirstMiss(n, page)
    decreases EXTENT_SIZE - k
  {
    hide Slack;
    if k * Slack(page) >= EXTENT_SIZE {
      n := k;
    } else {
      MulMono(1, Slack(page), k);
      n := FindMiss(k + 1, page);
    }
  }

  ghost predicate EveryRunSafe(page: nat)
    requires page > 0
  {
    forall ops :: Safe(Run(ops, page), page)
  }

  lemma NotSafe(s: Sys, p: Pointer, q: Pointer, page: nat)
    requires page > 0 && p in s.held && q in s.held && p != q && !Apart(p, q)
    ensures !Safe(s, page)
  {
  }

  /** However extents are filled and freed and the file reopened, `most` growths are safe. */
  ghost predicate SafeUpTo(most: nat, page: nat)
    requires page > 0
  {
    forall ops :: Run(ops, page).table.grown <= most ==> Safe(Run(ops, page), page)
  }

  /** The same for a process that creates the file and never reopens it. */
  ghost predicate SafeUnopened(most: nat, page: nat)
    requires page > 0
  {
    forall ops :: NeverReopened(ops) && Run(ops, page).table.grown <= most ==> Safe(Run(ops, page), page)
  }

  lemma MissBy(n: nat, m: nat, page: nat)
    requires page > 0 && FirstMiss(n, page) && m * Slack(page) >= EXTENT_SIZE
    ensures n <= m
  {
  }

  /**
    Held slots are safe in every run that adds at most `most` extents exactly when the
    slack before the last of them is below one extent.
  */
  lemma SafeUpToExact(most: nat, page: nat)
    requires 0 < page <= EXTENT_SIZE
    ensures SafeUpTo(most, page) <==> (most > 0 ==> (most - 1) * Slack(page) < EXTENT_SIZE)
  {
    hide Run, Safe, Slack, Apart, Start, End, BlankClash, FirstMiss;
    if most > 0 && (most - 1) * Slack(page) >= EXTENT_SIZE {
      var n := FindMiss(0, page);
      MissBy(n, most - 1, page);
      BlankClashOverlaps(n, page);
      NotSafe(Run(BlankClash(n), page), Pointer(n, 0, 1), Pointer(n, 1, 0), page);
    } else {
      forall ops | Run(ops, page).table.grown <= most ensures Safe(Run(ops, page), page) {
        if Run(ops, page).table.grown > 0 {
          MulMono(Run(ops, page).table.grown - 1, most - 1, Slack(page));
        }
        SafeWithinSlack(ops, page);
      }
    }
  }

  /** Without reopening, exactly one extent more is safe: the skipped one is only ever used as listed. */
  lemma SafeUnopenedExact(most: nat, page: nat)
    requires 0 < page <= EXTENT_SIZE
    ensures SafeUnopened(most, page) <==> (most > 1 ==> (most - 2) * Slack(page) < EXTENT_SIZE)
  {
    hide Run, Safe, Slack, Apart, Start, End, Clash, FirstMiss, NeverReopened;
    if most > 1 && (most - 2) * Slack(page) >= EXTENT_SIZE {
      var n := FindMiss(0, page);
      MissBy(n, most - 2, page);
      ClashOverlaps(n, page);
      NotSafe(Run(Clash(n), page), Pointer(n + 1, 0, 15), Pointer(n + 1, 1, 0), page);
    } else {
      forall ops | NeverReopened(ops) && Run(ops, page).table.grown <= most ensures Safe(Run(ops, page), page) {
        UnopenedSafe(ops, most, page);
      }
    }
  }

  lemma UnopenedSafe(ops: seq<Op>, most: nat, page: nat)
    requires 0 < page <= EXTENT_SIZE && NeverReopened(ops) && Run(ops, page).table.grown <= most
    requires most > 1 ==> (most - 2) * Slack(page) < EXTENT_SIZE
    ensures Safe(Run(ops, page), page)
  {
    hide Run, Safe, Slack, NeverReopened;
    var n := Run(ops, page).table.grown;
    if n == 0 || (n - 1) * Slack(page) < EXTENT_SIZE {
      SafeWithinSlack(ops, page);
    } else if n == 1 {
      assert false;
    } else {
      MulMono(n - 2, most - 2, Slack(page));
      MissAt(n - 1, page);
      RunShifted(ops, n - 1, page);
      AlwaysBounded(ops, page);
      var s := Run(ops, page);
      MatchedIsSafe(s, s.table.extents + [s.table.extents[n - 1]], page);
    }
  }

  lemma MissAt(n: nat, page: nat)
    requires page > 0 && n > 0 && n * Slack(page) >= EXTENT_SIZE && (n - 1) * Slack(page) < EXTENT_SIZE
    ensures FirstMiss(n, page)
  {
    hide Slack;
    forall i: nat | i < n ensures i * Slack(page) < EXTENT_SIZE {
      MulMono(i, n - 1, Slack(page));
    }
  }

  /** Held slots are safe in every run exactly when an extent is a whole number of pages. */
  lemma SafeForeverExact(page: nat)
    requires 0 < page <= EXTENT_SIZE
    ensures EveryRunSafe(page) <==> EXTENT_SIZE % page == 0
  {
    SlackZero(page);
    hide Run, Safe, Slack, Apart, Start, End, Clash;
    if Slack(page) == 0 {
      forall ops ensures Safe(Run(ops, page), page) {
        SafeWithinSlack(ops, page);
      }
    } else {
      var n := FindMiss(0, page);
      ClashOverlaps(n, page);
      var p, q := Pointer(n + 1, 0, 15), Pointer(n + 1, 1, 0);
      NotSafe(Run(Clash(n), page), p, q, page);
    }
  }

  lemma SlackZero(page: nat)
    requires page > 0
    ensures Slack(page) == 0 <==> EXTENT_SIZE % page == 0
  {
    var q, r := EXTENT_SIZE / page, EXTENT_SIZE % page;
    assert EXTENT_SIZE == q * page + r;
    if r == 0 {
      DivUnique(EXTENT_SIZE + page - 1, q, page - 1, page);
    } else {
      DivUnique(EXTENT_SIZE + page - 1, q + 1, r - 1, page);
      Distribute(q, 1, page);
    }
  }

  /** No power of two from 32 up divides an extent: 4080 bytes a time are lost to 4096-byte pages. */
  lemma CommonPages()
    ensures Slack(4096) == 4080 && Slack(16384) == 12272
    ensures FirstMiss(4114, 4096) && FirstMiss(1368, 16384)
  {
    assert RoundUp(EXTENT_SIZE, 4096) == 16785408 && RoundUp(EXTENT_SIZE, 16384) == 16793600;
  }
}
