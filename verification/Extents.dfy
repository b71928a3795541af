/**
  The extent file as a table of slots: which class each extent has, which slots are
  taken, and how long the mapping is. Growth appends one extent to the mapping, rounds
  the mapping up to whole operating-system pages, and divides to name the new extent.
*/
module Extents {
  import opened Options

  const HEADER_LEN := 16
  const BITMAP_BYTES := 4096
  const BITMAP_BITS := 32768
  const DATA_OFFSET := 4112
  const DATA_SIZE := 16_777_216
  const EXTENT_SIZE := 16_781_328
  const MIN_BLOCK := 512
  const CLASSES := 16

  /** A block class is the power of two its blocks are of the smallest. */
  type Class = c: nat | c < CLASSES

  function BlockSize(c: nat): (s: nat)
    ensures s >= MIN_BLOCK
  {
    if c == 0 then MIN_BLOCK else 2 * BlockSize(c - 1)
  }

  /** How many blocks of a class the data region holds. */
  function Slots(c: Class): nat {
    hide BlockSize;
    DATA_SIZE / BlockSize(c)
  }

  lemma Sizes()
    ensures BlockSize(0) == 512 && BlockSize(1) == 1024 && BlockSize(2) == 2048 && BlockSize(3) == 4096
    ensures BlockSize(4) == 8192 && BlockSize(5) == 16384 && BlockSize(6) == 32768 && BlockSize(7) == 65536
    ensures BlockSize(8) == 131072 && BlockSize(9) == 262144 && BlockSize(10) == 524288 && BlockSize(11) == 1048576
    ensures BlockSize(12) == 2097152 && BlockSize(13) == 4194304 && BlockSize(14) == 8388608 && BlockSize(15) == DATA_SIZE
  {
  }

  /** Blocks of a class tile the data region, and the bitmap has a bit for each. */
  lemma SlotsTile(c: Class)
    ensures Slots(c) * BlockSize(c) == DATA_SIZE && 1 <= Slots(c) <= BITMAP_BITS
    ensures c == CLASSES - 1 ==> BlockSize(c) == DATA_SIZE && Slots(c) == 1
    ensures 2 * BlockSize(c) > DATA_SIZE <==> c == CLASSES - 1
  {
    Sizes();
    hide BlockSize;
  }

  /** The smallest class whose blocks hold `size` bytes, if any does. */
  ghost predicate BestFit(size: nat, c: Option<Class>) {
    match c
    case Some(k) => size <= BlockSize(k) && forall d: Class :: d < k ==> BlockSize(d) < size
    case None => forall d: Class :: BlockSize(d) < size
  }

  method ForSize(size: nat) returns (c: Option<Class>)
    ensures BestFit(size, c)
    ensures c == ClassFor(size)
  {
    var k, block: nat := 0, MIN_BLOCK;
    while block < size
      invariant k < CLASSES && block == BlockSize(k)
      invariant forall d: Class :: d < k ==> BlockSize(d) < size
      invariant ClassFor(size) == ClassFrom(size, k)
      decreases CLASSES - k
    {
      SlotsTile(k);
      block := block * 2;
      if block > DATA_SIZE {
        return None;
      }
      k := k + 1;
    }
    return Some(k);
  }

  function ClassFrom(size: nat, k: Class): Option<Class>
    decreases CLASSES - k
  {
    if size <= BlockSize(k) then Some(k) else if k + 1 < CLASSES then ClassFrom(size, k + 1) else None
  }

  function ClassFor(size: nat): Option<Class> { ClassFrom(size, 0) }

  lemma {:induction false} ClassFromFits(size: nat, k: Class)
    requires forall d: Class :: d < k ==> BlockSize(d) < size
    ensures BestFit(size, ClassFrom(size, k))
    decreases CLASSES - k
  {
    hide BlockSize;
    if size > BlockSize(k) && k + 1 < CLASSES {
      ClassFromFits(size, k + 1);
    }
  }

  // ---------- growth ----------

  function RoundUp(n: nat, page: nat): nat
    requires page > 0
  {
    (n + page - 1) / page * page
  }

  /** What one extent adds to the mapping, and how much of that is beyond the extent. */
  function Stride(page: nat): nat
    requires page > 0
  {
    RoundUp(EXTENT_SIZE, page)
  }

  function Slack(page: nat): nat
    requires page > 0
    ensures Slack(page) < page && Stride(page) == EXTENT_SIZE + Slack(page)
  {
    var q := (EXTENT_SIZE + page - 1) / page;
    assert (EXTENT_SIZE + page - 1) == q * page + (EXTENT_SIZE + page - 1) % page;
    Stride(page) - EXTENT_SIZE
  }

  /** Rounding after the n-th growth adds the same stride again. */
  lemma RoundedGrowth(n: nat, page: nat)
    requires page > 0
    ensures RoundUp(n * Stride(page) + EXTENT_SIZE, page) == (n + 1) * Stride(page)
  {
    var q := (EXTENT_SIZE + page - 1) / page;
    var m := n * q;
    assert n * Stride(page) == m * page by { assert Stride(page) == q * page; MulAssoc(n, q, page); }
    DivShift(EXTENT_SIZE + page - 1, m, page);
    assert (n * Stride(page) + EXTENT_SIZE + page - 1) / page == m + q;
    assert (m + q) * page == m * page + q * page by { Distribute(m, q, page); }
    assert (n + 1) * Stride(page) == n * Stride(page) + Stride(page) by { Distribute(n, 1, Stride(page)); }
  }

  lemma MulAssoc(a: nat, b: nat, c: nat)
    ensures a * (b * c) == (a * b) * c
  {
  }

  lemma Distribute(a: nat, b: nat, c: nat)
    ensures (a + b) * c == a * c + b * c
  {
  }

  lemma DivShift(a: nat, m: nat, d: nat)
    requires d > 0
    ensures (m * d + a) / d == m + a / d
  {
    var q, r := a / d, a % d;
    assert m * d + a == (m + q) * d + r by { Distribute(m, q, d); }
    DivUnique(m * d + a, m + q, r, d);
  }

  lemma DivUnique(a: nat, q: nat, r: nat, d: nat)
    requires r < d && a == q * d + r
    ensures a / d == q
  {
    var p, s := a / d, a % d;
    assert a == p * d + s;
    if p < q {
      MulMono(p + 1, q, d);
    } else if q < p {
      MulMono(q + 1, p, d);
    }
  }

  lemma MulMono(a: nat, b: nat, d: nat)
    requires a <= b
    ensures a * d <= b * d
  {
  }

  /** The index given to the extent that the n-th growth adds, counting from zero. */
  function IndexOfGrowth(n: nat, page: nat): nat
    requires page > 0
  {
    n * Stride(page) / EXTENT_SIZE
  }

  /** The n-th new extent is called n exactly while the slack so far is less than an extent. */
  lemma IndexExact(n: nat, page: nat)
    requires page > 0
    ensures IndexOfGrowth(n, page) == n + n * Slack(page) / EXTENT_SIZE
    ensures IndexOfGrowth(n, page) == n <==> n * Slack(page) < EXTENT_SIZE
  {
    assert n * Stride(page) == n * EXTENT_SIZE + n * Slack(page) by {
      Distribute(EXTENT_SIZE, Slack(page), n);
    }
    DivShift(n * Slack(page), n, EXTENT_SIZE);
  }

  /** No two growths are given the same index. */
  lemma IndexRises(n: nat, page: nat)
    requires page > 0
    ensures IndexOfGrowth(n, page) < IndexOfGrowth(n + 1, page)
  {
    IndexExact(n, page);
    IndexExact(n + 1, page);
    Distribute(n, 1, Slack(page));
    DivMono(n * Slack(page), (n + 1) * Slack(page), EXTENT_SIZE);
  }

  lemma DivMono(a: nat, b: nat, d: nat)
    requires a <= b && d > 0
    ensures a / d <= b / d
  {
    if b / d < a / d {
      MulMono(b / d + 1, a / d, d);
    }
  }
}
