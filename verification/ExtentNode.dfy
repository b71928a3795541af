/** The extent manager over the mapped bytes, proved to be the table of slots. */
module ExtentNode {
  import opened Options
  import opened Bytes
  import opened Extents
  import opened ExtentRuns

  const MAGIC := 0x4745_4d31

  // ---------- bits of a byte ----------

  /** `(b >> k) & 1 != 0` */
  predicate GetBit(b: nat, k: nat) {
    if k == 0 then b % 2 == 1 else GetBit(b / 2, k - 1)
  }

  /** `b |= 1 << k`, or `b &= !(1 << k)` */
  function PutBit(b: nat, k: nat, v: bool): nat {
    if k == 0 then b - b % 2 + (if v then 1 else 0) else 2 * PutBit(b / 2, k - 1, v) + b % 2
  }

  lemma {:induction false} PutGet(b: nat, k: nat, v: bool, j: nat)
    ensures GetBit(PutBit(b, k, v), j) <==> if j == k then v else GetBit(b, j)
  {
    if k == 0 {
      Halves(b / 2, if v then 1 else 0);
      assert PutBit(b, 0, v) == 2 * (b / 2) + if v then 1 else 0;
    } else {
      Halves(PutBit(b / 2, k - 1, v), b % 2);
      if j > 0 {
        PutGet(b / 2, k - 1, v, j - 1);
      }
    }
  }

  lemma Halves(q: nat, r: nat)
    requires r < 2
    ensures (2 * q + r) / 2 == q && (2 * q + r) % 2 == r
  {
  }

  function Pow2(n: nat): nat { if n == 0 then 1 else 2 * Pow2(n - 1) }

  lemma {:induction false} PutFits(b: nat, k: nat, v: bool, n: nat)
    requires k < n && b < Pow2(n)
    ensures PutBit(b, k, v) < Pow2(n)
  {
    var half, p := b / 2, Pow2(n - 1);
    assert Pow2(n) == 2 * p && half < p;
    if k > 0 {
      PutFits(half, k - 1, v, n - 1);
      hide Pow2;
    } else {
      hide Pow2;
      assert PutBit(b, 0, v) <= 2 * half + 1;
    }
  }

  function Put(b: byte, k: nat, v: bool): byte
    requires k < 8
  {
    assert Pow2(8) == 256;
    PutFits(b, k, v, 8);
    PutBit(b, k, v)
  }

  lemma {:induction false} ZeroBit(k: nat)
    ensures !GetBit(0, k)
  {
    if k > 0 { ZeroBit(k - 1); }
  }

  // ---------- where things lie ----------

  function BitPos(e: nat, s: nat): nat { e * EXTENT_SIZE + HEADER_LEN + s / 8 }

  function KindPos(e: nat): nat { e * EXTENT_SIZE + 6 }

  predicate Within(data: seq<byte>, e: nat) { (e + 1) * EXTENT_SIZE <= |data| }

  predicate Bit(data: seq<byte>, e: nat, s: nat)
    requires Within(data, e) && s < BITMAP_BITS
  {
    GetBit(data[BitPos(e, s)], s % 8)
  }

  /** The bytes say what the table says, and past the last extent they are blank. */
  ghost predicate Holds(data: seq<byte>, t: Table, n: nat) {
    && n * EXTENT_SIZE <= |data|
    && (forall p :: p in t.taken ==> p.extent < n && p.slot < BITMAP_BITS)
    && (forall e: nat, s: nat :: Within(data, e) && e < n && s < BITMAP_BITS ==> (Bit(data, e, s) <==> Place(e, s) in t.taken))
    && (forall e: nat :: Within(data, e) && e < n ==> data[KindPos(e)] == Label(t.labels, e))
    && (forall i :: n * EXTENT_SIZE <= i < |data| ==> data[i] == 0)
  }

  lemma InFile(data: seq<byte>, e: nat, n: nat)
    requires e < n && n * EXTENT_SIZE <= |data|
    ensures Within(data, e)
  {
    MulMono(e + 1, n, EXTENT_SIZE);
  }

  lemma BitPosSame(e: nat, s: nat, f: nat, r: nat)
    requires s < BITMAP_BITS && r < BITMAP_BITS && BitPos(e, s) == BitPos(f, r)
    ensures e == f && s / 8 == r / 8
  {
  }

  function WithBit(data: seq<byte>, e: nat, s: nat, v: bool): seq<byte>
    requires Within(data, e) && s < BITMAP_BITS
  {
    data[BitPos(e, s) := Put(data[BitPos(e, s)], s % 8, v)]
  }

  lemma WithBitAt(data: seq<byte>, e: nat, s: nat, v: bool, f: nat, r: nat)
    requires Within(data, e) && s < BITMAP_BITS && Within(data, f) && r < BITMAP_BITS
    ensures Within(WithBit(data, e, s, v), f)
    ensures Bit(WithBit(data, e, s, v), f, r) <==> if e == f && s == r then v else Bit(data, f, r)
  {
    hide GetBit, PutBit;
    PutGet(data[BitPos(e, s)], s % 8, v, r % 8);
    if BitPos(e, s) == BitPos(f, r) {
      BitPosSame(e, s, f, r);
    }
  }

  /** Flipping a bit is taking or giving back that slot, and nothing else. */
  lemma BitFlipped(data: seq<byte>, t: Table, n: nat, e: nat, s: nat, v: bool)
    requires Holds(data, t, n) && e < n && Within(data, e) && s < BITMAP_BITS
    ensures Holds(WithBit(data, e, s, v), t.(taken := if v then t.taken + {Place(e, s)} else t.taken - {Place(e, s)}), n)
  {
    hide Put, Bit;
    var data', taken' := WithBit(data, e, s, v), if v then t.taken + {Place(e, s)} else t.taken - {Place(e, s)};
    forall f: nat, r: nat | Within(data', f) && f < n && r < BITMAP_BITS ensures Bit(data', f, r) <==> Place(f, r) in taken' {
      WithBitAt(data, e, s, v, f, r);
      assert Bit(data, f, r) <==> Place(f, r) in t.taken;
    }
    forall f: nat | Within(data', f) && f < n ensures data'[KindPos(f)] == Label(t.labels, f) {
      assert KindPos(f) != BitPos(e, s);
    }
    MulMono(e + 1, n, EXTENT_SIZE);
  }

  function Splice(data: seq<byte>, at: nat, bytes: seq<byte>): seq<byte>
    requires at + |bytes| <= |data|
  {
    data[..at] + bytes + data[at + |bytes|..]
  }

  function Header(c: Class): (h: seq<byte>)
    ensures |h| == HEADER_LEN && h[6] == c
  {
    LE(MAGIC, 4) + LE(1, 2) + [c] + [0] + LE(Slots(c), 4) + LE(Slots(c), 4)
  }

  function Zeros(n: nat): seq<byte> { seq(n, _ => 0) }

  /** A new extent's header on blank bytes, with whatever else growth adds still blank. */
  lemma ExtentAdded(data: seq<byte>, t: Table, n: nat, c: Class, more: nat, m: nat)
    requires Holds(data, t, n) && n < m && m * EXTENT_SIZE <= |data| + more
    requires forall e :: e in t.labels ==> e < n
    ensures (n + 1) * EXTENT_SIZE <= |data + Zeros(more)|
    ensures Holds(Splice(data + Zeros(more), n * EXTENT_SIZE, Header(c)), t.(labels := t.labels[n := c]), m)
  {
    hide Header, GetBit;
    MulMono(n + 1, m, EXTENT_SIZE);
    var grown := data + Zeros(more);
    var data' := Splice(grown, n * EXTENT_SIZE, Header(c));
    assert |data'| == |grown|;
    assert forall i :: 0 <= i < |data'| ==>
      data'[i] == (if i < n * EXTENT_SIZE then data[i] else if i < n * EXTENT_SIZE + HEADER_LEN then Header(c)[i - n * EXTENT_SIZE] else 0);
    forall e: nat, s: nat | Within(data', e) && e < m && s < BITMAP_BITS ensures Bit(data', e, s) <==> Place(e, s) in t.taken {
      if e < n {
        InFile(data, e, n);
        MulMono(e + 1, n, EXTENT_SIZE);
        assert Bit(data, e, s) <==> Place(e, s) in t.taken;
      } else {
        MulMono(n, e, EXTENT_SIZE);
        ZeroBit(s % 8);
      }
    }
    forall e: nat | Within(data', e) && e < m ensures data'[KindPos(e)] == Label(t.labels[n := c], e) {
      if e < n {
        InFile(data, e, n);
        MulMono(e + 1, n, EXTENT_SIZE);
      } else if e > n {
        MulMono(n + 1, e, EXTENT_SIZE);
      }
    }
  }

  // ---------- the bytes of slots ----------

  function SlotBytes(data: seq<byte>, p: Pointer): seq<byte>
    requires End(p) <= |data|
  {
    data[Start(p)..End(p)]
  }

  /** Every slot there was still has its bytes. */
  ghost predicate SlotsKept(a: seq<byte>, b: seq<byte>) {
    |a| <= |b| && forall p: Pointer :: p.slot < Slots(p.kind) && End(p) <= |a| ==> SlotBytes(b, p) == SlotBytes(a, p)
  }

  lemma HeadOnly(a: seq<byte>, b: seq<byte>, e: nat)
    requires |a| <= |b|
    requires forall i :: 0 <= i < |a| && (i < e * EXTENT_SIZE || e * EXTENT_SIZE + DATA_OFFSET <= i) ==> b[i] == a[i]
    ensures SlotsKept(a, b)
  {
    hide Slots, Start, End;
    forall p: Pointer | p.slot < Slots(p.kind) && End(p) <= |a| ensures SlotBytes(b, p) == SlotBytes(a, p) {
      ClearOfHeaders(p, e);
      SlotInside(p);
    }
  }

  lemma KeptAgain(a: seq<byte>, b: seq<byte>, c: seq<byte>)
    requires SlotsKept(a, b) && SlotsKept(b, c)
    ensures SlotsKept(a, c)
  {
    hide Slots, Start, End, SlotBytes;
  }

  /** Writing into a slot leaves alone every header, bitmap and slot apart from it. */
  lemma SlotWritten(data: seq<byte>, t: Table, n: nat, p: Pointer, bytes: seq<byte>)
    requires Holds(data, t, n) && p.extent < n && p.slot < Slots(p.kind) && |bytes| <= BlockSize(p.kind)
    ensures End(p) <= |data| && Holds(Splice(data, Start(p), bytes), t, n)
  {
    InFile(data, p.extent, n);
    MulMono(p.extent + 1, n, EXTENT_SIZE);
    SlotInside(p);
    hide Slots, Start, BlockSize, GetBit;
    var data' := Splice(data, Start(p), bytes);
    forall e: nat, s: nat | Within(data', e) && e < n && s < BITMAP_BITS ensures Bit(data', e, s) <==> Place(e, s) in t.taken {
      ClearOfHeaders(p, e);
      assert Bit(data, e, s) <==> Place(e, s) in t.taken;
    }
    forall e: nat | Within(data', e) && e < n ensures data'[KindPos(e)] == Label(t.labels, e) {
      ClearOfHeaders(p, e);
    }
  }

  lemma ApartKept(data: seq<byte>, p: Pointer, bytes: seq<byte>, q: Pointer)
    requires |bytes| <= BlockSize(p.kind) && Start(p) + |bytes| <= |data| && End(q) <= |data| && Apart(p, q)
    ensures SlotBytes(Splice(data, Start(p), bytes), q) == SlotBytes(data, q)
  {
    hide BlockSize, Start;
  }

  // ---------- the manager ----------

  /** What a call came to: its value, an error, or an index out of range that stops the process. */
  datatype Outcome<+T> = Done(value: T) | Refused | Panic

  datatype SlotPointer = SlotPointer(fileId: nat, extent: nat, slot: nat, kind: nat)

  function Target(p: SlotPointer): Pointer
    requires p.kind < CLASSES
  {
    Pointer(p.extent, p.slot, p.kind)
  }

  /** Reading the class of every whole extent in the file. */
  method ReadKinds(data: seq<byte>) returns (r: Option<seq<Class>>)
    ensures var n := |data| / EXTENT_SIZE;
            match r
            case Some(kinds) => |kinds| == n && forall e: nat :: e < n && Within(data, e) ==> kinds[e] == data[KindPos(e)]
            case None => exists e: nat :: e < n && Within(data, e) && data[KindPos(e)] >= CLASSES
  {
    var kinds: seq<Class> := [];
    for e := 0 to |data| / EXTENT_SIZE
      invariant |kinds| == e
      invariant forall i: nat :: i < e && Within(data, i) ==> kinds[i] == data[KindPos(i)]
    {
      MulMono(e + 1, |data| / EXTENT_SIZE, EXTENT_SIZE);
      assert Within(data, e);
      if data[KindPos(e)] >= CLASSES {
        return None;
      }
      kinds := kinds + [data[KindPos(e)]];
    }
    return Some(kinds);
  }

  class ExtentManager {
    const page: nat
    const fileId: nat
    const writable: bool
    var data: seq<byte>
    var extents: seq<Class>
    ghost var table: Table

    ghost predicate Valid()
      reads this
    {
      && page > 0 && |data| == table.grown * Stride(page) && extents == table.extents
      && Bounded(table, page) && Holds(data, table, IndexOfGrowth(table.grown, page))
    }

    constructor Create(page: nat, fileId: nat)
      requires page > 0
      ensures Valid() && table == Empty.table && writable && this.page == page && this.fileId == fileId
    {
      this.page, this.fileId, writable, data, extents, table := page, fileId, true, [], [], Empty.table;
      new;
      AlwaysBounded([], page);
      IndexExact(0, page);
    }

    /** Opening a file that a manager wrote. */
    constructor Open(page: nat, fileId: nat, writable: bool, data: seq<byte>, ghost t: Table)
      requires page > 0 && |data| == t.grown * Stride(page) && Bounded(t, page) && Holds(data, t, IndexOfGrowth(t.grown, page))
      ensures Valid() && table == Reopened(t, page) && this.data == data
      ensures this.page == page && this.fileId == fileId && this.writable == writable
    {
      this.page, this.fileId, this.writable, this.data := page, fileId, writable, data;
      var kinds := ReadKinds(data);
      ghost var n := IndexOfGrowth(t.grown, page);
      assert n == |data| / EXTENT_SIZE;
      if kinds.None? {
        assert false;
      }
      extents := kinds.value;
      table := Reopened(t, page);
      new;
      hide Holds, IndexOfGrowth;
    }

    /** The scan of one extent's bitmap. */
    method TryAllocate(e: nat, c: Class) returns (r: Option<nat>)
      requires Valid() && writable && e < IndexOfGrowth(table.grown, page)
      modifies this`data, this`table
      ensures Valid() && r == FirstFree(old(table).taken, e, 0, Slots(c))
      ensures table == if r.Some? then Taking(old(table), Place(e, r.value)) else old(table)
      ensures SlotsKept(old(data), data) && (r.None? ==> data == old(data))
    {
      ghost var n := IndexOfGrowth(table.grown, page);
      SlotsTile(c);
      InFile(data, e, n);
      hide IndexOfGrowth, GetBit, Put, Slots, BitPos;
      HeadOnly(data, data, e);
      for slot := 0 to Slots(c)
        invariant data == old(data) && table == old(table)
        invariant FirstFree(table.taken, e, slot, Slots(c)) == FirstFree(table.taken, e, 0, Slots(c))
      {
        assert Bit(data, e, slot) <==> Place(e, slot) in table.taken;
        if !GetBit(data[BitPos(e, slot)], slot % 8) {
          BitFlipped(data, table, n, e, slot, true);
          BitInHead(data, e, slot, true);
          data := data[BitPos(e, slot) := Put(data[BitPos(e, slot)], slot % 8, true)];
          table := Taking(table, Place(e, slot));
          return Some(slot);
        }
      }
      return None;
    }

    /** The first free slot of the class by position, else the first of a new extent. */
    method Allocate(size: nat) returns (r: Outcome<Pointer>)
      requires Valid()
      modifies this
      ensures Valid() && SlotsKept(old(data), data)
      ensures ClassFor(size).None? || !writable ==> r == Refused && data == old(data) && table == old(table)
      ensures ClassFor(size).Some? && writable ==>
                var c := ClassFor(size).value;
                var p := NextPlace(old(table), c, page);
                && p.Some? && r == Done(Pointer(p.value.extent, p.value.slot, c))
                && table == Allocated(old(table), c, page)
    {
      HeadOnly(data, data, 0);
      var kind := ForSize(size);
      if kind.None? || !writable {
        return Refused;
      }
      var c := kind.value;
      BoundedStep(Sys(table, {}), Op.Allocate(size), page);
      hide IndexOfGrowth, FirstRoom, FirstFree, Slots, ClassFor, Stride, SlotsKept, Holds, Bounded;
      var room := TakeRoom(c);
      if room.Some? {
        return Done(Pointer(room.value.extent, room.value.slot, c));
      }
      var e := Grow(c);
      ghost var before := data;
      var slot := TryAllocate(e, c);
      KeptAgain(old(data), before, data);
      if slot.None? {
        assert false;
      }
      return Done(Pointer(e, slot.value, c));
    }

    /** Every extent of the class in turn. */
    method TakeRoom(c: Class) returns (r: Option<Place>)
      requires Valid() && writable
      modifies this`data, this`table
      ensures Valid() && SlotsKept(old(data), data) && r == FirstRoom(old(table), c, 0)
      ensures table == if r.Some? then Taking(old(table), r.value) else old(table)
    {
      HeadOnly(data, data, 0);
      assert |extents| <= IndexOfGrowth(table.grown, page);
      hide IndexOfGrowth, FirstRoom, FirstFree, Slots, Stride, SlotsKept, Holds, Bounded;
      for i := 0 to |extents|
        invariant Valid() && table == old(table) && data == old(data)
        invariant FirstRoom(table, c, i) == FirstRoom(table, c, 0)
      {
        RoomAt(table, c, i);
        if extents[i] == c {
          var slot := TryAllocate(i, c);
          if slot.Some? {
            return Some(Place(i, slot.value));
          }
        }
      }
      RoomAt(table, c, |extents|);
      return None;
    }

    /** One more extent at the end of the file, its header, and its class at the end of the list. */
    method Grow(c: Class) returns (e: nat)
      requires Valid() && writable
      modifies this
      ensures Valid() && table == Grown(old(table), c, page) && e == IndexOfGrowth(old(table).grown, page)
      ensures e < IndexOfGrowth(table.grown, page)
      ensures SlotsKept(old(data), data)
    {
      ghost var n, m := IndexOfGrowth(table.grown, page), IndexOfGrowth(table.grown + 1, page);
      e := |data| / EXTENT_SIZE;
      var more := RoundUp(|data| + EXTENT_SIZE, page) - |data|;
      RoundedGrowth(table.grown, page);
      IndexRises(table.grown, page);
      Distribute(table.grown, 1, Stride(page));
      assert |data| + more == (table.grown + 1) * Stride(page);
      hide Holds, Stride, RoundUp;
      ExtentAdded(data, table, n, c, more, m);
      data := Splice(data + Zeros(more), e * EXTENT_SIZE, Header(c));
      hide Header;
      HeadOnly(old(data), data, e);
      extents := extents + [c];
      table := Grown(table, c, page);
    }

    method Write(p: SlotPointer, bytes: seq<byte>) returns (r: Outcome<()>)
      requires Valid()
      modifies this`data
      ensures r.Refused? <==> p.fileId != fileId || p.kind >= CLASSES || |bytes| > BlockSize(p.kind) || !writable
      ensures !r.Done? ==> data == old(data)
      ensures r.Panic? ==> Start(Target(p)) + |bytes| > |data|
      ensures r.Done? ==> Start(Target(p)) + |bytes| <= |old(data)| && data == Splice(old(data), Start(Target(p)), bytes)
      ensures r.Done? ==> |data| == |old(data)| && data[Start(Target(p))..Start(Target(p)) + |bytes|] == bytes
      ensures r.Done? ==> forall q: Pointer :: End(q) <= |data| && Apart(Target(p), q) ==> SlotBytes(data, q) == SlotBytes(old(data), q)
      ensures p.kind < CLASSES && p.slot < Slots(p.kind) && p.extent < IndexOfGrowth(table.grown, page) ==> Valid() && !r.Panic?
    {
      hide Slots, BlockSize, IndexOfGrowth, Start;
      if p.fileId != fileId || p.kind >= CLASSES || |bytes| > BlockSize(p.kind) || !writable {
        return Refused;
      }
      var at := Start(Target(p));
      if p.slot < Slots(p.kind) && p.extent < IndexOfGrowth(table.grown, page) {
        SlotWritten(data, table, IndexOfGrowth(table.grown, page), Target(p), bytes);
      }
      if at + |bytes| > |data| {
        return Panic;
      }
      forall q: Pointer | End(q) <= |data| && Apart(Target(p), q) ensures SlotBytes(Splice(data, at, bytes), q) == SlotBytes(data, q) {
        ApartKept(data, Target(p), bytes, q);
      }
      data := Splice(data, at, bytes);
      return Done(());
    }

    method Read(p: SlotPointer, len: nat) returns (r: Outcome<seq<byte>>)
      ensures r.Refused? <==> p.fileId != fileId || p.kind >= CLASSES || len > BlockSize(p.kind)
      ensures r.Panic? ==> Start(Target(p)) + len > |data|
      ensures r.Done? ==> Start(Target(p)) + len <= |data| && r.value == data[Start(Target(p))..Start(Target(p)) + len]
    {
      hide BlockSize, Start;
      if p.fileId != fileId || p.kind >= CLASSES || len > BlockSize(p.kind) {
        return Refused;
      }
      var at := Start(Target(p));
      if at + len > |data| {
        return Panic;
      }
      return Done(data[at..at + len]);
    }

    method Free(p: SlotPointer) returns (r: Outcome<()>)
      requires Valid()
      modifies this`data, this`table
      ensures Valid() && (r.Refused? <==> p.fileId != fileId || !writable)
      ensures !r.Done? ==> data == old(data) && table == old(table)
      ensures r.Panic? ==> p.slot >= BITMAP_BITS || p.extent >= IndexOfGrowth(table.grown, page)
      ensures r.Done? ==> table == old(table).(taken := old(table).taken - {Place(p.extent, p.slot)})
      ensures SlotsKept(old(data), data)
    {
      HeadOnly(data, data, 0);
      hide Put, IndexOfGrowth, SlotsKept, Holds;
      if p.fileId != fileId || !writable {
        return Refused;
      }
      var bitmap := p.extent * EXTENT_SIZE + HEADER_LEN;
      if bitmap + BITMAP_BYTES > |data| || p.slot / 8 >= BITMAP_BYTES {
        if p.extent < IndexOfGrowth(table.grown, page) {
          HeadInFile(data, table, IndexOfGrowth(table.grown, page), p.extent);
        }
        return Panic;
      }
      var at := bitmap + p.slot / 8;
      BitCleared(data, table, IndexOfGrowth(table.grown, page), p.extent, p.slot);
      data := data[at := Put(data[at], p.slot % 8, false)];
      table := table.(taken := table.taken - {Place(p.extent, p.slot)});
      return Done(());
    }
  }

  lemma RoomAt(t: Table, c: Class, i: nat)
    requires i <= |t.extents|
    ensures FirstRoom(t, c, i) ==
            if i == |t.extents| then None
            else if t.extents[i] != c then FirstRoom(t, c, i + 1)
            else match FirstFree(t.taken, i, 0, Slots(c)) case Some(k) => Some(Place(i, k)) case None => FirstRoom(t, c, i + 1)
  {
    hide FirstFree, Slots;
  }

  lemma HeadInFile(data: seq<byte>, t: Table, n: nat, e: nat)
    requires Holds(data, t, n) && e < n
    ensures e * EXTENT_SIZE + DATA_OFFSET <= |data|
  {
    InFile(data, e, n);
    Distribute(e, 1, EXTENT_SIZE);
  }

  /** Clearing a bit gives the slot back; past the last extent there is none to clear. */
  lemma BitCleared(data: seq<byte>, t: Table, n: nat, e: nat, s: nat)
    requires Holds(data, t, n) && e * EXTENT_SIZE + DATA_OFFSET <= |data| && s < BITMAP_BITS
    ensures var data' := data[BitPos(e, s) := Put(data[BitPos(e, s)], s % 8, false)];
            Holds(data', t.(taken := t.taken - {Place(e, s)}), n) && SlotsKept(data, data')
  {
    hide Put, SlotsKept, Bit;
    if e < n {
      InFile(data, e, n);
      BitFlipped(data, t, n, e, s, false);
      BitInHead(data, e, s, false);
    } else {
      MulMono(n, e, EXTENT_SIZE);
      BlankStays(s % 8);
      HeadOnly(data, data, 0);
      assert t.taken - {Place(e, s)} == t.taken;
      assert data[BitPos(e, s) := Put(data[BitPos(e, s)], s % 8, false)] == data;
    }
  }

  lemma {:induction false} BlankStays(k: nat)
    ensures PutBit(0, k, false) == 0
    ensures k < 8 ==> Put(0, k, false) == 0
  {
    if k > 0 { BlankStays(k - 1); }
  }

  lemma BitInHead(data: seq<byte>, e: nat, s: nat, v: bool)
    requires Within(data, e) && s < BITMAP_BITS
    ensures SlotsKept(data, WithBit(data, e, s, v))
  {
    hide Put;
    HeadOnly(data, WithBit(data, e, s, v), e);
  }
}
