/**
  The compressed bitmap: a map from the high half of a 32-bit value to the chunk of
  low halves. Every operation is the set operation of its name, no chunk is ever
  empty, and the values come out in ascending order.
*/
module Roaring {
  import opened Containers

  const LIMIT := 0x1_0000_0000

  function High(v: nat): nat { v / SPAN }

  function Low(v: nat): nat { v % SPAN }

  function Join(high: nat, low: nat): nat { high * SPAN + low }

  lemma SplitJoin(high: nat, low: nat)
    requires high < SPAN && low < SPAN
    ensures Join(high, low) < LIMIT && High(Join(high, low)) == high && Low(Join(high, low)) == low
  {
  }

  lemma JoinSplit(v: nat)
    requires v < LIMIT
    ensures High(v) < SPAN && Low(v) < SPAN && Join(High(v), Low(v)) == v
  {
  }

  /** Chunks in good form, none of them empty. */
  ghost predicate ChunksOk(chunks: map<nat, Form>) {
    forall h :: h in chunks ==> h < SPAN && FormOk(chunks[h]) && Elems(chunks[h]) != {}
  }

  ghost predicate Holds(chunks: map<nat, Form>, v: nat)
    requires ChunksOk(chunks)
  {
    High(v) in chunks && Low(v) in Elems(chunks[High(v)])
  }

  /** The set of values a bitmap stands for. */
  ghost function Contents(chunks: map<nat, Form>): set<nat>
    requires ChunksOk(chunks)
  {
    set v: nat | v < LIMIT && Holds(chunks, v)
  }

  // ---------- walking the chunks in order ----------

  /** The keys from `h` on, ascending, as an ordered map yields them. */
  function KeysFrom(chunks: map<nat, Form>, h: nat): (ks: seq<nat>)
    requires h <= SPAN
    ensures forall k :: k in ks <==> h <= k < SPAN && k in chunks
    ensures forall i, j :: 0 <= i < j < |ks| ==> ks[i] < ks[j]
    decreases SPAN - h
  {
    if h == SPAN then []
    else
      var rest := KeysFrom(chunks, h + 1);
      assert forall i :: 0 <= i < |rest| ==> rest[i] in rest;
      if h in chunks then [h] + rest else rest
  }

  function Keys(chunks: map<nat, Form>): seq<nat> { KeysFrom(chunks, 0) }

  /** The contents below chunk `ks[i]`. */
  ghost function ContentsOf(chunks: map<nat, Form>, ks: seq<nat>): set<nat>
    requires ChunksOk(chunks)
  {
    set v: nat | v < LIMIT && High(v) in ks && Holds(chunks, v)
  }

  lemma AllKeys(chunks: map<nat, Form>)
    requires ChunksOk(chunks)
    ensures ContentsOf(chunks, Keys(chunks)) == Contents(chunks)
  {
    forall v: nat | v < LIMIT && Holds(chunks, v) ensures High(v) in Keys(chunks) {
      JoinSplit(v);
    }
  }

  lemma NoChunks(chunks: map<nat, Form>)
    requires ChunksOk(chunks)
    ensures ContentsOf(chunks, []) == {}
  {
  }

  /** The values that chunk `h` contributes. */
  ghost function Added(chunks: map<nat, Form>, h: nat): set<nat>
    requires ChunksOk(chunks) && h in chunks
  {
    set low | low in Elems(chunks[h]) :: Join(h, low)
  }

  lemma AddedExactly(chunks: map<nat, Form>, h: nat)
    requires ChunksOk(chunks) && h in chunks
    ensures forall v: nat :: v in Added(chunks, h) <==> v < LIMIT && High(v) == h && Holds(chunks, v)
    ensures |Added(chunks, h)| == |Elems(chunks[h])|
  {
    var e := Elems(chunks[h]);
    ElemsInSpan(chunks[h]);
    JoinedSize(h, e);
    forall v: nat | v in Added(chunks, h) ensures v < LIMIT && High(v) == h && Holds(chunks, v) {
      var low :| low in e && v == Join(h, low);
      SplitJoin(h, low);
    }
    forall v: nat | v < LIMIT && High(v) == h && Holds(chunks, v) ensures v in Added(chunks, h) {
      JoinSplit(v);
    }
  }

  /** The values of one more chunk. */
  lemma OneMoreChunk(chunks: map<nat, Form>, ks: seq<nat>, h: nat)
    requires ChunksOk(chunks) && h in chunks && h !in ks
    ensures ContentsOf(chunks, ks + [h]) == ContentsOf(chunks, ks) + Added(chunks, h)
    ensures ContentsOf(chunks, ks) !! Added(chunks, h)
    ensures |Added(chunks, h)| == |Elems(chunks[h])|
  {
    hide ChunksOk, Holds, High, Added, Elems;
    AddedExactly(chunks, h);
  }

  lemma ElemsInSpan(f: Form)
    requires FormOk(f)
    ensures forall low :: low in Elems(f) ==> 0 <= low < SPAN
  {
  }

  lemma {:induction false} JoinedSize(h: nat, e: set<nat>)
    ensures |set low | low in e :: Join(h, low)| == |e|
    decreases |e|
  {
    if e != {} {
      var x :| x in e;
      JoinedSize(h, e - {x});
      assert (set low | low in e :: Join(h, low)) == (set low | low in e - {x} :: Join(h, low)) + {Join(h, x)};
    }
  }

  lemma NoneYet(chunks: map<nat, Form>, ks: seq<nat>)
    requires ChunksOk(chunks)
    ensures Ascending([]) && Members([]) == {} == ContentsOf(chunks, ks[..0])
  {
  }

  // ---------- the bitmap ----------

  class RoaringBitmap {
    var chunks: map<nat, Form>

    ghost predicate Valid()
      reads this
    {
      ChunksOk(chunks)
    }

    ghost function Values(): set<nat>
      requires Valid()
      reads this
    {
      Contents(chunks)
    }

    constructor ()
      ensures Valid() && Values() == {} && chunks == map[]
    {
      chunks := map[];
    }

    method Insert(v: nat) returns (added: bool)
      requires Valid() && v < LIMIT
      modifies this
      ensures Valid() && Values() == old(Values()) + {v} && added == (v !in old(Values()))
    {
      hide FormOk, Elems, High, Low;
      JoinSplit(v);
      EmptyForm();
      var high, low := High(v), Low(v);
      var c := new Container(if high in chunks then chunks[high] else Sparse([]));
      ghost var before := chunks;
      added := c.Insert(low);
      SetChunk(before, high, c.form);
      chunks := chunks[high := c.form];
      assert Values() == Contents(before) + {v} by { Replaced(before, chunks, v, true); }
    }

    method Remove(v: nat) returns (removed: bool)
      requires Valid() && v < LIMIT
      modifies this
      ensures Valid() && Values() == old(Values()) - {v} && removed == (v in old(Values()))
    {
      hide FormOk, Elems, High, Low;
      JoinSplit(v);
      var high, low := High(v), Low(v);
      ghost var before := chunks;
      if high in chunks {
        var c := new Container(chunks[high]);
        removed := c.Remove(low);
        var left := Length(c.form);
        if left == 0 {
          chunks := chunks - {high};
        } else {
          chunks := chunks[high := c.form];
        }
      } else {
        removed := false;
      }
      assert Values() == Contents(before) - {v} by { Replaced(before, chunks, v, false); }
    }

    method Has(v: nat) returns (found: bool)
      requires Valid() && v < LIMIT
      ensures found == (v in Values())
    {
      hide FormOk, Elems, High, Low;
      JoinSplit(v);
      if High(v) in chunks {
        found := Containers.Has(chunks[High(v)], Low(v));
      } else {
        found := false;
      }
    }

    /** The number of values. */
    method Len() returns (n: nat)
      requires Valid()
      ensures n == |Values()|
    {
      hide FormOk, Elems, KeysFrom, ContentsOf, Holds;
      var ks := Keys(chunks);
      n := 0;
      NoChunks(chunks);
      assert ks[..0] == [];
      for i := 0 to |ks|
        invariant n == |ContentsOf(chunks, ks[..i])|
      {
        assert ks[..i + 1] == ks[..i] + [ks[i]] && ks[i] in ks;
        OneMoreChunk(chunks, ks[..i], ks[i]);
        var m := Length(chunks[ks[i]]);
        n := n + m;
      }
      assert ks[..|ks|] == ks;
      AllKeys(chunks);
    }

    method IsEmpty() returns (empty: bool)
      requires Valid()
      ensures empty == (Values() == {})
    {
      empty := chunks == map[];
      if !empty {
        SomeValue(chunks);
      }
    }

    /** Every value once, in ascending order. */
    method ToVec() returns (out: seq<nat>)
      requires Valid()
      ensures Ascending(out) && Members(out) == Values()
      ensures |out| == |Values()|
    {
      hide FormOk, Elems, KeysFrom, Join, Ascending, Members, ContentsOf, Added;
      var ks := Keys(chunks);
      out := [];
      NoneYet(chunks, ks);
      for i := 0 to |ks|
        invariant Ascending(out) && Members(out) == ContentsOf(chunks, ks[..i])
      {
        assert ks[..i + 1] == ks[..i] + [ks[i]] && ks[i] in ks;
        OneMoreChunk(chunks, ks[..i], ks[i]);
        var lows := Items(chunks[ks[i]]);
        var joined := JoinAll(ks[i], lows);
        ChunkAfter(chunks, ks, i, out, lows, joined);
        out := out + joined;
      }
      assert ks[..|ks|] == ks;
      AllKeys(chunks);
      AscendingSize(out);
    }

    method Union(other: RoaringBitmap) returns (out: RoaringBitmap)
      requires Valid() && other.Valid()
      ensures fresh(out) && out.Valid() && out.Values() == Values() + other.Values()
    {
      hide FormOk, Elems, KeysFrom, Merged, ChunkOf, Combined;
      out := new RoaringBitmap();
      var both := chunks + other.chunks;
      var ks := Keys(both);
      MergedStart(chunks, other.chunks, 0);
      for i := 0 to |ks|
        invariant Merged(chunks, other.chunks, out.chunks, ks[..i], 0)
      {
        assert ks[..i + 1] == ks[..i] + [ks[i]] && ks[i] in ks;
        var h := ks[i];
        var merged := MergeChunks(chunks, other.chunks, h);
        ghost var was := out.chunks;
        out.PutUnlessEmpty(h, merged);
        MergedStep(chunks, other.chunks, was, out.chunks, ks[..i], h, 0, merged);
      }
      assert ks[..|ks|] == ks;
      MergedAll(chunks, other.chunks, out.chunks, ks, 0);
    }

    method Intersect(other: RoaringBitmap) returns (out: RoaringBitmap)
      requires Valid() && other.Valid()
      ensures fresh(out) && out.Valid() && out.Values() == Values() * other.Values()
    {
      hide FormOk, Elems, KeysFrom, Merged, ChunkOf, Combined;
      out := new RoaringBitmap();
      var ks := Keys(chunks);
      MergedStart(chunks, other.chunks, 1);
      for i := 0 to |ks|
        invariant Merged(chunks, other.chunks, out.chunks, ks[..i], 1)
      {
        assert ks[..i + 1] == ks[..i] + [ks[i]] && ks[i] in ks;
        var h := ks[i];
        ghost var was := out.chunks;
        CombinedChunks(chunks, other.chunks, h);
        if h in other.chunks {
          var merged := Containers.Intersect(chunks[h], other.chunks[h]);
          out.PutUnlessEmpty(h, merged);
          MergedStep(chunks, other.chunks, was, out.chunks, ks[..i], h, 1, merged);
        } else {
          EmptyForm();
          MergedStep(chunks, other.chunks, was, out.chunks, ks[..i], h, 1, Sparse([]));
        }
      }
      assert ks[..|ks|] == ks;
      MergedAll(chunks, other.chunks, out.chunks, ks, 1);
    }

    method AndNot(other: RoaringBitmap) returns (out: RoaringBitmap)
      requires Valid() && other.Valid()
      ensures fresh(out) && out.Valid() && out.Values() == Values() - other.Values()
    {
      hide FormOk, Elems, KeysFrom, Merged, ChunkOf, Combined;
      out := new RoaringBitmap();
      var ks := Keys(chunks);
      MergedStart(chunks, other.chunks, 2);
      for i := 0 to |ks|
        invariant Merged(chunks, other.chunks, out.chunks, ks[..i], 2)
      {
        assert ks[..i + 1] == ks[..i] + [ks[i]] && ks[i] in ks;
        var h := ks[i];
        ghost var was := out.chunks;
        CombinedChunks(chunks, other.chunks, h);
        if h in other.chunks {
          var kept := Difference(chunks[h], other.chunks[h]);
          out.PutUnlessEmpty(h, kept);
          MergedStep(chunks, other.chunks, was, out.chunks, ks[..i], h, 2, kept);
        } else {
          out.PutUnlessEmpty(h, chunks[h]);
          MergedStep(chunks, other.chunks, was, out.chunks, ks[..i], h, 2, chunks[h]);
        }
      }
      assert ks[..|ks|] == ks;
      MergedAll(chunks, other.chunks, out.chunks, ks, 2);
    }

    /** Keeps the chunk if it has any value. */
    method PutUnlessEmpty(h: nat, f: Form)
      requires FormOk(f)
      modifies this
      ensures chunks == if Elems(f) != {} then old(chunks)[h := f] else old(chunks)
    {
      var n := Length(f);
      if n != 0 {
        chunks := chunks[h := f];
      }
    }
  }

  /** The union of the chunks two bitmaps have under one key, at least one having it. */
  method MergeChunks(a: map<nat, Form>, b: map<nat, Form>, h: nat) returns (merged: Form)
    requires ChunksOk(a) && ChunksOk(b) && (h in a || h in b)
    ensures FormOk(merged) && Elems(merged) == Combined(0, ChunkOf(a, h), ChunkOf(b, h))
  {
    hide FormOk, Elems;
    if h in a && h in b {
      merged := Containers.Union(a[h], b[h]);
    } else if h in a {
      merged := a[h];
    } else {
      merged := b[h];
    }
  }

  // ---------- what the steps do to the contents ----------

  lemma EmptyForm()
    ensures FormOk(Sparse([])) && Elems(Sparse([])) == {}
  {
  }

  lemma SetChunk(chunks: map<nat, Form>, h: nat, f: Form)
    requires ChunksOk(chunks) && h < SPAN && FormOk(f) && Elems(f) != {}
    ensures ChunksOk(chunks[h := f])
  {
    hide FormOk, Elems;
  }

  ghost function ChunkOf(chunks: map<nat, Form>, h: nat): set<nat>
    requires ChunksOk(chunks)
  {
    if h in chunks then Elems(chunks[h]) else {}
  }

  /** Adding or removing one low value in one chunk adds or removes one value. */
  lemma Replaced(before: map<nat, Form>, after: map<nat, Form>, v: nat, adding: bool)
    requires ChunksOk(before) && ChunksOk(after) && v < LIMIT
    requires forall h :: h != High(v) ==> ChunkOf(after, h) == ChunkOf(before, h)
    requires ChunkOf(after, High(v)) == if adding then ChunkOf(before, High(v)) + {Low(v)} else ChunkOf(before, High(v)) - {Low(v)}
    ensures Contents(after) == if adding then Contents(before) + {v} else Contents(before) - {v}
  {
    forall w: nat | w < LIMIT
      ensures Holds(after, w) <==> if adding then Holds(before, w) || w == v else Holds(before, w) && w != v
    {
      JoinSplit(v);
      JoinSplit(w);
      hide High, Low, Join, Elems, FormOk;
      assert Holds(after, w) <==> Low(w) in ChunkOf(after, High(w));
      assert Holds(before, w) <==> Low(w) in ChunkOf(before, High(w));
    }
  }

  lemma SomeValue(chunks: map<nat, Form>)
    requires ChunksOk(chunks) && chunks != map[]
    ensures Contents(chunks) != {}
  {
    assert chunks.Keys != {};
    var h :| h in chunks;
    var low :| low in Elems(chunks[h]);
    ElemsInSpan(chunks[h]);
    SplitJoin(h, low);
    assert Join(h, low) in Contents(chunks);
  }

  method JoinAll(h: nat, lows: seq<nat>) returns (out: seq<nat>)
    ensures |out| == |lows| && forall i :: 0 <= i < |lows| ==> out[i] == Join(h, lows[i])
  {
    out := [];
    for i := 0 to |lows|
      invariant |out| == i && forall j :: 0 <= j < i ==> out[j] == Join(h, lows[j])
    {
      out := out + [Join(h, lows[i])];
    }
  }

  /** A chunk's values come after those of all chunks before it. */
  lemma ChunkAfter(chunks: map<nat, Form>, ks: seq<nat>, i: nat, out: seq<nat>, lows: seq<nat>, joined: seq<nat>)
    requires ChunksOk(chunks) && ks == Keys(chunks) && i < |ks|
    requires Ascending(out) && Members(out) == ContentsOf(chunks, ks[..i])
    requires Ascending(lows) && InSpan(lows) && forall x :: x in lows <==> x in Elems(chunks[ks[i]])
    requires |joined| == |lows| && forall j :: 0 <= j < |lows| ==> joined[j] == Join(ks[i], lows[j])
    ensures Ascending(out + joined)
    ensures Members(out + joined) == Members(out) + Added(chunks, ks[i])
  {
    hide FormOk, Elems, KeysFrom;
    var added := Added(chunks, ks[i]);
    forall v: nat | v in joined ensures v in added {
      var j :| 0 <= j < |joined| && joined[j] == v;
      assert lows[j] in lows;
    }
    forall v: nat | v in added ensures v in joined {
      var low :| low in lows && v == Join(ks[i], low);
      var j :| 0 <= j < |lows| && lows[j] == low;
      assert joined[j] == v;
    }
    forall j | 0 <= j < |out| ensures out[j] < Join(ks[i], 0) {
      BelowChunk(chunks, ks, i, out, j);
    }
  }

  lemma BelowChunk(chunks: map<nat, Form>, ks: seq<nat>, i: nat, out: seq<nat>, j: nat)
    requires ChunksOk(chunks) && i < |ks| && (forall a, b :: 0 <= a < b < |ks| ==> ks[a] < ks[b]) && j < |out|
    requires Members(out) == ContentsOf(chunks, ks[..i])
    ensures out[j] < Join(ks[i], 0)
  {
    hide FormOk, Elems;
    assert out[j] in Members(out);
    var k :| 0 <= k < i && ks[..i][k] == High(out[j]);
    assert ks[k] < ks[i];
  }

  // ---------- merging two bitmaps chunk by chunk ----------

  /** The set operation of each kind: union, intersection, difference. */
  ghost function Combined(kind: nat, a: set<nat>, b: set<nat>): set<nat> {
    if kind == 0 then a + b else if kind == 1 then a * b else a - b
  }

  /** `out` has the combination of the chunks named so far, and nothing else. */
  ghost predicate Merged(a: map<nat, Form>, b: map<nat, Form>, out: map<nat, Form>, ks: seq<nat>, kind: nat) {
    && ChunksOk(a) && ChunksOk(b) && ChunksOk(out)
    && forall h :: ChunkOf(out, h) == if h in ks then Combined(kind, ChunkOf(a, h), ChunkOf(b, h)) else {}
  }

  lemma MergedStart(a: map<nat, Form>, b: map<nat, Form>, kind: nat)
    requires ChunksOk(a) && ChunksOk(b)
    ensures forall ks: seq<nat> :: Merged(a, b, map[], ks[..0], kind)
  {
  }

  lemma CombinedChunks(a: map<nat, Form>, b: map<nat, Form>, h: nat)
    requires ChunksOk(a) && ChunksOk(b)
    ensures var x, y := if h in a then Elems(a[h]) else {}, if h in b then Elems(b[h]) else {};
            && Combined(0, ChunkOf(a, h), ChunkOf(b, h)) == x + y
            && Combined(1, ChunkOf(a, h), ChunkOf(b, h)) == x * y
            && Combined(2, ChunkOf(a, h), ChunkOf(b, h)) == x - y
  {
  }

  lemma MergedStep(a: map<nat, Form>, b: map<nat, Form>, was: map<nat, Form>, now: map<nat, Form>,
                   ks: seq<nat>, h: nat, kind: nat, f: Form)
    requires Merged(a, b, was, ks, kind) && h !in ks && h < SPAN && FormOk(f)
    requires Elems(f) == Combined(kind, ChunkOf(a, h), ChunkOf(b, h))
    requires now == if Elems(f) != {} then was[h := f] else was
    ensures Merged(a, b, now, ks + [h], kind)
  {
    hide FormOk, Elems, Combined;
    assert ChunkOf(was, h) == {};
  }

  lemma MergedAll(a: map<nat, Form>, b: map<nat, Form>, out: map<nat, Form>, ks: seq<nat>, kind: nat)
    requires kind < 3 && Merged(a, b, out, ks, kind)
    requires ks == Keys(if kind == 0 then a + b else a)
    ensures ChunksOk(out)
    ensures kind == 0 ==> Contents(out) == Contents(a) + Contents(b)
    ensures kind == 1 ==> Contents(out) == Contents(a) * Contents(b)
    ensures kind == 2 ==> Contents(out) == Contents(a) - Contents(b)
  {
    hide FormOk, Elems, KeysFrom;
    forall v: nat | v < LIMIT
      ensures Holds(out, v) <==> v in Combined(kind, Contents(a), Contents(b))
    {
      JoinSplit(v);
      hide High, Low, Join;
      var h := High(v);
      assert Holds(out, v) <==> Low(v) in ChunkOf(out, h);
      assert Holds(a, v) <==> Low(v) in ChunkOf(a, h);
      assert Holds(b, v) <==> Low(v) in ChunkOf(b, h);
      assert h in ks || Combined(kind, ChunkOf(a, h), ChunkOf(b, h)) == {};
    }
  }
}
