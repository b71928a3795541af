/**
  Tree nodes as fixed-size pages: one type byte, a 16-bit count, then the
  entries of a leaf or the keys and child page ids of an internal node. Keys are
  the numbers their big-endian bytes spell, values are byte strings.
*/
module NodeCodec {
  import opened Bytes

  type Key = nat
  type Value = seq<byte>
  type Page = seq<byte>
  datatype Pair = Pair(key: Key, value: Value)

  /** What a page decodes to; `Corrupt` is the decoder's error. */
  datatype Node = LeafNode(entries: seq<Pair>) | InternalNode(keys: seq<Key>, children: seq<nat>) | Corrupt

  datatype Config = Config(pageSize: nat, keyLen: nat, valueLen: nat)

  const LEAF := 1
  const INTERNAL := 2
  const HEADER := 3

  function LeafCapacity(c: Config): nat
    requires c.pageSize >= HEADER && c.keyLen + c.valueLen > 0
  {
    (c.pageSize - HEADER) / (c.keyLen + c.valueLen)
  }

  function InternalCapacity(c: Config): nat
    requires c.pageSize >= HEADER
  {
    var budget := c.pageSize - HEADER;
    if budget < 4 then 0 else (budget - 4) / (c.keyLen + 4)
  }

  /** A page holds its file header, and each kind of node holds at least one key and at most a 16-bit count. */
  predicate ConfigOk(c: Config) {
    && c.pageSize >= 34
    && c.keyLen + c.valueLen > 0
    && 1 <= LeafCapacity(c) < 0x1_0000
    && 1 <= InternalCapacity(c) < 0x1_0000
  }

  predicate FitsKey(c: Config, k: Key) { k < Pow256(c.keyLen) }

  predicate FitsPair(c: Config, p: Pair) { FitsKey(c, p.key) && |p.value| == c.valueLen }

  ghost predicate NodeFits(c: Config, n: Node)
    requires ConfigOk(c)
  {
    match n
    case LeafNode(es) =>
      |es| <= LeafCapacity(c) && forall i :: 0 <= i < |es| ==> FitsPair(c, es[i])
    case InternalNode(ks, cs) =>
      && |cs| == |ks| + 1 && |ks| <= InternalCapacity(c)
      && (forall i :: 0 <= i < |ks| ==> FitsKey(c, ks[i]))
      && (forall i :: 0 <= i < |cs| ==> cs[i] < 0x1_0000_0000)
    case Corrupt => false
  }

  // ---------- layout ----------

  function PairBytes(c: Config, es: seq<Pair>): seq<byte> {
    if es == [] then [] else BE(es[0].key, c.keyLen) + es[0].value + PairBytes(c, es[1..])
  }

  function KeyBytes(c: Config, ks: seq<Key>): (s: seq<byte>)
    ensures |s| == |ks| * c.keyLen
  {
    if ks == [] then [] else BE(ks[0], c.keyLen) + KeyBytes(c, ks[1..])
  }

  function ChildBytes(cs: seq<nat>): (s: seq<byte>)
    ensures |s| == 4 * |cs|
  {
    if cs == [] then [] else LE(cs[0], 4) + ChildBytes(cs[1..])
  }

  function Zeros(n: nat): (s: seq<byte>)
    ensures |s| == n
  {
    seq(n, _ => 0)
  }

  /** `body` after the node header, padded with zeros to a whole page. */
  function Framed(c: Config, kind: byte, count: nat, body: seq<byte>): Page
    requires HEADER + |body| <= c.pageSize
  {
    [kind] + LE(count, 2) + body + Zeros(c.pageSize - HEADER - |body|)
  }

  lemma {:induction false} PairBytesLength(c: Config, es: seq<Pair>)
    requires forall i :: 0 <= i < |es| ==> FitsPair(c, es[i])
    ensures |PairBytes(c, es)| == |es| * (c.keyLen + c.valueLen)
  {
    if es != [] {
      PairBytesLength(c, es[1..]);
      assert FitsPair(c, es[0]);
      OneLess(|es|, c.keyLen + c.valueLen);
    }
  }

  lemma QuotientFits(n: nat, total: nat, d: nat)
    requires d > 0 && n <= total / d
    ensures n * d <= total
  {
    assert n * d <= (total / d) * d;
  }

  lemma LeafFits(c: Config, es: seq<Pair>)
    requires ConfigOk(c) && NodeFits(c, LeafNode(es))
    ensures HEADER + |PairBytes(c, es)| <= c.pageSize
  {
    PairBytesLength(c, es);
    QuotientFits(|es|, c.pageSize - HEADER, c.keyLen + c.valueLen);
  }

  lemma InternalFits(c: Config, ks: seq<Key>, cs: seq<nat>)
    requires ConfigOk(c) && NodeFits(c, InternalNode(ks, cs))
    ensures HEADER + |KeyBytes(c, ks) + ChildBytes(cs)| <= c.pageSize
  {
    QuotientFits(|ks|, c.pageSize - HEADER - 4, c.keyLen + 4);
    assert |ks| * (c.keyLen + 4) == |ks| * c.keyLen + 4 * |ks|;
  }

  function LeafPage(c: Config, es: seq<Pair>): Page
    requires ConfigOk(c) && NodeFits(c, LeafNode(es))
  {
    LeafFits(c, es);
    Framed(c, LEAF, |es|, PairBytes(c, es))
  }

  function InternalPage(c: Config, ks: seq<Key>, cs: seq<nat>): Page
    requires ConfigOk(c) && NodeFits(c, InternalNode(ks, cs))
  {
    InternalFits(c, ks, cs);
    Framed(c, INTERNAL, |ks|, KeyBytes(c, ks) + ChildBytes(cs))
  }

  // ---------- reading ----------

  lemma OneLess(n: nat, w: nat)
    requires n > 0
    ensures n * w == (n - 1) * w + w && n * w >= w
  {
  }

  function ReadPairs(c: Config, s: seq<byte>, n: nat): seq<Pair>
    requires n * (c.keyLen + c.valueLen) <= |s|
  {
    if n == 0 then [] else
    OneLess(n, c.keyLen + c.valueLen);
    ReadPair(c, s) + ReadPairs(c, s[c.keyLen + c.valueLen..], n - 1)
  }

  function ReadPair(c: Config, s: seq<byte>): seq<Pair>
    requires c.keyLen + c.valueLen <= |s|
  {
    [Pair(FromBE(s[..c.keyLen]), s[c.keyLen..c.keyLen + c.valueLen])]
  }

  function ReadKeys(c: Config, s: seq<byte>, n: nat): seq<Key>
    requires n * c.keyLen <= |s|
  {
    if n == 0 then [] else
    OneLess(n, c.keyLen);
    [FromBE(s[..c.keyLen])] + ReadKeys(c, s[c.keyLen..], n - 1)
  }

  function ReadChildren(s: seq<byte>, n: nat): seq<nat>
    requires 4 * n <= |s|
  {
    if n == 0 then [] else [FromLE(s[..4])] + ReadChildren(s[4..], n - 1)
  }

  lemma LeafCountInRange(c: Config, n: nat)
    requires ConfigOk(c) && n <= LeafCapacity(c)
    ensures n * (c.keyLen + c.valueLen) <= c.pageSize - HEADER
  {
    QuotientFits(n, c.pageSize - HEADER, c.keyLen + c.valueLen);
  }

  lemma InternalCountInRange(c: Config, n: nat)
    requires ConfigOk(c) && n <= InternalCapacity(c)
    ensures 0 <= n * c.keyLen <= c.pageSize - HEADER
    ensures n * c.keyLen + 4 * (n + 1) <= c.pageSize - HEADER
  {
    QuotientFits(n, c.pageSize - HEADER - 4, c.keyLen + 4);
    assert n * (c.keyLen + 4) == n * c.keyLen + 4 * n;
  }

  function DecodeInternal(c: Config, body: seq<byte>, n: nat): Node
    requires ConfigOk(c) && |body| == c.pageSize - HEADER && n <= InternalCapacity(c)
  {
    InternalCountInRange(c, n);
    InternalNode(ReadKeys(c, body, n), ReadChildren(body[n * c.keyLen..], n + 1))
  }

  function DecodeLeaf(c: Config, body: seq<byte>, n: nat): Node
    requires ConfigOk(c) && |body| == c.pageSize - HEADER && n <= LeafCapacity(c)
  {
    LeafCountInRange(c, n);
    LeafNode(ReadPairs(c, body, n))
  }

  /** The decoder: an unknown type byte or a count the page could not hold is corruption. */
  function Decode(c: Config, page: Page): Node
    requires ConfigOk(c) && |page| == c.pageSize
  {
    var n := FromLE(page[1..3]);
    if page[0] == LEAF && n <= LeafCapacity(c) then DecodeLeaf(c, page[HEADER..], n)
    else if page[0] == INTERNAL && n <= InternalCapacity(c) then DecodeInternal(c, page[HEADER..], n)
    else Corrupt
  }

  // ---------- round trips ----------

  lemma PairRoundTrip(c: Config, p: Pair, tail: seq<byte>)
    requires FitsPair(c, p)
    ensures var s := BE(p.key, c.keyLen) + p.value + tail;
            |s| >= c.keyLen + c.valueLen && ReadPair(c, s) == [p] && s[c.keyLen + c.valueLen..] == tail
  {
    var s := BE(p.key, c.keyLen) + p.value + tail;
    assert s[..c.keyLen] == BE(p.key, c.keyLen);
    assert s[c.keyLen..c.keyLen + c.valueLen] == p.value;
    BERoundTrip(p.key, c.keyLen);
  }

  lemma PairFirst(c: Config, es: seq<Pair>, tail: seq<byte>)
    requires es != []
    ensures PairBytes(c, es) + tail == BE(es[0].key, c.keyLen) + es[0].value + (PairBytes(c, es[1..]) + tail)
  {
    hide BE;
  }

  lemma {:induction false} PairsRoundTrip(c: Config, es: seq<Pair>, tail: seq<byte>, n: nat)
    requires forall i :: 0 <= i < |es| ==> FitsPair(c, es[i])
    requires n == |es| && n * (c.keyLen + c.valueLen) <= |PairBytes(c, es) + tail|
    ensures ReadPairs(c, PairBytes(c, es) + tail, n) == es
  {
    if es != [] {
      assert FitsPair(c, es[0]);
      hide FitsPair, ReadPair, PairBytes;
      OneLess(n, c.keyLen + c.valueLen);
      var rest := PairBytes(c, es[1..]) + tail;
      PairRoundTrip(c, es[0], rest);
      PairFirst(c, es, tail);
      PairsRoundTrip(c, es[1..], tail, n - 1);
      assert es == [es[0]] + es[1..];
    }
  }

  lemma {:induction false} KeysRoundTrip(c: Config, ks: seq<Key>, tail: seq<byte>)
    requires forall i :: 0 <= i < |ks| ==> FitsKey(c, ks[i])
    ensures ReadKeys(c, KeyBytes(c, ks) + tail, |ks|) == ks
  {
    if ks != [] {
      KeysRoundTrip(c, ks[1..], tail);
      var k := BE(ks[0], c.keyLen);
      var s := KeyBytes(c, ks) + tail;
      assert s == k + (KeyBytes(c, ks[1..]) + tail);
      assert s[..c.keyLen] == k && s[c.keyLen..] == KeyBytes(c, ks[1..]) + tail;
      BERoundTrip(ks[0], c.keyLen);
      assert ks == [ks[0]] + ks[1..];
    }
  }

  lemma {:induction false} ChildrenRoundTrip(cs: seq<nat>, tail: seq<byte>)
    requires forall i :: 0 <= i < |cs| ==> cs[i] < 0x1_0000_0000
    ensures ReadChildren(ChildBytes(cs) + tail, |cs|) == cs
  {
    hide LE, FromLE;
    if cs != [] {
      ChildrenRoundTrip(cs[1..], tail);
      var k, rest := LE(cs[0], 4), ChildBytes(cs[1..]) + tail;
      var s := ChildBytes(cs) + tail;
      assert ChildBytes(cs) == k + ChildBytes(cs[1..]);
      assert ReadChildren(s, |cs|) == [FromLE(s[..4])] + ReadChildren(s[4..], |cs| - 1);
      hide ChildBytes, ReadChildren;
      assert s == k + rest;
      assert s[..4] == k && s[4..] == rest;
      IdRoundTrip(cs[0]);
      assert cs == [cs[0]] + cs[1..];
    }
  }

  /** A 32-bit page id survives its four bytes. */
  lemma IdRoundTrip(id: nat)
    requires id < 0x1_0000_0000
    ensures FromLE(LE(id, 4)) == id
  {
    Pow4();
    LERoundTrip(id, 4);
  }

  lemma Pow4()
    ensures Pow256(4) == 0x1_0000_0000 && Pow256(2) == 0x1_0000
  {
    assert Pow256(1) == 256 && Pow256(2) == 65536 && Pow256(3) == 16777216;
  }

  lemma FramedParts(c: Config, kind: byte, count: nat, body: seq<byte>)
    requires HEADER + |body| <= c.pageSize && count < 0x1_0000
    ensures var page := Framed(c, kind, count, body);
            && |page| == c.pageSize && page[0] == kind && FromLE(page[1..3]) == count
            && page[HEADER..] == body + Zeros(c.pageSize - HEADER - |body|)
  {
    var page := Framed(c, kind, count, body);
    assert page[1..3] == LE(count, 2);
    Pow4();
    LERoundTrip(count, 2);
  }

  lemma LeafRoundTrip(c: Config, es: seq<Pair>)
    requires ConfigOk(c) && NodeFits(c, LeafNode(es))
    ensures |LeafPage(c, es)| == c.pageSize && Decode(c, LeafPage(c, es)) == LeafNode(es)
  {
    LeafFits(c, es);
    FramedParts(c, LEAF, |es|, PairBytes(c, es));
    LeafCountInRange(c, |es|);
    PairsRoundTrip(c, es, Zeros(c.pageSize - HEADER - |PairBytes(c, es)|), |es|);
  }

  lemma InternalRoundTrip(c: Config, ks: seq<Key>, cs: seq<nat>)
    requires ConfigOk(c) && NodeFits(c, InternalNode(ks, cs))
    ensures |InternalPage(c, ks, cs)| == c.pageSize
    ensures Decode(c, InternalPage(c, ks, cs)) == InternalNode(ks, cs)
  {
    InternalFits(c, ks, cs);
    var body := KeyBytes(c, ks) + ChildBytes(cs);
    var pad := Zeros(c.pageSize - HEADER - |body|);
    FramedParts(c, INTERNAL, |ks|, body);
    KeysRoundTrip(c, ks, ChildBytes(cs) + pad);
    ChildrenRoundTrip(cs, pad);
    assert body + pad == KeyBytes(c, ks) + (ChildBytes(cs) + pad);
    assert (body + pad)[|ks| * c.keyLen..] == ChildBytes(cs) + pad;
  }

  function NodePage(c: Config, n: Node): (page: Page)
    requires ConfigOk(c) && NodeFits(c, n)
  {
    if n.LeafNode? then LeafPage(c, n.entries) else InternalPage(c, n.keys, n.children)
  }

  /** Every node within capacity survives its page. */
  lemma NodeRoundTrip(c: Config, n: Node)
    requires ConfigOk(c) && NodeFits(c, n)
    ensures |NodePage(c, n)| == c.pageSize && Decode(c, NodePage(c, n)) == n
  {
    match n
    case LeafNode(es) => LeafRoundTrip(c, es);
    case InternalNode(ks, cs) => InternalRoundTrip(c, ks, cs);
  }

  // ---------- the encoders and decoders as they run, a position moving over the page ----------

  /** Overwrite the bytes of `page` from `pos` on. */
  function Splice(page: Page, pos: nat, bytes: seq<byte>): (r: Page)
    requires pos + |bytes| <= |page|
    ensures |r| == |page|
  {
    page[..pos] + bytes + page[pos + |bytes|..]
  }

  lemma SpliceNext(done: seq<byte>, n: nat, bytes: seq<byte>)
    requires |bytes| <= n
    ensures Splice(done + Zeros(n), |done|, bytes) == done + bytes + Zeros(n - |bytes|)
  {
  }

  lemma {:induction false} PairBytesSnoc(c: Config, es: seq<Pair>, p: Pair)
    ensures PairBytes(c, es + [p]) == PairBytes(c, es) + (BE(p.key, c.keyLen) + p.value)
  {
    if es == [] {
      assert es + [p] == [p];
      assert PairBytes(c, [p]) == BE(p.key, c.keyLen) + p.value + PairBytes(c, []);
    } else {
      PairBytesSnoc(c, es[1..], p);
      assert (es + [p])[1..] == es[1..] + [p];
    }
  }

  lemma {:induction false} KeyBytesSnoc(c: Config, ks: seq<Key>, k: Key)
    ensures KeyBytes(c, ks + [k]) == KeyBytes(c, ks) + BE(k, c.keyLen)
  {
    if ks == [] {
      assert ks + [k] == [k];
    } else {
      KeyBytesSnoc(c, ks[1..], k);
      assert (ks + [k])[1..] == ks[1..] + [k];
    }
  }

  lemma {:induction false} ChildBytesSnoc(cs: seq<nat>, id: nat)
    ensures ChildBytes(cs + [id]) == ChildBytes(cs) + LE(id, 4)
  {
    hide LE;
    if cs == [] {
      assert cs + [id] == [id];
    } else {
      ChildBytesSnoc(cs[1..], id);
      assert (cs + [id])[1..] == cs[1..] + [id];
    }
  }

  lemma {:induction false} PairBytesPrefix(c: Config, es: seq<Pair>, i: nat)
    requires i <= |es|
    ensures |PairBytes(c, es[..i])| <= |PairBytes(c, es)|
    ensures i < |es| ==> |PairBytes(c, es[..i + 1])| <= |PairBytes(c, es)|
    decreases |es| - i
  {
    if i < |es| {
      PairBytesPrefix(c, es, i + 1);
      assert es[..i + 1] == es[..i] + [es[i]];
      PairBytesSnoc(c, es[..i], es[i]);
    } else {
      assert es[..i] == es;
    }
  }

  method WritePairs(c: Config, blank: Page, start: nat, es: seq<Pair>) returns (page: Page)
    requires start + |PairBytes(c, es)| <= |blank| && blank[start..] == Zeros(|blank| - start)
    ensures page == blank[..start] + PairBytes(c, es) + Zeros(|blank| - start - |PairBytes(c, es)|)
  {
    page := blank;
    var pos := start;
    ghost var head := blank[..start];
    assert page == head + Zeros(|blank| - start);
    for i := 0 to |es|
      invariant pos == start + |PairBytes(c, es[..i])| <= |blank|
      invariant page == head + PairBytes(c, es[..i]) + Zeros(|blank| - pos)
    {
      assert es[..i + 1] == es[..i] + [es[i]];
      PairBytesSnoc(c, es[..i], es[i]);
      PairBytesPrefix(c, es, i);
      var bytes := BE(es[i].key, c.keyLen) + es[i].value;
      ghost var done := head + PairBytes(c, es[..i]);
      SpliceNext(done, |blank| - pos, bytes);
      page := Splice(page, pos, bytes);
      pos := pos + |bytes|;
      assert done + bytes == head + PairBytes(c, es[..i + 1]);
    }
    assert es[..|es|] == es;
  }

  method EncodeLeaf(c: Config, es: seq<Pair>) returns (page: Page)
    requires ConfigOk(c) && NodeFits(c, LeafNode(es))
    ensures page == LeafPage(c, es)
  {
    LeafFits(c, es);
    var head := [LEAF as byte] + LE(|es|, 2);
    var blank := head + Zeros(c.pageSize - HEADER);
    assert blank[..HEADER] == head;
    page := WritePairs(c, blank, HEADER, es);
  }

  lemma {:induction false} KeyBytesPrefix(c: Config, ks: seq<Key>, i: nat)
    requires i <= |ks|
    ensures |KeyBytes(c, ks[..i])| <= |KeyBytes(c, ks)|
    decreases |ks| - i
  {
    if i < |ks| {
      KeyBytesPrefix(c, ks, i + 1);
      assert ks[..i + 1] == ks[..i] + [ks[i]];
      KeyBytesSnoc(c, ks[..i], ks[i]);
    } else {
      assert ks[..i] == ks;
    }
  }

  method WriteKeys(c: Config, blank: Page, start: nat, ks: seq<Key>) returns (page: Page)
    requires start + |KeyBytes(c, ks)| <= |blank| && blank[start..] == Zeros(|blank| - start)
    ensures page == blank[..start] + KeyBytes(c, ks) + Zeros(|blank| - start - |KeyBytes(c, ks)|)
  {
    page := blank;
    var pos := start;
    ghost var head := blank[..start];
    assert page == head + Zeros(|blank| - start);
    for i := 0 to |ks|
      invariant pos == start + |KeyBytes(c, ks[..i])| <= |blank|
      invariant page == head + KeyBytes(c, ks[..i]) + Zeros(|blank| - pos)
    {
      assert ks[..i + 1] == ks[..i] + [ks[i]];
      KeyBytesSnoc(c, ks[..i], ks[i]);
      KeyBytesPrefix(c, ks, i + 1);
      var bytes := BE(ks[i], c.keyLen);
      ghost var done := head + KeyBytes(c, ks[..i]);
      SpliceNext(done, |blank| - pos, bytes);
      page := Splice(page, pos, bytes);
      pos := pos + c.keyLen;
      assert done + bytes == head + KeyBytes(c, ks[..i + 1]);
    }
    assert ks[..|ks|] == ks;
  }

  method WriteChildren(blank: Page, start: nat, cs: seq<nat>) returns (page: Page)
    requires start + 4 * |cs| <= |blank| && blank[start..] == Zeros(|blank| - start)
    ensures page == blank[..start] + ChildBytes(cs) + Zeros(|blank| - start - 4 * |cs|)
  {
    hide LE;
    page := blank;
    var pos := start;
    ghost var head := blank[..start];
    assert page == head + Zeros(|blank| - start);
    for i := 0 to |cs|
      invariant pos == start + 4 * i <= |blank|
      invariant page == head + ChildBytes(cs[..i]) + Zeros(|blank| - pos)
    {
      assert cs[..i + 1] == cs[..i] + [cs[i]];
      ChildBytesSnoc(cs[..i], cs[i]);
      var bytes := LE(cs[i], 4);
      ghost var done := head + ChildBytes(cs[..i]);
      SpliceNext(done, |blank| - pos, bytes);
      page := Splice(page, pos, bytes);
      pos := pos + 4;
      assert done + bytes == head + ChildBytes(cs[..i + 1]);
    }
    assert cs[..|cs|] == cs;
  }

  method EncodeInternal(c: Config, ks: seq<Key>, cs: seq<nat>) returns (page: Page)
    requires ConfigOk(c) && NodeFits(c, InternalNode(ks, cs))
    ensures page == InternalPage(c, ks, cs)
  {
    InternalFits(c, ks, cs);
    hide NodeFits, ConfigOk, KeyBytes, ChildBytes, LE;
    var head := [INTERNAL as byte] + LE(|ks|, 2);
    var blank := head + Zeros(c.pageSize - HEADER);
    assert blank[..HEADER] == head;
    var keyed := WriteKeys(c, blank, HEADER, ks);
    var start := HEADER + |KeyBytes(c, ks)|;
    assert keyed[..start] == head + KeyBytes(c, ks);
    page := WriteChildren(keyed, start, cs);
    assert head + (KeyBytes(c, ks) + ChildBytes(cs)) == head + KeyBytes(c, ks) + ChildBytes(cs);
  }

  method DecodePairs(c: Config, body: seq<byte>, n: nat) returns (es: seq<Pair>)
    requires n * (c.keyLen + c.valueLen) <= |body|
    ensures es == ReadPairs(c, body, n)
  {
    var rest := body;
    es := [];
    for i := 0 to n
      invariant (n - i) * (c.keyLen + c.valueLen) <= |rest|
      invariant es + ReadPairs(c, rest, n - i) == ReadPairs(c, body, n)
    {
      OneLess(n - i, c.keyLen + c.valueLen);
      ghost var tail := ReadPairs(c, rest[c.keyLen + c.valueLen..], n - i - 1);
      assert es + (ReadPair(c, rest) + tail) == es + ReadPair(c, rest) + tail;
      es := es + ReadPair(c, rest);
      rest := rest[c.keyLen + c.valueLen..];
    }
  }

  method DecodeKeys(c: Config, body: seq<byte>, n: nat) returns (ks: seq<Key>)
    requires n * c.keyLen <= |body|
    ensures ks == ReadKeys(c, body, n)
  {
    var rest := body;
    ks := [];
    for i := 0 to n
      invariant (n - i) * c.keyLen <= |rest|
      invariant ks + ReadKeys(c, rest, n - i) == ReadKeys(c, body, n)
    {
      OneLess(n - i, c.keyLen);
      ks := ks + [FromBE(rest[..c.keyLen])];
      rest := rest[c.keyLen..];
    }
  }

  method DecodeChildren(body: seq<byte>, n: nat) returns (cs: seq<nat>)
    requires 4 * n <= |body|
    ensures cs == ReadChildren(body, n)
  {
    hide FromLE;
    var rest := body;
    cs := [];
    for i := 0 to n
      invariant 4 * (n - i) <= |rest|
      invariant cs + ReadChildren(rest, n - i) == ReadChildren(body, n)
    {
      cs := cs + [FromLE(rest[..4])];
      rest := rest[4..];
    }
  }

  method DecodeNode(c: Config, page: Page) returns (node: Node)
    requires ConfigOk(c) && |page| == c.pageSize
    ensures node == Decode(c, page)
  {
    var n := FromLE(page[1..3]);
    if page[0] == LEAF && n <= LeafCapacity(c) {
      LeafCountInRange(c, n);
      var es := DecodePairs(c, page[HEADER..], n);
      node := LeafNode(es);
    } else if page[0] == INTERNAL && n <= InternalCapacity(c) {
      InternalCountInRange(c, n);
      var ks := DecodeKeys(c, page[HEADER..], n);
      var cs := DecodeChildren(page[HEADER + n * c.keyLen..], n + 1);
      assert page[HEADER..][n * c.keyLen..] == page[HEADER + n * c.keyLen..];
      node := InternalNode(ks, cs);
    } else {
      node := Corrupt;
    }
  }
}
