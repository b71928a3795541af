/**
  Log shipping: a primary that logs each change it makes, the log read back as complete
  records, and a replica that applies records and remembers how far it got.
*/
module Replay {
  import opened Options
  import opened Bytes
  import opened Wire

  type Id = seq<byte>

  datatype Entity = Entity(header: seq<byte>, body: seq<byte>)

  type Contents = map<Id, Entity>

  const ID_AT := 6

  /** The identifier's place in an encoded header. */
  function IdOf(header: seq<byte>): Id {
    if |header| < ID_AT + TUID_LEN then [] else header[ID_AT..ID_AT + TUID_LEN]
  }

  /** Checking bytes over what comes before them; four of any function stand for the checksum. */
  type Checksum = seq<byte> -> seq<byte>

  const HEADER_LEN := 431
  const BODY_AT := 419

  ghost predicate ChecksumOk(sum: Checksum) { forall s :: |sum(s)| == 4 }

  /** A header as the store writes it: the body starts after it and has this length. */
  function Filled(header: seq<byte>, len: nat, sum: Checksum): seq<byte>
    requires |header| == HEADER_LEN
  {
    var front := header[..BODY_AT] + LE(HEADER_LEN, 4) + LE(len, 4);
    front + sum(front)
  }

  /** Filling in keeps the identifier, and filling in again changes nothing, so a replica stores what it was sent. */
  lemma FilledAgain(header: seq<byte>, len: nat, sum: Checksum)
    requires |header| == HEADER_LEN && ChecksumOk(sum)
    ensures |Filled(header, len, sum)| == HEADER_LEN && IdOf(Filled(header, len, sum)) == IdOf(header)
    ensures Filled(Filled(header, len, sum), len, sum) == Filled(header, len, sum)
  {
    hide LE;
    var f := Filled(header, len, sum);
    assert f[..BODY_AT] == header[..BODY_AT];
    assert f[ID_AT..ID_AT + TUID_LEN] == header[ID_AT..ID_AT + TUID_LEN];
  }

  function Key(r: Record): Id {
    match r case Insert(header, _) => IdOf(header) case Delete(id) => id
  }

  function Effect(r: Record): Option<Entity> {
    match r case Insert(header, body) => Some(Entity(header, body)) case Delete(_) => None
  }

  function Apply(c: Contents, r: Record): Contents {
    match Effect(r) case Some(e) => c[Key(r) := e] case None => c - {Key(r)}
  }

  function Replayed(c: Contents, log: seq<Record>): Contents {
    if log == [] then c else Apply(Replayed(c, log[..|log| - 1]), log[|log| - 1])
  }

  function Found(c: Contents, id: Id): Option<Entity> {
    if id in c then Some(c[id]) else None
  }

  // ---------- the last record decides ----------

  function LastOn(log: seq<Record>, id: Id): Option<Record> {
    if log == [] then None
    else if Key(log[|log| - 1]) == id then Some(log[|log| - 1])
    else LastOn(log[..|log| - 1], id)
  }

  /** After a replay, an entity is what the last record about it says, or else what it was. */
  lemma {:induction false} LastDecides(c: Contents, log: seq<Record>, id: Id)
    ensures Found(Replayed(c, log), id) == match LastOn(log, id) case Some(r) => Effect(r) case None => Found(c, id)
  {
    if log != [] {
      LastDecides(c, log[..|log| - 1], id);
    }
  }

  lemma {:induction false} LastOfTwo(a: seq<Record>, b: seq<Record>, id: Id)
    ensures LastOn(a + b, id) == match LastOn(b, id) case Some(r) => Some(r) case None => LastOn(a, id)
  {
    if b == [] {
      assert a + b == a;
    } else {
      assert (a + b)[..|a + b| - 1] == a + b[..|b| - 1];
      LastOfTwo(a, b[..|b| - 1], id);
    }
  }

  lemma {:induction false} ReplayedTwo(c: Contents, a: seq<Record>, b: seq<Record>)
    ensures Replayed(c, a + b) == Replayed(Replayed(c, a), b)
  {
    if b == [] {
      assert a + b == a;
    } else {
      assert (a + b)[..|a + b| - 1] == a + b[..|b| - 1];
      ReplayedTwo(c, a, b[..|b| - 1]);
    }
  }

  lemma ReplayedOne(c: Contents, r: Record)
    ensures Replayed(c, [r]) == Apply(c, r)
  {
    assert [r][..0] == [];
    assert Replayed(c, []) == c;
  }

  lemma SameContents(a: Contents, b: Contents)
    requires forall id :: Found(a, id) == Found(b, id)
    ensures a == b
  {
    forall id ensures (id in a <==> id in b) && (id in a ==> a[id] == b[id]) {
      assert Found(a, id) == Found(b, id);
    }
  }

  /** What is stored is missing nothing but the records from `at` on. */
  ghost predicate Behind(c: Contents, log: seq<Record>, at: nat) {
    at <= |log| && Replayed(c, log[at..]) == Replayed(map[], log)
  }

  /** Starting over from any earlier record ends in the same state. */
  lemma BehindEarlier(c: Contents, log: seq<Record>, at: nat, from: nat)
    requires Behind(c, log, at) && from <= at
    ensures Behind(c, log, from)
  {
    hide Replayed, LastOn, Found, Effect;
    forall id ensures Found(Replayed(c, log[from..]), id) == Found(Replayed(map[], log), id) {
      LastDecides(c, log[from..], id);
      LastDecides(c, log[at..], id);
      LastDecides(map[], log, id);
      LastOfTwo(log[..from], log[from..], id);
      LastOfTwo(log[from..at], log[at..], id);
      assert log == log[..from] + log[from..] && log[from..] == log[from..at] + log[at..];
    }
    SameContents(Replayed(c, log[from..]), Replayed(map[], log));
  }

  lemma BehindApplied(c: Contents, log: seq<Record>, at: nat)
    requires Behind(c, log, at) && at < |log|
    ensures Behind(Apply(c, log[at]), log, at + 1)
  {
    assert log[at..] == [log[at]] + log[at + 1..];
    ReplayedTwo(c, [log[at]], log[at + 1..]);
    ReplayedOne(c, log[at]);
  }

  lemma BehindAppended(c: Contents, log: seq<Record>, at: nat, r: Record)
    requires Behind(c, log, at)
    ensures Behind(c, log + [r], at)
  {
    assert (log + [r])[at..] == log[at..] + [r];
    ReplayedTwo(c, log[at..], [r]);
    ReplayedTwo(map[], log, [r]);
  }

  /**
    Replaying a log from anywhere up to `k` over the state after its first `k` records
    ends where replaying it once does; so a committed index need not be remembered.
  */
  lemma ReplayAgain(log: seq<Record>, from: nat, k: nat)
    requires from <= k <= |log|
    ensures Replayed(Replayed(map[], log[..k]), log[from..]) == Replayed(map[], log)
  {
    var c := Replayed(map[], log[..k]);
    ReplayedTwo(map[], log[..k], log[k..]);
    assert log == log[..k] + log[k..];
    BehindEarlier(c, log, k, from);
  }

  /** If the skipped records have the last word on an entity, it already was what they make it. */
  predicate Kept(c: Contents, log: seq<Record>, k: nat, from: nat, id: Id)
    requires k <= from <= |log|
  {
    var skipped := LastOn(log[k..from], id);
    LastOn(log[from..], id).None? && skipped.Some? ==> Effect(skipped.value) == Found(c, id)
  }

  lemma SkippedAt(log: seq<Record>, k: nat, from: nat, id: Id)
    requires k <= from <= |log|
    ensures var c := Replayed(map[], log[..k]);
            Found(Replayed(c, log[from..]), id) == Found(Replayed(map[], log), id) <==> Kept(c, log, k, from, id)
  {
    hide Replayed, LastOn, Found, Effect;
    var c := Replayed(map[], log[..k]);
    LastDecides(c, log[from..], id);
    LastDecides(c, log[k..], id);
    ReplayedTwo(map[], log[..k], log[k..]);
    LastOfTwo(log[k..from], log[from..], id);
    assert log == log[..k] + log[k..] && log[k..] == log[k..from] + log[from..];
  }

  /** Starting later than what was applied loses exactly what the skipped records alone decide. */
  lemma SkippingLoses(log: seq<Record>, k: nat, from: nat)
    requires k <= from <= |log|
    ensures Replayed(Replayed(map[], log[..k]), log[from..]) == Replayed(map[], log) <==>
            forall id :: Kept(Replayed(map[], log[..k]), log, k, from, id)
  {
    var c := Replayed(map[], log[..k]);
    var a, b := Replayed(c, log[from..]), Replayed(map[], log);
    forall id ensures Found(a, id) == Found(b, id) <==> Kept(c, log, k, from, id) {
      SkippedAt(log, k, from, id);
    }
    if forall id :: Found(a, id) == Found(b, id) {
      SameContents(a, b);
    }
  }

  // ---------- the primary ----------

  class PrimaryStore {
    const sum: Checksum
    var contents: Contents
    var log: seq<Record>

    /** The store is the replay of its log. */
    ghost predicate Valid()
      reads this
    {
      ChecksumOk(sum) && contents == Replayed(map[], log)
    }

    constructor (sum: Checksum)
      requires ChecksumOk(sum)
      ensures Valid() && log == [] && this.sum == sum
    {
      this.sum := sum;
      contents, log := map[], [];
    }

    /** Store, read back, log; a failed append leaves the store ahead unless it changed nothing. */
    method Insert(header: seq<byte>, body: seq<byte>, appends: bool) returns (ok: bool)
      requires Valid() && |header| == HEADER_LEN
      modifies this
      ensures var e := Entity(Filled(header, |body|, sum), body);
              && ok == appends && contents == old(contents)[IdOf(header) := e]
              && log == (if ok then old(log) + [Record.Insert(e.header, e.body)] else old(log))
              && (Valid() <==> ok || Found(old(contents), IdOf(header)) == Some(e))
    {
      var id := IdOf(header);
      contents := contents[id := Entity(Filled(header, |body|, sum), body)];
      var stored := contents[id];
      hide Filled, IdOf, Replayed;
      if !appends {
        SameAfterPut(old(contents), id, stored);
        return false;
      }
      FilledAgain(header, |body|, sum);
      ReplayedTwo(map[], log, [Record.Insert(stored.header, stored.body)]);
      ReplayedOne(old(contents), Record.Insert(stored.header, stored.body));
      log := log + [Record.Insert(stored.header, stored.body)];
      return true;
    }

    /** Deleting what is not there is not logged. */
    method Delete(id: Id, appends: bool) returns (existed: bool, ok: bool)
      requires Valid()
      modifies this
      ensures existed == (id in old(contents)) && ok == (!existed || appends) && contents == old(contents) - {id}
      ensures log == if existed && ok then old(log) + [Record.Delete(id)] else old(log)
      ensures Valid() <==> ok
    {
      existed := id in contents;
      contents := contents - {id};
      if !existed {
        assert contents == old(contents);
        return false, true;
      }
      if !appends {
        assert id in Replayed(map[], log);
        return true, false;
      }
      ReplayedTwo(map[], log, [Record.Delete(id)]);
      ReplayedOne(old(contents), Record.Delete(id));
      log := log + [Record.Delete(id)];
      return true, true;
    }
  }

  lemma SameAfterPut(c: Contents, id: Id, e: Entity)
    ensures c[id := e] == c <==> Found(c, id) == Some(e)
  {
    if c[id := e] == c {
      assert id in c[id := e];
    }
  }

  // ---------- the log as bytes ----------

  function LogBytes(log: seq<Record>): seq<byte> {
    if log == [] then [] else EncodeRecord(log[0]) + LogBytes(log[1..])
  }

  predicate Logged(log: seq<Record>) {
    forall i :: 0 <= i < |log| ==> RecordOk(log[i])
  }

  lemma {:induction false} LogBytesTwo(a: seq<Record>, b: seq<Record>)
    ensures LogBytes(a + b) == LogBytes(a) + LogBytes(b)
  {
    hide EncodeRecord;
    if a == [] {
      assert a + b == b;
    } else {
      assert (a + b)[1..] == a[1..] + b;
      LogBytesTwo(a[1..], b);
    }
  }

  /** Complete records from the front, the bytes they take, and whether something was wrong. */
  datatype Scanned = Scanned(out: seq<Record>, used: nat, failed: bool)

  function Scan(buf: seq<byte>): (p: Scanned)
    ensures p.used <= |buf|
    decreases |buf|
  {
    RecordUses(buf);
    match DecodeRecord(buf)
    case Partial => Scanned([], 0, false)
    case Bad => Scanned([], 0, true)
    case Got(r, n) => var p := Scan(buf[n..]); Scanned([r] + p.out, n + p.used, p.failed)
  }

  /** The records in a log file from a byte offset on, and where to resume. */
  method ReadFrom(file: seq<byte>, from: nat) returns (out: seq<Record>, next: nat, ok: bool)
    ensures var p := Scan(if from <= |file| then file[from..] else []);
            ok == !p.failed && (ok ==> out == p.out && next == from + p.used)
  {
    hide DecodeRecord, Scan, Onto;
    var buf := if from <= |file| then file[from..] else [];
    ghost var goal := Scan(buf);
    var pos := 0;
    out := [];
    OntoNothing(goal);
    assert buf[0..] == buf;
    while true
      invariant pos <= |buf|
      invariant goal == Onto(out, pos, Scan(buf[pos..]))
      decreases |buf| - pos
    {
      RecordUses(buf[pos..]);
      ScanStep(out, pos, buf[pos..]);
      match DecodeRecord(buf[pos..]) {
        case Partial => return out, from + pos, true;
        case Bad => return out, from, false;
        case Got(r, n) =>
          assert buf[pos..][n..] == buf[pos + n..];
          out, pos := out + [r], pos + n;
      }
    }
  }

  /** What a scan came to, after records already taken. */
  function Onto(out: seq<Record>, pos: nat, p: Scanned): Scanned {
    Scanned(out + p.out, pos + p.used, p.failed)
  }

  lemma OntoNothing(p: Scanned)
    ensures Onto([], 0, p) == p
  {
    assert [] + p.out == p.out;
  }

  lemma ScanStep(out: seq<Record>, pos: nat, buf: seq<byte>)
    ensures var d := DecodeRecord(buf);
            Onto(out, pos, Scan(buf)) ==
            if d.Got? && d.used <= |buf| then Onto(out + [d.value], pos + d.used, Scan(buf[d.used..]))
            else Scanned(out, pos, d.Bad?)
  {
    RecordUses(buf);
    hide DecodeRecord;
    match DecodeRecord(buf)
    case Got(r, n) => assert out + ([r] + Scan(buf[n..]).out) == out + [r] + Scan(buf[n..]).out;
    case _ => assert out + [] == out;
  }

  lemma {:induction false} ScanLog(log: seq<Record>, torn: seq<byte>)
    requires Logged(log) && DecodeRecord(torn) == Partial
    ensures Scan(LogBytes(log) + torn) == Scanned(log, |LogBytes(log)|, false)
  {
    hide DecodeRecord, EncodeRecord, RecordOk;
    if log == [] {
      assert LogBytes(log) + torn == torn;
    } else {
      var rest := LogBytes(log[1..]) + torn;
      assert LogBytes(log) + torn == EncodeRecord(log[0]) + rest;
      RecordRoundTrip(log[0], rest);
      ScanLog(log[1..], torn);
      assert log == [log[0]] + log[1..];
    }
  }

  /**
    Reading from the end of any record gives every later complete record, and the offset
    of the end of the last, however much of another has been written after it.
  */
  lemma ReadsComplete(log: seq<Record>, k: nat, r: Record, cut: nat)
    requires Logged(log) && k <= |log| && RecordOk(r) && cut < |EncodeRecord(r)|
    ensures var from := |LogBytes(log[..k])|;
            var file := LogBytes(log) + EncodeRecord(r)[..cut];
            from <= |file| && Scan(file[from..]) == Scanned(log[k..], |LogBytes(log[k..])|, false)
    ensures |LogBytes(log[..k])| + |LogBytes(log[k..])| == |LogBytes(log)|
  {
    hide EncodeRecord, RecordOk, Scan;
    RecordCut(r, cut);
    LogBytesTwo(log[..k], log[k..]);
    assert log == log[..k] + log[k..];
    var from, torn := |LogBytes(log[..k])|, EncodeRecord(r)[..cut];
    assert (LogBytes(log) + torn)[from..] == LogBytes(log[k..]) + torn;
    ScanLog(log[k..], torn);
  }
}
