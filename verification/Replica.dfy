/**
  Runs of a replica: it connects from its saved offset, takes bytes as they come, applies
  each record and then saves how far it got, and may be cut off between any two of these.
*/
module Replica {
  import opened Options
  import opened Bytes
  import opened Wire
  import opened Replay

  // ---------- the loop over a buffer ----------

  /** The bytes that the first `n` complete records of a buffer take. */
  function UsedBy(buf: seq<byte>, n: nat): (used: nat)
    ensures used <= |buf|
  {
    if n == 0 then 0 else
    var used := UsedBy(buf, n - 1);
    RecordUses(buf[used..]);
    match DecodeRecord(buf[used..]) case Got(_, more) => used + more case _ => used
  }

  lemma UsedOne(buf: seq<byte>, n: nat)
    ensures var used := UsedBy(buf, n);
            var d := DecodeRecord(buf[used..]);
            UsedBy(buf, n + 1) == if d.Got? then used + d.used else used
  {
    hide DecodeRecord;
  }

  predicate Reached(stopAfter: Option<nat>, applied: nat) {
    stopAfter.Some? && applied >= stopAfter.value
  }

  class ReplicaClient {
    var contents: Contents
    var offset: nat
    var saved: nat
    var buf: seq<byte>
    var applied: nat

    /** A sync starts from the saved offset with nothing buffered. */
    constructor (contents: Contents, saved: nat)
      ensures this.contents == contents && this.saved == saved && offset == saved && buf == [] && applied == 0
    {
      this.contents, this.saved, offset, buf, applied := contents, saved, saved, [], 0;
    }

    /**
      One read from the primary: each complete record is applied and the offset after it
      saved, until there is no more, something is wrong, or enough have been applied.
    */
    method Receive(chunk: seq<byte>, stopAfter: Option<nat>) returns (ok: bool, stopped: bool)
      modifies this
      ensures old(applied) <= applied
      ensures var all, t := old(buf) + chunk, applied - old(applied);
              var p := Scan(all);
              && t <= |p.out| && contents == Replayed(old(contents), p.out[..t])
              && offset == old(offset) + UsedBy(all, t) && buf == all[UsedBy(all, t)..]
              && saved == (if t > 0 then offset else old(saved))
              && stopped == (t > 0 && Reached(stopAfter, applied))
              && (stopped || t == |p.out|) && ok == (stopped || !p.failed)
      ensures forall n :: old(applied) < n < applied ==> !Reached(stopAfter, n)
    {
      hide DecodeRecord, Scan, Onto, Apply, UsedBy, Replayed, Reached;
      NoneTaken(contents, buf + chunk);
      buf := buf + chunk;
      ghost var all, goal, done: seq<Record>, used: nat := buf, Scan(buf), [], 0;
      OntoNothing(goal);
      while true
        invariant used == UsedBy(all, |done|) && buf == all[used..] && applied == old(applied) + |done|
        invariant goal == Onto(done, used, Scan(buf))
        invariant contents == Replayed(old(contents), done) && offset == old(offset) + used
        invariant saved == if |done| > 0 then offset else old(saved)
        invariant forall n :: old(applied) < n <= applied ==> !Reached(stopAfter, n)
        decreases |buf|
      {
        RecordUses(buf);
        ScanStep(done, used, buf);
        Begins(goal, done, used, Scan(buf));
        match DecodeRecord(buf) {
          case Partial => return true, false;
          case Bad => return false, false;
          case Got(r, n) =>
            ReplayedTwo(old(contents), done, [r]);
            ReplayedOne(contents, r);
            UsedOne(all, |done|);
            contents := Apply(contents, r);
            offset := offset + n;
            saved := offset;
            applied := applied + 1;
            buf := buf[n..];
            done, used := done + [r], used + n;
            Begins(goal, done, used, Scan(buf));
            if Reached(stopAfter, applied) {
              return true, true;
            }
        }
      }
    }
  }

  lemma NoneTaken(c: Contents, buf: seq<byte>)
    ensures Replayed(c, []) == c && UsedBy(buf, 0) == 0
  {
  }

  lemma Begins(goal: Scanned, done: seq<Record>, used: nat, rest: Scanned)
    requires goal == Onto(done, used, rest)
    ensures |done| <= |goal.out| && goal.out[..|done|] == done
  {
  }

  // ---------- a primary and a replica ----------

  /** `at` counts the records the offset has passed; the replica itself knows only bytes. */
  datatype Session = Offline | Online(at: nat, offset: nat, sent: nat, buf: seq<byte>, unsaved: bool)

  datatype World = World(log: seq<Record>, contents: Contents, savedAt: nat, saved: nat, session: Session)

  datatype Event =
    | Append(r: Record)
    | Connect
    | Deliver(count: nat)
    | ApplyNext
    | Save
    | Cut
    | CutWhileSaving

  const Start: World := World([], map[], 0, 0, Offline)

  /**
    One thing happening. Applying and saving are separate, so a cut may fall between them;
    a cut while the offset file is being rewritten can leave it empty, which reads as zero.
  */
  function Step(w: World, e: Event): World {
    match e
    case Append(r) => if RecordOk(r) then w.(log := w.log + [r]) else w
    case Connect => w.(session := Online(w.savedAt, w.saved, w.saved, [], false))
    case Cut => w.(session := Offline)
    case CutWhileSaving => if w.session.Online? && w.session.unsaved then w.(session := Offline, savedAt := 0, saved := 0) else w
    case Deliver(count) =>
      var bytes := LogBytes(w.log);
      if w.session.Online? && w.session.sent + count <= |bytes| then
        w.(session := w.session.(sent := w.session.sent + count,
                                 buf := w.session.buf + bytes[w.session.sent..w.session.sent + count]))
      else w
    case ApplyNext =>
      if w.session.Offline? || w.session.unsaved then w
      else
        var d := DecodeRecord(w.session.buf);
        if d.Bad? then w.(session := Offline)
        else if d.Got? && d.used <= |w.session.buf| then
          var s := w.session;
          w.(contents := Apply(w.contents, d.value),
             session := Online(s.at + 1, s.offset + d.used, s.sent, s.buf[d.used..], true))
        else w
    case Save =>
      if w.session.Online? && w.session.unsaved then
        w.(savedAt := w.session.at, saved := w.session.offset, session := w.session.(unsaved := false))
      else w
  }

  function Run(es: seq<Event>): World {
    if es == [] then Start else Step(Run(es[..|es| - 1]), es[|es| - 1])
  }

  // ---------- what every run keeps ----------

  /** The offset is where record `at` starts. */
  ghost predicate Passed(log: seq<Record>, at: nat, offset: nat) {
    at <= |log| && offset == |LogBytes(log[..at])|
  }

  ghost predicate SessionOk(log: seq<Record>, s: Session) {
    s.Online? ==>
      && Passed(log, s.at, s.offset) && s.offset <= s.sent <= |LogBytes(log)|
      && s.buf == LogBytes(log)[s.offset..s.sent]
  }

  function Position(w: World): nat { if w.session.Online? then w.session.at else w.savedAt }

  ghost predicate Inv(w: World) {
    && Logged(w.log) && Passed(w.log, w.savedAt, w.saved) && SessionOk(w.log, w.session)
    && w.savedAt <= Position(w) && (w.session.Online? && !w.session.unsaved ==> w.session.at == w.savedAt)
    && Behind(w.contents, w.log, Position(w))
  }

  lemma BytesSplit(log: seq<Record>, at: nat)
    requires at <= |log|
    ensures LogBytes(log) == LogBytes(log[..at]) + LogBytes(log[at..])
  {
    hide LogBytes;
    LogBytesTwo(log[..at], log[at..]);
    assert log == log[..at] + log[at..];
  }

  lemma StillPassed(log: seq<Record>, r: Record, at: nat, offset: nat)
    requires Passed(log, at, offset)
    ensures Passed(log + [r], at, offset) && LogBytes(log) <= LogBytes(log + [r]) && offset <= |LogBytes(log)|
  {
    assert (log + [r])[..at] == log[..at];
    LogBytesTwo(log, [r]);
    BytesSplit(log, at);
  }

  /** What is buffered decodes to the next record or, short of it, to nothing. */
  lemma NextRecord(log: seq<Record>, s: Session)
    requires Logged(log) && SessionOk(log, s) && s.Online?
    ensures !DecodeRecord(s.buf).Bad?
    ensures DecodeRecord(s.buf).Got? ==>
              && s.at < |log| && DecodeRecord(s.buf) == Got(log[s.at], |EncodeRecord(log[s.at])|)
              && SessionOk(log, Online(s.at + 1, s.offset + |EncodeRecord(log[s.at])|, s.sent, s.buf[|EncodeRecord(log[s.at])|..], true))
  {
    hide DecodeRecord, EncodeRecord, RecordOk, LogBytes;
    BytesSplit(log, s.at);
    var rest := LogBytes(log[s.at..]);
    assert s.buf == rest[..s.sent - s.offset];
    if s.at == |log| {
      EmptyLog();
      assert log[s.at..] == [];
      assert s.buf == [];
    } else {
      var r := log[s.at];
      var f := EncodeRecord(r);
      FirstRecord(log, s.at);
      if |s.buf| < |f| {
        assert s.buf == f[..|s.buf|];
        RecordCut(r, |s.buf|);
      } else {
        assert s.buf == f + s.buf[|f|..];
        RecordRoundTrip(r, s.buf[|f|..]);
        PassedNext(log, s.at);
      }
    }
  }

  lemma EmptyLog()
    ensures LogBytes([]) == [] && DecodeRecord([]) == Partial
  {
    ShortInt([], 4);
  }

  lemma FirstRecord(log: seq<Record>, at: nat)
    requires at < |log|
    ensures LogBytes(log[at..]) == EncodeRecord(log[at]) + LogBytes(log[at + 1..])
  {
    hide EncodeRecord;
    assert log[at..][1..] == log[at + 1..];
  }

  lemma PassedNext(log: seq<Record>, at: nat)
    requires at < |log|
    ensures |LogBytes(log[..at + 1])| == |LogBytes(log[..at])| + |EncodeRecord(log[at])|
  {
    hide EncodeRecord;
    LogBytesTwo(log[..at], [log[at]]);
    assert log[..at + 1] == log[..at] + [log[at]];
    assert [log[at]][1..] == [];
  }

  lemma AppendKeeps(w: World, r: Record)
    requires Inv(w) && RecordOk(r)
    ensures Inv(Step(w, Append(r)))
  {
    hide LogBytes, RecordOk, Behind;
    StillPassed(w.log, r, w.savedAt, w.saved);
    if w.session.Online? {
      StillPassed(w.log, r, w.session.at, w.session.offset);
    }
    BehindAppended(w.contents, w.log, Position(w), r);
  }

  lemma ApplyKeeps(w: World)
    requires Inv(w) && w.session.Online? && !w.session.unsaved
    ensures Inv(Step(w, ApplyNext))
    ensures Step(w, ApplyNext) == w || (Position(w) < |w.log| && Step(w, ApplyNext).contents == Apply(w.contents, w.log[Position(w)]))
  {
    hide LogBytes, RecordOk, Behind, DecodeRecord, Apply;
    NextRecord(w.log, w.session);
    if DecodeRecord(w.session.buf).Got? {
      BehindApplied(w.contents, w.log, w.session.at);
    }
  }

  lemma DeliverKeeps(w: World, count: nat)
    requires Inv(w)
    ensures Inv(Step(w, Deliver(count)))
  {
    hide LogBytes, Behind, Logged;
  }

  /** Saving, cutting off and connecting again never put the replica beyond what it applied. */
  lemma ResumeKeeps(w: World, e: Event)
    requires Inv(w) && (e.Connect? || e.Cut? || e.CutWhileSaving? || e.Save?)
    ensures Inv(Step(w, e))
  {
    hide LogBytes, Behind, Logged, DecodeRecord, Apply, RecordOk;
    StillPassed(w.log, Record.Delete([]), w.savedAt, w.saved);
    BehindEarlier(w.contents, w.log, Position(w), w.savedAt);
    BehindEarlier(w.contents, w.log, Position(w), 0);
    assert w.log[..0] == [];
    EmptyLog();
    match e
    case Connect => assert LogBytes(w.log)[w.saved..w.saved] == [];
    case _ =>
  }

  lemma StepKeeps(w: World, e: Event)
    requires Inv(w)
    ensures Inv(Step(w, e))
  {
    match e
    case Append(r) => if RecordOk(r) { AppendKeeps(w, r); }
    case ApplyNext => if w.session.Online? && !w.session.unsaved { ApplyKeeps(w); }
    case Deliver(count) => DeliverKeeps(w, count);
    case _ => ResumeKeeps(w, e);
    hide Inv, RecordOk, DecodeRecord, LogBytes, Apply;
  }

  lemma {:induction false} RunKeeps(es: seq<Event>)
    ensures Inv(Run(es))
  {
    if es == [] {
      assert Replayed(map[], []) == map[];
    } else {
      RunKeeps(es[..|es| - 1]);
      StepKeeps(Run(es[..|es| - 1]), es[|es| - 1]);
    }
  }

  lemma {:induction false} AllPassed(log: seq<Record>, at: nat)
    requires at <= |log| && |LogBytes(log[..at])| == |LogBytes(log)|
    ensures at == |log|
  {
    BytesSplit(log, at);
    if at < |log| {
      FirstRecord(log, at);
      hide RecordPayload;
    }
  }

  /**
    Whatever was lost, repeated or reset on the way, a replica whose saved offset is the
    end of the log holds exactly what the primary holds.
  */
  lemma CaughtUpIsEqual(es: seq<Event>)
    requires Run(es).saved == |LogBytes(Run(es).log)|
    ensures Run(es).contents == Replayed(map[], Run(es).log)
  {
    var w := Run(es);
    RunKeeps(es);
    hide LogBytes, Run;
    AllPassed(w.log, w.savedAt);
    AtTheEnd(w.contents, w.log, Position(w));
  }

  lemma AtTheEnd(c: Contents, log: seq<Record>, at: nat)
    requires Behind(c, log, at) && at >= |log|
    ensures c == Replayed(map[], log)
  {
    assert log[at..] == [];
  }

  // ---------- never anything but prefixes, replayed in turn ----------

  /** Prefixes of a log replayed one after another, each over what the last one left. */
  function Layers(log: seq<Record>, ks: seq<nat>): Contents
    requires forall i :: 0 <= i < |ks| ==> ks[i] <= |log|
  {
    if ks == [] then map[] else Replayed(Layers(log, ks[..|ks| - 1]), log[..ks[|ks| - 1]])
  }

  lemma {:induction false} LayersAppended(log: seq<Record>, r: Record, ks: seq<nat>)
    requires forall i :: 0 <= i < |ks| ==> ks[i] <= |log|
    ensures Layers(log + [r], ks) == Layers(log, ks)
  {
    if ks != [] {
      LayersAppended(log, r, ks[..|ks| - 1]);
      assert (log + [r])[..ks[|ks| - 1]] == log[..ks[|ks| - 1]];
    }
  }

  /** Over `base` the replica has the records up to its position, and at most the next one already. */
  ghost predicate Near(w: World, base: Contents) {
    var p := Position(w);
    && p <= |w.log|
    && (w.contents == Replayed(base, w.log[..p]) || (p < |w.log| && w.contents == Replayed(base, w.log[..p + 1])))
    && (w.session.Online? && w.session.unsaved ==> w.session.at == w.savedAt + 1 && w.contents == Replayed(base, w.log[..p]))
  }

  lemma PrefixNext(base: Contents, log: seq<Record>, p: nat)
    requires p < |log|
    ensures Replayed(base, log[..p + 1]) == Apply(Replayed(base, log[..p]), log[p])
    ensures Apply(Replayed(base, log[..p + 1]), log[p]) == Replayed(base, log[..p + 1])
  {
    assert log[..p + 1][..p] == log[..p];
    ApplyTwice(Replayed(base, log[..p]), log[p]);
  }

  lemma ApplyTwice(c: Contents, r: Record)
    ensures Apply(Apply(c, r), r) == Apply(c, r)
  {
  }

  lemma NearStep(w: World, base: Contents, e: Event)
    requires Inv(w) && Near(w, base) && !e.CutWhileSaving?
    ensures Near(Step(w, e), base)
  {
    hide LogBytes, RecordOk, Behind, DecodeRecord, Apply, Replayed;
    var p := Position(w);
    match e
    case Append(r) =>
      assert (w.log + [r])[..p] == w.log[..p];
      if p < |w.log| { assert (w.log + [r])[..p + 1] == w.log[..p + 1]; }
    case ApplyNext =>
      if w.session.Online? && !w.session.unsaved {
        ApplyKeeps(w);
        if p < |w.log| { PrefixNext(base, w.log, p); }
      }
    case _ =>
  }

  /** Starting over from nothing saved is starting a layer. */
  lemma NearLost(w: World)
    requires w.session.Online? && w.session.unsaved
    ensures Near(Step(w, CutWhileSaving), w.contents)
  {
    assert w.log[..0] == [];
  }

  /** A cut that leaves the offset file empty. */
  predicate Loses(w: World, e: Event) { e.CutWhileSaving? && w.session.Online? && w.session.unsaved }

  function Losses(es: seq<Event>): nat {
    if es == [] then 0
    else Losses(es[..|es| - 1]) + if Loses(Run(es[..|es| - 1]), es[|es| - 1]) then 1 else 0
  }

  lemma LayersMore(log: seq<Record>, ks: seq<nat>, k: nat)
    requires (forall i :: 0 <= i < |ks| ==> ks[i] <= |log|) && k <= |log|
    ensures Layers(log, ks + [k]) == Replayed(Layers(log, ks), log[..k])
  {
    hide Replayed;
    assert (ks + [k])[..|ks|] == ks;
  }

  lemma NearUnsaved(w: World, base: Contents)
    requires Near(w, base) && w.session.Online? && w.session.unsaved
    ensures 1 <= Position(w) <= |w.log| && w.contents == Replayed(base, w.log[..Position(w)])
  {
    hide Replayed;
  }

  lemma LayerStep(w: World, e: Event, ks: seq<nat>) returns (ks': seq<nat>)
    requires Inv(w) && (forall i :: 0 <= i < |ks| ==> ks[i] <= |w.log|) && Near(w, Layers(w.log, ks))
    ensures |ks'| == |ks| + (if Loses(w, e) then 1 else 0) && forall i :: 0 <= i < |ks'| ==> ks'[i] <= |Step(w, e).log|
    ensures (forall i :: 0 <= i < |ks| ==> ks[i] >= 1) ==> forall i :: 0 <= i < |ks'| ==> ks'[i] >= 1
    ensures Near(Step(w, e), Layers(Step(w, e).log, ks'))
  {
    hide Inv, Replayed, DecodeRecord, RecordOk, LogBytes, Apply, Near, Layers;
    ghost var base := Layers(w.log, ks);
    ks' := ks;
    if Loses(w, e) {
      var k := Position(w);
      NearUnsaved(w, base);
      NearLost(w);
      ks' := ks + [k];
      LayersMore(w.log, ks, k);
    } else if e.CutWhileSaving? {
      assert Step(w, e) == w;
    } else {
      NearStep(w, base, e);
      if e.Append? && RecordOk(e.r) {
        LayersAppended(w.log, e.r, ks);
      }
    }
  }

  lemma {:induction false} RunNear(es: seq<Event>) returns (ks: seq<nat>)
    ensures |ks| == Losses(es) && forall i :: 0 <= i < |ks| ==> 1 <= ks[i] <= |Run(es).log|
    ensures Near(Run(es), Layers(Run(es).log, ks))
  {
    hide Step, Inv, Near, Loses, Layers;
    if es == [] {
      ks := [];
      StartNear();
    } else {
      ks := RunNear(es[..|es| - 1]);
      RunKeeps(es[..|es| - 1]);
      ks := LayerStep(Run(es[..|es| - 1]), es[|es| - 1], ks);
    }
  }

  lemma StartNear()
    ensures Near(Start, Layers([], []))
  {
    assert Replayed(map[], []) == map[];
  }

  lemma NearBy(w: World, base: Contents) returns (k: nat)
    requires Near(w, base)
    ensures k <= |w.log| && w.contents == Replayed(base, w.log[..k])
  {
    hide Replayed;
    k := if w.contents == Replayed(base, w.log[..Position(w)]) then Position(w) else Position(w) + 1;
  }

  lemma RunStep(es: seq<Event>, e: Event)
    ensures Run(es + [e]) == Step(Run(es), e)
    ensures Losses(es + [e]) == Losses(es) + if Loses(Run(es), e) then 1 else 0
  {
    hide Step, Loses;
    assert (es + [e])[..|es|] == es;
  }

  /** One prefix more than there were losses; a loss comes only after something was applied. */
  ghost predicate Layered(log: seq<Record>, ks: seq<nat>, losses: nat) {
    && |ks| == losses + 1
    && (forall i :: 0 <= i < |ks| ==> ks[i] <= |log|)
    && (forall i :: 0 <= i < losses ==> ks[i] >= 1)
  }

  /**
    In every run the replica holds prefixes of the log replayed one over another, one more
    than the saved offset has been lost; if it never was, a state the primary went through.
  */
  lemma AlwaysLayers(es: seq<Event>) returns (ks: seq<nat>)
    ensures Layered(Run(es).log, ks, Losses(es)) && Run(es).contents == Layers(Run(es).log, ks)
  {
    ks := RunNear(es);
    ghost var base := Layers(Run(es).log, ks);
    hide Run, Losses, Near;
    var k := NearBy(Run(es), base);
    ks := ks + [k];
    assert ks[..|ks| - 1] + [k] == ks;
  }

  lemma AlwaysAPrefix(es: seq<Event>)
    requires Losses(es) == 0
    ensures exists k :: 0 <= k <= |Run(es).log| && Run(es).contents == Replayed(map[], Run(es).log[..k])
  {
    var ks := AlwaysLayers(es);
    hide Run, Losses;
    assert ks[..0] == [] && Layers(Run(es).log, []) == map[];
    assert Run(es).contents == Replayed(map[], Run(es).log[..ks[0]]);
  }

  /** After one loss, a prefix replayed over a prefix. */
  lemma OneLoss(es: seq<Event>)
    requires Losses(es) == 1
    ensures exists k, j :: 0 <= k <= |Run(es).log| && 0 <= j <= |Run(es).log|
              && Run(es).contents == Replayed(Replayed(map[], Run(es).log[..k]), Run(es).log[..j])
  {
    var ks := AlwaysLayers(es);
    hide Run, Losses;
    var log := Run(es).log;
    assert ks[..1] == [ks[0]] && [ks[0]][..0] == [] && Layers(log, []) == map[];
    assert Layers(log, [ks[0]]) == Replayed(map[], log[..ks[0]]);
    assert Run(es).contents == Replayed(Replayed(map[], log[..ks[0]]), log[..ks[1]]);
  }

  // ---------- the offset lost ----------

  function Put(tag: byte, value: byte): Record { Record.Insert(seq(30, _ => tag), [value]) }

  function IdTagged(tag: byte): Id { seq(24, _ => tag) }

  lemma Tagged(tag: byte, value: byte)
    ensures Key(Put(tag, value)) == IdTagged(tag) && Effect(Put(tag, value)) == Some(Entity(seq(30, _ => tag), [value]))
    ensures RecordOk(Put(tag, value)) && RecordOk(Record.Delete(IdTagged(tag)))
    ensures forall other: byte :: IdTagged(other) == IdTagged(tag) ==> other == tag
  {
    hide LE;
    assert seq(30, _ => tag)[6..30] == IdTagged(tag);
    forall other: byte | IdTagged(other) == IdTagged(tag) ensures other == tag {
      assert IdTagged(other)[0] == other && IdTagged(tag)[0] == tag;
    }
  }

  /** With every byte of the log received, the next record is applied. */
  lemma NextApplied(w: World)
    requires Inv(w) && w.session.Online? && !w.session.unsaved && w.session.sent == |LogBytes(w.log)| && w.session.at < |w.log|
    ensures var w' := Step(w, ApplyNext);
            && w' == w.(contents := Apply(w.contents, w.log[w.session.at]), session := w'.session)
            && w'.session.Online? && w'.session.at == w.session.at + 1 && w'.session.unsaved && w'.session.sent == w.session.sent
  {
    hide DecodeRecord, EncodeRecord, RecordOk, LogBytes, Apply, Behind;
    var s := w.session;
    BytesSplit(w.log, s.at);
    FirstRecord(w.log, s.at);
    assert s.buf == LogBytes(w.log[s.at..]);
    RecordRoundTrip(w.log[s.at], LogBytes(w.log[s.at + 1..]));
    NextRecord(w.log, s);
  }

  /** The replica between records, `at` of them saved, with the whole log received. */
  ghost predicate Waiting(es: seq<Event>, log: seq<Record>, at: nat, c: Contents) {
    var w := Run(es);
    && w.log == log && w.contents == c && w.savedAt == at
    && w.session.Online? && w.session.at == at && !w.session.unsaved && w.session.sent == |LogBytes(log)|
  }

  /** Applied and not saved. */
  ghost predicate Dirty(es: seq<Event>, log: seq<Record>, at: nat, c: Contents) {
    var w := Run(es);
    && w.log == log && w.contents == c
    && w.session.Online? && w.session.at == at && w.session.unsaved && w.session.sent == |LogBytes(log)|
  }

  lemma TakeOne(es: seq<Event>, log: seq<Record>, at: nat, c: Contents)
    requires Waiting(es, log, at, c) && at < |log|
    ensures Dirty(es + [ApplyNext], log, at + 1, Apply(c, log[at]))
    ensures Waiting(es + [ApplyNext] + [Save], log, at + 1, Apply(c, log[at]))
    ensures Losses(es + [ApplyNext]) == Losses(es) && Losses(es + [ApplyNext] + [Save]) == Losses(es)
  {
    RunKeeps(es);
    NextApplied(Run(es));
    RunStep(es, ApplyNext);
    RunStep(es + [ApplyNext], Save);
    hide LogBytes, DecodeRecord, Apply, Inv, Run, Losses;
  }

  lemma Reconnect(es: seq<Event>, log: seq<Record>, c: Contents, n: nat)
    requires Run(es).log == log && Run(es).contents == c && Run(es).saved == 0 && Run(es).savedAt == 0 && n == |LogBytes(log)|
    ensures Waiting(es + [Connect] + [Deliver(n)], log, 0, c) && Losses(es + [Connect] + [Deliver(n)]) == Losses(es)
  {
    RunStep(es, Connect);
    RunStep(es + [Connect], Deliver(n));
    hide LogBytes, DecodeRecord, Apply, Inv, Run, Losses;
  }

  lemma LoseIt(es: seq<Event>, log: seq<Record>, at: nat, c: Contents)
    requires Dirty(es, log, at, c)
    ensures var w := Run(es + [CutWhileSaving]); w.log == log && w.contents == c && w.saved == 0 && w.savedAt == 0
    ensures Losses(es + [CutWhileSaving]) == Losses(es) + 1
  {
    RunStep(es, CutWhileSaving);
    hide LogBytes, DecodeRecord, Apply, Inv, Run, Losses;
  }

  // ---------- and every such layering is reached ----------

  lemma {:induction false} AppendAll(log: seq<Record>) returns (es: seq<Event>)
    requires Logged(log)
    ensures Run(es) == World(log, map[], 0, 0, Offline) && Losses(es) == 0
    decreases |log|
  {
    hide RecordOk, LogBytes, DecodeRecord, Apply;
    if log == [] {
      es := [];
    } else {
      var init, r := log[..|log| - 1], log[|log| - 1];
      es := AppendAll(init);
      RunStep(es, Append(r));
      assert init + [r] == log;
      es := es + [Append(r)];
    }
  }

  /** From the start of the log, `k` records applied and saved one by one. */
  lemma {:induction false} TakeMany(es: seq<Event>, log: seq<Record>, k: nat, c: Contents) returns (es': seq<Event>)
    requires Waiting(es, log, 0, c) && k <= |log|
    ensures Waiting(es', log, k, Replayed(c, log[..k])) && Losses(es') == Losses(es)
  {
    hide Waiting, Run, Losses, Apply;
    if k == 0 {
      es' := es;
      assert log[..0] == [];
    } else {
      es' := TakeMany(es, log, k - 1, c);
      PrefixNext(c, log, k - 1);
      TakeOne(es', log, k - 1, Replayed(c, log[..k - 1]));
      es' := es' + [ApplyNext] + [Save];
    }
  }

  /** With nothing saved: a connection, `k` records, and the offset lost over the last of them. */
  lemma LoseAfter(es: seq<Event>, log: seq<Record>, k: nat, c: Contents) returns (es': seq<Event>)
    requires Run(es).log == log && Run(es).contents == c && Run(es).saved == 0 && Run(es).savedAt == 0 && 1 <= k <= |log|
    ensures var w := Run(es');
            w.log == log && w.contents == Replayed(c, log[..k]) && w.saved == 0 && w.savedAt == 0
    ensures Losses(es') == Losses(es) + 1
  {
    hide Waiting, Dirty, Losses, Apply, LogBytes, Run, Replayed;
    var n := |LogBytes(log)|;
    Reconnect(es, log, c, n);
    es' := TakeMany(es + [Connect] + [Deliver(n)], log, k - 1, c);
    PrefixNext(c, log, k - 1);
    TakeOne(es', log, k - 1, Replayed(c, log[..k - 1]));
    LoseIt(es' + [ApplyNext], log, k, Replayed(c, log[..k]));
    es' := es' + [ApplyNext] + [CutWhileSaving];
  }

  lemma {:induction false} LoseLayers(log: seq<Record>, ks: seq<nat>) returns (es: seq<Event>)
    requires Logged(log) && forall i :: 0 <= i < |ks| ==> 1 <= ks[i] <= |log|
    ensures var w := Run(es);
            w.log == log && w.contents == Layers(log, ks) && w.saved == 0 && w.savedAt == 0
    ensures Losses(es) == |ks|
    decreases |ks|
  {
    hide Run, Losses, Replayed, Logged;
    if ks == [] {
      es := AppendAll(log);
    } else {
      var init, k := ks[..|ks| - 1], ks[|ks| - 1];
      es := LoseLayers(log, init);
      es := LoseAfter(es, log, k, Layers(log, init));
    }
  }

  /** Whatever prefixes are asked for, some run replays just those, losing the offset between them. */
  lemma LayersReached(log: seq<Record>, ks: seq<nat>, losses: nat) returns (es: seq<Event>)
    requires Logged(log) && Layered(log, ks, losses)
    ensures Run(es).log == log && Losses(es) == losses && Run(es).contents == Layers(log, ks)
  {
    var init, k := ks[..losses], ks[losses];
    hide Run, Losses, Replayed, Logged, LogBytes;
    es := LoseLayers(log, init);
    var n := |LogBytes(log)|;
    Reconnect(es, log, Layers(log, init), n);
    es := TakeMany(es + [Connect] + [Deliver(n)], log, k, Layers(log, init));
  }

  /** Losing the offset `losses` times can leave exactly what one prefix more, replayed in turn, gives. */
  lemma LossesExact(log: seq<Record>, losses: nat, c: Contents)
    requires Logged(log)
    ensures (exists es :: Run(es).log == log && Losses(es) == losses && Run(es).contents == c) <==>
            (exists ks :: Layered(log, ks, losses) && Layers(log, ks) == c)
  {
    hide Run, Losses, Layers, Logged;
    if exists es :: Run(es).log == log && Losses(es) == losses && Run(es).contents == c {
      var es :| Run(es).log == log && Losses(es) == losses && Run(es).contents == c;
      var ks := AlwaysLayers(es);
    }
    if exists ks :: Layered(log, ks, losses) && Layers(log, ks) == c {
      var ks :| Layered(log, ks, losses) && Layers(log, ks) == c;
      var es := LayersReached(log, ks, losses);
    }
  }

  // ---------- lost once ----------

  const AddA := Put(1, 0)
  const DropA := Record.Delete(IdTagged(1))
  const AddB := Put(2, 0)
  const ThreeRecords := [AddA, DropA, AddB]

  lemma ThreeStates()
    ensures var c1 := Apply(map[], AddA);
            var c3 := Apply(Apply(c1, DropA), AddB);
            && c1.Keys == {IdTagged(1)} && Apply(c1, DropA) == map[] && c3.Keys == {IdTagged(2)}
            && Apply(c3, AddA).Keys == {IdTagged(1), IdTagged(2)} && IdTagged(1) != IdTagged(2)
  {
    hide Put, IdTagged;
    Tagged(1, 0);
    Tagged(2, 0);
  }

  lemma ThreePrefixes()
    ensures forall k :: 0 <= k <= 3 ==> |Replayed(map[], ThreeRecords[..k]).Keys| <= 1
    ensures Replayed(map[], ThreeRecords[..3]).Keys == {IdTagged(2)}
    ensures |Replayed(Replayed(map[], ThreeRecords[..3]), ThreeRecords[..1]).Keys| == 2
  {
    hide Replayed, Apply, Put, IdTagged;
    var log := ThreeRecords;
    ThreeStates();
    NoneTaken(map[], []);
    assert log[..0] == [];
    PrefixNext(map[], log, 0);
    PrefixNext(map[], log, 1);
    PrefixNext(map[], log, 2);
    var all := Replayed(map[], log[..3]);
    NoneTaken(all, []);
    PrefixNext(all, log, 0);
    assert |{IdTagged(1), IdTagged(2)}| == 2;
    forall k | 0 <= k <= 3 ensures |Replayed(map[], log[..k]).Keys| <= 1 {
      assert k == 0 || k == 1 || k == 2 || k == 3;
    }
  }

  /** Prefixes of a log that may all be replayed one over another. */
  lemma TwoLayers(log: seq<Record>, k: nat, j: nat)
    requires k <= |log| && j <= |log|
    ensures Layers(log, [k, j]) == Replayed(Replayed(map[], log[..k]), log[..j])
  {
    hide Replayed;
    assert [k][..0] == [] && Layers(log, []) == map[];
    assert Layers(log, [k]) == Replayed(map[], log[..k]);
    assert [k, j][..1] == [k];
  }

  /**
    A replica that has applied an insert, the matching delete and another insert, loses its
    offset, and applies the first again, holds two entities the primary never held together.
  */
  lemma LostOffsetRun() returns (es: seq<Event>)
    ensures Losses(es) == 1
    ensures forall k :: 0 <= k <= |Run(es).log| ==> Run(es).contents != Replayed(map[], Run(es).log[..k])
  {
    hide Run, Losses, Layers, Put, IdTagged, RecordOk, Replayed;
    Tagged(1, 0);
    Tagged(2, 0);
    es := LayersReached(ThreeRecords, [3, 1], 1);
    TwoLayers(ThreeRecords, 3, 1);
    ThreePrefixes();
  }

  // ---------- lost twice ----------

  const FiveRecords := [Put(1, 1), Put(1, 2), Put(2, 1), Put(2, 2), Put(3, 1)]

  /** The last word on a tag in a prefix of the five, by what is put. */
  function LastPut(tag: byte, k: nat): Option<Record> {
    if k == 0 || k > 5 then None
    else if Key(FiveRecords[k - 1]) == IdTagged(tag) then Some(FiveRecords[k - 1])
    else LastPut(tag, k - 1)
  }

  lemma {:induction false} LastPutIs(tag: byte, k: nat)
    requires k <= 5
    ensures LastOn(FiveRecords[..k], IdTagged(tag)) == LastPut(tag, k)
  {
    hide Put, IdTagged, Key;
    if k > 0 {
      LastPutIs(tag, k - 1);
      assert FiveRecords[..k][..k - 1] == FiveRecords[..k - 1];
    }
  }

  lemma {:induction false} PutsOf(k: nat)
    requires k <= 5
    ensures LastPut(1, k) == if k == 0 then None else if k == 1 then Some(Put(1, 1)) else Some(Put(1, 2))
    ensures LastPut(2, k) == if k <= 2 then None else if k == 3 then Some(Put(2, 1)) else Some(Put(2, 2))
    ensures LastPut(3, k) == if k <= 4 then None else Some(Put(3, 1))
  {
    hide Put, IdTagged, Key;
    if k > 0 {
      PutsOf(k - 1);
      Tagged(1, 1); Tagged(1, 2); Tagged(2, 1); Tagged(2, 2); Tagged(3, 1);
    }
  }

  /** What is found of a tag after one prefix over another. */
  lemma FoundOver(tag: byte, k: nat, j: nat)
    requires k <= 5 && j <= 5
    ensures Found(Replayed(Replayed(map[], FiveRecords[..k]), FiveRecords[..j]), IdTagged(tag)) ==
            match LastPut(tag, j) case Some(r) => Effect(r) case None =>
            match LastPut(tag, k) case Some(r) => Effect(r) case None => None
  {
    hide Replayed, LastOn, LastPut, Put, IdTagged;
    LastDecides(Replayed(map[], FiveRecords[..k]), FiveRecords[..j], IdTagged(tag));
    LastDecides(map[], FiveRecords[..k], IdTagged(tag));
    LastPutIs(tag, k);
    LastPutIs(tag, j);
  }

  /** Two losses can leave what no prefix replayed over a prefix gives, so the third layer is needed. */
  lemma TwoLossesGoDeeper(k: nat, j: nat)
    requires k <= 5 && j <= 5
    ensures var log := FiveRecords;
            Replayed(Replayed(Replayed(map[], log[..5]), log[..3]), log[..1])
            != Replayed(Replayed(map[], log[..k]), log[..j])
  {
    var log := FiveRecords;
    var over := Replayed(Replayed(map[], log[..5]), log[..3]);
    var deep, flat := Replayed(over, log[..1]), Replayed(Replayed(map[], log[..k]), log[..j]);
    PutsOf(1);
    PutsOf(3);
    PutsOf(5);
    PutsOf(k);
    PutsOf(j);
    forall tag: byte ensures Found(deep, IdTagged(tag)) ==
      match LastPut(tag, 1) case Some(r) => Effect(r) case None => Found(over, IdTagged(tag))
    {
      LastDecides(over, log[..1], IdTagged(tag));
      LastPutIs(tag, 1);
    }
    Tagged(1, 1); Tagged(1, 2); Tagged(2, 1); Tagged(2, 2); Tagged(3, 1);
    FoundOver(1, k, j); FoundOver(2, k, j); FoundOver(3, k, j);
    FoundOver(1, 5, 3); FoundOver(2, 5, 3); FoundOver(3, 5, 3);
    hide Replayed, LastPut, Put, IdTagged, Found, Effect;
  }

  /** And a run comes to that: with two losses it holds what no prefix over a prefix gives. */
  lemma LostTwiceRun() returns (es: seq<Event>)
    ensures Losses(es) == 2 && |Run(es).log| == 5
    ensures forall k, j :: 0 <= k <= 5 && 0 <= j <= 5 ==>
              Run(es).contents != Replayed(Replayed(map[], Run(es).log[..k]), Run(es).log[..j])
  {
    hide Run, Losses, Put, IdTagged, RecordOk, Replayed;
    Tagged(1, 1); Tagged(1, 2); Tagged(2, 1); Tagged(2, 2); Tagged(3, 1);
    es := LayersReached(FiveRecords, [5, 3, 1], 2);
    ThreeLayers();
    forall k, j | 0 <= k <= 5 && 0 <= j <= 5
      ensures Run(es).contents != Replayed(Replayed(map[], FiveRecords[..k]), FiveRecords[..j])
    {
      TwoLossesGoDeeper(k, j);
    }
  }

  lemma ThreeLayers()
    ensures Layers(FiveRecords, [5, 3, 1])
            == Replayed(Replayed(Replayed(map[], FiveRecords[..5]), FiveRecords[..3]), FiveRecords[..1])
  {
    hide Replayed, Put;
    assert [5, 3, 1][..2] == [5, 3];
    TwoLayers(FiveRecords, 5, 3);
  }
}
