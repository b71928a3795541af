/**
  The peer protocol on the wire: records and envelopes as length-prefixed, tagged
  frames, and reading them back off a byte stream that arrives in arbitrary pieces.
  The message tag is any function from bytes to 32 bytes; an entity header is
  whatever bytes it encodes to.
*/
module Wire {
  import opened Bytes

  const TAG_LEN := 32
  const TUID_LEN := 24
  const MAX_FRAME_LEN := 67_108_864

  type Mac = seq<byte> -> seq<byte>

  datatype Record = Insert(header: seq<byte>, body: seq<byte>) | Delete(id: seq<byte>)

  datatype LogEntry = LogEntry(term: nat, command: Record)

  datatype Rpc =
    | VoteRequest(term: nat, candidate: nat, lastIndex: nat, lastTerm: nat)
    | VoteResponse(term: nat, granted: bool, voter: nat)
    | AppendRequest(term: nat, leader: nat, prevIndex: nat, prevTerm: nat, entries: seq<LogEntry>, commit: nat)
    | AppendResponse(term: nat, success: bool, matchIndex: nat, follower: nat)

  datatype Envelope = Envelope(from: nat, to: nat, rpc: Rpc)

  /** A field read off the front of some bytes, or not enough bytes. */
  datatype Read<+T> = Val(value: T, rest: seq<byte>) | Short

  /** One frame at the front of a buffer: not all there yet, wrong, or read with this many bytes used. */
  datatype Decoded<+T> = Partial | Bad | Got(value: T, used: nat)

  // ---------- fields ----------

  function ReadBytes(s: seq<byte>, n: nat): Read<seq<byte>> {
    if |s| < n then Short else Val(s[..n], s[n..])
  }

  function ReadInt(s: seq<byte>, width: nat): Read<nat> {
    match ReadBytes(s, width) case Short => Short case Val(b, rest) => Val(FromLE(b), rest)
  }

  function ReadFlag(s: seq<byte>): Read<bool> {
    match ReadInt(s, 1) case Short => Short case Val(n, rest) => Val(n != 0, rest)
  }

  lemma BytesBack(b: seq<byte>, tail: seq<byte>)
    ensures ReadBytes(b + tail, |b|) == Val(b, tail)
  {
    assert (b + tail)[..|b|] == b && (b + tail)[|b|..] == tail;
  }

  lemma IntBack(n: nat, width: nat, tail: seq<byte>)
    requires n < Pow256(width)
    ensures ReadInt(LE(n, width) + tail, width) == Val(n, tail)
  {
    BytesBack(LE(n, width), tail);
    LERoundTrip(n, width);
  }

  lemma FlagBack(b: bool, tail: seq<byte>)
    ensures ReadFlag(LE(if b then 1 else 0, 1) + tail) == Val(b, tail)
  {
    assert Pow256(1) == 256;
    IntBack(if b then 1 else 0, 1, tail);
  }

  predicate U32(n: nat) { n < Pow256(4) }

  predicate U64(n: nat) { n < Pow256(8) }

  // ---------- records ----------

  function RecordPayload(r: Record): seq<byte> {
    match r
    case Insert(header, body) => [1] + (LE(|header|, 4) + (header + (LE(|body|, 4) + body)))
    case Delete(id) => [2] + id
  }

  function EncodeRecord(r: Record): seq<byte> {
    LE(|RecordPayload(r)|, 4) + RecordPayload(r)
  }

  predicate RecordOk(r: Record) {
    && |RecordPayload(r)| <= MAX_FRAME_LEN
    && (r.Delete? ==> |r.id| == TUID_LEN)
  }

  function ParseInsert(s: seq<byte>): Read<Record> {
    match ReadInt(s, 4) case Short => Short case Val(n, s1) =>
    match ReadBytes(s1, n) case Short => Short case Val(header, s2) =>
    match ReadInt(s2, 4) case Short => Short case Val(m, s3) =>
    match ReadBytes(s3, m) case Short => Short case Val(body, rest) => Val(Insert(header, body), rest)
  }

  function ParseRecord(payload: seq<byte>): Read<Record> {
    if payload == [] then Short
    else if payload[0] == 1 then ParseInsert(payload[1..])
    else if payload[0] == 2 then
      match ReadBytes(payload[1..], TUID_LEN) case Short => Short case Val(id, rest) => Val(Delete(id), rest)
    else Short
  }

  function DecodeRecord(buf: seq<byte>): Decoded<Record> {
    match ReadInt(buf, 4) case Short => Partial case Val(n, s) =>
    if n > MAX_FRAME_LEN then Bad
    else if |s| < n then Partial
    else match ParseRecord(s[..n]) case Short => Bad case Val(r, _) => Got(r, 4 + n)
  }

  lemma FrameSizes()
    ensures MAX_FRAME_LEN < Pow256(4) && Pow256(4) == 0x1_0000_0000
  {
    assert Pow256(1) == 256 && Pow256(2) == 65536 && Pow256(3) == 16777216;
  }

  lemma InsertBack(header: seq<byte>, body: seq<byte>)
    requires RecordOk(Insert(header, body))
    ensures ParseInsert(LE(|header|, 4) + (header + (LE(|body|, 4) + body))) == Val(Insert(header, body), [])
  {
    FrameSizes();
    var s2 := LE(|body|, 4) + body;
    IntBack(|header|, 4, header + s2);
    BytesBack(header, s2);
    IntBack(|body|, 4, body);
    assert body + [] == body;
    BytesBack(body, []);
    hide ReadInt, ReadBytes, LE;
  }

  lemma RecordBack(r: Record)
    requires RecordOk(r)
    ensures ParseRecord(RecordPayload(r)) == Val(r, [])
  {
    var p := RecordPayload(r);
    if r.Insert? {
      InsertBack(r.header, r.body);
      assert p[1..] == LE(|r.header|, 4) + (r.header + (LE(|r.body|, 4) + r.body));
    } else {
      assert p[1..] == r.id && r.id + [] == r.id;
      BytesBack(r.id, []);
    }
  }

  /** A complete record is read back whatever follows it. */
  lemma RecordRoundTrip(r: Record, tail: seq<byte>)
    requires RecordOk(r)
    ensures DecodeRecord(EncodeRecord(r) + tail) == Got(r, |EncodeRecord(r)|)
    ensures (EncodeRecord(r) + tail)[|EncodeRecord(r)|..] == tail
  {
    var p := RecordPayload(r);
    FrameSizes();
    assert EncodeRecord(r) + tail == LE(|p|, 4) + (p + tail);
    IntBack(|p|, 4, p + tail);
    RecordBack(r);
    assert (p + tail)[..|p|] == p;
    hide ReadInt, LE, ParseRecord, RecordPayload;
  }

  /** Part of a record is never mistaken for a record, nor for an error. */
  lemma RecordCut(r: Record, cut: nat)
    requires RecordOk(r) && cut < |EncodeRecord(r)|
    ensures DecodeRecord(EncodeRecord(r)[..cut]) == Partial
  {
    var p := RecordPayload(r);
    FrameSizes();
    hide ReadInt, LE, ParseRecord, RecordPayload;
    if cut < 4 {
      ShortInt(EncodeRecord(r)[..cut], 4);
    } else {
      assert EncodeRecord(r)[..cut] == LE(|p|, 4) + p[..cut - 4];
      IntBack(|p|, 4, p[..cut - 4]);
    }
  }

  lemma ShortInt(s: seq<byte>, width: nat)
    requires |s| < width
    ensures ReadInt(s, width) == Short
  {
  }

  lemma RecordUses(buf: seq<byte>)
    ensures DecodeRecord(buf).Got? ==> 4 <= DecodeRecord(buf).used <= |buf|
  {
    hide ParseRecord, FromLE;
  }

  // ---------- entries ----------

  function EntryBytes(e: LogEntry): seq<byte> { LE(e.term, 8) + EncodeRecord(e.command) }

  function EntriesBytes(es: seq<LogEntry>): seq<byte> {
    if es == [] then [] else EntryBytes(es[0]) + EntriesBytes(es[1..])
  }

  predicate EntryOk(e: LogEntry) { U64(e.term) && RecordOk(e.command) }

  function ReadEntry(s: seq<byte>): Read<LogEntry> {
    match ReadInt(s, 8) case Short => Short case Val(term, s1) =>
    match DecodeRecord(s1)
    case Got(r, used) => if used <= |s1| then Val(LogEntry(term, r), s1[used..]) else Short
    case _ => Short
  }

  function ReadEntries(s: seq<byte>, n: nat): Read<seq<LogEntry>> {
    if n == 0 then Val([], s) else
    match ReadEntry(s) case Short => Short case Val(e, s1) =>
    match ReadEntries(s1, n - 1) case Short => Short case Val(es, rest) => Val([e] + es, rest)
  }

  lemma EntryUnfold(e: LogEntry, tail: seq<byte>)
    ensures EntryBytes(e) + tail == LE(e.term, 8) + (EncodeRecord(e.command) + tail)
    ensures |EntryBytes(e)| >= 12
  {
    hide LE, RecordPayload;
  }

  lemma ReadEntryStep(s: seq<byte>, term: nat, r: Record, s1: seq<byte>, used: nat)
    requires ReadInt(s, 8) == Val(term, s1) && DecodeRecord(s1) == Got(r, used) && used <= |s1|
    ensures ReadEntry(s) == Val(LogEntry(term, r), s1[used..])
  {
    hide ReadInt, DecodeRecord;
  }

  lemma EntryBack(e: LogEntry, tail: seq<byte>)
    requires EntryOk(e)
    ensures ReadEntry(EntryBytes(e) + tail) == Val(e, tail)
    ensures |EntryBytes(e)| >= 12
  {
    hide ReadInt, LE, DecodeRecord, EncodeRecord, EntryBytes, ReadEntry, RecordOk;
    var r := EncodeRecord(e.command);
    EntryUnfold(e, tail);
    IntBack(e.term, 8, r + tail);
    RecordRoundTrip(e.command, tail);
    ReadEntryStep(EntryBytes(e) + tail, e.term, e.command, r + tail, |r|);
  }

  lemma EntriesUnfold(es: seq<LogEntry>, tail: seq<byte>)
    requires es != []
    ensures EntriesBytes(es) + tail == EntryBytes(es[0]) + (EntriesBytes(es[1..]) + tail)
    ensures |EntriesBytes(es)| == |EntryBytes(es[0])| + |EntriesBytes(es[1..])|
  {
    hide EntryBytes;
  }

  lemma ReadEntriesStep(s: seq<byte>, n: nat, e: LogEntry, s1: seq<byte>)
    requires n > 0 && ReadEntry(s) == Val(e, s1)
    ensures ReadEntries(s, n) == match ReadEntries(s1, n - 1) case Short => Short case Val(es, rest) => Val([e] + es, rest)
  {
    hide ReadEntry;
  }

  lemma {:induction false} EntriesBack(es: seq<LogEntry>, tail: seq<byte>)
    requires forall i :: 0 <= i < |es| ==> EntryOk(es[i])
    ensures ReadEntries(EntriesBytes(es) + tail, |es|) == Val(es, tail)
    ensures |EntriesBytes(es)| >= 12 * |es|
  {
    if es == [] {
      assert EntriesBytes(es) + tail == tail;
    } else {
      hide EntryBytes, ReadEntry, EntryOk, EntriesBytes, ReadEntries;
      var more := EntriesBytes(es[1..]) + tail;
      EntriesBack(es[1..], tail);
      EntryBack(es[0], more);
      EntriesUnfold(es, tail);
      ReadEntriesStep(EntriesBytes(es) + tail, |es|, es[0], more);
      assert es == [es[0]] + es[1..];
    }
  }

  /** The sender's loop over entries. */
  method WriteEntries(es: seq<LogEntry>) returns (out: seq<byte>)
    ensures out == EntriesBytes(es)
  {
    hide EntryBytes;
    out := [];
    for i := 0 to |es|
      invariant out + EntriesBytes(es[i..]) == EntriesBytes(es)
    {
      assert es[i..][1..] == es[i + 1..];
      EntriesUnfold(es[i..], []);
      assert EntriesBytes(es[i..]) == EntryBytes(es[i]) + EntriesBytes(es[i + 1..]);
      out := out + EntryBytes(es[i]);
    }
    assert out + [] == out;
  }

  /** The receiver's loop over entries, moving a position through the payload. */
  method TakeEntries(payload: seq<byte>, start: nat, n: nat) returns (es: seq<LogEntry>, pos: nat, ok: bool)
    requires start <= |payload|
    ensures pos <= |payload|
    ensures ReadEntries(payload[start..], n) == if ok then Val(es, payload[pos..]) else Short
  {
    hide ReadEntry, After, ReadEntries;
    es, pos, ok := [], start, true;
    ghost var goal := ReadEntries(payload[start..], n);
    NothingBefore(goal);
    for i := 0 to n
      invariant pos <= |payload|
      invariant goal == After(es, ReadEntries(payload[pos..], n - i))
    {
      ghost var here := payload[pos..];
      OneEntry(here, n - i);
      match ReadEntry(payload[pos..]) {
        case Short =>
          NothingAfter(es);
          return es, pos, false;
        case Val(e, rest) =>
          ReadEntryUses(here);
          OneBefore(es, e, ReadEntries(rest, n - i - 1));
          pos := |payload| - |rest|;
          assert payload[pos..] == rest;
          es := es + [e];
      }
    }
    NoEntries(es, payload[pos..]);
  }

  /** Entries read so far, then the outcome of reading on. */
  function After(es: seq<LogEntry>, r: Read<seq<LogEntry>>): Read<seq<LogEntry>> {
    match r case Short => Short case Val(more, rest) => Val(es + more, rest)
  }

  lemma NothingBefore(r: Read<seq<LogEntry>>)
    ensures After([], r) == r
  {
    if r.Val? { assert [] + r.value == r.value; }
  }

  lemma NothingAfter(es: seq<LogEntry>)
    ensures After(es, Short) == Short
  {
  }

  lemma OneBefore(es: seq<LogEntry>, e: LogEntry, r: Read<seq<LogEntry>>)
    ensures After(es, After([e], r)) == After(es + [e], r)
  {
    if r.Val? { assert es + ([e] + r.value) == es + [e] + r.value; }
  }

  lemma OneEntry(s: seq<byte>, n: nat)
    requires n > 0
    ensures ReadEntries(s, n) == match ReadEntry(s) case Short => Short case Val(e, s1) => After([e], ReadEntries(s1, n - 1))
  {
    hide ReadEntry;
  }

  lemma NoEntries(es: seq<LogEntry>, s: seq<byte>)
    ensures After(es, ReadEntries(s, 0)) == Val(es, s)
  {
    assert es + [] == es;
  }

  /** What is left after an entry is the end of what there was. */
  lemma ReadEntryUses(s: seq<byte>)
    ensures ReadEntry(s).Val? ==> |ReadEntry(s).rest| <= |s| && ReadEntry(s).rest == s[|s| - |ReadEntry(s).rest|..]
  {
    hide DecodeRecord, FromLE;
  }

  // ---------- a member's state file ----------

  datatype Vote = NoVote | VotedFor(candidate: nat)

  datatype State = State(term: nat, vote: Vote, log: seq<LogEntry>)

  ghost predicate StateOk(st: State) {
    && U64(st.term) && (st.vote.VotedFor? ==> U32(st.vote.candidate))
    && U32(|st.log|) && forall i :: 0 <= i < |st.log| ==> EntryOk(st.log[i])
  }

  function EncodeState(st: State): seq<byte> {
    LE(st.term, 8) + (LE(if st.vote.VotedFor? then 1 else 0, 1) + (LE(if st.vote.VotedFor? then st.vote.candidate else 0, 4)
      + (LE(|st.log|, 4) + (EntriesBytes(st.log) + []))))
  }

  /** A claimed entry count beyond a ninth of the remaining bytes is refused. */
  function DecodeState(buf: seq<byte>): Read<State> {
    match ReadInt(buf, 8) case Short => Short case Val(term, s1) =>
    match ReadFlag(s1) case Short => Short case Val(voted, s2) =>
    match ReadInt(s2, 4) case Short => Short case Val(vote, s3) =>
    match ReadInt(s3, 4) case Short => Short case Val(n, s4) =>
    if n > |s4| / 9 then Short else
    match ReadEntries(s4, n) case Short => Short case Val(log, rest) =>
    Val(State(term, if voted then VotedFor(vote) else NoVote, log), rest)
  }

  /** Term, vote and log come back from disk as they were written. */
  lemma StateRoundTrip(st: State)
    requires StateOk(st)
    ensures DecodeState(EncodeState(st)) == Val(st, [])
  {
    var v := if st.vote.VotedFor? then st.vote.candidate else 0;
    var s4 := EntriesBytes(st.log) + [];
    var s3 := LE(|st.log|, 4) + s4;
    var s2 := LE(v, 4) + s3;
    var s1 := LE(if st.vote.VotedFor? then 1 else 0, 1) + s2;
    assert EncodeState(st) == LE(st.term, 8) + s1;
    hide LE, ReadInt, ReadFlag, EntriesBytes, ReadEntries, EntryOk, EncodeState;
    FrameSizes();
    EntriesBack(st.log, []);
    IntBack(st.term, 8, s1);
    FlagBack(st.vote.VotedFor?, s2);
    IntBack(v, 4, s3);
    IntBack(|st.log|, 4, s4);
  }

  // ---------- envelopes ----------

  function RpcBytes(m: Rpc): seq<byte> {
    match m
    case VoteRequest(term, candidate, lastIndex, lastTerm) =>
      [1] + (LE(term, 8) + (LE(candidate, 4) + (LE(lastIndex, 8) + (LE(lastTerm, 8) + []))))
    case VoteResponse(term, granted, voter) =>
      [2] + (LE(term, 8) + (LE(if granted then 1 else 0, 1) + (LE(voter, 4) + [])))
    case AppendRequest(term, leader, prevIndex, prevTerm, entries, commit) =>
      [3] + (LE(term, 8) + (LE(leader, 4) + (LE(prevIndex, 8) + (LE(prevTerm, 8)
          + (LE(|entries|, 4) + (EntriesBytes(entries) + (LE(commit, 8) + [])))))))
    case AppendResponse(term, success, matchIndex, follower) =>
      [4] + (LE(term, 8) + (LE(if success then 1 else 0, 1) + (LE(matchIndex, 8) + (LE(follower, 4) + []))))
  }

  function Payload(e: Envelope): seq<byte> {
    LE(e.from, 4) + (LE(e.to, 4) + RpcBytes(e.rpc))
  }

  predicate RpcOk(m: Rpc) {
    match m
    case VoteRequest(term, candidate, lastIndex, lastTerm) => U64(term) && U32(candidate) && U64(lastIndex) && U64(lastTerm)
    case VoteResponse(term, _, voter) => U64(term) && U32(voter)
    case AppendRequest(term, leader, prevIndex, prevTerm, entries, commit) =>
      && U64(term) && U32(leader) && U64(prevIndex) && U64(prevTerm) && U64(commit)
      && forall i :: 0 <= i < |entries| ==> EntryOk(entries[i])
    case AppendResponse(term, _, matchIndex, follower) => U64(term) && U64(matchIndex) && U32(follower)
  }

  /** What the sender can put in a frame at all. */
  predicate EnvelopeOk(e: Envelope) {
    U32(e.from) && U32(e.to) && RpcOk(e.rpc) && |Payload(e)| <= MAX_FRAME_LEN
  }

  function ParseVoteRequest(s: seq<byte>): Read<Rpc> {
    match ReadInt(s, 8) case Short => Short case Val(term, s1) =>
    match ReadInt(s1, 4) case Short => Short case Val(candidate, s2) =>
    match ReadInt(s2, 8) case Short => Short case Val(lastIndex, s3) =>
    match ReadInt(s3, 8) case Short => Short case Val(lastTerm, rest) =>
    Val(VoteRequest(term, candidate, lastIndex, lastTerm), rest)
  }

  function ParseVoteResponse(s: seq<byte>): Read<Rpc> {
    match ReadInt(s, 8) case Short => Short case Val(term, s1) =>
    match ReadFlag(s1) case Short => Short case Val(granted, s2) =>
    match ReadInt(s2, 4) case Short => Short case Val(voter, rest) => Val(VoteResponse(term, granted, voter), rest)
  }

  /** A claimed entry count beyond a twelfth of the payload is refused before any entry is read. */
  function ParseAppendRequest(s: seq<byte>, total: nat): Read<Rpc> {
    match ReadInt(s, 8) case Short => Short case Val(term, s1) =>
    match ReadInt(s1, 4) case Short => Short case Val(leader, s2) =>
    match ReadInt(s2, 8) case Short => Short case Val(prevIndex, s3) =>
    match ReadInt(s3, 8) case Short => Short case Val(prevTerm, s4) =>
    match ReadInt(s4, 4) case Short => Short case Val(n, s5) =>
    if n > total / 12 then Short else
    match ReadEntries(s5, n) case Short => Short case Val(entries, s6) =>
    match ReadInt(s6, 8) case Short => Short case Val(commit, rest) =>
    Val(AppendRequest(term, leader, prevIndex, prevTerm, entries, commit), rest)
  }

  function ParseAppendResponse(s: seq<byte>): Read<Rpc> {
    match ReadInt(s, 8) case Short => Short case Val(term, s1) =>
    match ReadFlag(s1) case Short => Short case Val(success, s2) =>
    match ReadInt(s2, 8) case Short => Short case Val(matchIndex, s3) =>
    match ReadInt(s3, 4) case Short => Short case Val(follower, rest) =>
    Val(AppendResponse(term, success, matchIndex, follower), rest)
  }

  function ParseRpc(s: seq<byte>, total: nat): Read<Rpc> {
    if s == [] then Short
    else if s[0] == 1 then ParseVoteRequest(s[1..])
    else if s[0] == 2 then ParseVoteResponse(s[1..])
    else if s[0] == 3 then ParseAppendRequest(s[1..], total)
    else if s[0] == 4 then ParseAppendResponse(s[1..])
    else Short
  }

  function ParseEnvelope(payload: seq<byte>): Read<Envelope> {
    match ReadInt(payload, 4) case Short => Short case Val(from, s1) =>
    match ReadInt(s1, 4) case Short => Short case Val(to, s2) =>
    match ParseRpc(s2, |payload|) case Short => Short case Val(m, rest) => Val(Envelope(from, to, m), rest)
  }

  lemma VoteRequestBack(m: Rpc)
    requires m.VoteRequest? && RpcOk(m)
    ensures ParseVoteRequest(RpcBytes(m)[1..]) == Val(m, [])
  {
    var s3 := LE(m.lastTerm, 8) + [];
    var s2 := LE(m.lastIndex, 8) + s3;
    var s1 := LE(m.candidate, 4) + s2;
    assert RpcBytes(m)[1..] == LE(m.term, 8) + s1;
    IntBack(m.term, 8, s1);
    IntBack(m.candidate, 4, s2);
    IntBack(m.lastIndex, 8, s3);
    IntBack(m.lastTerm, 8, []);
    hide ReadInt, LE, RpcBytes;
  }

  lemma VoteResponseBack(m: Rpc)
    requires m.VoteResponse? && RpcOk(m)
    ensures ParseVoteResponse(RpcBytes(m)[1..]) == Val(m, [])
  {
    var s2 := LE(m.voter, 4) + [];
    var s1 := LE(if m.granted then 1 else 0, 1) + s2;
    assert RpcBytes(m)[1..] == LE(m.term, 8) + s1;
    IntBack(m.term, 8, s1);
    FlagBack(m.granted, s2);
    IntBack(m.voter, 4, []);
    hide ReadInt, ReadFlag, LE, RpcBytes;
  }

  lemma AppendResponseBack(m: Rpc)
    requires m.AppendResponse? && RpcOk(m)
    ensures ParseAppendResponse(RpcBytes(m)[1..]) == Val(m, [])
  {
    var s3 := LE(m.follower, 4) + [];
    var s2 := LE(m.matchIndex, 8) + s3;
    var s1 := LE(if m.success then 1 else 0, 1) + s2;
    assert RpcBytes(m)[1..] == LE(m.term, 8) + s1;
    IntBack(m.term, 8, s1);
    FlagBack(m.success, s2);
    IntBack(m.matchIndex, 8, s3);
    IntBack(m.follower, 4, []);
    hide ReadInt, ReadFlag, LE, RpcBytes;
  }

  lemma AppendRequestBack(m: Rpc, total: nat)
    requires m.AppendRequest? && RpcOk(m) && |RpcBytes(m)| <= total <= MAX_FRAME_LEN
    ensures ParseAppendRequest(RpcBytes(m)[1..], total) == Val(m, [])
  {
    var s6 := LE(m.commit, 8) + [];
    var s5 := EntriesBytes(m.entries) + s6;
    var s4 := LE(|m.entries|, 4) + s5;
    var s3 := LE(m.prevTerm, 8) + s4;
    var s2 := LE(m.prevIndex, 8) + s3;
    var s1 := LE(m.leader, 4) + s2;
    assert RpcBytes(m) == [3] + (LE(m.term, 8) + s1);
    assert RpcBytes(m)[1..] == LE(m.term, 8) + s1;
    hide RpcBytes, LE, ReadInt, EntriesBytes, ReadEntries, EntryOk;
    FrameSizes();
    EntriesBack(m.entries, s6);
    IntBack(m.term, 8, s1);
    IntBack(m.leader, 4, s2);
    IntBack(m.prevIndex, 8, s3);
    IntBack(m.prevTerm, 8, s4);
    IntBack(|m.entries|, 4, s5);
    IntBack(m.commit, 8, []);
  }

  lemma RpcHead(m: Rpc, total: nat)
    ensures var s := RpcBytes(m);
            ParseRpc(s, total) == match m
                                  case VoteRequest(_, _, _, _) => ParseVoteRequest(s[1..])
                                  case VoteResponse(_, _, _) => ParseVoteResponse(s[1..])
                                  case AppendRequest(_, _, _, _, _, _) => ParseAppendRequest(s[1..], total)
                                  case AppendResponse(_, _, _, _) => ParseAppendResponse(s[1..])
    ensures |RpcBytes(m)| >= 1
  {
    hide LE, EntriesBytes, ParseVoteRequest, ParseVoteResponse, ParseAppendRequest, ParseAppendResponse;
  }

  lemma RpcBack(m: Rpc, total: nat)
    requires RpcOk(m) && |RpcBytes(m)| <= total <= MAX_FRAME_LEN
    ensures ParseRpc(RpcBytes(m), total) == Val(m, [])
  {
    hide *;
    RpcHead(m, total);
    match m {
      case VoteRequest(_, _, _, _) => VoteRequestBack(m);
      case VoteResponse(_, _, _) => VoteResponseBack(m);
      case AppendRequest(_, _, _, _, _, _) => AppendRequestBack(m, total);
      case AppendResponse(_, _, _, _) => AppendResponseBack(m);
    }
  }

  lemma EnvelopeBack(e: Envelope)
    requires EnvelopeOk(e)
    ensures ParseEnvelope(Payload(e)) == Val(e, [])
  {
    var s1 := LE(e.to, 4) + RpcBytes(e.rpc);
    IntBack(e.from, 4, s1);
    IntBack(e.to, 4, RpcBytes(e.rpc));
    RpcBack(e.rpc, |Payload(e)|);
    hide ReadInt, LE, RpcBytes, ParseRpc, RpcOk;
  }

  // ---------- frames ----------

  ghost predicate MacOk(mac: Mac) { forall p: seq<byte> :: |mac(p)| == TAG_LEN }

  function Encode(e: Envelope, mac: Mac): seq<byte> {
    LE(|Payload(e)|, 4) + (Payload(e) + mac(Payload(e)))
  }

  function Decode(buf: seq<byte>, mac: Mac): Decoded<Envelope> {
    match ReadInt(buf, 4) case Short => Partial case Val(n, s) =>
    if n > MAX_FRAME_LEN then Bad
    else if |s| < n + TAG_LEN then Partial
    else if mac(s[..n]) != s[n..n + TAG_LEN] then Bad
    else match ParseEnvelope(s[..n]) case Short => Bad case Val(e, _) => Got(e, 4 + n + TAG_LEN)
  }

  /** A whole frame decodes to the envelope that was sent, whatever follows it. */
  lemma FrameRoundTrip(e: Envelope, mac: Mac, tail: seq<byte>)
    requires EnvelopeOk(e) && MacOk(mac)
    ensures Decode(Encode(e, mac) + tail, mac) == Got(e, |Encode(e, mac)|)
    ensures |Encode(e, mac)| == 4 + |Payload(e)| + TAG_LEN
  {
    var p := Payload(e);
    FrameSizes();
    EnvelopeBack(e);
    hide Payload, ParseEnvelope, EnvelopeOk;
    assert Encode(e, mac) + tail == LE(|p|, 4) + (p + mac(p) + tail);
    IntBack(|p|, 4, p + mac(p) + tail);
    hide LE, ReadInt;
    var s := p + mac(p) + tail;
    assert s[..|p|] == p && s[|p|..|p| + TAG_LEN] == mac(p);
  }

  /** Part of a frame is never mistaken for a frame, nor for an error. */
  lemma FrameCut(e: Envelope, mac: Mac, cut: nat)
    requires EnvelopeOk(e) && MacOk(mac) && cut < |Encode(e, mac)|
    ensures Decode(Encode(e, mac)[..cut], mac) == Partial
  {
    var p := Payload(e);
    FrameSizes();
    assert |p| <= MAX_FRAME_LEN;
    hide Payload, EnvelopeOk, LE, ParseEnvelope;
    assert |Encode(e, mac)| == 4 + |p| + TAG_LEN;
    if cut >= 4 {
      var s := (p + mac(p))[..cut - 4];
      assert Encode(e, mac)[..cut] == LE(|p|, 4) + s;
      IntBack(|p|, 4, s);
    }
  }

  /** More bytes never change how a frame already complete, or already wrong, is read. */
  lemma DecodeMore(a: seq<byte>, b: seq<byte>, mac: Mac)
    ensures Decode(a, mac) != Partial ==> Decode(a + b, mac) == Decode(a, mac)
    ensures Decode(a, mac).Got? ==> 4 <= Decode(a, mac).used <= |a|
  {
    if |a| >= 4 {
      assert (a + b)[..4] == a[..4] && (a + b)[4..] == a[4..] + b;
      var n, s := FromLE(a[..4]), a[4..];
      if |s| >= n + TAG_LEN {
        assert (s + b)[..n] == s[..n] && (s + b)[n..n + TAG_LEN] == s[n..n + TAG_LEN];
      }
    }
    hide ParseEnvelope, FromLE;
  }

  // ---------- the stream ----------

  /** What a connection hands over, what it still holds, and whether it has given up. */
  datatype Progress = Progress(out: seq<Envelope>, rest: seq<byte>, failed: bool)

  function Drain(buf: seq<byte>, mac: Mac): Progress
    decreases |buf|
  {
    DecodeMore(buf, [], mac);
    match Decode(buf, mac)
    case Partial => Progress([], buf, false)
    case Bad => Progress([], buf, true)
    case Got(e, used) =>
      var p := Drain(buf[used..], mac);
      Progress([e] + p.out, p.rest, p.failed)
  }

  /** The reading end of a connection: each read appends, then every complete frame is taken. */
  class Connection {
    const mac: Mac
    var buf: seq<byte>
    var delivered: seq<Envelope>

    constructor (mac: Mac)
      ensures this.mac == mac && buf == [] && delivered == []
    {
      this.mac := mac;
      buf, delivered := [], [];
    }

    method Receive(chunk: seq<byte>) returns (ok: bool)
      modifies this
      ensures var p := Drain(old(buf) + chunk, mac);
              ok == !p.failed && buf == p.rest && delivered == old(delivered) + p.out
    {
      hide Decode;
      buf := buf + chunk;
      ghost var goal := Drain(buf, mac);
      assert delivered + goal.out == old(delivered) + goal.out;
      while true
        invariant delivered + Drain(buf, mac).out == old(delivered) + goal.out
        invariant Drain(buf, mac).rest == goal.rest && Drain(buf, mac).failed == goal.failed
        decreases |buf|
      {
        DecodeMore(buf, [], mac);
        ghost var p := Drain(buf, mac);
        match Decode(buf, mac) {
          case Partial =>
            assert delivered + [] == delivered;
            return true;
          case Bad =>
            assert delivered + [] == delivered;
            return false;
          case Got(e, used) =>
            assert delivered + p.out == delivered + [e] + Drain(buf[used..], mac).out;
            delivered := delivered + [e];
            buf := buf[used..];
        }
      }
    }
  }

  /** Draining what arrived, then the rest with more, is draining it all at once. */
  lemma {:induction false} DrainMore(a: seq<byte>, b: seq<byte>, mac: Mac)
    requires !Drain(a, mac).failed
    ensures var p := Drain(a, mac);
            var q := Drain(p.rest + b, mac);
            Drain(a + b, mac) == Progress(p.out + q.out, q.rest, q.failed)
    decreases |a|
  {
    DecodeMore(a, [], mac);
    DecodeMore(a, b, mac);
    hide Decode;
    match Decode(a, mac)
    case Partial =>
      var q := Drain(a + b, mac);
      assert [] + q.out == q.out;
    case Got(e, used) =>
      assert (a + b)[used..] == a[used..] + b;
      DrainMore(a[used..], b, mac);
      var p := Drain(a[used..], mac);
      var q := Drain(p.rest + b, mac);
      assert [e] + (p.out + q.out) == [e] + p.out + q.out;
  }

  function Stream(es: seq<Envelope>, mac: Mac): seq<byte> {
    if es == [] then [] else Encode(es[0], mac) + Stream(es[1..], mac)
  }

  /** How many of the envelopes have arrived in full after `n` bytes. */
  ghost function Arrived(es: seq<Envelope>, mac: Mac, n: nat): (k: nat)
    ensures k <= |es|
  {
    if es == [] || n < |Encode(es[0], mac)| then 0 else 1 + Arrived(es[1..], mac, n - |Encode(es[0], mac)|)
  }

  lemma {:induction false} DrainStream(es: seq<Envelope>, mac: Mac, n: nat)
    requires MacOk(mac) && (forall i :: 0 <= i < |es| ==> EnvelopeOk(es[i])) && n <= |Stream(es, mac)|
    ensures var p := Drain(Stream(es, mac)[..n], mac);
            !p.failed && p.out == es[..Arrived(es, mac, n)]
    decreases |es|
  {
    hide Decode, Encode, EnvelopeOk;
    if es == [] {
      EmptyBuffer(mac);
    } else {
      var f, more := Encode(es[0], mac), Stream(es[1..], mac);
      var s := Stream(es, mac);
      if n < |f| {
        assert s[..n] == f[..n];
        FrameCut(es[0], mac, n);
      } else {
        assert s[..n] == f + more[..n - |f|];
        FrameRoundTrip(es[0], mac, more[..n - |f|]);
        assert (f + more[..n - |f|])[|f|..] == more[..n - |f|];
        DrainStream(es[1..], mac, n - |f|);
        var k := Arrived(es[1..], mac, n - |f|);
        assert es[..1 + k] == [es[0]] + es[1..][..k];
      }
    }
  }

  lemma EmptyBuffer(mac: Mac)
    ensures Decode([], mac) == Partial
  {
  }

  function Joined(chunks: seq<seq<byte>>): seq<byte> {
    if chunks == [] then [] else Joined(chunks[..|chunks| - 1]) + chunks[|chunks| - 1]
  }

  /** What a connection does with a sequence of reads, stopping at the first error. */
  ghost function Fed(chunks: seq<seq<byte>>, mac: Mac): Progress {
    if chunks == [] then Progress([], [], false)
    else
      var p := Fed(chunks[..|chunks| - 1], mac);
      if p.failed then p else
      var q := Drain(p.rest + chunks[|chunks| - 1], mac);
      Progress(p.out + q.out, q.rest, q.failed)
  }

  lemma {:induction false} FedIsDrained(chunks: seq<seq<byte>>, mac: Mac)
    requires !Drain(Joined(chunks), mac).failed
    ensures Fed(chunks, mac) == Drain(Joined(chunks), mac)
    decreases |chunks|
  {
    hide Decode;
    if chunks == [] {
      EmptyBuffer(mac);
    } else {
      var init, last := chunks[..|chunks| - 1], chunks[|chunks| - 1];
      NeverEarly(Joined(init), last, mac);
      FedIsDrained(init, mac);
      DrainMore(Joined(init), last, mac);
    }
  }

  /** If the whole is read without error, so is every beginning of it. */
  lemma {:induction false} NeverEarly(a: seq<byte>, b: seq<byte>, mac: Mac)
    requires !Drain(a + b, mac).failed
    ensures !Drain(a, mac).failed
    decreases |a|
  {
    DecodeMore(a, [], mac);
    DecodeMore(a, b, mac);
    hide Decode;
    match Decode(a, mac)
    case Got(e, used) =>
      assert (a + b)[used..] == a[used..] + b;
      NeverEarly(a[used..], b, mac);
    case _ =>
  }

  /**
    However the bytes of a sequence of envelopes are cut into reads, the connection hands
    over exactly the envelopes that have arrived in full, in order, and never fails.
  */
  lemma AnyChunking(es: seq<Envelope>, mac: Mac, chunks: seq<seq<byte>>)
    requires MacOk(mac) && forall i :: 0 <= i < |es| ==> EnvelopeOk(es[i])
    requires Joined(chunks) <= Stream(es, mac)
    ensures var p := Fed(chunks, mac);
            !p.failed && p.out == es[..Arrived(es, mac, |Joined(chunks)|)]
  {
    hide *;
    var n := |Joined(chunks)|;
    assert Stream(es, mac)[..n] == Joined(chunks);
    DrainStream(es, mac, n);
    FedIsDrained(chunks, mac);
  }
}
