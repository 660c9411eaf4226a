/** What reading a journal guarantees: the records written, exactly the whole ones before a tear, no corruption. */
module JournalRecovery {
  import opened Binary
  import opened Journal
  import Crc32c

  predicate WellFormed(rs: seq<Record>, limits: Limits) {
    (forall r :: r in rs ==> Writable(r, limits)) && |rs| <= RecordCap(limits)
  }

  // ---- one frame -------------------------------------------------------------------------------

  /** Where the reader finds the parts of a frame. */
  lemma FrameParts(kr: seq<byte>, crc: seq<byte>, payload: seq<byte>, rest: seq<byte>)
    requires |kr| == 4 && |crc| == 4
    ensures var bytes := Frame(kr, crc, payload) + rest;
            && |Frame(kr, crc, payload)| == RECORD_HEADER + |payload|
            && bytes[..2] == kr[..2] && bytes[4..8] == LittleEndian(4, |payload|)
            && bytes[..8] == Lead(kr, |payload|) && bytes[8..12] == crc
            && bytes[RECORD_HEADER..RECORD_HEADER + |payload|] == payload
            && bytes[RECORD_HEADER + |payload|..] == rest
  {
    hide LittleEndian;
  }

  lemma KindRoundTrip(kind: nat)
    requires kind < 0x1_0000
    ensures |KindBytes(kind)| == 4 && FromLittleEndian(KindBytes(kind)[..2]) == kind
  {
    Widths();
    LittleEndianRoundTrip(2, kind);
    assert KindBytes(kind)[..2] == LittleEndian(2, kind);
  }

  lemma LengthRoundTrip(length: nat)
    requires length < 0x1_0000_0000
    ensures FromLittleEndian(LittleEndian(4, length)) == length
  {
    Widths();
    LittleEndianRoundTrip(4, length);
  }

  /** Reading a frame: its kind, its length and its checksum decide, in that order. */
  lemma ReadFrame(kr: seq<byte>, crc: seq<byte>, payload: seq<byte>, rest: seq<byte>, limits: Limits, full: bool)
    requires |kr| == 4 && |crc| == 4 && |payload| < 0x1_0000_0000
    ensures ReadNext(Frame(kr, crc, payload) + rest, limits, full) ==
      var kind := FromLittleEndian(kr[..2]);
      if !KnownKind(kind) then Bad(FormatMismatch)
      else if |payload| > MaxPayload(limits) then Bad(LimitExceeded)
      else if Crc32c.Checksum(Lead(kr, |payload|) + payload) != Crc32c.Word(crc) then Bad(IntegrityFailure)
      else if full then Bad(LimitExceeded)
      else Found(Record(kind, payload), RECORD_HEADER + |payload|)
  {
    hide LittleEndian, FromLittleEndian, Frame, Lead, Crc32c.Checksum, Crc32c.Word;
    FrameParts(kr, crc, payload, rest);
    LengthRoundTrip(|payload|);
  }

  lemma ReadWritten(r: Record, rest: seq<byte>, limits: Limits)
    requires Writable(r, limits)
    ensures ReadNext(EncodeRecord(r) + rest, limits, false) == Found(r, |EncodeRecord(r)|)
    ensures (EncodeRecord(r) + rest)[|EncodeRecord(r)|..] == rest
  {
    hide LittleEndian, FromLittleEndian, Crc32c.Checksum, Crc32c.Word, CrcBytes, KindBytes;
    KindRoundTrip(r.kind);
    var crc := Crc32c.Checksum(Lead(KindBytes(r.kind), |r.payload|) + r.payload);
    CrcBytesRoundTrip(crc);
    ReadFrame(KindBytes(r.kind), CrcBytes(crc), r.payload, rest, limits, false);
    FrameParts(KindBytes(r.kind), CrcBytes(crc), r.payload, rest);
  }

  /** A record cut anywhere inside is torn, never corrupt and never another record. */
  lemma ReadCut(r: Record, cut: nat, limits: Limits, full: bool)
    requires Writable(r, limits) && 0 < cut < |EncodeRecord(r)|
    ensures ReadNext(EncodeRecord(r)[..cut], limits, full) == Torn
  {
    hide LittleEndian, FromLittleEndian, Crc32c.Checksum, Crc32c.Word, CrcBytes, KindBytes;
    KindRoundTrip(r.kind);
    LengthRoundTrip(|r.payload|);
    var bytes := EncodeRecord(r);
    var crc := CrcBytes(Crc32c.Checksum(Lead(KindBytes(r.kind), |r.payload|) + r.payload));
    FrameParts(KindBytes(r.kind), crc, r.payload, []);
    assert bytes + [] == bytes;
    if cut >= RECORD_HEADER {
      assert bytes[..cut][..2] == bytes[..2] && bytes[..cut][4..8] == bytes[4..8];
    }
  }

  // ---- whole journals ----------------------------------------------------------------------------

  /** How many records lie wholly before the cut. */
  function WholeBefore(rs: seq<Record>, cut: nat): (k: nat)
    ensures k <= |rs|
  {
    if rs == [] || cut < |EncodeRecord(rs[0])| then 0
    else 1 + WholeBefore(rs[1..], cut - |EncodeRecord(rs[0])|)
  }

  predicate OnBoundary(rs: seq<Record>, cut: nat) {
    cut == 0 || (rs != [] && cut >= |EncodeRecord(rs[0])| && OnBoundary(rs[1..], cut - |EncodeRecord(rs[0])|))
  }

  /** The boundary and the count mean what they say about the bytes. */
  lemma {:induction false} WholeBeforeMeaning(rs: seq<Record>, cut: nat)
    requires cut <= |EncodeAll(rs)|
    ensures var k := WholeBefore(rs, cut);
            && |EncodeAll(rs[..k])| <= cut
            && (k < |rs| ==> cut < |EncodeAll(rs[..k + 1])|)
            && (OnBoundary(rs, cut) <==> cut == |EncodeAll(rs[..k])|)
  {
    hide EncodeRecord;
    if rs != [] {
      var size := |EncodeRecord(rs[0])|;
      assert rs[..0] == [] && EncodeAll([]) == [];
      assert rs[..1][1..] == [] && EncodeAll(rs[..1]) == EncodeRecord(rs[0]) + EncodeAll(rs[..1][1..]);
      EncodeAllAppend([], rs[0]);
      if cut >= size {
        WholeBeforeMeaning(rs[1..], cut - size);
        var k := WholeBefore(rs[1..], cut - size);
        assert rs[..k + 1][1..] == rs[1..][..k];
        if k + 1 < |rs| {
          assert rs[..k + 2][1..] == rs[1..][..k + 1];
        }
      }
    }
  }

  lemma {:induction false} ParseAfter(rs: seq<Record>, rest: seq<byte>, torn: TornTail, limits: Limits, count: nat)
    requires (forall r :: r in rs ==> Writable(r, limits)) && count + |rs| <= RecordCap(limits)
    ensures Parse(EncodeAll(rs) + rest, torn, limits, count) == Prepend(rs, Parse(rest, torn, limits, count + |rs|))
    decreases |rs|
  {
    hide EncodeRecord, ReadNext, Writable;
    if rs == [] {
      assert [] + rest == rest;
      PrependNothing(Parse(rest, torn, limits, count));
    } else {
      var tail := EncodeAll(rs[1..]) + rest;
      assert EncodeAll(rs) + rest == EncodeRecord(rs[0]) + tail;
      ReadWritten(rs[0], tail, limits);
      ParseAfter(rs[1..], rest, torn, limits, count + 1);
      PrependTwice([rs[0]], rs[1..], Parse(rest, torn, limits, count + |rs|));
      assert [rs[0]] + rs[1..] == rs;
    }
  }

  /** What was written is what is read back. */
  lemma JournalRoundTrip(rs: seq<Record>, torn: TornTail, limits: Limits)
    requires WellFormed(rs, limits)
    ensures Parse(EncodeAll(rs), torn, limits, 0) == Ok(rs)
  {
    hide ReadNext, Writable, EncodeAll;
    ParseAfter(rs, [], torn, limits, 0);
    assert EncodeAll(rs) + [] == EncodeAll(rs);
    assert Parse([], torn, limits, |rs|) == Ok([]) by { ParseNothing(torn, limits, |rs|); }
    assert rs + [] == rs;
  }

  lemma ParseNothing(torn: TornTail, limits: Limits, count: nat)
    ensures Parse([], torn, limits, count) == Ok([])
  {
  }

  lemma CutBytes(rs: seq<Record>, cut: nat)
    requires cut <= |EncodeAll(rs)|
    ensures var k := WholeBefore(rs, cut);
            var whole := |EncodeAll(rs[..k])|;
            && whole <= cut && (k < |rs| ==> cut - whole < |EncodeRecord(rs[k])|)
            && EncodeAll(rs)[..cut] == EncodeAll(rs[..k]) + (if k < |rs| then EncodeRecord(rs[k])[..cut - whole] else [])
  {
    hide EncodeRecord;
    WholeBeforeMeaning(rs, cut);
    var k := WholeBefore(rs, cut);
    EncodeAllSplit(rs, k);
    if k < |rs| {
      EncodeAllAppend(rs[..k], rs[k]);
      assert rs[..k + 1] == rs[..k] + [rs[k]];
      EncodeAllSplit(rs, k + 1);
    } else {
      assert rs[..k] == rs;
    }
  }

  lemma {:induction false} EncodeAllSplit(rs: seq<Record>, k: nat)
    requires k <= |rs|
    ensures EncodeAll(rs) == EncodeAll(rs[..k]) + EncodeAll(rs[k..])
  {
    hide EncodeRecord;
    if k == 0 {
      assert rs[..0] == [] && rs[0..] == rs;
      assert [] + EncodeAll(rs) == EncodeAll(rs);
    } else {
      EncodeAllSplit(rs[1..], k - 1);
      assert rs[..k][1..] == rs[1..][..k - 1] && rs[1..][k - 1..] == rs[k..];
    }
  }

  /**
   * A journal created in this process does not count its own 64-byte header against the bound when it writes, and
   * does when it reads: it comes back exactly when the header fits as well, and refuses what it accepted otherwise.
   */
  method AppendThenRead(rs: seq<Record>, torn: TornTail, limits: Limits) returns (written: Result<nat>, read: Result<seq<Record>>)
    requires WellFormed(rs, limits)
    ensures written.Ok? <==> |EncodeAll(rs)| <= limits.maxJournalBytes
    ensures written.Ok? ==>
              read == if |EncodeAll(rs)| + 64 <= limits.maxJournalBytes then Ok(rs) else Err(LimitExceeded)
  {
    hide EncodeAll, Parse;
    assert FirstOversize(rs, limits) == |rs| by {
      assert forall k :: 0 <= k < |rs| ==> Writable(rs[k], limits);
    }
    var journal := new Journal(limits, torn, [], 0);
    written := journal.Append(rs);
    assert rs[..|rs|] == rs && [] + EncodeAll(rs) == EncodeAll(rs);
    JournalRoundTrip(rs, torn, limits);
    read := journal.ReadAll();
  }

  /** Twelve bytes fit a bound of twelve when they are written, and not when they are read. */
  method FullJournalRefused(torn: TornTail) returns (written: Result<nat>, read: Result<seq<Record>>)
    ensures written == Ok(12) && read == Err(LimitExceeded)
  {
    var limits := Limits(12, 1, 1);
    var empty := Record(8, []);
    assert EncodeAll([empty]) == EncodeRecord(empty) by { EncodeAllAppend([], empty); assert [] + [empty] == [empty]; }
    assert |EncodeRecord(empty)| == 12;
    var journal := new Journal(limits, torn, [], 0);
    written := journal.Append([empty]);
    read := journal.ReadAll();
  }

  /**
   * A log cut at any byte. Truncating recovery returns precisely the records that lie wholly before the cut;
   * strict recovery returns the same when the cut falls on a record boundary and refuses the log otherwise.
   */
  lemma TornTailRecovery(rs: seq<Record>, cut: nat, limits: Limits)
    requires WellFormed(rs, limits) && cut <= |EncodeAll(rs)|
    ensures var whole := rs[..WholeBefore(rs, cut)];
            && Parse(EncodeAll(rs)[..cut], TruncateTornTail, limits, 0) == Ok(whole)
            && Parse(EncodeAll(rs)[..cut], Reject, limits, 0) ==
                 if OnBoundary(rs, cut) then Ok(whole) else Err(TruncatedRecord)
  {
    hide ReadNext, Writable, EncodeAll, EncodeRecord, WholeBefore;
    CutBytes(rs, cut);
    WholeBeforeMeaning(rs, cut);
    var k := WholeBefore(rs, cut);
    var part := if k < |rs| then EncodeRecord(rs[k])[..cut - |EncodeAll(rs[..k])|] else [];
    ParseAfter(rs[..k], part, TruncateTornTail, limits, 0);
    ParseAfter(rs[..k], part, Reject, limits, 0);
    assert rs[..k] + [] == rs[..k];
    if part == [] {
      ParseNothing(TruncateTornTail, limits, k);
      ParseNothing(Reject, limits, k);
    } else {
      ReadCut(rs[k], |part|, limits, k >= RecordCap(limits));
    }
    assert |EncodeAll(rs)[..cut]| == cut;
  }

  // ---- corruption ----------------------------------------------------------------------------------

  /** Two byte strings of one length that differ only inside four consecutive bytes. */
  ghost predicate DifferInBurst(a: seq<byte>, b: seq<byte>) {
    a != b && |a| == |b| && exists i, j :: 0 <= i <= j <= i + 4 && j <= |a| && a[..i] == b[..i] && a[j..] == b[j..]
  }

  lemma Regroup<T>(before: seq<T>, a: seq<T>, i: nat, j: nat, after: seq<T>)
    requires i <= j <= |a|
    ensures before + a + after == (before + a[..i]) + a[i..j] + (a[j..] + after)
    ensures a == a[..i] + a[i..j] + a[j..]
  {
  }

  lemma BurstChangesChecksum(before: seq<byte>, a: seq<byte>, b: seq<byte>, after: seq<byte>)
    requires DifferInBurst(a, b)
    ensures Crc32c.Checksum(before + a + after) != Crc32c.Checksum(before + b + after)
  {
    hide Crc32c.Checksum;
    var i, j :| 0 <= i <= j <= i + 4 && j <= |a| && a[..i] == b[..i] && a[j..] == b[j..];
    Regroup(before, a, i, j, after);
    Regroup(before, b, i, j, after);
    Crc32c.BurstDetected(before + a[..i], a[i..j], b[i..j], a[j..] + after);
  }

  /** A frame whose checked bytes and checksum disagree makes the read fail, whatever follows it. */
  lemma BadFrameFails(pre: seq<Record>, kr: seq<byte>, crc: seq<byte>, payload: seq<byte>, suffix: seq<byte>,
                      torn: TornTail, limits: Limits)
    requires (forall r :: r in pre ==> Writable(r, limits)) && |pre| <= RecordCap(limits)
    requires |kr| == 4 && |crc| == 4 && |payload| < 0x1_0000_0000
    requires Crc32c.Checksum(Lead(kr, |payload|) + payload) != Crc32c.Word(crc)
    ensures Parse(EncodeAll(pre) + (Frame(kr, crc, payload) + suffix), torn, limits, 0).Err?
  {
    hide Writable, EncodeAll, Frame, Crc32c.Checksum, Crc32c.Word, ReadNext;
    ParseAfter(pre, Frame(kr, crc, payload) + suffix, torn, limits, 0);
    ReadFrame(kr, crc, payload, suffix, limits, |pre| >= RecordCap(limits));
  }

  /**
   * Corruption is never read as data. Take any record in any journal and change its kind and reserved bytes
   * in any way, or any four consecutive payload bytes, or its checksum in any way: reading fails, under
   * either torn-tail policy and whatever the rest of the file holds.
   */
  lemma CorruptionDetected(pre: seq<Record>, r: Record, kr: seq<byte>, crc: seq<byte>, payload: seq<byte>,
                           suffix: seq<byte>, torn: TornTail, limits: Limits)
    requires WellFormed(pre, limits) && Writable(r, limits)
    requires |kr| == 4 && |crc| == 4 && |payload| == |r.payload|
    requires var was := CrcBytes(Crc32c.Checksum(Lead(KindBytes(r.kind), |r.payload|) + r.payload));
             || (kr != KindBytes(r.kind) && payload == r.payload && crc == was)
             || (kr == KindBytes(r.kind) && DifferInBurst(payload, r.payload) && crc == was)
             || (kr == KindBytes(r.kind) && payload == r.payload && crc != was)
    ensures Parse(EncodeAll(pre) + (Frame(kr, crc, payload) + suffix), torn, limits, 0).Err?
  {
    hide EncodeAll, Frame, Crc32c.Checksum, Crc32c.Word, CrcBytes, KindBytes, LittleEndian, FromLittleEndian, Parse;
    KindRoundTrip(r.kind);
    var length := LittleEndian(4, |payload|);
    var sum := Crc32c.Checksum(Lead(KindBytes(r.kind), |r.payload|) + r.payload);
    CrcBytesRoundTrip(sum);
    if kr != KindBytes(r.kind) {
      Crc32c.BurstDetected([], kr, KindBytes(r.kind), length + payload);
      assert [] + kr + (length + payload) == Lead(kr, |payload|) + payload;
      assert [] + KindBytes(r.kind) + (length + payload) == Lead(KindBytes(r.kind), |payload|) + payload;
    } else if payload != r.payload {
      BurstChangesChecksum(Lead(kr, |payload|), payload, r.payload, []);
      assert Lead(kr, |payload|) + payload + [] == Lead(kr, |payload|) + payload;
      assert Lead(kr, |payload|) + r.payload + [] == Lead(kr, |payload|) + r.payload;
    } else if Crc32c.Word(crc) == sum {
      Crc32c.WordInjective(crc, CrcBytes(sum));
    }
    BadFrameFails(pre, kr, crc, payload, suffix, torn, limits);
  }
}
