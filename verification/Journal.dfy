/** The append-only record log: framing, torn tails and corruption. The file is its bytes after the header. */
module Journal {
  import opened Binary
  import Crc32c

  const RECORD_HEADER: nat := 12

  datatype Record = Record(kind: nat, payload: seq<byte>)

  datatype TornTail = Reject | TruncateTornTail

  datatype Error = TruncatedRecord | FormatMismatch | LimitExceeded | IntegrityFailure

  datatype Result<+T> = Ok(value: T) | Err(error: Error)

  datatype Limits = Limits(maxJournalBytes: nat, maxFrameBytes: nat, maxResultSet: nat)

  function MaxPayload(limits: Limits): nat {
    limits.maxFrameBytes * 16
  }

  function RecordCap(limits: Limits): nat {
    limits.maxResultSet * 1024 + 1024
  }

  predicate KnownKind(kind: nat) {
    1 <= kind <= 8
  }

  /** Records the writer accepts. */
  predicate Writable(r: Record, limits: Limits) {
    KnownKind(r.kind) && |r.payload| <= MaxPayload(limits) && |r.payload| < 0x1_0000_0000
  }

  // ---- framing -------------------------------------------------------------------------------

  /** The eight header bytes the checksum covers: kind, reserved, payload length. */
  function Lead(kindAndReserved: seq<byte>, length: nat): seq<byte> {
    kindAndReserved + LittleEndian(4, length)
  }

  function KindBytes(kind: nat): seq<byte> {
    LittleEndian(2, kind) + LittleEndian(2, 0)
  }

  /** A 32-bit checksum as its four bytes. */
  function CrcBytes(c: bv32): (bytes: seq<byte>)
    ensures |bytes| == 4
  {
    [Crc32c.LowByte(c), Crc32c.LowByte(Crc32c.High(c)), Crc32c.LowByte(Crc32c.High(Crc32c.High(c))),
     Crc32c.LowByte(Crc32c.High(Crc32c.High(Crc32c.High(c))))]
  }

  lemma FourBytes(c: bv32)
    ensures
      var h := Crc32c.High(c);
      var hh := Crc32c.High(h);
      var hhh := Crc32c.High(hh);
      Crc32c.Xor(Crc32c.Low(c), Crc32c.Raise(Crc32c.Xor(Crc32c.Low(h), Crc32c.Raise(
        Crc32c.Xor(Crc32c.Low(hh), Crc32c.Raise(Crc32c.Xor(Crc32c.Low(hhh), Crc32c.Raise(0)))))))) == c
  {
  }

  lemma CrcBytesRoundTrip(c: bv32)
    ensures Crc32c.Word(CrcBytes(c)) == c
  {
    FourBytes(c);
    hide Crc32c.High, Crc32c.Low, Crc32c.LowByte, Crc32c.Xor, Crc32c.Raise, Crc32c.Widen;
    var h := Crc32c.High(c);
    var hh := Crc32c.High(h);
    var hhh := Crc32c.High(hh);
    Crc32c.LowByteWidens(c);
    Crc32c.LowByteWidens(h);
    Crc32c.LowByteWidens(hh);
    Crc32c.LowByteWidens(hhh);
    var b := CrcBytes(c);
    assert b[1..][1..][1..][1..] == [];
    assert Crc32c.Word(b[1..][1..][1..]) == Crc32c.Xor(Crc32c.Widen(b[3]), Crc32c.Raise(0));
    assert Crc32c.Word(b[1..][1..]) == Crc32c.Xor(Crc32c.Widen(b[2]), Crc32c.Raise(Crc32c.Word(b[1..][1..][1..])));
  }

  /** A frame with any kind, reserved and checksum bytes. */
  function Frame(kindAndReserved: seq<byte>, crc: seq<byte>, payload: seq<byte>): seq<byte> {
    Lead(kindAndReserved, |payload|) + crc + payload
  }

  function EncodeRecord(r: Record): seq<byte> {
    Frame(KindBytes(r.kind), CrcBytes(Crc32c.Checksum(Lead(KindBytes(r.kind), |r.payload|) + r.payload)), r.payload)
  }

  function EncodeAll(rs: seq<Record>): seq<byte> {
    if rs == [] then [] else EncodeRecord(rs[0]) + EncodeAll(rs[1..])
  }

  // ---- reading ---------------------------------------------------------------------------------

  /** What one read at the cursor finds. */
  datatype Next = End | Torn | Bad(error: Error) | Found(record: Record, size: nat)

  function ReadNext(bytes: seq<byte>, limits: Limits, full: bool): (n: Next)
    ensures n.Found? ==> RECORD_HEADER <= n.size <= |bytes|
  {
    if bytes == [] then End
    else if |bytes| < RECORD_HEADER then Torn
    else
      var kind := FromLittleEndian(bytes[..2]);
      var length := FromLittleEndian(bytes[4..8]);
      if !KnownKind(kind) then Bad(FormatMismatch)
      else if length > MaxPayload(limits) then Bad(LimitExceeded)
      else if |bytes| - RECORD_HEADER < length then Torn
      else
        var payload := bytes[RECORD_HEADER..RECORD_HEADER + length];
        if Crc32c.Checksum(bytes[..8] + payload) != Crc32c.Word(bytes[8..12]) then Bad(IntegrityFailure)
        else if full then Bad(LimitExceeded)
        else Found(Record(kind, payload), RECORD_HEADER + length)
  }

  function AtTear(torn: TornTail): Result<seq<Record>> {
    if torn == Reject then Err(TruncatedRecord) else Ok([])
  }

  /** Every record from the cursor on; `count` records were read before it. */
  function Parse(bytes: seq<byte>, torn: TornTail, limits: Limits, count: nat): Result<seq<Record>>
    decreases |bytes|
  {
    match ReadNext(bytes, limits, count >= RecordCap(limits))
    case End => Ok([])
    case Torn => AtTear(torn)
    case Bad(e) => Err(e)
    case Found(r, size) => Prepend([r], Parse(bytes[size..], torn, limits, count + 1))
  }

  function Prepend(rs: seq<Record>, rest: Result<seq<Record>>): Result<seq<Record>> {
    if rest.Ok? then Ok(rs + rest.value) else rest
  }

  /** The first record whose payload is over the bound, or the number of records. */
  function FirstOversize(records: seq<Record>, limits: Limits): (k: nat)
    ensures k <= |records|
    ensures forall i :: 0 <= i < k ==> |records[i].payload| <= MaxPayload(limits)
    ensures k < |records| ==> |records[k].payload| > MaxPayload(limits)
  {
    if records == [] || |records[0].payload| > MaxPayload(limits) then 0
    else 1 + FirstOversize(records[1..], limits)
  }

  class Journal {
    const limits: Limits
    const torn: TornTail
    /** The file after its 64-byte header. */
    var file: seq<byte>
    /** The size the writer believes the file has; a journal created in this process starts from zero. */
    var believedSize: nat
    var recordCount: nat

    constructor (limits: Limits, torn: TornTail, file: seq<byte>, believedSize: nat)
      ensures this.limits == limits && this.torn == torn && this.file == file && this.believedSize == believedSize
    {
      this.limits, this.torn, this.file, this.believedSize, recordCount := limits, torn, file, believedSize, 0;
    }

    /**
     * Appends whole records. The size bound is checked before anything is written; a payload over its own
     * bound stops the write, leaving the records before it in the file but not in the believed size.
     */
    method Append(records: seq<Record>) returns (r: Result<nat>)
      modifies this`file, this`believedSize, this`recordCount
      ensures old(believedSize) + |EncodeAll(records)| > limits.maxJournalBytes ==>
                r == Err(LimitExceeded) && file == old(file) && believedSize == old(believedSize)
      ensures old(believedSize) + |EncodeAll(records)| <= limits.maxJournalBytes ==>
                var k := FirstOversize(records, limits);
                && file == old(file) + EncodeAll(records[..k])
                && r == (if k == |records| then Ok(|EncodeAll(records)|) else Err(LimitExceeded))
                && believedSize == old(believedSize) + (if k == |records| then |EncodeAll(records)| else 0)
    {
      hide EncodeRecord, MaxPayload;
      var pending := 0;
      for i := 0 to |records|
        invariant pending == |EncodeAll(records[..i])|
        invariant file == old(file) && believedSize == old(believedSize)
      {
        EncodeAllAppend(records[..i], records[i]);
        assert records[..i + 1] == records[..i] + [records[i]];
        pending := pending + RECORD_HEADER + |records[i].payload|;
      }
      assert records[..|records|] == records;
      if believedSize + pending > limits.maxJournalBytes {
        return Err(LimitExceeded);
      }
      assert records[..0] == [] && file + [] == file;
      for i := 0 to |records|
        invariant file == old(file) + EncodeAll(records[..i]) && believedSize == old(believedSize)
        invariant i <= FirstOversize(records, limits)
      {
        if |records[i].payload| > MaxPayload(limits) {
          return Err(LimitExceeded);
        }
        EncodeAllAppend(records[..i], records[i]);
        assert records[..i + 1] == records[..i] + [records[i]];
        file := file + EncodeRecord(records[i]);
        recordCount := recordCount + 1;
      }
      believedSize := believedSize + pending;
      return Ok(pending);
    }

    method ReadAll() returns (r: Result<seq<Record>>)
      ensures r == if |file| + 64 > limits.maxJournalBytes then Err(LimitExceeded) else Parse(file, torn, limits, 0)
    {
      if |file| + 64 > limits.maxJournalBytes {
        return Err(LimitExceeded);
      }
      hide ReadNext;
      var out: seq<Record> := [];
      var position := 0;
      assert file[0..] == file;
      PrependNothing(Parse(file, torn, limits, 0));
      while true
        invariant position <= |file|
        invariant Parse(file, torn, limits, 0) == Prepend(out, Parse(file[position..], torn, limits, |out|))
        decreases |file| - position
      {
        match ReadNext(file[position..], limits, |out| >= RecordCap(limits)) {
          case End =>
            assert out + [] == out;
            return Ok(out);
          case Torn =>
            if torn == Reject {
              return Err(TruncatedRecord);
            }
            assert out + [] == out;
            return Ok(out);
          case Bad(e) => return Err(e);
          case Found(record, size) =>
            assert file[position..][size..] == file[position + size..];
            PrependTwice(out, [record], Parse(file[position + size..], torn, limits, |out| + 1));
            out := out + [record];
            position := position + size;
        }
      }
    }
  }

  lemma PrependNothing(rest: Result<seq<Record>>)
    ensures Prepend([], rest) == rest
  {
    if rest.Ok? {
      assert [] + rest.value == rest.value;
    }
  }

  lemma PrependTwice(a: seq<Record>, b: seq<Record>, rest: Result<seq<Record>>)
    ensures Prepend(a, Prepend(b, rest)) == Prepend(a + b, rest)
  {
    if rest.Ok? {
      assert a + (b + rest.value) == (a + b) + rest.value;
    }
  }

  lemma {:induction false} EncodeAllAppend(rs: seq<Record>, r: Record)
    ensures EncodeAll(rs + [r]) == EncodeAll(rs) + EncodeRecord(r)
    ensures |EncodeRecord(r)| == RECORD_HEADER + |r.payload|
  {
    hide Crc32c.Checksum, CrcBytes;
    if rs == [] {
      assert [r][1..] == [];
      assert [] + [r] == [r];
    } else {
      EncodeAllAppend(rs[1..], r);
      assert (rs + [r])[1..] == rs[1..] + [r];
    }
  }
}
