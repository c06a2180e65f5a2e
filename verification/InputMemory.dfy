/** What the machine finds in its memory when it is started on an input or a query. */
module InputMemory {
  import opened Bits
  import opened Hashing
  import opened Abi
  import opened RemoteMachine
  import opened Session
  import opened OwnerLock
  import opened Transparency

  predicate Apart(start: nat, length: nat, start': nat, length': nat) {
    start + length <= start' || start' + length' <= start
  }

  /** What is written for an input, up to the whole rx buffer and 160 bytes of metadata, keeps
      clear of what else is written and of both hashes ranges.  The hashes ranges may overlap
      each other, and the metadata's fourth word: the session accepts no epoch index but zero. */
  predicate RangesApart(cfg: Config) {
    var rx, im, vh, nh := cfg.rxBuffer, cfg.inputMetadata, cfg.hashes.voucher, cfg.hashes.notice;
    && Apart(rx.start, rx.length, im.start, EVM_ABI_INPUT_METADATA_LENGTH)
    && Apart(rx.start, rx.length, vh.start, vh.length) && Apart(rx.start, rx.length, nh.start, nh.length)
    && MetadataApart(im.start, vh) && MetadataApart(im.start, nh)
  }

  predicate MetadataApart(start: nat, hashes: Range) {
    Apart(start, 96, hashes.start, hashes.length) && Apart(start + 128, 32, hashes.start, hashes.length)
  }

  /** What AdvanceState accepts of an input, whatever the session: the epoch index is zero, and
      the payload is a string a vector can hold and the buffer has room for. */
  predicate Acceptable(cfg: Config, input: Input) {
    input.metadata.epochIndex == 0 && PayloadFits(cfg, input.payload) && |input.payload| < UINT64_LIMIT
  }

  /** Writing leaves the bytes elsewhere alone. */
  lemma WritesElsewhere(memory: seq<Byte>, at: nat, data: seq<Byte>, start: nat, length: nat)
    requires Apart(at, |data|, start, length)
    ensures ReadBytes(WriteBytes(memory, at, data), start, length) == ReadBytes(memory, start, length)
  {
    var after := WriteBytes(memory, at, data);
    assert forall a: nat :: a < at || a >= at + |data| ==> ByteAt(after, a) == ByteAt(memory, a);
  }

  /** Memory and flags after the eight preparation requests. */
  lemma PreparedIs(cfg: Config, m: Machine, input: Input)
    requires |input.payload| < UINT64_LIMIT
    ensures var cleared := ClearRange(ClearRange(ClearRange(ClearRange(m.memory, cfg.rxBuffer), cfg.inputMetadata),
                                                 cfg.hashes.voucher), cfg.hashes.notice);
            var written := WriteBytes(cleared, cfg.rxBuffer.start, AbiString(input.payload));
            Round(cfg, m, input, 0) ==
            m.(memory := WriteBytes(written, cfg.inputMetadata.start, EncodedMetadata(input.metadata)), iflagsY := false)
  {
    hide WriteBytes, ClearRange, AbiString, EncodedMetadata;
    assert Prepared(cfg, m, input, 0) == m;
    assert Prepared(cfg, m, input, 1) == Prepare(cfg, Prepared(cfg, m, input, 0), input, 0);
    assert Prepared(cfg, m, input, 2) == Prepare(cfg, Prepared(cfg, m, input, 1), input, 1);
    assert Prepared(cfg, m, input, 3) == Prepare(cfg, Prepared(cfg, m, input, 2), input, 2);
    assert Prepared(cfg, m, input, 4) == Prepare(cfg, Prepared(cfg, m, input, 3), input, 3);
    assert Prepared(cfg, m, input, 5) == Prepare(cfg, Prepared(cfg, m, input, 4), input, 4);
    assert Prepared(cfg, m, input, 6) == Prepare(cfg, Prepared(cfg, m, input, 5), input, 5);
    assert Prepared(cfg, m, input, 7) == Prepare(cfg, Prepared(cfg, m, input, 6), input, 6);
    assert Prepared(cfg, m, input, 8) == Prepare(cfg, Prepared(cfg, m, input, 7), input, 7);
  }

  /** The hypotheses on `run` can be met by a machine that accepts its inputs. */
  lemma AcceptorAccepts(cfg: Config, m: Machine, input: Input)
    requires |input.payload| < UINT64_LIMIT && !m.iflagsH && m.mcycle + 1 < Budget(cfg, m)
    ensures StopsAndCounts(Acceptor) && Resumes(Acceptor)
    ensures var c := cfg.(run := Acceptor); Accepts(c, m, input, 0) && Outcome(c, m, input).mcycle == m.mcycle + 1
  {
    var c := cfg.(run := Acceptor);
    PreparedIs(c, m, input);
    hide Prepared, WriteBytes, ClearRange, AbiString, EncodedMetadata;
    SomeMachineRuns();
    assert Round(c, m, input, 1) == Acceptor(Round(c, m, input, 0), Budget(c, m));
    OutcomeIs(c, m, input, 0);
  }

  lemma WrittenByte(memory: seq<Byte>, at: nat, data: seq<Byte>, a: nat)
    ensures ByteAt(WriteBytes(memory, at, data), a) == if at <= a < at + |data| then data[a - at] else ByteAt(memory, a)
  {
    if at <= a < at + |data| {
      assert ReadBytes(WriteBytes(memory, at, data), at, |data|)[a - at] == data[a - at];
    }
  }

  /** Writing zeros leaves zeros. */
  lemma ZerosStay(memory: seq<Byte>, r: Range, start: nat, length: nat)
    requires AllZero(ReadBytes(memory, start, length))
    ensures AllZero(ReadBytes(ClearRange(memory, r), start, length))
  {
    hide WriteBytes;
    var after := ReadBytes(ClearRange(memory, r), start, length);
    forall j: nat | j < length ensures after[j] == 0 {
      WrittenByte(memory, r.start, ZeroBytes(r.length), start + j);
      assert ReadBytes(memory, start, length)[j] == 0;
    }
  }

  /** The machine finds the payload as an ABI string in the rx buffer, the metadata in its range,
      and both hashes ranges null. */
  predicate Finds(cfg: Config, t: Machine, input: Input)
    requires |input.payload| < UINT64_LIMIT
  {
    && ReadBytes(t.memory, cfg.rxBuffer.start, EVM_ABI_STRING_HEADER_LENGTH + |input.payload|) == AbiString(input.payload)
    && ReadBytes(t.memory, cfg.inputMetadata.start, EVM_ABI_INPUT_METADATA_LENGTH) == EncodedMetadata(input.metadata)
    && AllZero(ReadBytes(t.memory, cfg.hashes.voucher.start, cfg.hashes.voucher.length))
    && AllZero(ReadBytes(t.memory, cfg.hashes.notice.start, cfg.hashes.notice.length))
  }

  /** The word of an epoch index of zero is null. */
  lemma EpochWordNull(metadata: InputMetadata, i: nat)
    requires metadata.epochIndex == 0 && 96 <= i < 128
    ensures EncodedMetadata(metadata)[i] == 0
  {
    hide AbiUint64;
    ZeroWord();
    assert EncodedMetadata(metadata)[96..128] == AbiUint64(0);
    assert EncodedMetadata(metadata)[i] == EncodedMetadata(metadata)[96..128][i - 96];
  }

  lemma ZeroWord()
    ensures AbiUint64(0) == ZeroBytes(32)
  {
    ZeroBigEndian(8);
  }

  lemma {:induction false} ZeroBigEndian(n: nat)
    ensures BigEndian(0, n) == ZeroBytes(n)
  {
    if n > 0 { ZeroBigEndian(n - 1); }
  }

  /** A null hashes range that keeps clear of payload and metadata stays null. */
  lemma HashesStayNull(memory: seq<Byte>, cfg: Config, input: Input, kind: Kind)
    requires RangesApart(cfg) && Acceptable(cfg, input)
    requires AllZero(ReadBytes(memory, cfg.hashes.Get(kind).start, cfg.hashes.Get(kind).length))
    ensures var written := WriteBytes(memory, cfg.rxBuffer.start, AbiString(input.payload));
            AllZero(ReadBytes(WriteBytes(written, cfg.inputMetadata.start, EncodedMetadata(input.metadata)),
                              cfg.hashes.Get(kind).start, cfg.hashes.Get(kind).length))
  {
    hide WriteBytes, AbiString, EncodedMetadata;
    var rx, im, h := cfg.rxBuffer.start, cfg.inputMetadata.start, cfg.hashes.Get(kind);
    var s, d := AbiString(input.payload), EncodedMetadata(input.metadata);
    var written := WriteBytes(memory, rx, s);
    var read := ReadBytes(WriteBytes(written, im, d), h.start, h.length);
    forall j: nat | j < h.length ensures read[j] == 0 {
      var a := h.start + j;
      WrittenByte(written, im, d, a);
      WrittenByte(memory, rx, s, a);
      assert ReadBytes(memory, h.start, h.length)[j] == 0;
      if im <= a < im + 160 { EpochWordNull(input.metadata, a - im); }
    }
  }

  /** Outside the four ranges of an input. */
  predicate BesideInput(cfg: Config, a: nat) {
    var rx, im, vh, nh := cfg.rxBuffer, cfg.inputMetadata, cfg.hashes.voucher, cfg.hashes.notice;
    && !(rx.start <= a < rx.start + rx.length) && !(im.start <= a < im.start + im.length) && !(im.start <= a < im.start + 160)
    && !(vh.start <= a < vh.start + vh.length) && !(nh.start <= a < nh.start + nh.length)
  }

  lemma InputBeside(cfg: Config, m: Machine, input: Input, a: nat)
    requires PayloadFits(cfg, input.payload) && |input.payload| < UINT64_LIMIT && BesideInput(cfg, a)
    ensures ByteAt(Round(cfg, m, input, 0).memory, a) == ByteAt(m.memory, a)
  {
    hide Round, WriteBytes, AbiString, EncodedMetadata;
    PreparedIs(cfg, m, input);
    var rx, im, vh, nh := cfg.rxBuffer, cfg.inputMetadata, cfg.hashes.voucher, cfg.hashes.notice;
    var m1 := ClearRange(m.memory, rx);
    var m2 := ClearRange(m1, im);
    var m3 := ClearRange(m2, vh);
    var m4 := ClearRange(m3, nh);
    var m5 := WriteBytes(m4, rx.start, AbiString(input.payload));
    WrittenByte(m.memory, rx.start, ZeroBytes(rx.length), a);
    WrittenByte(m1, im.start, ZeroBytes(im.length), a);
    WrittenByte(m2, vh.start, ZeroBytes(vh.length), a);
    WrittenByte(m3, nh.start, ZeroBytes(nh.length), a);
    WrittenByte(m4, rx.start, AbiString(input.payload), a);
    WrittenByte(m5, im.start, EncodedMetadata(input.metadata), a);
  }

  lemma InputIsInMemory(cfg: Config, m: Machine, input: Input)
    requires RangesApart(cfg) && Acceptable(cfg, input)
    ensures var t := Round(cfg, m, input, 0); Finds(cfg, t, input) && t == m.(memory := t.memory, iflagsY := false)
    ensures forall a: nat :: BesideInput(cfg, a) ==> ByteAt(Round(cfg, m, input, 0).memory, a) == ByteAt(m.memory, a)
  {
    hide Round, WriteBytes, AbiString, EncodedMetadata;
    PreparedIs(cfg, m, input);
    forall a: nat | BesideInput(cfg, a) ensures ByteAt(Round(cfg, m, input, 0).memory, a) == ByteAt(m.memory, a) {
      InputBeside(cfg, m, input, a);
    }
    var rx, im, vh, nh := cfg.rxBuffer, cfg.inputMetadata, cfg.hashes.voucher, cfg.hashes.notice;
    var a := ClearRange(ClearRange(m.memory, rx), im);
    var b := ClearRange(a, vh);
    var c := ClearRange(b, nh);
    var d := WriteBytes(c, rx.start, AbiString(input.payload));
    ZerosStay(b, nh, vh.start, vh.length);
    HashesStayNull(c, cfg, input, Voucher);
    HashesStayNull(c, cfg, input, Notice);
    WritesElsewhere(d, im.start, EncodedMetadata(input.metadata), rx.start, EVM_ABI_STRING_HEADER_LENGTH + |input.payload|);
  }

  /** When the machine is started on a query it finds the payload in the rx buffer and is told,
      in the low bits of its fromhost register, that this is a query. */
  lemma QueryIsInMemory(cfg: Config, m: Machine, payload: seq<Byte>)
    requires PayloadFits(cfg, payload) && |payload| < UINT64_LIMIT
    ensures var t := QueryPrepared(cfg, m, payload, QUERY_PREPARATIONS);
            && ReadBytes(t.memory, cfg.rxBuffer.start, EVM_ABI_STRING_HEADER_LENGTH + |payload|) == AbiString(payload)
            && t == m.(memory := t.memory, iflagsY := false, fromhost := t.fromhost)
            && t.fromhost % 0x1_0000_0000_0000 == 1 && t.fromhost / 0x1_0000_0000_0000 == m.fromhost / 0x1_0000_0000_0000
  {
    hide WriteBytes, ClearRange, AbiString;
    assert QueryPrepared(cfg, m, payload, 0) == m;
    assert QueryPrepared(cfg, m, payload, 1) == PrepareQuery(cfg, QueryPrepared(cfg, m, payload, 0), payload, 0);
    assert QueryPrepared(cfg, m, payload, 2) == PrepareQuery(cfg, QueryPrepared(cfg, m, payload, 1), payload, 1);
    assert QueryPrepared(cfg, m, payload, 3) == PrepareQuery(cfg, QueryPrepared(cfg, m, payload, 2), payload, 2);
    assert QueryPrepared(cfg, m, payload, 4) == PrepareQuery(cfg, QueryPrepared(cfg, m, payload, 3), payload, 3);
    assert QueryPrepared(cfg, m, payload, 5) == PrepareQuery(cfg, QueryPrepared(cfg, m, payload, 4), payload, 4);
  }

  /** The rest of the memory is left alone. */
  lemma QueryBeside(cfg: Config, m: Machine, payload: seq<Byte>, a: nat)
    requires PayloadFits(cfg, payload) && |payload| < UINT64_LIMIT
    requires !(cfg.rxBuffer.start <= a < cfg.rxBuffer.start + cfg.rxBuffer.length)
    ensures ByteAt(QueryPrepared(cfg, m, payload, QUERY_PREPARATIONS).memory, a) == ByteAt(m.memory, a)
  {
    hide WriteBytes, AbiString;
    var rx := cfg.rxBuffer;
    assert QueryPrepared(cfg, m, payload, 0) == m;
    assert QueryPrepared(cfg, m, payload, 1) == PrepareQuery(cfg, QueryPrepared(cfg, m, payload, 0), payload, 0);
    assert QueryPrepared(cfg, m, payload, 2) == PrepareQuery(cfg, QueryPrepared(cfg, m, payload, 1), payload, 1);
    assert QueryPrepared(cfg, m, payload, 3) == PrepareQuery(cfg, QueryPrepared(cfg, m, payload, 2), payload, 2);
    assert QueryPrepared(cfg, m, payload, 4) == PrepareQuery(cfg, QueryPrepared(cfg, m, payload, 3), payload, 3);
    assert QueryPrepared(cfg, m, payload, 5) == PrepareQuery(cfg, QueryPrepared(cfg, m, payload, 4), payload, 4);
    WrittenByte(m.memory, rx.start, ZeroBytes(rx.length), a);
    WrittenByte(ClearRange(m.memory, rx), rx.start, AbiString(payload), a);
  }

  // ----- payloads that are too long -----

  /** The size check lets through exactly the payloads whose encoding fits in the rx buffer; on
      64 bits too, for every payload a vector can hold. */
  lemma PayloadFitsIff(cfg: Config, payload: seq<Byte>)
    requires |payload| + EVM_ABI_STRING_HEADER_LENGTH < UINT64_LIMIT
    ensures PayloadFits(cfg, payload) <==> |AbiString(payload)| <= cfg.rxBuffer.length
    ensures cfg.rxBuffer.length < UINT64_LIMIT ==> (PayloadFits(cfg, payload) <==> FitsInRange(|payload|, cfg.rxBuffer.length))
  {
  }

  lemma TooLongRecorded(cfg: Config, base: Machine, e: Entry)
    requires EntryOk(cfg, base, e)
    ensures e.record.status == PayloadLengthLimitExceeded <==> 64 + |e.input.payload| > cfg.rxBuffer.length
  {
  }

  lemma TooLongAnswered(cfg: Config, base: Machine, payload: seq<Byte>, status: CompletionStatus)
    requires QueryStatusTrue(cfg, base, payload, status)
    ensures status == PayloadLengthLimitExceeded <==> 64 + |payload| > cfg.rxBuffer.length
  {
  }

  /** Over every run in which the lock is kept, an input is recorded, and a query answered, as too
      long if and only if its encoding does not fit in the rx buffer. */
  lemma TooLongIff(cfg: Config, m: Machine, epoch: nat, first: nat, machineHash: Hash, events: seq<Event>)
    requires cfg.log2EpochRoot >= 5 && epoch < UINT64_LIMIT && Resumes(cfg.run)
    requires LockKept(cfg, Initial(m, epoch, first, machineHash), events)
    ensures var s := RunOf(cfg, Initial(m, epoch, first, machineHash), events);
            !s.tainted && !s.broken ==>
              && (forall j: nat :: j < |s.log| ==>
                    (s.log[j].record.status == PayloadLengthLimitExceeded <==> 64 + |s.log[j].input.payload| > cfg.rxBuffer.length))
              && (forall j: nat :: j < |s.inspections| ==>
                    (s.inspections[j].outcome.status == PayloadLengthLimitExceeded <==> 64 + |s.inspections[j].payload| > cfg.rxBuffer.length))
  {
    hide LeavesUnderLock, Next, RunOf, EntryOk, LogOk, QueryStatusTrue, Replay, AcceptedInputs;
    RunIsTransparent(cfg, m, epoch, first, machineHash, events);
    var s := RunOf(cfg, Initial(m, epoch, first, machineHash), events);
    if !s.tainted && !s.broken {
      forall j: nat | j < |s.log|
        ensures s.log[j].record.status == PayloadLengthLimitExceeded <==> 64 + |s.log[j].input.payload| > cfg.rxBuffer.length
      {
        EntryOkAt(cfg, m, s.log, j);
        TooLongRecorded(cfg, Replay(cfg, m, AcceptedInputs(s.log[..j])), s.log[j]);
      }
      forall j: nat | j < |s.inspections|
        ensures s.inspections[j].outcome.status == PayloadLengthLimitExceeded <==> 64 + |s.inspections[j].payload| > cfg.rxBuffer.length
      {
        QueriesAreAnsweredTruly(cfg, m, epoch, first, machineHash, events, j);
        var i := s.inspections[j];
        TooLongAnswered(cfg, Replay(cfg, m, AcceptedInputs(s.log[..i.processedInputCount - first])), i.payload, i.outcome.status);
      }
    }
  }

  // ----- ranges that overlap -----

  predicate WordAligned(r: Range) {
    r.start % 32 == 0 && r.length % 32 == 0 && r.length > 0
  }

  /** Ranges of whole words, and room for a payload of a word. */
  predicate WholeWords(cfg: Config) {
    && WordAligned(cfg.rxBuffer) && WordAligned(cfg.inputMetadata) && WordAligned(cfg.hashes.voucher) && WordAligned(cfg.hashes.notice)
    && EVM_ABI_STRING_HEADER_LENGTH < cfg.rxBuffer.length < UINT64_LIMIT
  }

  /** An acceptable input that leaves no word of its encodings null but that of the epoch index. */
  function Probe(n: nat): (input: Input)
    requires 0 < n < UINT64_LIMIT
    ensures |input.payload| == n
  {
    Input(InputMetadata(seq(20, _ => 254), 254, 254, 0, 254), seq<Byte>(n, _ => 255))
  }

  lemma ProbeMetadata(n: nat, w: nat)
    requires 0 < n < UINT64_LIMIT && w < 5
    ensures EncodedMetadata(Probe(n).metadata)[32 * w + 31] == if w == 3 then 0 else 254
  {
    hide AbiUint64;
    LowByte(254);
    LowByte(0);
    var s := EncodedMetadata(Probe(n).metadata);
    assert s[31] == 254 && s[63] == 254 && s[95] == 254 && s[127] == 0 && s[159] == 254;
    assert w == 0 || w == 1 || w == 2 || w == 3 || w == 4;
  }

  lemma LowByte(v: Uint64)
    ensures AbiUint64(v)[31] == v % 256
  {
    assert BigEndian(v, 8) == BigEndian(v / 256, 7) + [v % 256];
  }

  /** The last byte of each word of a payload's encoding. */
  lemma ProbeString(n: nat, w: nat)
    requires 0 < n < UINT64_LIMIT && 32 * w + 31 < 64 + n
    ensures AbiString(Probe(n).payload)[32 * w + 31] == if w == 0 then 32 else if w == 1 then n % 256 else 255
  {
    LowByte(32);
    LowByte(n);
    var s := AbiString(Probe(n).payload);
    assert s[..32] == AbiUint64(32) && s[32..64] == AbiUint64(n) && s[64..] == Probe(n).payload;
    assert s[31] == s[..32][31] && s[63] == s[32..64][31];
    assert w >= 2 ==> s[32 * w + 31] == s[64..][32 * w - 33];
  }

  /** The metadata is written last, the payload before it. */
  lemma FinalByte(cfg: Config, m: Machine, input: Input, a: nat)
    requires |input.payload| < UINT64_LIMIT
    ensures var rx, im, s, d := cfg.rxBuffer.start, cfg.inputMetadata.start, AbiString(input.payload), EncodedMetadata(input.metadata);
            && (im <= a < im + 160 ==> ByteAt(Round(cfg, m, input, 0).memory, a) == d[a - im])
            && (rx <= a < rx + |s| && !(im <= a < im + 160) ==> ByteAt(Round(cfg, m, input, 0).memory, a) == s[a - rx])
  {
    hide Round, WriteBytes, ClearRange, AbiString, EncodedMetadata;
    PreparedIs(cfg, m, input);
    var rx, im, s, d := cfg.rxBuffer.start, cfg.inputMetadata.start, AbiString(input.payload), EncodedMetadata(input.metadata);
    var cleared := ClearRange(ClearRange(ClearRange(ClearRange(m.memory, cfg.rxBuffer), cfg.inputMetadata), cfg.hashes.voucher), cfg.hashes.notice);
    WrittenByte(cleared, rx, s, a);
    WrittenByte(WriteBytes(cleared, rx, s), im, d, a);
  }

  /** Started on an input, a machine finds it. */
  predicate Found(cfg: Config, m: Machine, input: Input) {
    |input.payload| < UINT64_LIMIT && Finds(cfg, Round(cfg, m, input, 0), input)
  }

  /** The machine misses some input the session accepts. */
  ghost predicate NotFound(cfg: Config, m: Machine) {
    exists input: Input :: Acceptable(cfg, input) && !Found(cfg, m, input)
  }

  /** Where two stretches of whole words overlap, they share a word; this is its last byte. */
  function SharedByte(start: nat, start': nat): nat {
    (if start < start' then start' else start) + 31
  }

  lemma SharedByteIsShared(start: nat, length: nat, start': nat, length': nat)
    requires start % 32 == length % 32 == start' % 32 == length' % 32 == 0 && length > 0 && length' > 0 && !Apart(start, length, start', length')
    ensures var a := SharedByte(start, start');
            start <= a < start + length && start' <= a < start' + length' && 32 * ((a - start) / 32) + 31 == a - start
            && 32 * ((a - start') / 32) + 31 == a - start'
  {
  }

  lemma MetadataOverPayload(cfg: Config, m: Machine)
    requires WholeWords(cfg) && !Apart(cfg.rxBuffer.start, cfg.rxBuffer.length, cfg.inputMetadata.start, EVM_ABI_INPUT_METADATA_LENGTH)
    ensures NotFound(cfg, m)
  {
    hide Round, AbiString, EncodedMetadata, SharedByte;
    var rx, im := cfg.rxBuffer.start, cfg.inputMetadata.start;
    var a := SharedByte(rx, im);
    SharedByteIsShared(rx, cfg.rxBuffer.length, im, EVM_ABI_INPUT_METADATA_LENGTH);
    var n := if a == rx + 63 then 1 else cfg.rxBuffer.length - 64;
    var input := Probe(n);
    FinalByte(cfg, m, input, a);
    ProbeMetadata(n, (a - im) / 32);
    ProbeString(n, (a - rx) / 32);
    var read := ReadBytes(Round(cfg, m, input, 0).memory, rx, 64 + n);
    assert read[a - rx] != AbiString(input.payload)[a - rx];
    assert Acceptable(cfg, input);
  }

  lemma PayloadOverHashes(cfg: Config, m: Machine, kind: Kind)
    requires WholeWords(cfg) && Apart(cfg.rxBuffer.start, cfg.rxBuffer.length, cfg.inputMetadata.start, EVM_ABI_INPUT_METADATA_LENGTH)
    requires !Apart(cfg.rxBuffer.start, cfg.rxBuffer.length, cfg.hashes.Get(kind).start, cfg.hashes.Get(kind).length)
    ensures NotFound(cfg, m)
  {
    hide Round, AbiString, EncodedMetadata, Finds, SharedByte;
    var rx, h := cfg.rxBuffer.start, cfg.hashes.Get(kind);
    var a := SharedByte(rx, h.start);
    SharedByteIsShared(rx, cfg.rxBuffer.length, h.start, h.length);
    var n := if a == rx + 63 then 1 else cfg.rxBuffer.length - 64;
    var input := Probe(n);
    FinalByte(cfg, m, input, a);
    ProbeString(n, (a - rx) / 32);
    NonzeroIsNotFound(cfg, Round(cfg, m, input, 0), input, kind, a);
    assert Acceptable(cfg, input);
  }

  lemma NonzeroIsNotFound(cfg: Config, t: Machine, input: Input, kind: Kind, a: nat)
    requires |input.payload| < UINT64_LIMIT && ByteAt(t.memory, a) != 0
    requires cfg.hashes.Get(kind).start <= a < cfg.hashes.Get(kind).start + cfg.hashes.Get(kind).length
    ensures !Finds(cfg, t, input)
  {
    var h := cfg.hashes.Get(kind);
    assert ReadBytes(t.memory, h.start, h.length)[a - h.start] != 0;
  }

  lemma MetadataOverHashes(cfg: Config, m: Machine, kind: Kind)
    requires WholeWords(cfg) && !MetadataApart(cfg.inputMetadata.start, cfg.hashes.Get(kind))
    ensures NotFound(cfg, m)
  {
    hide Round, AbiString, EncodedMetadata, Finds, SharedByte;
    var im, h := cfg.inputMetadata.start, cfg.hashes.Get(kind);
    var first := !Apart(im, 96, h.start, h.length);
    var from := if first then im else im + 128;
    var a := SharedByte(from, h.start);
    SharedByteIsShared(from, if first then 96 else 32, h.start, h.length);
    FinalByte(cfg, m, Probe(1), a);
    ProbeMetadata(1, (a - im) / 32);
    NonzeroIsNotFound(cfg, Round(cfg, m, Probe(1), 0), Probe(1), kind, a);
    assert Acceptable(cfg, Probe(1));
  }

  /** Over ranges of whole words: every machine finds every input the session accepts if and only
      if the ranges are apart.  The session start does not check that they are. */
  lemma InputsAreFoundIff(cfg: Config)
    requires WholeWords(cfg)
    ensures (forall m: Machine, input: Input :: Acceptable(cfg, input) ==> Found(cfg, m, input)) <==> RangesApart(cfg)
  {
    hide Round, AbiString, EncodedMetadata, Finds;
    if RangesApart(cfg) {
      forall m: Machine, input: Input | Acceptable(cfg, input) ensures Found(cfg, m, input) {
        InputIsInMemory(cfg, m, input);
      }
    } else {
      var m := Machine([], 0, false, false, false, 0, 0, []);
      OverlapIsSeen(cfg, m);
    }
  }

  lemma OverlapIsSeen(cfg: Config, m: Machine)
    requires WholeWords(cfg) && !RangesApart(cfg)
    ensures NotFound(cfg, m)
  {
    hide NotFound, Apart, MetadataApart;
    var rx, im, vh, nh := cfg.rxBuffer, cfg.inputMetadata, cfg.hashes.voucher, cfg.hashes.notice;
    if !Apart(rx.start, rx.length, im.start, EVM_ABI_INPUT_METADATA_LENGTH) {
      MetadataOverPayload(cfg, m);
    } else if !Apart(rx.start, rx.length, vh.start, vh.length) {
      PayloadOverHashes(cfg, m, Voucher);
    } else if !Apart(rx.start, rx.length, nh.start, nh.length) {
      PayloadOverHashes(cfg, m, Notice);
    } else {
      MetadataOverHashes(cfg, m, if MetadataApart(im.start, vh) then Notice else Voucher);
    }
  }
}
