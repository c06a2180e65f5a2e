/** The EVM ABI fragments the manager writes to and reads from machine memory: 32-byte words
    with a big-endian 64-bit integer in the low eight bytes, strings behind an offset word and
    a length word, and the five-word input metadata. */
module Abi {
  import opened Bits
  import opened Hashing

  type Uint64 = x: nat | x < UINT64_LIMIT

  const EVM_ADDRESS_LENGTH: nat := 20
  const EVM_ABI_WORD_LENGTH: nat := 32
  const EVM_ABI_STRING_HEADER_LENGTH: nat := 64
  const VOUCHER_HEADER_LENGTH: nat := 96
  const EVM_ABI_INPUT_METADATA_LENGTH: nat := 160

  type EvmAddress = s: seq<Byte> | |s| == EVM_ADDRESS_LENGTH witness seq(20, _ => 0)

  datatype InputMetadata = InputMetadata(msgSender: EvmAddress, blockNumber: Uint64, timestamp: Uint64,
                                         epochIndex: Uint64, inputIndex: Uint64)

  // ----- big-endian integers -----

  function Pow256(n: nat): nat {
    if n == 0 then 1 else 256 * Pow256(n - 1)
  }

  function BigEndian(v: nat, n: nat): (s: seq<Byte>)
    ensures |s| == n
  {
    if n == 0 then [] else BigEndian(v / 256, n - 1) + [v % 256]
  }

  function FromBigEndian(s: seq<Byte>): nat {
    if s == [] then 0 else 256 * FromBigEndian(s[..|s| - 1]) + s[|s| - 1]
  }

  lemma {:induction false} BigEndianRoundTrip(v: nat, n: nat)
    requires v < Pow256(n)
    ensures FromBigEndian(BigEndian(v, n)) == v
  {
    if n > 0 {
      BigEndianRoundTrip(v / 256, n - 1);
      assert BigEndian(v, n)[..n - 1] == BigEndian(v / 256, n - 1);
    }
  }

  lemma {:induction false} FromBigEndianRoundTrip(s: seq<Byte>)
    ensures BigEndian(FromBigEndian(s), |s|) == s
    ensures FromBigEndian(s) < Pow256(|s|)
  {
    if s != [] {
      var front := s[..|s| - 1];
      FromBigEndianRoundTrip(front);
      assert FromBigEndian(s) / 256 == FromBigEndian(front);
      assert s == front + [s[|s| - 1]];
    }
  }

  /** The i-th byte is the i-th base-256 digit from the left. */
  lemma {:induction false} BigEndianAt(v: nat, n: nat, i: nat)
    requires i < n
    ensures Pow256(n - 1 - i) > 0 && BigEndian(v, n)[i] == v / Pow256(n - 1 - i) % 256
  {
    if i == n - 1 {
      assert Pow256(0) == 1;
    } else {
      BigEndianAt(v / 256, n - 1, i);
      var p := Pow256(n - 2 - i);
      assert Pow256(n - 1 - i) == 256 * p;
      DivTwice(v, p);
    }
  }

  lemma DivTwice(v: nat, p: nat)
    requires p > 0
    ensures v / 256 / p == v / (256 * p)
  {
    var q := v / 256 / p;
    var r := v / 256 % p;
    assert v == 256 * (p * q + r) + v % 256;
    assert v == (256 * p) * q + (256 * r + v % 256);
    assert 0 <= 256 * r + v % 256 < 256 * p;
    QuotientIs(v, 256 * p, q, 256 * r + v % 256);
  }

  lemma QuotientIs(v: nat, d: nat, q: nat, r: nat)
    requires d > 0 && v == d * q + r && r < d
    ensures v / d == q
  {
    assert v == d * (v / d) + v % d;
    NoMultipleBetween(d, v / d - q);
  }

  lemma NoMultipleBetween(d: int, x: int)
    requires -d < d * x < d
    ensures x == 0
  {
    assert x >= 1 ==> d * x >= d;
    assert x <= -1 ==> d * x <= -d;
  }

  lemma {:induction false} LeadingZeros(n: nat, s: seq<Byte>)
    ensures FromBigEndian(ZeroBytes(n) + s) == FromBigEndian(s)
  {
    if s == [] {
      assert ZeroBytes(n) + s == ZeroBytes(n);
      ZerosAreZero(n);
    } else {
      var whole := ZeroBytes(n) + s;
      assert whole[..|whole| - 1] == ZeroBytes(n) + s[..|s| - 1];
      LeadingZeros(n, s[..|s| - 1]);
    }
  }

  lemma {:induction false} ZerosAreZero(n: nat)
    ensures FromBigEndian(ZeroBytes(n)) == 0
  {
    if n > 0 {
      assert ZeroBytes(n)[..n - 1] == ZeroBytes(n - 1);
      ZerosAreZero(n - 1);
    }
  }

  lemma Pow256Of8()
    ensures Pow256(8) == UINT64_LIMIT
  {
    assert Pow256(2) == 0x1_0000;
    assert Pow256(4) == 0x1_0000_0000;
    assert Pow256(6) == 0x1_0000_0000_0000;
  }

  /** `endian_store<uint64_t, 8, order::big>` */
  method StoreBigEndian(a: array<Byte>, at: nat, v: Uint64)
    requires at + 8 <= a.Length
    modifies a
    ensures a[..] == old(a[..at]) + BigEndian(v, 8) + old(a[at + 8..])
  {
    var rest: nat, i := v, 8;
    while i > 0
      invariant 0 <= i <= 8
      invariant BigEndian(v, 8) == BigEndian(rest, i) + a[at + i..at + 8]
      invariant a[..at] == old(a[..at]) && a[at + 8..] == old(a[at + 8..])
    {
      assert BigEndian(rest, i) == BigEndian(rest / 256, i - 1) + [rest % 256];
      ghost var tail := a[at + i..at + 8];
      a[at + i - 1] := rest % 256;
      assert a[at + i - 1..at + 8] == [rest % 256] + tail;
      rest, i := rest / 256, i - 1;
    }
    assert a[..] == a[..at] + a[at..at + 8] + a[at + 8..];
  }

  // ----- one word -----

  /** A 32-byte word holding a 64-bit integer. */
  function AbiUint64(v: Uint64): (s: seq<Byte>)
    ensures |s| == EVM_ABI_WORD_LENGTH
  {
    ZeroBytes(24) + BigEndian(v, 8)
  }

  /** Read as one big number, the word is the integer. */
  lemma WordValue(v: Uint64)
    ensures FromBigEndian(AbiUint64(v)) == v
  {
    Pow256Of8();
    BigEndianRoundTrip(v, 8);
    LeadingZeros(24, BigEndian(v, 8));
  }

  predicate AllZero(s: seq<Byte>) {
    forall i :: 0 <= i < |s| ==> s[i] == 0
  }

  /** `is_null` */
  method IsNull(s: seq<Byte>) returns (null_: bool)
    ensures null_ <==> AllZero(s)
  {
    var i := 0;
    while i != |s|
      invariant 0 <= i <= |s| && AllZero(s[..i])
    {
      if s[i] != 0 { return false; }
      assert s[..i + 1] == s[..i] + [s[i]];
      i := i + 1;
    }
    assert s[..i] == s;
    return true;
  }

  /** `get_payload_length`: the inverse of `AbiUint64`, and an error on every other word. */
  method GetPayloadLength(word: seq<Byte>) returns (r: Result<Uint64>)
    requires |word| == EVM_ABI_WORD_LENGTH
    ensures r.Ok? <==> exists v: Uint64 :: word == AbiUint64(v)
    ensures r.Ok? ==> word == AbiUint64(r.value) && FromBigEndian(word) == r.value
    ensures r.Err? ==> r.error == OutOfRange
  {
    var high := IsNull(word[..24]);
    Pow256Of8();
    if !high {
      forall v: Uint64 ensures word != AbiUint64(v) { assert AbiUint64(v)[..24] == ZeroBytes(24); }
      return Err(OutOfRange);
    }
    FromBigEndianRoundTrip(word[24..]);
    assert word == word[..24] + word[24..];
    assert word[..24] == ZeroBytes(24);
    r := Ok(FromBigEndian(word[24..]));
    assert word == AbiUint64(r.value);
    WordValue(r.value);
  }

  lemma AbiUint64IsInjective(v: Uint64, w: Uint64)
    requires AbiUint64(v) == AbiUint64(w)
    ensures v == w
  {
    Pow256Of8();
    BigEndianRoundTrip(v, 8);
    BigEndianRoundTrip(w, 8);
    assert BigEndian(v, 8) == AbiUint64(v)[24..] == AbiUint64(w)[24..] == BigEndian(w, 8);
  }

  // ----- strings -----

  /** Offset word, length word, payload. */
  function AbiString(payload: seq<Byte>): (s: seq<Byte>)
    requires |payload| < UINT64_LIMIT
    ensures |s| == EVM_ABI_STRING_HEADER_LENGTH + |payload|
  {
    AbiUint64(32) + AbiUint64(|payload|) + payload
  }

  /** Read by position: the offset of the string, its length, its bytes. */
  lemma StringAtPositions(payload: seq<Byte>)
    requires |payload| < UINT64_LIMIT
    ensures var s := AbiString(payload);
            FromBigEndian(s[..32]) == 32 && FromBigEndian(s[32..64]) == |payload| && s[64..] == payload
  {
    WordValue(32);
    WordValue(|payload|);
    hide AbiUint64, FromBigEndian;
    var s := AbiString(payload);
    assert s[..32] == AbiUint64(32) && s[32..64] == AbiUint64(|payload|);
  }

  /** `write_evm_abi_string`: the bytes sent to the machine. */
  method WriteEvmAbiString(payload: seq<Byte>) returns (data: seq<Byte>)
    requires |payload| < UINT64_LIMIT
    ensures data == AbiString(payload) && |data| == 64 + |payload|
    ensures FromBigEndian(data[..32]) == 32 && FromBigEndian(data[32..64]) == |payload| && data[64..] == payload
  {
    var header := new Byte[64](_ => 0);
    assert header[..] == ZeroBytes(64);
    StoreBigEndian(header, 24, 32);
    StoreBigEndian(header, 56, |payload|);
    assert header[..] == AbiUint64(32) + AbiUint64(|payload|);
    data := header[..] + payload;
    StringAtPositions(payload);
  }

  /** The guard in front of the write, on 64-bit integers: the string fits in the range. */
  predicate FitsInRange(payloadSize: Uint64, rangeLength: Uint64) {
    (payloadSize + EVM_ABI_STRING_HEADER_LENGTH) % UINT64_LIMIT <= rangeLength
  }

  /** Memory from the start of a range on, after `data` has been written at the start. */
  function Written(mem: seq<Byte>, data: seq<Byte>): (s: seq<Byte>)
    requires |data| <= |mem|
    ensures |s| == |mem|
  {
    data + mem[|data|..]
  }

  /** `read_tx_payload_data_length`: memory from the start of the tx range on; the read fails
      when the machine has no memory there. */
  method ReadTxPayloadDataLength(mem: seq<Byte>) returns (r: Result<Uint64>)
    ensures r.Ok? <==> |mem| >= EVM_ABI_STRING_HEADER_LENGTH && exists v: Uint64 :: mem[32..64] == AbiUint64(v)
    ensures r.Ok? ==> mem[32..64] == AbiUint64(r.value)
  {
    if |mem| < 64 { return Err(OutOfRange); }
    var header := mem[..64];
    assert header[32..64] == mem[32..64];
    r := GetPayloadLength(header[32..64]);
  }

  /** The bound put on a payload that follows a header: an unsigned 64-bit subtraction. */
  function ReadBound(headerLength: Uint64, rangeLength: Uint64): Uint64 {
    (rangeLength - headerLength) % UINT64_LIMIT
  }

  predicate PassesReadGuard(headerLength: Uint64, payloadLength: Uint64, rangeLength: Uint64) {
    payloadLength <= ReadBound(headerLength, rangeLength)
  }

  /** The payload behind a header, read from memory from the start of the tx range on. */
  method ReadPayloadData(headerLength: Uint64, mem: seq<Byte>, rangeLength: Uint64, payloadLength: Uint64) returns (r: Result<seq<Byte>>)
    ensures r.Ok? <==> PassesReadGuard(headerLength, payloadLength, rangeLength) && headerLength + payloadLength <= |mem|
    ensures r.Ok? ==> r.value == mem[headerLength..headerLength + payloadLength]
  {
    if !PassesReadGuard(headerLength, payloadLength, rangeLength) { return Err(OutOfRange); }
    if headerLength + payloadLength > |mem| { return Err(OutOfRange); }
    return Ok(mem[headerLength..headerLength + payloadLength]);
  }

  /** `read_tx_payload_data` */
  method ReadTxPayloadData(mem: seq<Byte>, rangeLength: Uint64, payloadLength: Uint64) returns (r: Result<seq<Byte>>)
    ensures r.Ok? <==> PassesReadGuard(64, payloadLength, rangeLength) && 64 + payloadLength <= |mem|
    ensures r.Ok? ==> r.value == mem[64..64 + payloadLength]
  {
    r := ReadPayloadData(EVM_ABI_STRING_HEADER_LENGTH, mem, rangeLength, payloadLength);
  }

  /** `read_voucher_payload_data`, behind the longer header with the destination address. */
  method ReadVoucherPayloadData(mem: seq<Byte>, rangeLength: Uint64, payloadLength: Uint64) returns (r: Result<seq<Byte>>)
    ensures r.Ok? <==> PassesReadGuard(96, payloadLength, rangeLength) && 96 + payloadLength <= |mem|
    ensures r.Ok? ==> r.value == mem[96..96 + payloadLength]
  {
    r := ReadPayloadData(VOUCHER_HEADER_LENGTH, mem, rangeLength, payloadLength);
  }

  /** The read guard keeps reads inside the range exactly when the range is at least one header
      long, 64 bytes for notices, reports and exceptions and 96 for vouchers: below that the
      subtraction wraps, and it lets through some length that does not fit. */
  lemma ReadGuardIff(headerLength: Uint64, rangeLength: Uint64)
    ensures (forall n: Uint64 :: PassesReadGuard(headerLength, n, rangeLength) ==> headerLength + n <= rangeLength) <==> rangeLength >= headerLength
  {
    assert PassesReadGuard(headerLength, 0, rangeLength);
  }

  /** A 32-byte range lets a read of a million bytes through. */
  lemma ReadGuardFailure()
    ensures PassesReadGuard(EVM_ABI_STRING_HEADER_LENGTH, 1_000_000, 32)
    ensures PassesReadGuard(VOUCHER_HEADER_LENGTH, 1_000_000, 32)
  {
  }

  /** The write guard keeps writes inside the range for every payload a vector can hold. */
  lemma WriteGuardIff(payload: seq<Byte>, rangeLength: Uint64)
    requires |payload| + 64 < UINT64_LIMIT
    ensures FitsInRange(|payload|, rangeLength) <==> |AbiString(payload)| <= rangeLength
  {
  }

  lemma StringWritten(mem: seq<Byte>, rangeLength: nat, payload: seq<Byte>)
    requires |payload| < UINT64_LIMIT && |AbiString(payload)| <= rangeLength <= |mem|
    ensures var after := Written(mem, AbiString(payload));
            && after[rangeLength..] == mem[rangeLength..] && after[32..64] == AbiUint64(|payload|)
            && after[64..64 + |payload|] == payload
  {
    hide AbiUint64;
  }

  /** Writing a payload that passes the guard and reading length then payload back returns the
      original bytes, and nothing outside the range has changed. */
  method StringRoundTrip(mem: seq<Byte>, rangeLength: Uint64, payload: seq<Byte>)
    returns (after: seq<Byte>, r: Result<seq<Byte>>)
    requires rangeLength <= |mem| && |payload| + 64 < UINT64_LIMIT
    requires FitsInRange(|payload|, rangeLength)
    ensures |after| == |mem| && after[rangeLength..] == mem[rangeLength..]
    ensures r == Ok(payload)
  {
    hide AbiUint64, AbiString, Written;
    var data := WriteEvmAbiString(payload);
    after := Written(mem, data);
    StringWritten(mem, rangeLength, payload);
    var n := ReadTxPayloadDataLength(after);
    AbiUint64IsInjective(n.value, |payload|);
    r := ReadTxPayloadData(after, rangeLength, n.value);
  }

  // ----- input metadata -----

  function EncodedMetadata(m: InputMetadata): (s: seq<Byte>)
    ensures |s| == EVM_ABI_INPUT_METADATA_LENGTH
  {
    ZeroBytes(12) + m.msgSender + AbiUint64(m.blockNumber) + AbiUint64(m.timestamp)
    + AbiUint64(m.epochIndex) + AbiUint64(m.inputIndex)
  }

  /** Read by position: sender, block number, timestamp, epoch index, input index. */
  lemma MetadataAtPositions(m: InputMetadata)
    ensures var s := EncodedMetadata(m);
            && AllZero(s[..12]) && s[12..32] == m.msgSender
            && FromBigEndian(s[32..64]) == m.blockNumber && FromBigEndian(s[64..96]) == m.timestamp
            && FromBigEndian(s[96..128]) == m.epochIndex && FromBigEndian(s[128..160]) == m.inputIndex
  {
    WordValue(m.blockNumber);
    WordValue(m.timestamp);
    WordValue(m.epochIndex);
    WordValue(m.inputIndex);
    hide AbiUint64, FromBigEndian;
    var s := EncodedMetadata(m);
    assert s[12..32] == m.msgSender && s[32..64] == AbiUint64(m.blockNumber) && s[64..96] == AbiUint64(m.timestamp);
    assert s[96..128] == AbiUint64(m.epochIndex) && s[128..160] == AbiUint64(m.inputIndex);
  }

  /** Stores an integer into a zeroed word of a buffer whose earlier words are done. */
  method StoreWord(a: array<Byte>, ghost done: seq<Byte>, at: nat, v: Uint64)
    requires |done| == at && at + 32 <= a.Length && a[..] == done + ZeroBytes(a.Length - at)
    modifies a
    ensures a[..] == done + AbiUint64(v) + ZeroBytes(a.Length - at - 32)
  {
    StoreBigEndian(a, at + 24, v);
  }

  /** `evm_abi_encoded_input_metadata` */
  method EncodeInputMetadata(m: InputMetadata) returns (encoded: seq<Byte>)
    ensures encoded == EncodedMetadata(m) && |encoded| == 160
    ensures AllZero(encoded[..12]) && encoded[12..32] == m.msgSender
    ensures FromBigEndian(encoded[32..64]) == m.blockNumber && FromBigEndian(encoded[64..96]) == m.timestamp
    ensures FromBigEndian(encoded[96..128]) == m.epochIndex && FromBigEndian(encoded[128..160]) == m.inputIndex
  {
    var a := new Byte[160](_ => 0);
    StoreSender(a, m.msgSender);
    ghost var done := ZeroBytes(12) + m.msgSender;
    StoreWord(a, done, 32, m.blockNumber);
    done := done + AbiUint64(m.blockNumber);
    StoreWord(a, done, 64, m.timestamp);
    done := done + AbiUint64(m.timestamp);
    StoreWord(a, done, 96, m.epochIndex);
    done := done + AbiUint64(m.epochIndex);
    StoreWord(a, done, 128, m.inputIndex);
    encoded := a[..];
    MetadataAtPositions(m);
  }

  /** The copy of the sender's address into the low bytes of the first word. */
  method StoreSender(a: array<Byte>, sender: EvmAddress)
    requires a.Length == 160 && a[..] == ZeroBytes(160)
    modifies a
    ensures a[..] == ZeroBytes(12) + sender + ZeroBytes(128)
  {
    var i := 0;
    while i < 20
      invariant 0 <= i <= 20
      invariant a[..] == ZeroBytes(12) + sender[..i] + ZeroBytes(148 - i)
    {
      a[12 + i] := sender[i];
      i := i + 1;
    }
  }

  /** No two metadata records encode alike. */
  lemma MetadataIsInjective(m: InputMetadata, n: InputMetadata)
    requires EncodedMetadata(m) == EncodedMetadata(n)
    ensures m == n
  {
    hide AbiUint64;
    var s := EncodedMetadata(m);
    assert s[12..32] == m.msgSender && s[12..32] == n.msgSender;
    assert s[32..64] == AbiUint64(m.blockNumber) && s[32..64] == AbiUint64(n.blockNumber);
    assert s[64..96] == AbiUint64(m.timestamp) && s[64..96] == AbiUint64(n.timestamp);
    assert s[96..128] == AbiUint64(m.epochIndex) && s[96..128] == AbiUint64(n.epochIndex);
    assert s[128..160] == AbiUint64(m.inputIndex) && s[128..160] == AbiUint64(n.inputIndex);
    AbiUint64IsInjective(m.blockNumber, n.blockNumber);
    AbiUint64IsInjective(m.timestamp, n.timestamp);
    AbiUint64IsInjective(m.epochIndex, n.epochIndex);
    AbiUint64IsInjective(m.inputIndex, n.inputIndex);
  }

  // ----- lists of hashes -----

  /** The i-th 32-byte entry of a memory range. */
  function Entry(data: seq<Byte>, i: nat): (e: seq<Byte>)
    requires 32 * i + 32 <= |data|
    ensures |e| == 32
  {
    data[32 * i .. 32 * i + 32]
  }

  /** The position of the first null entry, or the number of whole entries if there is none. */
  ghost predicate IsEntryCount(data: seq<Byte>, n: nat) {
    && 32 * n <= |data|
    && (forall i: nat :: i < n ==> !AllZero(Entry(data, i)))
    && (32 * n + 32 <= |data| ==> AllZero(Entry(data, n)))
  }

  function EntryCount(data: seq<Byte>, from: nat): (n: nat)
    requires 32 * from <= |data|
    ensures from <= n && 32 * n <= |data|
    ensures forall i: nat :: from <= i < n ==> !AllZero(Entry(data, i))
    ensures 32 * n + 32 <= |data| ==> AllZero(Entry(data, n))
    decreases |data| - 32 * from
  {
    if 32 * from + 32 > |data| then from
    else if AllZero(Entry(data, from)) then from
    else EntryCount(data, from + 1)
  }

  /** `count_null_terminated_entries` */
  method CountNullTerminatedEntries(data: seq<Byte>) returns (count: nat)
    ensures IsEntryCount(data, count)
    ensures count == EntryCount(data, 0)
  {
    count := 0;
    while 32 * count + 32 <= |data|
      invariant 32 * count <= |data|
      invariant forall i: nat :: i < count ==> !AllZero(Entry(data, i))
      invariant EntryCount(data, 0) == EntryCount(data, count)
    {
      var done := IsNull(Entry(data, count));
      if done { return; }
      count := count + 1;
    }
  }
}
