/**
 Record framing of the Air link (air_frame.c): the downlink builder with its chained
 checksums, the uplink parser, and the round trips between bytes and records.
 */
module AirFrame {
  import opened Words

  const MAX_STREAMS := 4
  const MAX_AGGREGATE := 255
  const MAX_RECORD_PAYLOAD := 127

  datatype Error = Argument | Capacity | Malformed
  datatype Result<+T> = Ok(value: T) | Err(error: Error)

  /** Bit `k` of the low four bits of a byte. */
  predicate HasBit(b: Byte, k: nat)
    requires k < 4
  {
    (if k == 0 then b else if k == 1 then b / 2 else if k == 2 then b / 4 else b / 8) % 2 == 1
  }

  // --------------------------------------------------------------------------
  // The chained checksum
  // --------------------------------------------------------------------------

  const CRC_POLY: bv32 := 0xedb88320

  function CrcBit(crc: bv32): bv32 {
    (crc >> 1) ^ (if crc & 1 == 1 then CRC_POLY else 0)
  }

  function CrcBits(crc: bv32, n: nat): bv32
    decreases n
  {
    if n == 0 then crc else CrcBit(CrcBits(crc, n - 1))
  }

  function CrcByte(crc: bv32, b: Byte): bv32 {
    CrcBits(crc ^ (b as bv32), 8)
  }

  function CrcRun(crc: bv32, data: seq<Byte>): bv32
    decreases |data|
  {
    if data == [] then crc else CrcByte(CrcRun(crc, data[..|data| - 1]), data[|data| - 1])
  }

  function Invert(x: bv32): bv32 { !x }

  lemma InvertTwice(x: bv32)
    ensures Invert(Invert(x)) == x
  {
  }

  /** The checksum of `data` continued from an earlier checksum. */
  function CrcContinue(seed: bv32, data: seq<Byte>): bv32 {
    Invert(CrcRun(Invert(seed), data))
  }

  lemma {:induction false} CrcRunAppend(crc: bv32, a: seq<Byte>, b: seq<Byte>)
    ensures CrcRun(crc, a + b) == CrcRun(CrcRun(crc, a), b)
    decreases |b|
  {
    hide CrcByte;
    if b == [] {
      assert a + b == a;
    } else {
      assert (a + b)[..|a + b| - 1] == a + b[..|b| - 1];
      CrcRunAppend(crc, a, b[..|b| - 1]);
    }
  }

  lemma CrcByteIs(crc: bv32, b: Byte, first: bv32, next: bv32)
    requires first == crc ^ (b as bv32)
    requires next == CrcBit(CrcBit(CrcBit(CrcBit(CrcBit(CrcBit(CrcBit(CrcBit(first))))))))
    ensures CrcByte(crc, b) == next
  {
    hide CrcBit;
    assert CrcBits(first, 4) == CrcBit(CrcBit(CrcBit(CrcBit(first))));
  }

  lemma CrcRunMore(crc: bv32, data: seq<Byte>, b: Byte)
    ensures CrcRun(crc, data + [b]) == CrcByte(CrcRun(crc, data), b)
  {
    hide CrcByte;
    assert (data + [b])[..|data|] == data;
  }

  lemma CheckDigit1()
    ensures CrcByte(0xffffffff, 49) == 0x7c231048
  {
    CrcByteIs(0xffffffff, 49, 0xffffffce, 0x7c231048);
  }

  lemma CheckDigit2()
    ensures CrcByte(0x7c231048, 50) == 0xb0acbb32
  {
    CrcByteIs(0x7c231048, 50, 0x7c23107a, 0xb0acbb32);
  }

  lemma CheckDigit3()
    ensures CrcByte(0xb0acbb32, 51) == 0x77b79c2d
  {
    CrcByteIs(0xb0acbb32, 51, 0xb0acbb01, 0x77b79c2d);
  }

  lemma CheckDigit4()
    ensures CrcByte(0x77b79c2d, 52) == 0x641c1f5c
  {
    CrcByteIs(0x77b79c2d, 52, 0x77b79c19, 0x641c1f5c);
  }

  lemma CheckDigit5()
    ensures CrcByte(0x641c1f5c, 53) == 0x340ac5e3
  {
    CrcByteIs(0x641c1f5c, 53, 0x641c1f69, 0x340ac5e3);
  }

  lemma CheckDigit6()
    ensures CrcByte(0x340ac5e3, 54) == 0xf68d2c9e
  {
    CrcByteIs(0x340ac5e3, 54, 0x340ac5d5, 0xf68d2c9e);
  }

  lemma CheckDigit7()
    ensures CrcByte(0xf68d2c9e, 55) == 0xaffc9660
  {
    CrcByteIs(0xf68d2c9e, 55, 0xf68d2ca9, 0xaffc9660);
  }

  lemma CheckDigit8()
    ensures CrcByte(0xaffc9660, 56) == 0x651f2550
  {
    CrcByteIs(0xaffc9660, 56, 0xaffc9658, 0x651f2550);
  }

  lemma CheckDigit9()
    ensures CrcByte(0x651f2550, 57) == 0x340bc6d9
  {
    CrcByteIs(0x651f2550, 57, 0x651f2569, 0x340bc6d9);
  }

  lemma ThreeBytes(crc: bv32, a: Byte, b: Byte, c: Byte, x: bv32, y: bv32, z: bv32)
    requires CrcByte(crc, a) == x && CrcByte(x, b) == y && CrcByte(y, c) == z
    ensures CrcRun(crc, [a, b, c]) == z
  {
    hide CrcByte;
    CrcRunMore(crc, [], a);
    CrcRunMore(crc, [a], b);
    CrcRunMore(crc, [a, b], c);
    assert CrcRun(crc, []) == crc;
    hide CrcRun;
    assert [] + [a] == [a] && [a] + [b] == [a, b] && [a, b] + [c] == [a, b, c];
  }

  lemma CheckDigits1()
    ensures CrcRun(0xffffffff, [49, 50, 51]) == 0x77b79c2d
  {
    hide CrcByte, CrcRun;
    CheckDigit1();
    CheckDigit2();
    CheckDigit3();
    ThreeBytes(0xffffffff, 49, 50, 51, 0x7c231048, 0xb0acbb32, 0x77b79c2d);
  }

  lemma CheckDigits2()
    ensures CrcRun(0x77b79c2d, [52, 53, 54]) == 0xf68d2c9e
  {
    hide CrcByte, CrcRun;
    CheckDigit4();
    CheckDigit5();
    CheckDigit6();
    ThreeBytes(0x77b79c2d, 52, 53, 54, 0x641c1f5c, 0x340ac5e3, 0xf68d2c9e);
  }

  lemma CheckDigits3()
    ensures CrcRun(0xf68d2c9e, [55, 56, 57]) == 0x340bc6d9
  {
    hide CrcByte, CrcRun;
    CheckDigit7();
    CheckDigit8();
    CheckDigit9();
    ThreeBytes(0xf68d2c9e, 55, 56, 57, 0xaffc9660, 0x651f2550, 0x340bc6d9);
  }

  /** The checksum of the nine digits: the check value of CRC-32, which the codec link's start-up tests as well. */
  lemma CheckValue()
    ensures CrcContinue(0, [49, 50, 51] + [52, 53, 54] + [55, 56, 57]) == 0xcbf43926
  {
    hide CrcRun;
    CheckDigits1();
    CheckDigits2();
    CheckDigits3();
    CrcRunAppend(0xffffffff, [49, 50, 51], [52, 53, 54]);
    CrcRunAppend(0xffffffff, [49, 50, 51] + [52, 53, 54], [55, 56, 57]);
  }

  method CrcByteLoop(start: bv32, b: Byte) returns (crc: bv32)
    ensures crc == CrcByte(start, b)
  {
    var first := start ^ (b as bv32);
    crc := first;
    for bit := 0 to 8
      invariant crc == CrcBits(first, bit)
    {
      hide CrcBit;
      crc := CrcBit(crc);
    }
  }

  method CrcContinueLoop(seed: bv32, data: seq<Byte>) returns (r: bv32)
    ensures r == CrcContinue(seed, data)
  {
    hide CrcByte, Invert;
    var crc := Invert(seed);
    for i := 0 to |data|
      invariant crc == CrcRun(Invert(seed), data[..i])
    {
      assert data[..i + 1][..i] == data[..i];
      crc := CrcByteLoop(crc, data[i]);
    }
    assert data[..|data|] == data;
    return Invert(crc);
  }

  /** Continuing over two pieces is the checksum of their concatenation. */
  lemma ChecksumChains(seed: bv32, a: seq<Byte>, b: seq<Byte>)
    ensures CrcContinue(CrcContinue(seed, a), b) == CrcContinue(seed, a + b)
  {
    hide CrcRun, Invert;
    CrcRunAppend(Invert(seed), a, b);
    InvertTwice(CrcRun(Invert(seed), a));
  }

  // --------------------------------------------------------------------------
  // Downlink
  // --------------------------------------------------------------------------

  datatype TxRecord = TxRecord(id: Byte, tx: Byte, ack: Byte, kind: Byte, payload: seq<Byte>)

  predicate SizesValid(sizes: seq<Byte>) {
    && 0 < |sizes| <= MAX_STREAMS
    && (forall i :: 0 <= i < |sizes| ==> 0 < sizes[i] <= MAX_RECORD_PAYLOAD)
    && (forall i, j :: 0 <= j < i < |sizes| ==> sizes[i] != sizes[j])
  }

  predicate FieldsOk(r: TxRecord) {
    r.id < MAX_STREAMS && r.tx <= 15 && r.ack <= 15 && r.kind <= 3 && |r.payload| <= MAX_RECORD_PAYLOAD
  }

  predicate RecordsOk(records: seq<TxRecord>, sizes: seq<Byte>) {
    && (forall i :: 0 <= i < |records| ==> FieldsOk(records[i]))
    && (forall i, j :: 0 <= i < j < |records| ==> records[i].id < records[j].id)
    && (forall i :: 0 <= i < |records| && records[i].payload != [] ==> |records[i].payload| in sizes)
    && (forall i, j :: 0 <= i < j < |records| && records[i].payload != [] && records[j].payload != [] ==>
          |records[i].payload| == |records[j].payload|)
  }

  predicate ArgumentsOk(records: seq<TxRecord>, sizes: seq<Byte>, flags: Byte) {
    && 1 <= |records| <= MAX_STREAMS && flags % 16 == 0 && flags < 128
    && SizesValid(sizes) && RecordsOk(records, sizes)
  }

  function Header(r: TxRecord): (h: seq<Byte>)
    ensures |h| == 2
  {
    [(r.tx * 16 + r.ack) % 256, (r.kind + (if r.payload == [] then 4 else 0)) % 256]
  }

  function Checksum(id: Byte, header: seq<Byte>, payload: seq<Byte>): bv32 {
    CrcContinue(CrcContinue(0xffffff00 | (id as bv32), payload), header)
  }

  /** A record's checksum is the CRC-32 of payload and header in one run, whose register starts at 255 less the stream number. */
  lemma ChecksumIs(id: Byte, header: seq<Byte>, payload: seq<Byte>)
    ensures Checksum(id, header, payload) == Invert(CrcRun(0xff ^ (id as bv32), payload + header))
  {
    hide CrcRun, Invert;
    ByteWord(id);
    var x := id as bv32;
    ChecksumChains(0xffffff00 | x, payload, header);
    StartIs(x);
  }

  lemma ByteWord(b: Byte)
    ensures (b as bv32) < 0x100
  {
  }

  lemma StartIs(x: bv32)
    requires x < 0x100
    ensures Invert(0xffffff00 | x) == 0xff ^ x
  {
  }

  function LowHalf(crc: bv32): (h: seq<Byte>)
    ensures |h| == 2
  {
    LowBytes(crc as int)
  }

  function LowBytes(v: nat): (h: seq<Byte>)
    ensures |h| == 2
  {
    [v % 256, v / 256 % 256]
  }

  /** The two bytes are the lower sixteen bits, the least significant first. */
  lemma LowBytesAre(v: nat)
    ensures var low: int, high: int := LowBytes(v)[0], LowBytes(v)[1]; low + 256 * high == v % 0x1_0000
  {
    var r := v % 0x1_0000;
    assert v == 0x1_0000 * (v / 0x1_0000) + r;
    LowTwo(v / 0x1_0000, r / 256, r % 256);
    assert r == 256 * (r / 256) + r % 256;
  }

  lemma LowTwo(q: int, a: int, b: int)
    requires 0 <= a < 256 && 0 <= b < 256
    ensures var v := 0x1_0000 * q + 256 * a + b; v % 256 == b && v / 256 % 256 == a
  {
    var v := 0x1_0000 * q + 256 * a + b;
    assert v == 256 * (256 * q + a) + b;
    assert v / 256 == 256 * q + a;
  }

  function EncodeRecord(r: TxRecord): (e: seq<Byte>)
    ensures |e| == 4 + |r.payload|
  {
    Header(r) + r.payload + LowHalf(Checksum(r.id, Header(r), r.payload))
  }

  function EncodeRecords(records: seq<TxRecord>): seq<Byte> {
    if records == [] then [] else EncodeRecord(records[0]) + EncodeRecords(records[1..])
  }

  lemma {:induction false} EncodeAppend(a: seq<TxRecord>, r: TxRecord)
    ensures EncodeRecords(a + [r]) == EncodeRecords(a) + EncodeRecord(r)
  {
    if a == [] {
      assert a + [r] == [r] && [r][1..] == [];
    } else {
      assert (a + [r])[1..] == a[1..] + [r];
      EncodeAppend(a[1..], r);
    }
  }

  /** Length of the payload shared by the records, or zero if they are all empty. */
  function SharedLength(records: seq<TxRecord>): nat {
    if records == [] then 0
    else
      var earlier := SharedLength(records[..|records| - 1]);
      if earlier != 0 then earlier else |records[|records| - 1].payload|
  }

  function IndexOf(sizes: seq<Byte>, n: nat): (k: nat)
    ensures k <= |sizes|
    ensures k < |sizes| ==> sizes[k] == n
    ensures n in sizes ==> k < |sizes|
    ensures forall j :: 0 <= j < k ==> sizes[j] != n
  {
    if sizes == [] || sizes[0] == n then 0 else 1 + IndexOf(sizes[1..], n)
  }

  function Selector(records: seq<TxRecord>, sizes: seq<Byte>): nat {
    if SharedLength(records) == 0 then 0 else IndexOf(sizes, SharedLength(records))
  }

  function MaskOf(records: seq<TxRecord>): (m: Byte)
    ensures m < 16
  {
    if records == [] then 0 else SetBit(MaskOf(records[..|records| - 1]), records[|records| - 1].id)
  }

  /** `m | (1 << k)` for a stream number `k`. */
  function SetBit(m: Byte, k: nat): (r: Byte)
    requires m < 16
    ensures r < 16
  {
    if k >= MAX_STREAMS || HasBit(m, k) then m else m + [1, 2, 4, 8][k]
  }

  lemma SetBitSets(m: Byte, k: nat, j: nat)
    requires m < 16 && k < 4 && j < 4
    ensures HasBit(SetBit(m, k), j) <==> j == k || HasBit(m, j)
  {
  }

  lemma {:induction false} MaskBits(records: seq<TxRecord>, k: nat)
    requires k < 4 && forall i :: 0 <= i < |records| ==> records[i].id < MAX_STREAMS
    ensures HasBit(MaskOf(records), k) <==> exists i :: 0 <= i < |records| && records[i].id == k
  {
    hide HasBit, SetBit;
    if records == [] {
      NoBits(k);
    } else {
      var n := |records| - 1;
      var earlier := records[..n];
      MaskBits(earlier, k);
      SetBitSets(MaskOf(earlier), records[n].id, k);
      if i :| 0 <= i < |earlier| && earlier[i].id == k { assert records[i].id == k; }
      if i :| 0 <= i < |records| && records[i].id == k && i < n { assert earlier[i].id == k; }
    }
  }

  lemma NoBits(k: nat)
    requires k < 4
    ensures !HasBit(0, k)
  {
  }

  function DownlinkBytes(records: seq<TxRecord>, sizes: seq<Byte>, flags: Byte): seq<Byte> {
    [(flags + Selector(records, sizes)) % 256] + EncodeRecords(records)
  }

  lemma SelectorFits(records: seq<TxRecord>, sizes: seq<Byte>)
    requires SizesValid(sizes) && RecordsOk(records, sizes)
    ensures SharedLength(records) != 0 ==> SharedLength(records) in sizes
    ensures Selector(records, sizes) < |sizes| && Selector(records, sizes) < 4
    ensures forall i :: 0 <= i < |records| && records[i].payload != [] ==>
              sizes[Selector(records, sizes)] == |records[i].payload|
  {
    SharedLengthIs(records, sizes);
  }

  lemma {:induction false} SharedLengthIs(records: seq<TxRecord>, sizes: seq<Byte>)
    requires RecordsOk(records, sizes)
    ensures SharedLength(records) != 0 ==> SharedLength(records) in sizes
    ensures forall i :: 0 <= i < |records| && records[i].payload != [] ==>
              SharedLength(records) == |records[i].payload|
    ensures SharedLength(records) != 0 <==> exists i :: 0 <= i < |records| && records[i].payload != []
  {
    if records != [] {
      var n := |records| - 1;
      SharedLengthIs(records[..n], sizes);
      assert forall i :: 0 <= i < n ==> records[..n][i] == records[i];
    }
  }

  /** The checks on one more record. */
  predicate NextRecordOk(earlier: seq<TxRecord>, r: TxRecord, sizes: seq<Byte>) {
    && FieldsOk(r) && (earlier != [] ==> earlier[|earlier| - 1].id < r.id)
    && (r.payload != [] ==> |r.payload| in sizes)
    && (r.payload != [] && SharedLength(earlier) != 0 ==> SharedLength(earlier) == |r.payload|)
  }

  lemma OneMoreRecord(earlier: seq<TxRecord>, r: TxRecord, sizes: seq<Byte>)
    requires RecordsOk(earlier, sizes)
    ensures RecordsOk(earlier + [r], sizes) <==> NextRecordOk(earlier, r, sizes)
  {
    SharedLengthIs(earlier, sizes);
    hide FieldsOk, SharedLength;
    var all := earlier + [r];
    var n := |earlier|;
    assert all[n] == r && forall i :: 0 <= i < n ==> all[i] == earlier[i];
    if RecordsOk(all, sizes) {
      if n > 0 { assert all[n - 1].id < all[n].id; }
      if r.payload != [] && SharedLength(earlier) != 0 {
        var i :| 0 <= i < n && earlier[i].payload != [];
        assert |all[i].payload| == |all[n].payload|;
      }
    }
  }

  lemma EarlierRecordsOk(records: seq<TxRecord>, i: nat, sizes: seq<Byte>)
    requires i <= |records| && RecordsOk(records, sizes)
    ensures RecordsOk(records[..i], sizes)
  {
    hide FieldsOk;
  }

  datatype Built = Built(written: nat, mask: Byte)

  /** Contract of the builder: what it answers, and the bytes it leaves when it succeeds. */
  ghost predicate BuildAnswers(r: Result<Built>, bytes: seq<Byte>, capacity: nat,
                               records: seq<TxRecord>, sizes: seq<Byte>, flags: Byte)
  {
    if !ArgumentsOk(records, sizes, flags) then r == Err(Argument)
    else
      var e := DownlinkBytes(records, sizes, flags);
      if |e| > MAX_AGGREGATE || |e| > capacity then r == Err(Capacity)
      else r == Ok(Built(|e|, MaskOf(records))) && |e| <= |bytes| && bytes[..|e|] == e
  }

  method FindSize(sizes: seq<Byte>, n: nat) returns (index: nat)
    ensures index == IndexOf(sizes, n)
  {
    index := 0;
    while index < |sizes| && sizes[index] != n
      invariant index <= |sizes|
      invariant IndexOf(sizes, n) == index + IndexOf(sizes[index..], n)
    {
      index := index + 1;
    }
  }

  /** The checks on one record, and the selector after it. */
  method CheckRecord(ghost earlier: seq<TxRecord>, previous: Option<Byte>, r: TxRecord, sizes: seq<Byte>,
                     selected: bool, selector: nat)
    returns (ok: bool, selectedNow: bool, selectorNow: nat)
    requires SizesValid(sizes) && (SharedLength(earlier) != 0 ==> SharedLength(earlier) in sizes)
    requires previous == if earlier == [] then None else Some(earlier[|earlier| - 1].id)
    requires selected <==> SharedLength(earlier) != 0
    requires selector == if selected then IndexOf(sizes, SharedLength(earlier)) else 0
    ensures ok <==> NextRecordOk(earlier, r, sizes)
    ensures ok ==> selectedNow == (selected || r.payload != [])
    ensures ok ==> selectorNow == NextSelector(selected, selector, r, sizes)
  {
    SameSize(sizes, SharedLength(earlier), |r.payload|);
    hide SizesValid, IndexOf, SharedLength;
    selectedNow, selectorNow := selected, selector;
    if r.id >= MAX_STREAMS || r.tx > 15 || r.ack > 15 || r.kind > 3 ||
       (previous.Some? && r.id <= previous.value) || |r.payload| > MAX_RECORD_PAYLOAD
    {
      return false, selected, selector;
    }
    if r.payload != [] {
      var index := FindSize(sizes, |r.payload|);
      if index == |sizes| || (selected && index != selector) {
        return false, selected, selector;
      }
      selectorNow, selectedNow := index, true;
    }
    ok := true;
  }

  function NextSelector(selected: bool, selector: nat, r: TxRecord, sizes: seq<Byte>): nat {
    if selected then selector else if r.payload != [] then IndexOf(sizes, |r.payload|) else 0
  }

  /** What the validating pass knows after the records so far. */
  ghost predicate Checked(earlier: seq<TxRecord>, sizes: seq<Byte>, selected: bool, selector: nat,
                          total: nat, mask: Byte)
  {
    && RecordsOk(earlier, sizes) && total == 1 + |EncodeRecords(earlier)| && mask == MaskOf(earlier)
    && (selected <==> SharedLength(earlier) != 0)
    && selector == if selected then IndexOf(sizes, SharedLength(earlier)) else 0
  }

  lemma CheckedStep(earlier: seq<TxRecord>, r: TxRecord, sizes: seq<Byte>, selected: bool, selector: nat,
                    total: nat, mask: Byte)
    requires mask < 16 && Checked(earlier, sizes, selected, selector, total, mask) && NextRecordOk(earlier, r, sizes)
    ensures Checked(earlier + [r], sizes, selected || r.payload != [], NextSelector(selected, selector, r, sizes),
                    total + 4 + |r.payload|, SetBit(mask, r.id))
  {
    hide RecordsOk, EncodeRecords, EncodeRecord, MaskOf, SetBit, SharedLength, IndexOf;
    OneMoreRecord(earlier, r, sizes);
    EncodeAppend(earlier, r);
    TotalsAppend(earlier, r);
  }

  /** The validating pass of the builder. */
  method CheckDownlink(records: seq<TxRecord>, sizes: seq<Byte>)
    returns (ok: bool, selector: nat, total: nat, mask: Byte)
    requires SizesValid(sizes) && |records| <= MAX_STREAMS
    ensures ok <==> RecordsOk(records, sizes)
    ensures ok ==> selector == Selector(records, sizes) && total == 1 + |EncodeRecords(records)| &&
                   mask == MaskOf(records)
  {
    hide SizesValid, IndexOf;
    total, mask, selector := 1, 0, 0;
    var selected := false;
    for i := 0 to |records|
      invariant mask < 16 && Checked(records[..i], sizes, selected, selector, total, mask)
    {
      ghost var earlier := records[..i];
      var r := records[i];
      assert records[..i + 1] == earlier + [r];
      SharedLengthIs(earlier, sizes);
      OneMoreRecord(earlier, r, sizes);
      if RecordsOk(records, sizes) { EarlierRecordsOk(records, i + 1, sizes); }
      hide RecordsOk, EncodeRecord, EncodeRecords, SharedLength, MaskOf, NextRecordOk, NextSelector, SetBit;
      var previous := if i == 0 then None else Some(records[i - 1].id);
      var good, selectedNow, selectorNow := CheckRecord(earlier, previous, r, sizes, selected, selector);
      if !good { return false, selector, total, mask; }
      CheckedStep(earlier, r, sizes, selected, selector, total, mask);
      hide Checked;
      selected, selector := selectedNow, selectorNow;
      mask := SetBit(mask, r.id);
      total := total + 4 + |r.payload|;
    }
    assert records[..|records|] == records;
    return true, selector, total, mask;
  }

  lemma SameSize(sizes: seq<Byte>, m: nat, n: nat)
    requires SizesValid(sizes)
    ensures IndexOf(sizes, n) == |sizes| <==> n !in sizes
    ensures m in sizes && n in sizes ==> (IndexOf(sizes, m) == IndexOf(sizes, n) <==> m == n)
  {
  }

  lemma TotalsAppend(earlier: seq<TxRecord>, r: TxRecord)
    ensures MaskOf(earlier + [r]) == SetBit(MaskOf(earlier), r.id)
    ensures SharedLength(earlier + [r]) == if SharedLength(earlier) != 0 then SharedLength(earlier) else |r.payload|
  {
    hide SetBit;
    assert (earlier + [r])[..|earlier|] == earlier;
  }

  lemma RecordFields(records: seq<TxRecord>, sizes: seq<Byte>)
    requires RecordsOk(records, sizes)
    ensures forall i :: 0 <= i < |records| ==> FieldsOk(records[i])
  {
  }

  method Store(dst: array<Byte>, at: nat, bytes: seq<Byte>) returns (next: nat)
    requires at + |bytes| <= dst.Length
    modifies dst
    ensures next == at + |bytes|
    ensures dst[..at] == old(dst[..at]) && dst[at..next] == bytes && dst[next..] == old(dst[next..])
  {
    forall i | 0 <= i < |bytes| { dst[at + i] := bytes[i]; }
    next := at + |bytes|;
  }

  method WriteRecord(dst: array<Byte>, at: nat, r: TxRecord) returns (next: nat)
    requires at + 4 + |r.payload| <= dst.Length
    modifies dst
    ensures next == at + 4 + |r.payload|
    ensures dst[..at] == old(dst[..at]) && dst[at..next] == EncodeRecord(r) && dst[next..] == old(dst[next..])
  {
    hide Header, LowHalf, CrcContinue;
    var header := Header(r);
    var crc := CrcContinueLoop(0xffffff00 | (r.id as bv32), r.payload);
    crc := CrcContinueLoop(crc, header);
    assert crc == Checksum(r.id, header, r.payload);
    next := Store(dst, at, header + r.payload + LowHalf(crc));
  }

  /** The writing pass of the builder. */
  method WriteRecords(dst: array<Byte>, first: Byte, records: seq<TxRecord>) returns (cursor: nat)
    requires 1 + |EncodeRecords(records)| <= dst.Length
    modifies dst
    ensures cursor == 1 + |EncodeRecords(records)|
    ensures dst[..cursor] == [first] + EncodeRecords(records)
    ensures dst[cursor..] == old(dst[cursor..])
  {
    hide EncodeRecord;
    ghost var total := 1 + |EncodeRecords(records)|;
    dst[0] := first;
    cursor := 1;
    for i := 0 to |records|
      invariant cursor == 1 + |EncodeRecords(records[..i])| && cursor <= total
      invariant dst[..cursor] == [first] + EncodeRecords(records[..i])
      invariant dst[total..] == old(dst[total..])
    {
      assert records[..i + 1] == records[..i] + [records[i]];
      EncodeAppend(records[..i], records[i]);
      EncodePrefix(records, i + 1);
      ghost var before := dst[..cursor];
      var stop := WriteRecord(dst, cursor, records[i]);
      assert dst[..stop] == before + dst[cursor..stop];
      cursor := stop;
    }
    assert records[..|records|] == records;
  }

  method DownlinkBuild(dst: array<Byte>, capacity: nat, records: seq<TxRecord>, sizes: seq<Byte>, flags: Byte)
    returns (r: Result<Built>)
    requires capacity <= dst.Length
    modifies dst
    ensures BuildAnswers(r, dst[..], capacity, records, sizes, flags)
    ensures r.Err? ==> dst[..] == old(dst[..])
    ensures r.Ok? ==> r.value.written <= dst.Length && dst[r.value.written..] == old(dst[r.value.written..])
  {
    hide SizesValid, RecordsOk, EncodeRecords, MaskOf, Selector;
    if |records| == 0 || |records| > MAX_STREAMS || flags % 16 != 0 || flags >= 128 || !SizesValid(sizes) {
      return Err(Argument);
    }
    var ok, selector, total, mask := CheckDownlink(records, sizes);
    if !ok { return Err(Argument); }
    SelectorFits(records, sizes);
    if total > MAX_AGGREGATE || total > capacity { return Err(Capacity); }
    FlagsSplit(flags, selector);
    var cursor := WriteRecords(dst, flags + selector, records);
    return Ok(Built(cursor, mask));
  }

  lemma {:induction false} EncodePrefix(records: seq<TxRecord>, i: nat)
    requires i <= |records|
    ensures |EncodeRecords(records[..i])| <= |EncodeRecords(records)|
    decreases |records| - i
  {
    if i == |records| {
      assert records[..i] == records;
    } else {
      assert records[..i + 1] == records[..i] + [records[i]];
      EncodeAppend(records[..i], records[i]);
      EncodePrefix(records, i + 1);
    }
  }

  // --------------------------------------------------------------------------
  // Reading a downlink back
  // --------------------------------------------------------------------------

  /** A receiver that knows only the bytes, the stream mask and the size table. It takes the
      streams of the mask in order and refuses a record whose checksum does not match. */
  function ReadRecords(src: seq<Byte>, mask: Byte, size: nat, id: nat): Option<seq<TxRecord>>
    requires id <= 4 && mask < 16
    decreases 4 - id
  {
    if id == 4 then (if src == [] then Some([]) else None)
    else if !HasBit(mask, id) then ReadRecords(src, mask, size, id + 1)
    else if |src| < 4 then None
    else
      var n := if HasBit(src[1], 2) then 0 else size;
      if |src| < 4 + n then None
      else if src[2 + n..4 + n] != LowHalf(Checksum(id, src[..2], src[2..2 + n])) then None
      else
        var rest := ReadRecords(src[4 + n..], mask, size, id + 1);
        if rest.None? then None
        else Some([TxRecord(id, src[0] / 16, src[0] % 16, src[1] % 4, src[2..2 + n])] + rest.value)
  }

  function ReadDownlink(src: seq<Byte>, mask: Byte, sizes: seq<Byte>): Option<(Byte, seq<TxRecord>)>
    requires mask < 16
  {
    if src == [] || src[0] % 4 >= |sizes| then None
    else
      var records := ReadRecords(src[1..], mask, sizes[src[0] % 4], 0);
      if records.None? then None else Some((src[0] - src[0] % 16, records.value))
  }

  /** One stream read by the receiver. */
  lemma ReadStep(src: seq<Byte>, mask: Byte, size: nat, id: nat)
    requires id < 4 && mask < 16
    ensures ReadRecords(src, mask, size, id) ==
      if !HasBit(mask, id) then ReadRecords(src, mask, size, id + 1)
      else if |src| < 4 then None
      else
        var n := if HasBit(src[1], 2) then 0 else size;
        if |src| < 4 + n then None
        else if src[2 + n..4 + n] != LowHalf(Checksum(id, src[..2], src[2..2 + n])) then None
        else
          var rest := ReadRecords(src[4 + n..], mask, size, id + 1);
          if rest.None? then None
          else Some([TxRecord(id, src[0] / 16, src[0] % 16, src[1] % 4, src[2..2 + n])] + rest.value)
  {
    hide HasBit, Checksum, LowHalf;
  }

  lemma ReadDone(mask: Byte, size: nat)
    requires mask < 16
    ensures ReadRecords([], mask, size, MAX_STREAMS) == Some([])
  {
  }

  lemma HeaderBack(r: TxRecord)
    requires FieldsOk(r)
    ensures var h := Header(r);
      h[0] / 16 == r.tx && h[0] % 16 == r.ack && h[1] % 4 == r.kind && (HasBit(h[1], 2) <==> r.payload == [])
  {
  }

  lemma ReadOne(r: TxRecord, rest: seq<Byte>, mask: Byte, size: nat)
    requires FieldsOk(r) && mask < 16 && HasBit(mask, r.id) && (r.payload != [] ==> |r.payload| == size)
    requires ReadRecords(rest, mask, size, r.id + 1).Some?
    ensures ReadRecords(EncodeRecord(r) + rest, mask, size, r.id) ==
            Some([r] + ReadRecords(rest, mask, size, r.id + 1).value)
  {
    var e := EncodeRecord(r);
    var src := e + rest;
    var n := |r.payload|;
    hide HasBit, Checksum, LowHalf, ReadRecords;
    ReadStep(src, mask, size, r.id);
    HeaderBack(r);
    hide Header;
    assert e[..2] == Header(r) && e[2..2 + n] == r.payload;
    assert e[2 + n..] == LowHalf(Checksum(r.id, Header(r), r.payload));
    assert src[..2] == e[..2] && src[2..2 + n] == e[2..2 + n] && src[2 + n..4 + n] == e[2 + n..];
    assert src[4 + n..] == rest;
    assert src[0] == Header(r)[0] && src[1] == Header(r)[1];
    assert TxRecord(r.id, src[0] / 16, src[0] % 16, src[1] % 4, src[2..2 + n]) == r;
  }

  /** The records are exactly the streams of the mask from `id` on, in increasing order. */
  ghost predicate Covers(records: seq<TxRecord>, mask: Byte, id: nat)
    requires mask < 16
  {
    && (forall i :: 0 <= i < |records| ==> id <= records[i].id < 4)
    && (forall i, j :: 0 <= i < j < |records| ==> records[i].id < records[j].id)
    && (forall k :: id <= k < 4 ==> (HasBit(mask, k) <==> exists i :: 0 <= i < |records| && records[i].id == k))
  }

  lemma CoversTail(records: seq<TxRecord>, mask: Byte, id: nat)
    requires mask < 16 && id < 4 && Covers(records, mask, id)
    ensures HasBit(mask, id) ==> records != [] && records[0].id == id && Covers(records[1..], mask, id + 1)
    ensures !HasBit(mask, id) ==> Covers(records, mask, id + 1)
  {
    hide HasBit;
    if HasBit(mask, id) {
      var i :| 0 <= i < |records| && records[i].id == id;
      var tail := records[1..];
      forall k | id + 1 <= k < 4
        ensures HasBit(mask, k) <==> exists j :: 0 <= j < |tail| && tail[j].id == k
      {
        if HasBit(mask, k) {
          var j :| 0 <= j < |records| && records[j].id == k;
          assert tail[j - 1].id == k;
        }
      }
    }
  }

  lemma {:induction false} ReadRecordsInverts(records: seq<TxRecord>, mask: Byte, size: nat, id: nat)
    requires id <= 4 && mask < 16 && Covers(records, mask, id)
    requires forall i :: 0 <= i < |records| ==> FieldsOk(records[i])
    requires forall i :: 0 <= i < |records| && records[i].payload != [] ==> |records[i].payload| == size
    ensures ReadRecords(EncodeRecords(records), mask, size, id) == Some(records)
    decreases 4 - id
  {
    hide HasBit, FieldsOk, EncodeRecord, ReadRecords;
    if id == 4 {
      assert records == [];
      ReadDone(mask, size);
    } else {
      CoversTail(records, mask, id);
      hide Covers;
      if HasBit(mask, id) {
        ReadRecordsInverts(records[1..], mask, size, id + 1);
        ReadOne(records[0], EncodeRecords(records[1..]), mask, size);
        assert records == [records[0]] + records[1..];
      } else {
        ReadStep(EncodeRecords(records), mask, size, id);
        ReadRecordsInverts(records, mask, size, id + 1);
      }
    }
  }

  /** Downlink round trip: every accepted list of records is recovered, flags included, and every
      chained checksum matches. */
  lemma DownlinkRoundTrip(records: seq<TxRecord>, sizes: seq<Byte>, flags: Byte)
    requires ArgumentsOk(records, sizes, flags)
    ensures ReadDownlink(DownlinkBytes(records, sizes, flags), MaskOf(records), sizes) == Some((flags, records))
  {
    hide Selector, MaskOf, ReadRecords, EncodeRecords, Covers;
    RecordFields(records, sizes);
    SelectorFits(records, sizes);
    MaskCovers(records);
    var src := DownlinkBytes(records, sizes, flags);
    var selector := Selector(records, sizes);
    FlagsSplit(flags, selector);
    assert src[0] == flags + selector && src[1..] == EncodeRecords(records);
    ReadRecordsInverts(records, MaskOf(records), sizes[selector], 0);
  }

  lemma FlagsSplit(flags: Byte, selector: nat)
    requires flags % 16 == 0 && flags < 128 && selector < 4
    ensures flags + selector < 256 && (flags + selector) % 4 == selector && flags + selector - (flags + selector) % 16 == flags
  {
  }

  lemma MaskCovers(records: seq<TxRecord>)
    requires forall i :: 0 <= i < |records| ==> records[i].id < MAX_STREAMS
    requires forall i, j :: 0 <= i < j < |records| ==> records[i].id < records[j].id
    ensures Covers(records, MaskOf(records), 0)
  {
    hide HasBit;
    forall k | 0 <= k < 4
      ensures HasBit(MaskOf(records), k) <==> exists i :: 0 <= i < |records| && records[i].id == k
    {
      MaskBits(records, k);
    }
  }

  // --------------------------------------------------------------------------
  // Uplink
  // --------------------------------------------------------------------------

  type Nibble = n: int | 0 <= n < 16

  datatype RxRecord = RxRecord(id: nat, tx: Nibble, ack: Nibble, flags: Byte, payload: seq<Byte>)
  datatype Control = Control(header: Byte, payload: seq<Byte>)
  datatype Parsed = Parsed(records: seq<RxRecord>, control: Option<Control>)

  /** The record prefix: the streams of the mask in order, starting at `cursor`. */
  function ParseRecords(src: seq<Byte>, cursor: nat, mask: Byte, size: nat, id: nat, acc: seq<RxRecord>)
    : Option<(seq<RxRecord>, nat)>
    requires cursor <= |src| && id <= 4 && mask < 16
    decreases 4 - id
  {
    if id == 4 then Some((acc, cursor))
    else if !HasBit(mask, id) then ParseRecords(src, cursor, mask, size, id + 1, acc)
    else if |src| - cursor < 2 then None
    else
      var n := if HasBit(src[cursor + 1], 2) || HasBit(src[cursor + 1], 3) then 0 else size;
      if n > |src| - (cursor + 2) then None
      else ParseRecords(src, cursor + 2 + n, mask, size, id + 1,
                        acc + [RxRecord(id, src[cursor] / 16, src[cursor] % 16, src[cursor + 1],
                                        src[cursor + 2..cursor + 2 + n])])
  }

  /** One stream of the record prefix. */
  lemma ParseStep(src: seq<Byte>, cursor: nat, mask: Byte, size: nat, id: nat, acc: seq<RxRecord>)
    requires cursor <= |src| && id < 4 && mask < 16
    ensures ParseRecords(src, cursor, mask, size, id, acc) ==
      if !HasBit(mask, id) then ParseRecords(src, cursor, mask, size, id + 1, acc)
      else if |src| - cursor < 2 then None
      else
        var n := if HasBit(src[cursor + 1], 2) || HasBit(src[cursor + 1], 3) then 0 else size;
        if n > |src| - (cursor + 2) then None
        else ParseRecords(src, cursor + 2 + n, mask, size, id + 1,
                          acc + [RxRecord(id, src[cursor] / 16, src[cursor] % 16, src[cursor + 1],
                                          src[cursor + 2..cursor + 2 + n])])
  {
    hide HasBit;
  }

  lemma ParseDone(src: seq<Byte>, cursor: nat, mask: Byte, size: nat, acc: seq<RxRecord>)
    requires cursor <= |src| && mask < 16
    ensures ParseRecords(src, cursor, mask, size, MAX_STREAMS, acc) == Some((acc, cursor))
  {
  }

  predicate TailOk(tail: seq<Byte>) {
    |tail| >= 2 && |tail| - 2 == tail[1] && tail[0] % 4 != 0 && (tail[1] == 0 ==> tail[0] % 4 == 1)
  }

  function ParseUplink(src: seq<Byte>, mask: Byte, sizes: seq<Byte>, capacity: nat, hasControl: bool): Result<Parsed> {
    if mask == 0 || mask >= 16 || !SizesValid(sizes) then Err(Argument)
    else if |src| == 0 || |src| > MAX_AGGREGATE || src[0] % 4 >= |sizes| then Err(Malformed)
    else
      var prefix := ParseRecords(src, 1, mask, sizes[src[0] % 4], 0, []);
      if prefix.None? then Err(Malformed)
      else
        var (records, cursor) := prefix.value;
        if cursor > |src| || (hasControl && !TailOk(src[cursor..])) || (!hasControl && cursor != |src|) then Err(Malformed)
        else if |records| > capacity then Err(Capacity)
        else Ok(Parsed(records, if hasControl then Some(Control(src[cursor], src[cursor + 2..])) else None))
  }

  method UplinkParse(src: seq<Byte>, mask: Byte, sizes: seq<Byte>, capacity: nat, hasControl: bool)
    returns (r: Result<Parsed>)
    ensures r == ParseUplink(src, mask, sizes, capacity, hasControl)
  {
    hide HasBit, ParseRecords;
    if mask == 0 || mask >= 16 || !SizesValid(sizes) { return Err(Argument); }
    hide SizesValid;
    if |src| == 0 || |src| > MAX_AGGREGATE { return Err(Malformed); }
    var selector := src[0] % 4;
    if selector >= |sizes| { return Err(Malformed); }
    var decoded: seq<RxRecord> := [];
    var cursor := 1;
    var id := 0;
    while id < MAX_STREAMS
      invariant 0 <= id <= 4 && 0 <= cursor <= |src|
      invariant ParseRecords(src, 1, mask, sizes[selector], 0, []) ==
                ParseRecords(src, cursor, mask, sizes[selector], id, decoded)
    {
      ParseStep(src, cursor, mask, sizes[selector], id, decoded);
      if HasBit(mask, id) {
        if |src| - cursor < 2 { return Err(Malformed); }
        var first, second := src[cursor], src[cursor + 1];
        cursor := cursor + 2;
        var bytes := if HasBit(second, 2) || HasBit(second, 3) then 0 else sizes[selector];
        if bytes > |src| - cursor { return Err(Malformed); }
        decoded := decoded + [RxRecord(id, first / 16, first % 16, second, src[cursor..cursor + bytes])];
        cursor := cursor + bytes;
      }
      id := id + 1;
    }
    ParseDone(src, cursor, mask, sizes[selector], decoded);
    var tail: Option<Control> := None;
    var records := decoded;
    var stop := cursor;
    if hasControl {
      if |src| - cursor < 2 || |src| - cursor - 2 != src[cursor + 1] || src[cursor] % 4 == 0 ||
         (src[cursor + 1] == 0 && src[cursor] % 4 != 1) {
        return Err(Malformed);
      }
      tail := Some(Control(src[cursor], src[cursor + 2..]));
      stop := |src|;
    }
    if stop != |src| { return Err(Malformed); }
    if |records| > capacity { return Err(Capacity); }
    return Ok(Parsed(records, tail));
  }

  /** A simple serializer of records, in order, followed by an optional control trailer. */
  function SerializeRecord(r: RxRecord): (s: seq<Byte>)
    ensures |s| == 2 + |r.payload|
  {
    [r.tx * 16 + r.ack, r.flags] + r.payload
  }

  function SerializeRecords(records: seq<RxRecord>): seq<Byte> {
    if records == [] then [] else SerializeRecord(records[0]) + SerializeRecords(records[1..])
  }

  function SerializeControl(control: Option<Control>): seq<Byte>
    requires control.Some? ==> |control.value.payload| < 256
  {
    if control.None? then [] else [control.value.header, |control.value.payload|] + control.value.payload
  }

  /** Which records and trailer a peer may put under this mask, selector size and aggregate limit. */
  ghost predicate Sendable(p: Parsed, mask: Byte, size: nat) {
    && (forall i :: 0 <= i < |p.records| ==> SendableRecord(p.records[i], size))
    && OrderedFrom(p.records, mask, 0)
    && (p.control.Some? ==> |p.control.value.payload| < 256 && p.control.value.header % 4 != 0 &&
                            (p.control.value.payload == [] ==> p.control.value.header % 4 == 1))
  }

  predicate SendableRecord(r: RxRecord, size: nat) {
    |r.payload| == if HasBit(r.flags, 2) || HasBit(r.flags, 3) then 0 else size
  }

  /** The records are exactly the streams of the mask from `id` on, in increasing order. */
  ghost predicate OrderedFrom(records: seq<RxRecord>, mask: Byte, id: nat)
    requires id <= 4
    decreases 4 - id
  {
    if id == 4 then records == []
    else if HasBit(mask, id) then records != [] && records[0].id == id && OrderedFrom(records[1..], mask, id + 1)
    else OrderedFrom(records, mask, id + 1)
  }

  lemma NibblesSplit(high: Nibble, low: Nibble)
    ensures (high * 16 + low) / 16 == high && (high * 16 + low) % 16 == low
  {
  }

  lemma ParseOneSerialized(head: seq<Byte>, r: RxRecord, rest: seq<Byte>, mask: Byte, size: nat, acc: seq<RxRecord>)
    requires r.id < 4 && mask < 16 && HasBit(mask, r.id) && SendableRecord(r, size)
    ensures var src := head + SerializeRecord(r) + rest;
      ParseRecords(src, |head|, mask, size, r.id, acc) ==
      ParseRecords(src, |head + SerializeRecord(r)|, mask, size, r.id + 1, acc + [r])
  {
    hide HasBit, ParseRecords;
    var src := head + SerializeRecord(r) + rest;
    var c := |head|;
    var n := |r.payload|;
    ParseStep(src, c, mask, size, r.id, acc);
    assert src[c..c + 2 + n] == SerializeRecord(r);
    assert src[c] == src[c..c + 2 + n][0] && src[c + 1] == src[c..c + 2 + n][1];
    assert src[c + 2..c + 2 + n] == src[c..c + 2 + n][2..] == r.payload;
    NibblesSplit(r.tx, r.ack);
    assert RxRecord(r.id, src[c] / 16, src[c] % 16, src[c + 1], src[c + 2..c + 2 + n]) == r;
  }

  lemma {:induction false} ParseSerialized(head: seq<Byte>, records: seq<RxRecord>, tail: seq<Byte>, mask: Byte,
                                           size: nat, id: nat, acc: seq<RxRecord>)
    requires id <= 4 && mask < 16
    requires forall i :: 0 <= i < |records| ==> SendableRecord(records[i], size)
    requires OrderedFrom(records, mask, id)
    ensures ParseRecords(head + SerializeRecords(records) + tail, |head|, mask, size, id, acc) ==
            Some((acc + records, |head + SerializeRecords(records)|))
    decreases 4 - id
  {
    hide HasBit, SendableRecord, SerializeRecord, ParseRecords;
    var src := head + SerializeRecords(records) + tail;
    if id == 4 {
      assert acc + records == acc;
      ParseDone(src, |head|, mask, size, acc);
    } else if HasBit(mask, id) {
      var r := records[0];
      var more := records[1..];
      var next := head + SerializeRecord(r);
      assert src == next + SerializeRecords(more) + tail;
      assert src == head + SerializeRecord(r) + (SerializeRecords(more) + tail);
      assert next + SerializeRecords(more) == head + SerializeRecords(records);
      ParseOneSerialized(head, r, SerializeRecords(more) + tail, mask, size, acc);
      ParseSerialized(next, more, tail, mask, size, id + 1, acc + [r]);
      assert acc + [r] + more == acc + records;
    } else {
      ParseStep(src, |head|, mask, size, id, acc);
      ParseSerialized(head, records, tail, mask, size, id + 1, acc);
    }
  }

  /** What a successful parse leaves: sendable records in mask order that serialize to what was read. */
  ghost predicate ReadExactly(src: seq<Byte>, cursor: nat, mask: Byte, size: nat, id: nat, acc: seq<RxRecord>,
                              records: seq<RxRecord>, stop: nat)
    requires id <= 4
  {
    && cursor <= stop <= |src| && acc <= records
    && (forall i :: |acc| <= i < |records| ==> SendableRecord(records[i], size))
    && OrderedFrom(records[|acc|..], mask, id)
    && src[cursor..stop] == SerializeRecords(records[|acc|..])
  }

  lemma ReadOneMore(src: seq<Byte>, cursor: nat, mask: Byte, size: nat, id: nat, acc: seq<RxRecord>, r: RxRecord,
                    records: seq<RxRecord>, stop: nat)
    requires id < 4 && r.id == id && HasBit(mask, id) && SendableRecord(r, size)
    requires cursor + 2 + |r.payload| <= |src|
    requires src[cursor..cursor + 2 + |r.payload|] == SerializeRecord(r)
    requires ReadExactly(src, cursor + 2 + |r.payload|, mask, size, id + 1, acc + [r], records, stop)
    ensures ReadExactly(src, cursor, mask, size, id, acc, records, stop)
  {
    hide HasBit, SendableRecord, SerializeRecord;
    var n := |r.payload|;
    var rest := records[|acc| + 1..];
    assert (acc + [r])[|acc|] == r && records[|acc|] == r;
    assert records[|acc|..] == [r] + rest && records[|acc|..][1..] == rest;
    assert acc == (acc + [r])[..|acc|] == records[..|acc|];
    assert src[cursor..stop] == src[cursor..cursor + 2 + n] + src[cursor + 2 + n..stop];
  }

  lemma {:induction false} ParsedIsSerialized(src: seq<Byte>, cursor: nat, mask: Byte, size: nat, id: nat,
                                              acc: seq<RxRecord>)
    requires cursor <= |src| && id <= 4 && mask < 16
    requires ParseRecords(src, cursor, mask, size, id, acc).Some?
    ensures var (records, stop) := ParseRecords(src, cursor, mask, size, id, acc).value;
      ReadExactly(src, cursor, mask, size, id, acc, records, stop)
    decreases 4 - id
  {
    hide HasBit, ParseRecords;
    if id == 4 {
      ParseDone(src, cursor, mask, size, acc);
    } else {
      ParseStep(src, cursor, mask, size, id, acc);
      var (records, stop) := ParseRecords(src, cursor, mask, size, id, acc).value;
      hide ReadExactly;
      if HasBit(mask, id) {
        var n := if HasBit(src[cursor + 1], 2) || HasBit(src[cursor + 1], 3) then 0 else size;
        var r := RxRecord(id, src[cursor] / 16, src[cursor] % 16, src[cursor + 1],
                          src[cursor + 2..cursor + 2 + n]);
        ParsedIsSerialized(src, cursor + 2 + n, mask, size, id + 1, acc + [r]);
        assert src[cursor..cursor + 2 + n] == SerializeRecord(r);
        ReadOneMore(src, cursor, mask, size, id, acc, r, records, stop);
      } else {
        ParsedIsSerialized(src, cursor, mask, size, id + 1, acc);
        ReadSkips(src, cursor, mask, size, id, acc, records, stop);
      }
    }
  }

  lemma ReadSkips(src: seq<Byte>, cursor: nat, mask: Byte, size: nat, id: nat, acc: seq<RxRecord>,
                  records: seq<RxRecord>, stop: nat)
    requires id < 4 && !HasBit(mask, id) && ReadExactly(src, cursor, mask, size, id + 1, acc, records, stop)
    ensures ReadExactly(src, cursor, mask, size, id, acc, records, stop)
  {
  }

  /** Uplink round trip, in both directions: the parser accepts a byte string exactly when a
      serializer of sendable records and an optional trailer produces it, whatever the six unused
      bits of the first byte, and then returns precisely what was serialized. */
  lemma UplinkAcceptsExactly(src: seq<Byte>, mask: Byte, sizes: seq<Byte>, hasControl: bool, p: Parsed)
    requires SizesValid(sizes) && 0 < mask < 16 && 0 < |src| <= MAX_AGGREGATE && src[0] % 4 < |sizes|
    ensures ParseUplink(src, mask, sizes, 4, hasControl) == Ok(p) <==>
      && Sendable(p, mask, sizes[src[0] % 4]) && p.control.Some? == hasControl
      && src[1..] == SerializeRecords(p.records) + SerializeControl(p.control)
  {
    if ParseUplink(src, mask, sizes, 4, hasControl) == Ok(p) {
      AcceptedIsSerialized(src, mask, sizes, hasControl, p);
    }
    if && Sendable(p, mask, sizes[src[0] % 4]) && p.control.Some? == hasControl
       && src[1..] == SerializeRecords(p.records) + SerializeControl(p.control)
    {
      SerializedIsAccepted(src, mask, sizes, hasControl, p);
    }
  }

  lemma AcceptedIsSerialized(src: seq<Byte>, mask: Byte, sizes: seq<Byte>, hasControl: bool, p: Parsed)
    requires SizesValid(sizes) && 0 < mask < 16 && 0 < |src| <= MAX_AGGREGATE && src[0] % 4 < |sizes|
    requires ParseUplink(src, mask, sizes, 4, hasControl) == Ok(p)
    ensures Sendable(p, mask, sizes[src[0] % 4]) && p.control.Some? == hasControl
    ensures src[1..] == SerializeRecords(p.records) + SerializeControl(p.control)
  {
    var size := sizes[src[0] % 4];
    ParsedIsSerialized(src, 1, mask, size, 0, []);
    hide ParseRecords, SerializeRecords, SendableRecord, OrderedFrom, HasBit, SizesValid;
    var (records, cursor) := ParseRecords(src, 1, mask, size, 0, []).value;
    assert records[0..] == records;
    assert src[1..] == src[1..cursor] + src[cursor..];
    if hasControl {
      var tail := src[cursor..];
      assert TailOk(tail) && tail[0] == src[cursor] && tail[1] == src[cursor + 1] && tail[2..] == src[cursor + 2..];
      assert tail == SerializeControl(p.control);
    } else {
      assert src[cursor..] == [];
    }
  }

  lemma SerializedIsAccepted(src: seq<Byte>, mask: Byte, sizes: seq<Byte>, hasControl: bool, p: Parsed)
    requires SizesValid(sizes) && 0 < mask < 16 && 0 < |src| <= MAX_AGGREGATE && src[0] % 4 < |sizes|
    requires Sendable(p, mask, sizes[src[0] % 4]) && p.control.Some? == hasControl
    requires src[1..] == SerializeRecords(p.records) + SerializeControl(p.control)
    ensures ParseUplink(src, mask, sizes, 4, hasControl) == Ok(p)
  {
    hide ParseRecords, SerializeRecords, SendableRecord, HasBit, SizesValid, OrderedFrom;
    var tail := SerializeControl(p.control);
    var size := sizes[src[0] % 4];
    OrderedCount(p.records, mask, 0);
    ParseSerialized([src[0]], p.records, tail, mask, size, 0, []);
    assert src == [src[0]] + SerializeRecords(p.records) + tail;
    assert [] + p.records == p.records;
    var cursor := |[src[0]] + SerializeRecords(p.records)|;
    assert src[cursor..] == tail;
    assert ParseRecords(src, 1, mask, size, 0, []) == Some((p.records, cursor));
    if hasControl {
      ControlBack(src, cursor, p.control.value);
    }
  }

  lemma ControlBack(src: seq<Byte>, cursor: nat, control: Control)
    requires cursor <= |src| && |control.payload| < 256 && control.header % 4 != 0
    requires control.payload == [] ==> control.header % 4 == 1
    requires src[cursor..] == SerializeControl(Some(control))
    ensures TailOk(src[cursor..]) && Control(src[cursor], src[cursor + 2..]) == control
  {
    var tail := src[cursor..];
    assert src[cursor] == tail[0] && src[cursor + 2..] == tail[2..] == control.payload;
  }

  lemma {:induction false} OrderedCount(records: seq<RxRecord>, mask: Byte, id: nat)
    requires id <= 4 && OrderedFrom(records, mask, id)
    ensures |records| <= 4 - id
    decreases 4 - id
  {
    if id < 4 {
      OrderedCount(if HasBit(mask, id) then records[1..] else records, mask, id + 1);
    }
  }
}
