/**
 Prepared packets (tone_trial.c, tone_packet.c): the builder of one frame's packet, the caches of
 already built packets, and the theorem that reusing a cached packet gives exactly what a
 fresh build would give, for the radio and for the audio queue.
 */
module PacketCache {
  import opened Words
  import A = AirFrame
  import S = AirSession
  import C = ChannelSelection
  import F = AirFeedback
  import Q = AudioQueue

  type Nibble = A.Nibble
  type Pair = p: seq<Nibble> | |p| == 2 witness [0, 0]

  const MaxParent := 68
  const RecordBytes: Byte := 95
  const PollShift := 40    // half-microseconds
  const ReceiveShift := 1600

  datatype Parent = Parent(header: Byte, payload: seq<Byte>)

  const NoParent := Parent(0, [])

  /**
   One session: its plan, the sealing of a packet's content under the session's key (a function of
   the associated data and the content) and the bytes of encoded audio records.
   */
  datatype Session = Session(
    plan: S.Plan, seal: (Byte, seq<Byte>) -> Option<seq<Byte>>, bytes: int -> seq<Byte>)

  predicate SessionOk(se: Session) {
    |se.plan.e2| == S.E2_BYTES
  }

  // --------------------------------------------------------------------------
  // The builder
  // --------------------------------------------------------------------------

  /** Everything that decides the content of a frame's packet, except its audio. */
  datatype Vector = Vector(mask: Byte, tx: Pair, ack: Pair, parent: Parent)

  datatype Packet = Packet(hs: S.Hs, hus: S.Hus, channel: nat, pdu: seq<Byte>)

  /** Prepared content: the packet without its two header bytes, and where and when it goes. */
  datatype Built = Built(hs: S.Hs, hus: S.Hus, channel: nat, header: Byte, wire: seq<Byte>, receive: bool, stereo: bool)

  function Receives(index: nat): bool {
    index < 2
  }

  predicate Polls(index: nat, mask: Byte) {
    mask == 2 && !Receives(index)
  }

  predicate AcksParent(index: nat, mask: Byte, parent: Parent) {
    mask == 6 && !Receives(index) && parent.header != 0
  }

  function Record(id: Byte, v: Vector, payload: seq<Byte>): A.TxRecord
    requires 1 <= id <= 2
  {
    A.TxRecord(id, v.tx[id - 1], v.ack[id - 1], 0, payload)
  }

  function Records(se: Session, v: Vector, audio: Option<Q.Frame>): seq<A.TxRecord> {
    var left := if audio.Some? then se.bytes(audio.value.left) else [];
    var right := if audio.Some? then se.bytes(audio.value.right) else [];
    (if A.HasBit(v.mask, 1) then [Record(1, v, left)] else []) + (if A.HasBit(v.mask, 2) then [Record(2, v, right)] else [])
  }

  /** The control trailer inside the sealed content; None when the arguments do not fit together. */
  function Trailer(mask: Byte, header: Byte, aad: Byte, empty: bool, stereo: bool, parent: Parent, room: int): Option<seq<Byte>> {
    var n := |parent.payload|;
    var shape := if stereo then mask == 6 && header == 0x32 && aad == 0x22 && n == 0
                 else empty && mask == 2 && header == 0x11 && aad == 1;
    var low := parent.header % 4 + parent.header / 16 * 16;
    if !shape || n > MaxParent || low != (if n != 0 then 3 else 1) || 2 + n > room then None
    else Some([parent.header, n] + parent.payload)
  }

  predicate GoodMask(mask: Byte) {
    mask == 2 || mask == 4 || mask == 6
  }

  /** The plan's channel map marks the channel as used. */
  predicate UsedBy(plan: S.Plan, channel: nat)
    requires |plan.e2| == S.E2_BYTES
  {
    channel < 37 && S.MapBit(plan.e2[19..24], channel) == 1
  }

  /** The records and the trailer, before sealing. */
  function Content(se: Session, header: Byte, aad: Byte, v: Vector, audio: Option<Q.Frame>,
                   trailer: Option<Parent>, stereo: bool): Option<seq<Byte>> {
    var records := Records(se, v, audio);
    if !GoodMask(v.mask) || !A.ArgumentsOk(records, [RecordBytes], 0) then None
    else
      var body := A.DownlinkBytes(records, [RecordBytes], 0);
      if |body| > 201 || header / 8 % 16 != A.MaskOf(records) then None
      else if trailer.None? then Some(body)
      else
        var tail := Trailer(v.mask, header, aad, audio.None?, stereo, trailer.value, 201 - |body|);
        if tail.None? then None else Some(body + tail.value)
  }

  /** Channel of a frame's first subevent. */
  function ChannelAt(plan: S.Plan, index: nat): Option<nat>
    requires |plan.e2| == S.E2_BYTES
  {
    C.Channel(plan.aa, (plan.counter + index) % 0x1_0000, plan.e2[19..24], 1)
  }

  function Sealed(se: Session, header: Byte, aad: Byte, content: seq<Byte>): Option<seq<Byte>> {
    var sealed := se.seal(aad, content);
    if sealed.None? || |sealed.value| != |content| + 4 then None
    else Some([header, (|content| + 4) % 256] + sealed.value)
  }

  /** The first-subevent packet of a frame (tone_packet.c). */
  function BuildPacket(se: Session, index: nat, header: Byte, aad: Byte, v: Vector, audio: Option<Q.Frame>,
                       trailer: Option<Parent>, stereo: bool): Option<Packet>
    requires SessionOk(se)
  {
    var content := Content(se, header, aad, v, audio, trailer, stereo);
    var channel := ChannelAt(se.plan, index);
    if se.plan.e2[0] != 0xe2 || content.None? || channel.None? then None
    else
      var pdu := Sealed(se, header, aad, content.value);
      var start := S.SessionTime(se.plan, index, 0);
      if pdu.None? then None else Some(Packet(start.0, start.1, channel.value, pdu.value))
  }

  function HeaderOf(index: nat, v: Vector): Byte {
    (v.mask * 8 + (if Polls(index, v.mask) then 1 else if AcksParent(index, v.mask, v.parent) then 2 else 0)) % 256
  }

  function MaskedAad(header: Byte): Byte {
    header % 4 + header / 32 * 32
  }

  function ExpectedLength(index: nat, v: Vector, empty: bool): nat {
    if Polls(index, v.mask) then 13 + |v.parent.payload|
    else (if empty then (if v.mask == 6 then 15 else 11) else if v.mask == 6 then 205 else 106) +
         (if AcksParent(index, v.mask, v.parent) then 2 else 0)
  }

  function Later(hs: S.Hs, hus: S.Hus, shift: nat): (S.Hs, S.Hus) {
    ((hs + (hus + shift) / 625) % S.CLOCK, (hus + shift) % 625)
  }

  /** A fresh build of one frame (build_prepared_frame), given the audio selected for it. */
  function Fresh(se: Session, index: nat, v: Vector, audio: Option<Q.Frame>): Option<Built>
    requires SessionOk(se)
  {
    var header := HeaderOf(index, v);
    var polls, acks := Polls(index, v.mask), AcksParent(index, v.mask, v.parent);
    if acks && (v.parent.payload != [] || v.parent.header % 4 + v.parent.header / 16 * 16 != 1) then None
    else
      var packet := BuildPacket(se, index, header, MaskedAad(header), v, audio,
                                if polls then Some(v.parent) else if acks then Some(Parent(v.parent.header, [])) else None, acks);
      if packet.None? then None
      else
        var p := packet.value;
        if |p.pdu| < 2 || |p.pdu| != ExpectedLength(index, v, audio.None?) || p.pdu[0] != header || p.pdu[1] != |p.pdu| - 2 then None
        else
          var (hs, hus) := Later(p.hs, p.hus, if polls then PollShift else if Receives(index) then ReceiveShift else 0);
          Some(Built(hs, hus, p.channel, header, p.pdu[2..], Receives(index), v.mask == 6 && audio.Some?))
  }

  lemma ContentUnused(se: Session, header: Byte, aad: Byte, v: Vector, audio: Option<Q.Frame>)
    ensures Content(se, header, aad, v, audio, None, false) == Content(se, header, aad, v.(parent := NoParent), audio, None, false)
  {
    assert Records(se, v, audio) == Records(se, v.(parent := NoParent), audio);
    hide Records, GoodMask, Trailer;
  }

  lemma PacketUnused(se: Session, index: nat, header: Byte, aad: Byte, v: Vector, audio: Option<Q.Frame>)
    requires SessionOk(se)
    ensures BuildPacket(se, index, header, aad, v, audio, None, false) ==
            BuildPacket(se, index, header, aad, v.(parent := NoParent), audio, None, false)
  {
    hide Content, ChannelAt, Sealed;
    ContentUnused(se, header, aad, v, audio);
  }

  /** Without poll or acknowledgement the parent's packet does not matter. */
  lemma ParentUnused(se: Session, index: nat, v: Vector, audio: Option<Q.Frame>)
    requires SessionOk(se) && !Polls(index, v.mask) && !AcksParent(index, v.mask, v.parent)
    ensures Fresh(se, index, v, audio) == Fresh(se, index, v.(parent := NoParent), audio)
  {
    var w := v.(parent := NoParent);
    assert HeaderOf(index, v) == HeaderOf(index, w);
    assert ExpectedLength(index, v, audio.None?) == ExpectedLength(index, w, audio.None?);
    hide HeaderOf, MaskedAad, Later, BuildPacket, ExpectedLength;
    var header := HeaderOf(index, v);
    PacketUnused(se, index, header, MaskedAad(header), v, audio);
  }

  // --------------------------------------------------------------------------
  // What a built packet carries
  // --------------------------------------------------------------------------

  function Tail(index: nat, v: Vector): seq<Byte> {
    if Polls(index, v.mask) then [v.parent.header, |v.parent.payload| % 256] + v.parent.payload
    else if AcksParent(index, v.mask, v.parent) then [v.parent.header, 0]
    else []
  }

  // --------------------------------------------------------------------------
  // Which packets can be built
  // --------------------------------------------------------------------------

  /** Encoded records have their 95 bytes, and sealing always succeeds, four bytes longer. */
  ghost predicate GoodCoding(se: Session) {
    (forall n :: |se.bytes(n)| == 95) &&
    (forall aad: Byte, c: seq<Byte> :: |c| <= 201 ==> se.seal(aad, c).Some? && |se.seal(aad, c).value| == |c| + 4)
  }

  /** The parent's packet fits: a poll takes any of the two kinds beside empty records, an acknowledgement only an empty one. */
  predicate ParentFits(index: nat, v: Vector, audio: Option<Q.Frame>) {
    var low := v.parent.header % 4 + v.parent.header / 16 * 16;
    if v.mask == 2 && index >= 2 then audio.None? && |v.parent.payload| <= 68 && low == (if v.parent.payload == [] then 1 else 3)
    else v.mask == 6 && index >= 2 && v.parent.header != 0 ==> v.parent.payload == [] && low == 1
  }

  function Streams(mask: Byte): nat {
    if mask == 6 then 2 else 1
  }

  function BodyBytes(v: Vector, audio: Option<Q.Frame>): nat {
    1 + Streams(v.mask) * (if audio.Some? then 99 else 4)
  }

  lemma RecordsShape(se: Session, v: Vector, audio: Option<Q.Frame>)
    requires GoodCoding(se) && GoodMask(v.mask)
    ensures var records := Records(se, v, audio);
      |records| == Streams(v.mask) && A.ArgumentsOk(records, [RecordBytes], 0) &&
      A.EncodeRecords(records) == A.EncodeRecord(records[0]) + (if v.mask == 6 then A.EncodeRecord(records[1]) else [])
  {
    hide A.EncodeRecord;
    var records := Records(se, v, audio);
    assert A.EncodeRecords(records[1..]) == if v.mask == 6 then A.EncodeRecord(records[1]) else [] by {
      if v.mask == 6 { assert records[1..] == [records[1]] && A.EncodeRecords([records[1]][1..]) == []; }
    }
  }

  /** What the record of a stream says: plain kind, that stream's sequence and acknowledgement, and its side of the audio. */
  predicate RecordSays(se: Session, r: A.TxRecord, id: nat, v: Vector, audio: Option<Q.Frame>) {
    1 <= id <= 2 && r.id == id && r.kind == 0 && r.tx == v.tx[id - 1] && r.ack == v.ack[id - 1] &&
    r.payload == if audio.None? then [] else se.bytes(if id == 1 then audio.value.left else audio.value.right)
  }

  /** One record for each stream of the mask, the first before the second. */
  lemma RecordsSay(se: Session, v: Vector, audio: Option<Q.Frame>)
    requires GoodMask(v.mask)
    ensures var records := Records(se, v, audio);
      |records| == Streams(v.mask) && RecordSays(se, records[0], if v.mask == 4 then 2 else 1, v, audio) &&
      (v.mask == 6 ==> RecordSays(se, records[1], 2, v, audio))
  {
  }

  lemma RecordsMask(se: Session, v: Vector, audio: Option<Q.Frame>)
    requires GoodMask(v.mask)
    ensures A.MaskOf(Records(se, v, audio)) == v.mask
  {
    var records := Records(se, v, audio);
    assert A.MaskOf([]) == 0;
    assert records[..|records| - 1] == if v.mask == 6 then [records[0]] else [];
    if v.mask == 6 { assert records[..1][..0] == []; }
  }

  lemma BodyLength(se: Session, v: Vector, audio: Option<Q.Frame>)
    requires GoodCoding(se) && GoodMask(v.mask)
    ensures |A.DownlinkBytes(Records(se, v, audio), [RecordBytes], 0)| == BodyBytes(v, audio)
  {
    hide A.EncodeRecord, A.Selector, A.EncodeRecords, A.ArgumentsOk;
    RecordsShape(se, v, audio);
  }

  function TrailerFor(index: nat, v: Vector): Option<Parent> {
    if Polls(index, v.mask) then Some(v.parent)
    else if AcksParent(index, v.mask, v.parent) then Some(Parent(v.parent.header, []))
    else None
  }

  function ContentFor(se: Session, index: nat, v: Vector, audio: Option<Q.Frame>): Option<seq<Byte>> {
    var header := HeaderOf(index, v);
    Content(se, header, MaskedAad(header), v, audio, TrailerFor(index, v), AcksParent(index, v.mask, v.parent))
  }

  /** Header, length and the two marks of a built packet follow from what it was built for. */
  lemma FreshShape(se: Session, index: nat, v: Vector, audio: Option<Q.Frame>)
    requires SessionOk(se) && Fresh(se, index, v, audio).Some?
    ensures var b := Fresh(se, index, v, audio).value;
      b.header / 8 == v.mask && b.header % 8 == (if v.mask == 2 && index >= 2 then 1 else if |Tail(index, v)| == 2 then 2 else 0) &&
      |b.wire| == BodyBytes(v, audio) + |Tail(index, v)| + 4 && b.receive == (index < 2) && b.stereo == (v.mask == 6 && audio.Some?)
  {
    PacketNeeds(se, index, v, audio);
    if Polls(index, v.mask) { PollsEmpty(se, index, v, audio); }
    FreshHeader(se, index, v, audio);
    hide Content, ChannelAt, Sealed, HeaderOf, Later, ExpectedLength, ContentFor, Tail, BodyBytes;
    ShapeIs(index, v, audio);
  }

  lemma PollsEmpty(se: Session, index: nat, v: Vector, audio: Option<Q.Frame>)
    requires ContentFor(se, index, v, audio).Some? && Polls(index, v.mask)
    ensures audio.None?
  {
    hide A.DownlinkBytes, A.ArgumentsOk, A.MaskOf, HeaderOf, MaskedAad, Records;
  }

  lemma FreshHeader(se: Session, index: nat, v: Vector, audio: Option<Q.Frame>)
    requires SessionOk(se) && Fresh(se, index, v, audio).Some?
    ensures Fresh(se, index, v, audio).value.header == HeaderOf(index, v) && GoodMask(v.mask)
  {
    PacketNeeds(se, index, v, audio);
    hide BuildPacket, HeaderOf, Later, ExpectedLength;
  }

  lemma ShapeIs(index: nat, v: Vector, audio: Option<Q.Frame>)
    requires GoodMask(v.mask) && (Polls(index, v.mask) ==> audio.None?)
    ensures HeaderOf(index, v) / 8 == v.mask
    ensures HeaderOf(index, v) % 8 == (if v.mask == 2 && index >= 2 then 1 else if |Tail(index, v)| == 2 then 2 else 0)
    ensures ExpectedLength(index, v, audio.None?) == BodyBytes(v, audio) + |Tail(index, v)| + 6
  {
  }

  lemma PacketNeeds(se: Session, index: nat, v: Vector, audio: Option<Q.Frame>)
    requires SessionOk(se) && Fresh(se, index, v, audio).Some?
    ensures ContentFor(se, index, v, audio).Some? && ChannelAt(se.plan, index) == Some(Fresh(se, index, v, audio).value.channel)
    ensures GoodMask(v.mask)
    ensures var header := HeaderOf(index, v);
      se.seal(MaskedAad(header), ContentFor(se, index, v, audio).value) == Some(Fresh(se, index, v, audio).value.wire)
  {
    hide HeaderOf, Later, ExpectedLength, Records, Trailer, ChannelAt, MaskedAad;
    ContentMask(se, HeaderOf(index, v), MaskedAad(HeaderOf(index, v)), v, audio, TrailerFor(index, v),
                AcksParent(index, v.mask, v.parent));
    hide Content, GoodMask;
  }

  lemma ContentMask(se: Session, header: Byte, aad: Byte, v: Vector, audio: Option<Q.Frame>, trailer: Option<Parent>, stereo: bool)
    ensures Content(se, header, aad, v, audio, trailer, stereo).Some? ==> GoodMask(v.mask)
  {
    hide Records, Trailer, GoodMask;
  }

  lemma ContentIs(se: Session, index: nat, v: Vector, audio: Option<Q.Frame>)
    requires ContentFor(se, index, v, audio).Some?
    ensures var records := Records(se, v, audio);
      A.ArgumentsOk(records, [RecordBytes], 0) && A.MaskOf(records) == v.mask &&
      ContentFor(se, index, v, audio).value == A.DownlinkBytes(records, [RecordBytes], 0) + Tail(index, v)
  {
    hide Records, A.MaskOf, A.ArgumentsOk, A.DownlinkBytes, MaskedAad;
    HeaderMask(index, v);
    hide HeaderOf;
  }

  lemma HeaderMask(index: nat, v: Vector)
    requires GoodMask(v.mask)
    ensures HeaderOf(index, v) / 8 % 16 == v.mask
  {
  }

  /** A trailer fits exactly when the parent does; it is two bytes and the parent's payload. */
  lemma TrailerExists(index: nat, v: Vector, audio: Option<Q.Frame>)
    requires GoodMask(v.mask) && TrailerFor(index, v).Some?
    requires AcksParent(index, v.mask, v.parent) ==> v.parent.payload == [] && v.parent.header % 4 + v.parent.header / 16 * 16 == 1
    ensures var header := HeaderOf(index, v);
      var t := Trailer(v.mask, header, MaskedAad(header), audio.None?, AcksParent(index, v.mask, v.parent), TrailerFor(index, v).value,
                       201 - BodyBytes(v, audio));
      (t.Some? <==> ParentFits(index, v, audio)) && (t.Some? ==> |t.value| == |Tail(index, v)|)
  {
  }

  predicate Acknowledgeable(index: nat, v: Vector) {
    AcksParent(index, v.mask, v.parent) ==> v.parent.payload == [] && v.parent.header % 4 + v.parent.header / 16 * 16 == 1
  }

  lemma ContentExists(se: Session, index: nat, v: Vector, audio: Option<Q.Frame>)
    requires GoodCoding(se) && GoodMask(v.mask) && Acknowledgeable(index, v)
    ensures var c := ContentFor(se, index, v, audio);
      (c.Some? <==> ParentFits(index, v, audio)) && (c.Some? ==> |c.value| == BodyBytes(v, audio) + |Tail(index, v)| <= 201)
  {
    HeaderMask(index, v);
    hide A.DownlinkBytes, A.ArgumentsOk, A.MaskOf, HeaderOf, MaskedAad, Trailer, Records, GoodCoding;
    RecordsShape(se, v, audio);
    RecordsMask(se, v, audio);
    BodyLength(se, v, audio);
    if TrailerFor(index, v).Some? { TrailerExists(index, v, audio); }
  }

  lemma LengthIs(index: nat, v: Vector, audio: Option<Q.Frame>)
    requires GoodMask(v.mask) && ParentFits(index, v, audio)
    ensures ExpectedLength(index, v, audio.None?) == BodyBytes(v, audio) + |Tail(index, v)| + 6
  {
  }

  lemma SealedIs(se: Session, header: Byte, aad: Byte, content: seq<Byte>)
    requires GoodCoding(se) && |content| <= 201
    ensures var p := Sealed(se, header, aad, content);
      p.Some? && |p.value| == |content| + 6 && p.value[0] == header && p.value[1] == |content| + 4
  {
  }

  /**
   A packet can be built exactly for one or two streams of an announced session whose map gives the channel, when the
   parent's packet fits.
   */
  lemma FreshIff(se: Session, index: nat, v: Vector, audio: Option<Q.Frame>)
    requires SessionOk(se) && GoodCoding(se)
    ensures Fresh(se, index, v, audio).Some? <==>
      GoodMask(v.mask) && se.plan.e2[0] == 0xe2 && ChannelAt(se.plan, index).Some? && ParentFits(index, v, audio)
  {
    hide Content, HeaderOf, MaskedAad, ChannelAt, Sealed, ExpectedLength, Later, S.SessionTime, GoodCoding, Tail, BodyBytes;
    if !GoodMask(v.mask) {
      ContentMask(se, HeaderOf(index, v), MaskedAad(HeaderOf(index, v)), v, audio, TrailerFor(index, v), AcksParent(index, v.mask, v.parent));
    } else if Acknowledgeable(index, v) {
      ContentExists(se, index, v, audio);
      if ParentFits(index, v, audio) {
        LengthIs(index, v, audio);
        SealedIs(se, HeaderOf(index, v), MaskedAad(HeaderOf(index, v)), ContentFor(se, index, v, audio).value);
      }
    }
    hide GoodMask;
  }

  /**
   The sealed bytes on air hold the frame's records, sequences and audio included, which an independent reader gets back
   from them and the stream mask, followed by the parent's packet; on a used channel.
   */
  lemma FreshCarries(se: Session, index: nat, v: Vector, audio: Option<Q.Frame>)
    requires SessionOk(se) && Fresh(se, index, v, audio).Some?
    ensures var b := Fresh(se, index, v, audio).value; var records := Records(se, v, audio);
      var body := A.DownlinkBytes(records, [RecordBytes], 0);
      se.seal(MaskedAad(b.header), body + Tail(index, v)) == Some(b.wire) &&
      A.ReadDownlink(body, v.mask, [RecordBytes]) == Some((0, records)) &&
      UsedBy(se.plan, b.channel)
  {
    hide Fresh, Records, Tail, ContentFor, HeaderOf, ExpectedLength, MaskedAad, ChannelAt;
    hide A.DownlinkBytes, A.ReadDownlink, A.MaskOf, A.ArgumentsOk, S.MapBit;
    FreshHeader(se, index, v, audio);
    PacketNeeds(se, index, v, audio);
    ContentIs(se, index, v, audio);
    ChannelUsed(se.plan, index);
    A.DownlinkRoundTrip(Records(se, v, audio), [RecordBytes], 0);
  }

  lemma ChannelUsed(plan: S.Plan, index: nat)
    requires |plan.e2| == S.E2_BYTES && ChannelAt(plan, index).Some?
    ensures UsedBy(plan, ChannelAt(plan, index).value)
  {
    hide C.Channel, S.MapBit;
    C.ResultIsUsed(plan.aa, (plan.counter + index) % 0x1_0000, plan.e2[19..24], 1);
  }

  lemma FreshUses(se: Session, index: nat, v: Vector, audio: Option<Q.Frame>)
    requires SessionOk(se) && Fresh(se, index, v, audio).Some?
    ensures UsedBy(se.plan, Fresh(se, index, v, audio).value.channel)
  {
    hide Fresh, ContentFor, HeaderOf, MaskedAad, ChannelAt, S.MapBit;
    PacketNeeds(se, index, v, audio);
    ChannelUsed(se.plan, index);
  }

  lemma PacketTime(se: Session, index: nat, header: Byte, aad: Byte, v: Vector, audio: Option<Q.Frame>,
                   trailer: Option<Parent>, stereo: bool)
    requires SessionOk(se) && BuildPacket(se, index, header, aad, v, audio, trailer, stereo).Some?
    ensures var p := BuildPacket(se, index, header, aad, v, audio, trailer, stereo).value;
      (p.hs, p.hus) == S.SessionTime(se.plan, index, 0)
  {
    hide Content, ChannelAt, Sealed, S.SessionTime;
  }

  lemma FreshTime(se: Session, index: nat, v: Vector, audio: Option<Q.Frame>)
    requires SessionOk(se) && Fresh(se, index, v, audio).Some?
    ensures var b := Fresh(se, index, v, audio).value; var start := S.SessionTime(se.plan, index, 0);
      b.receive == Receives(index) &&
      (b.hs, b.hus) == Later(start.0, start.1, if Polls(index, v.mask) then PollShift else if Receives(index) then ReceiveShift else 0)
  {
    hide BuildPacket, HeaderOf, Later, ExpectedLength, S.SessionTime, MaskedAad;
    var header := HeaderOf(index, v);
    PacketTime(se, index, header, MaskedAad(header), v, audio, TrailerFor(index, v), AcksParent(index, v.mask, v.parent));
  }

  const ClockHus := 0x1000_0000 * 625

  /** A packet starts at its frame's session time, polls 20 and receptions 800 microseconds later. */
  lemma FreshStarts(se: Session, index: nat, v: Vector, audio: Option<Q.Frame>)
    requires SessionOk(se) && Fresh(se, index, v, audio).Some?
    ensures var b := Fresh(se, index, v, audio).value; var start := S.SessionTime(se.plan, index, 0);
      var shift := if v.mask == 2 && index >= 2 then 2 * 20 else if index < 2 then 2 * 800 else 0;
      (b.hs * 625 + b.hus) % ClockHus == (start.0 * 625 + start.1 + shift) % ClockHus
  {
    hide Fresh, Later, S.SessionTime;
    FreshTime(se, index, v, audio);
    var start := S.SessionTime(se.plan, index, 0);
    LaterIs(start.0, start.1, if Polls(index, v.mask) then PollShift else if Receives(index) then ReceiveShift else 0);
  }

  lemma LaterIs(hs: S.Hs, hus: S.Hus, shift: nat)
    ensures var (h, u) := Later(hs, hus, shift); (h * 625 + u) % ClockHus == (hs * 625 + hus + shift) % ClockHus
  {
    var fine := hus + shift;
    var t := hs + fine / 625;
    var q := t / S.CLOCK;
    assert t % S.CLOCK == t - S.CLOCK * q;
    assert hs * 625 + fine == t % S.CLOCK * 625 + fine % 625 + ClockHus * q;
    WholeTurns(t % S.CLOCK * 625 + fine % 625, q);
  }

  lemma WholeTurns(x: int, q: int)
    ensures (x + ClockHus * q) % ClockHus == x % ClockHus
  {
  }

  // --------------------------------------------------------------------------
  // The caches
  // --------------------------------------------------------------------------

  datatype Entry = Entry(valid: bool, index: nat, v: Vector, generation: Word, reused: bool, built: Built)

  const NoVector := Vector(0, [0, 0], [0, 0], NoParent)
  const NoBuilt := Built(0, 0, 0, 0, [], false, false)
  const NoEntry := Entry(false, 0, NoVector, 0, false, NoBuilt)

  type Two = t: seq<Entry> | |t| == 2 witness [NoEntry, NoEntry]

  datatype Caches = Caches(prepared: Two, alternate: Two, gap: Two)

  const Empty := Caches([NoEntry, NoEntry], [NoEntry, NoEntry], [NoEntry, NoEntry])

  function Side(index: nat): (s: nat)
    ensures s < 2
  {
    index % 2
  }

  /** What a build keeps of the parent's packet. */
  function Kept(index: nat, v: Vector): Vector {
    if Polls(index, v.mask) || AcksParent(index, v.mask, v.parent) then v else v.(parent := NoParent)
  }

  /** The audio selected for an event: an answer other than a frame leaves it empty. */
  function AudioOf(a: Q.Answer): Option<Q.Frame> {
    if a.Copied? then Some(a.frame) else None
  }

  predicate NeedsAudio(mask: Byte) {
    mask != 2
  }

  /** Ask the audio queue; a refused request makes the build fail. */
  function Ask(f: Q.Fifo, index: Word): (r: (Q.Fifo, Q.Answer))
    requires f.taken <= |f.pushed|
    ensures r.0.taken <= |r.0.pushed| && r.0.pushed == f.pushed
  {
    if Q.Recall(f.history, index).Some? then (f, Q.Recall(f.history, index).value)
    else
      Q.SelectsInOrder(f, index);
      (Q.Select(f, index), Q.AnswerOf(Q.Last(Q.Select(f, index).history)))
  }

  /** One build into a cache entry: the entry, the queue afterwards and the success. */
  function Build(se: Session, f: Q.Fifo, index: Word, v: Vector, generation: Word): (r: (Entry, Q.Fifo, bool))
    requires SessionOk(se) && f.taken <= |f.pushed|
    ensures r.1.taken <= |r.1.pushed|
  {
    var failed := Entry(false, index, v, generation, false, NoBuilt);
    var blocked := AcksParent(index, v.mask, v.parent) &&
                   (v.parent.payload != [] || v.parent.header % 4 + v.parent.header / 16 * 16 != 1);
    if blocked then (failed, f, false)
    else
      var (g, answer) := if NeedsAudio(v.mask) then Ask(f, index) else (f, Q.Empty);
      if NeedsAudio(v.mask) && answer.Refused? then (failed, g, false)
      else
        var built := Fresh(se, index, v, AudioOf(answer));
        if built.None? then (failed, g, false)
        else (Entry(true, index, Kept(index, v), generation, false, built.value), g, true)
  }

  predicate Matches(e: Entry, index: nat, v: Vector) {
    |v.parent.payload| <= MaxParent && e.valid && e.index == index && e.v == v
  }

  /** What prepare_frame finds out before it looks at the caches. */
  datatype Demand = Demand(index: Word, v: Vector, generation: Word)

  function Reuse(e: Entry, generation: Word): Entry {
    e.(generation := generation, reused := true)
  }

  /** The first cache entry that holds the wanted packet. */
  function Cached(c: Caches, d: Demand): Option<Entry> {
    var side := Side(d.index);
    if Matches(c.prepared[side], d.index, d.v) then Some(c.prepared[side])
    else if Matches(c.alternate[side], d.index, d.v) then Some(c.alternate[side])
    else if Matches(c.gap[side], d.index, d.v) then Some(c.gap[side])
    else None
  }

  function Store(c: Caches, side: nat, e: Entry): Caches
    requires side < 2
  {
    c.(prepared := c.prepared[side := e])
  }

  /** Choose or build the packet of a frame (prepare_frame). */
  function Prepare(se: Session, c: Caches, f: Q.Fifo, d: Demand): (r: (Caches, Q.Fifo, bool))
    requires SessionOk(se) && f.taken <= |f.pushed|
    ensures r.1.taken <= |r.1.pushed|
  {
    var cached := Cached(c, d);
    if cached.Some? then (Store(c, Side(d.index), Reuse(cached.value, d.generation)), f, true)
    else
      var (e, g, ok) := Build(se, f, d.index, d.v, d.generation);
      (Store(c, Side(d.index), e), g, ok)
  }

  /** Microphone frame last heard, from which the gap guess is made. */
  datatype Mic = Mic(valid: bool, frame: nat, start: nat)

  function Plus(n: Nibble, k: nat): Nibble {
    (n + k) % 16
  }

  function GuessedAck(p: Entry): Nibble {
    if p.v.mask == 6 then Plus(p.v.ack[0], 1) else if p.index != 0 then (p.index - 1) % 16 else 0
  }

  predicate GapWanted(p: Entry, mic: Mic) {
    p.v.mask == 6 && p.index != 0 && mic.valid && mic.start <= mic.frame < p.index - 1 &&
    var advance := p.index - 1 - mic.frame;
    advance > 1 && Plus(p.v.ack[0], advance) != p.v.ack[0] && Plus(p.v.ack[0], advance) != GuessedAck(p)
  }

  function Forget(c: Caches, side: nat): Caches
    requires side < 2
  {
    c.(alternate := c.alternate[side := c.alternate[side].(valid := false)],
       gap := c.gap[side := c.gap[side].(valid := false)])
  }

  predicate NoGuess(p: Entry, index: Word) {
    !p.valid || p.index != index || p.built.receive || !(p.v.mask == 2 || p.v.mask == 6) || GuessedAck(p) == p.v.ack[0]
  }

  function WithAck(v: Vector, ack: Nibble): Vector {
    v.(ack := [ack, v.ack[1]])
  }

  function FirstGuess(se: Session, c: Caches, f: Q.Fifo, index: Word, generation: Word): (r: (Caches, Q.Fifo, bool))
    requires SessionOk(se) && f.taken <= |f.pushed|
    ensures r.1.taken <= |r.1.pushed|
  {
    var p := c.prepared[Side(index)];
    var (e, g, ok) := Build(se, f, index, WithAck(p.v, GuessedAck(p)), generation);
    (c.(alternate := c.alternate[Side(index) := e]), g, ok)
  }

  function GapGuess(se: Session, c: Caches, f: Q.Fifo, index: Word, mic: Mic, generation: Word): (r: (Caches, Q.Fifo, bool))
    requires SessionOk(se) && f.taken <= |f.pushed| && mic.frame < index
    ensures r.1.taken <= |r.1.pushed|
  {
    var p := c.prepared[Side(index)];
    var (e, g, ok) := Build(se, f, index, WithAck(p.v, Plus(p.v.ack[0], index - 1 - mic.frame)), generation);
    (c.(gap := c.gap[Side(index) := e]), g, ok)
  }

  /** Build guesses for other acknowledgements of the prepared frame (prepare_alternate). */
  function Guess(se: Session, c: Caches, f: Q.Fifo, index: Word, mic: Mic, generation: Word): (r: (Caches, Q.Fifo, bool))
    requires SessionOk(se) && f.taken <= |f.pushed|
    ensures r.1.taken <= |r.1.pushed|
  {
    var p := c.prepared[Side(index)];
    var c0 := Forget(c, Side(index));
    if NoGuess(p, index) then (c0, f, true)
    else
      var (c1, g, ok) := FirstGuess(se, c0, f, index, generation);
      if !ok || !GapWanted(p, mic) then (c1, g, ok) else GapGuess(se, c1, g, index, mic, generation)
  }

  // --------------------------------------------------------------------------
  // Reuse equals a fresh build
  // --------------------------------------------------------------------------

  /** The audio that was selected for an event. */
  function Find(h: seq<Q.Selection>, event: Word): Option<Option<Q.Frame>> {
    if h == [] then None
    else if Q.Last(h).event == event then Some(Q.Last(h).frame)
    else Find(h[..|h| - 1], event)
  }

  predicate AllRising(h: seq<Q.Selection>) {
    forall i, j :: 0 <= i < j < |h| ==> h[i].event < h[j].event
  }

  predicate AudioKnown(h: seq<Q.Selection>, index: Word, mask: Byte) {
    NeedsAudio(mask) ==> Find(h, index).Some?
  }

  function KnownAudio(h: seq<Q.Selection>, index: Word, mask: Byte): Option<Q.Frame>
    requires AudioKnown(h, index, mask)
  {
    if NeedsAudio(mask) then Find(h, index).value else None
  }

  /** A valid entry holds what a fresh build of its frame would give. */
  predicate EntryOk(se: Session, h: seq<Q.Selection>, e: Entry)
    requires SessionOk(se)
  {
    e.valid ==>
      e.index < U32 && AudioKnown(h, e.index, e.v.mask) && Kept(e.index, e.v) == e.v &&
      Fresh(se, e.index, e.v, KnownAudio(h, e.index, e.v.mask)) == Some(e.built)
  }

  predicate PairOk(se: Session, h: seq<Q.Selection>, t: Two)
    requires SessionOk(se)
  {
    EntryOk(se, h, t[0]) && EntryOk(se, h, t[1])
  }

  predicate CacheInv(se: Session, c: Caches, f: Q.Fifo)
    requires SessionOk(se)
  {
    PairOk(se, f.history, c.prepared) && PairOk(se, f.history, c.alternate) && PairOk(se, f.history, c.gap) &&
    AllRising(f.history) && f.taken <= |f.pushed|
  }

  predicate NotRefused(h: seq<Q.Selection>, index: Word) {
    Q.Recall(h, index) != Some(Q.Refused)
  }

  lemma {:induction false} FindIsBelow(h: seq<Q.Selection>, event: Word)
    requires AllRising(h) && Find(h, event).Some?
    ensures h != [] && event <= Q.Last(h).event
  {
    if Q.Last(h).event != event {
      FindIsBelow(h[..|h| - 1], event);
    }
  }

  /** An event of the history that may still be asked for keeps its audio. */
  lemma FindIsRecall(h: seq<Q.Selection>, event: Word)
    requires AllRising(h)
    ensures Find(h, event).Some? && NotRefused(h, event) ==>
              Q.Recall(h, event) == Some(Q.AnswerOf(Q.Selection(event, Find(h, event).value)))
    ensures Q.Recall(h, event).Some? && NotRefused(h, event) ==> Find(h, event).Some?
  {
    if Find(h, event).Some? { FindIsBelow(h, event); }
    if h != [] && Q.Last(h).event != event {
      var g := h[..|h| - 1];
      assert Find(h, event) == Find(g, event);
      if g != [] && Q.Last(g).event != event {
        if Find(g, event).Some? { FindIsBelow(g, event); }
      }
    }
  }

  lemma AskAgain(f: Q.Fifo, index: Word)
    requires f.taken <= |f.pushed| && AllRising(f.history) && Find(f.history, index).Some? && NotRefused(f.history, index)
    ensures Ask(f, index).0 == f && !Ask(f, index).1.Refused? && AudioOf(Ask(f, index).1) == Find(f.history, index).value
  {
    FindIsRecall(f.history, index);
  }

  /** Asking for an event that is not refused records it and keeps all that was recorded. */
  lemma AskRecords(f: Q.Fifo, index: Word)
    requires f.taken <= |f.pushed| && AllRising(f.history) && NotRefused(f.history, index)
    ensures var (g, answer) := Ask(f, index);
      AllRising(g.history) && !answer.Refused? && Find(g.history, index) == Some(AudioOf(answer)) &&
      forall e: Word :: Find(f.history, e).Some? ==> Find(g.history, e) == Find(f.history, e)
  {
    FindIsRecall(f.history, index);
    if Q.Recall(f.history, index).None? {
      var g := Q.Select(f, index);
      Q.RecallNone(f.history, index);
      assert g.history[..|g.history| - 1] == f.history;
      forall e: Word | Find(f.history, e).Some? ensures Find(g.history, e) == Find(f.history, e) {
        FindIsBelow(f.history, e);
      }
    }
  }

  lemma EntryStays(se: Session, h: seq<Q.Selection>, g: seq<Q.Selection>, e: Entry)
    requires SessionOk(se) && EntryOk(se, h, e)
    requires forall x: Word :: Find(h, x).Some? ==> Find(g, x) == Find(h, x)
    ensures EntryOk(se, g, e)
  {
    hide Fresh, Find, Kept;
  }

  /** A build keeps the caches right, whatever its outcome, and its entry is right. */
  lemma BuildKeeps(se: Session, c: Caches, f: Q.Fifo, index: Word, v: Vector, generation: Word)
    requires SessionOk(se) && CacheInv(se, c, f) && (NeedsAudio(v.mask) ==> NotRefused(f.history, index))
    ensures var (e, g, ok) := Build(se, f, index, v, generation);
      CacheInv(se, c, g) && EntryOk(se, g.history, e) && e.valid == ok
  {
    var (e, g, ok) := Build(se, f, index, v, generation);
    assert (forall x: Word :: Find(f.history, x).Some? ==> Find(g.history, x) == Find(f.history, x)) && AllRising(g.history) by {
      hide Fresh, Find, AllRising, EntryOk;
      if NeedsAudio(v.mask) { AskRecords(f, index); }
    }
    BuiltIsRight(se, f, index, v, generation);
    hide Build, AllRising, EntryOk, Find;
    EntryStays(se, f.history, g.history, c.prepared[0]);
    EntryStays(se, f.history, g.history, c.prepared[1]);
    EntryStays(se, f.history, g.history, c.alternate[0]);
    EntryStays(se, f.history, g.history, c.alternate[1]);
    EntryStays(se, f.history, g.history, c.gap[0]);
    EntryStays(se, f.history, g.history, c.gap[1]);
  }

  lemma BuiltIsRight(se: Session, f: Q.Fifo, index: Word, v: Vector, generation: Word)
    requires SessionOk(se) && f.taken <= |f.pushed| && AllRising(f.history)
    requires NeedsAudio(v.mask) ==> NotRefused(f.history, index)
    ensures var (e, g, ok) := Build(se, f, index, v, generation);
      EntryOk(se, g.history, e) && e.valid == ok && g.taken <= |g.pushed|
  {
    hide Fresh, Find, AllRising, NotRefused, Ask;
    if NeedsAudio(v.mask) { AskRecords(f, index); }
    var answer := if NeedsAudio(v.mask) then Ask(f, index).1 else Q.Empty;
    if !Polls(index, v.mask) && !AcksParent(index, v.mask, v.parent) {
      ParentUnused(se, index, v, AudioOf(answer));
    }
  }

  /** A matching entry is what a fresh build gives now, and building would not move the queue. */
  lemma MatchIsFresh(se: Session, f: Q.Fifo, e: Entry, d: Demand)
    requires SessionOk(se) && f.taken <= |f.pushed| && AllRising(f.history) && EntryOk(se, f.history, e)
    requires Matches(e, d.index, d.v) && (NeedsAudio(d.v.mask) ==> NotRefused(f.history, d.index))
    ensures Build(se, f, d.index, d.v, d.generation) == (Entry(true, d.index, d.v, d.generation, false, e.built), f, true)
  {
    if NeedsAudio(d.v.mask) { AskAgain(f, d.index); }
    BlockedFails(se, d.index, d.v, KnownAudio(f.history, d.index, d.v.mask));
    hide Fresh, Find, AllRising, NotRefused, Ask;
  }

  /**
   What a build carries: for the first stream alone no audio, and the queue is not asked; for both the audio that the queue selects
   for that event, now or before, and nothing when it has none.
   */
  lemma BuildCarries(se: Session, f: Q.Fifo, index: Word, v: Vector, generation: Word)
    requires SessionOk(se) && f.taken <= |f.pushed| && Build(se, f, index, v, generation).2
    ensures var (e, g, ok) := Build(se, f, index, v, generation);
      if v.mask == 2 then g == f && Some(e.built) == Fresh(se, index, v, None)
      else
        var earlier := Q.Recall(f.history, index);
        g == (if earlier.Some? then f else Q.Select(f, index)) && earlier != Some(Q.Refused) &&
        var answer := if earlier.Some? then earlier.value else Q.AnswerOf(Q.Last(g.history));
        Some(e.built) == Fresh(se, index, v, if answer.Copied? then Some(answer.frame) else None)
    ensures var e := Build(se, f, index, v, generation).0;
      e.valid && e.index == index && (Tail(index, v) != [] ==> e.v == v) && e.v.mask == v.mask && e.v.tx == v.tx && e.v.ack == v.ack
  {
    hide Fresh, Q.Recall, Q.Select;
    if v.mask != 2 && Q.Recall(f.history, index).None? { Q.SelectsInOrder(f, index); }
  }

  predicate Blocked(index: nat, v: Vector) {
    AcksParent(index, v.mask, v.parent) && (v.parent.payload != [] || v.parent.header % 4 + v.parent.header / 16 * 16 != 1)
  }

  lemma BlockedFails(se: Session, index: nat, v: Vector, audio: Option<Q.Frame>)
    requires SessionOk(se)
    ensures Blocked(index, v) ==> Fresh(se, index, v, audio).None?
  {
    hide BuildPacket;
  }

  /** The reused or built entry differs from a direct build only in the mark that it was reused. */
  predicate SamePacket(got: Entry, direct: Entry) {
    got.(reused := false) == direct
  }

  lemma QueueOk(se: Session, c: Caches, f: Q.Fifo)
    requires SessionOk(se) && CacheInv(se, c, f)
    ensures f.taken <= |f.pushed|
  {
  }

  lemma CachedIsOk(se: Session, c: Caches, f: Q.Fifo, d: Demand)
    requires SessionOk(se) && CacheInv(se, c, f) && Cached(c, d).Some?
    ensures EntryOk(se, f.history, Cached(c, d).value) && Matches(Cached(c, d).value, d.index, d.v)
    ensures f.taken <= |f.pushed| && AllRising(f.history)
  {
    hide EntryOk, AllRising, Matches;
  }

  lemma Stored(se: Session, c: Caches, f: Q.Fifo, side: nat, e: Entry)
    requires SessionOk(se) && CacheInv(se, c, f) && side < 2 && EntryOk(se, f.history, e)
    ensures var d := Store(c, side, e);
      CacheInv(se, d, f) && d.prepared[side] == e && d.prepared[1 - side] == c.prepared[1 - side] &&
      d.alternate == c.alternate && d.gap == c.gap
  {
    hide EntryOk, AllRising;
  }

  lemma ReuseIsOk(se: Session, h: seq<Q.Selection>, e: Entry, generation: Word)
    requires SessionOk(se) && EntryOk(se, h, e)
    ensures EntryOk(se, h, Reuse(e, generation))
  {
    hide Fresh, Find, Kept;
  }

  /**
   Whichever cache answers, the chosen packet, its header, channel and start, the success, and the audio
   queue are exactly those of a fresh build from the current feedback, parent packet and latched audio.
   */
  lemma PrepareIsFresh(se: Session, c: Caches, f: Q.Fifo, d: Demand)
    requires SessionOk(se) && CacheInv(se, c, f) && (NeedsAudio(d.v.mask) ==> NotRefused(f.history, d.index))
    ensures var (c', g, ok) := Prepare(se, c, f, d); var (e, h, built) := Build(se, f, d.index, d.v, d.generation);
      ok == built && g == h && CacheInv(se, c', g) && SamePacket(c'.prepared[Side(d.index)], e) &&
      c'.prepared[1 - Side(d.index)] == c.prepared[1 - Side(d.index)] && c'.alternate == c.alternate && c'.gap == c.gap
  {
    var side := Side(d.index);
    QueueOk(se, c, f);
    if Cached(c, d).Some? {
      var x := Cached(c, d).value;
      CachedIsOk(se, c, f, d);
      MatchIsFresh(se, f, x, d);
      ReuseIsOk(se, f.history, x, d.generation);
      hide Build, CacheInv, EntryOk, Cached, Store, NotRefused, AllRising;
      Stored(se, c, f, side, Reuse(x, d.generation));
    } else {
      BuildKeeps(se, c, f, d.index, d.v, d.generation);
      BuildFlags(se, f, d.index, d.v, d.generation);
      hide Build, CacheInv, EntryOk, Cached, Store, NotRefused;
      var (e, g, ok) := Build(se, f, d.index, d.v, d.generation);
      Stored(se, c, g, side, e);
    }
  }

  lemma BuildFlags(se: Session, f: Q.Fifo, index: Word, v: Vector, generation: Word)
    requires SessionOk(se) && f.taken <= |f.pushed|
    ensures !Build(se, f, index, v, generation).0.reused
  {
    hide Fresh, Ask;
  }

  lemma Forgotten(se: Session, c: Caches, f: Q.Fifo, side: nat)
    requires SessionOk(se) && CacheInv(se, c, f) && side < 2
    ensures CacheInv(se, Forget(c, side), f)
  {
    hide Fresh, Find, Kept, AllRising;
  }

  /** A build for an event that has its audio does not move the queue. */
  lemma BuildAgain(se: Session, f: Q.Fifo, index: Word, v: Vector, generation: Word)
    requires SessionOk(se) && f.taken <= |f.pushed| && AllRising(f.history) && AudioKnown(f.history, index, v.mask)
    requires NeedsAudio(v.mask) ==> NotRefused(f.history, index)
    ensures Build(se, f, index, v, generation).1 == f
  {
    if NeedsAudio(v.mask) { AskAgain(f, index); }
    hide Fresh, Ask, Find;
  }

  lemma Replaced(se: Session, c: Caches, f: Q.Fifo, side: nat, e: Entry)
    requires SessionOk(se) && CacheInv(se, c, f) && side < 2 && EntryOk(se, f.history, e)
    ensures CacheInv(se, c.(alternate := c.alternate[side := e]), f)
    ensures CacheInv(se, c.(gap := c.gap[side := e]), f)
  {
    hide EntryOk, AllRising;
  }

  /** One guess: the queue stays, and the caches stay right when its entry is stored. */
  lemma GuessOne(se: Session, c: Caches, f: Q.Fifo, index: Word, v: Vector, generation: Word)
    requires SessionOk(se) && CacheInv(se, c, f) && AudioKnown(f.history, index, v.mask)
    requires NeedsAudio(v.mask) ==> NotRefused(f.history, index)
    ensures var (e, g, ok) := Build(se, f, index, v, generation); var side := Side(index);
      g == f && CacheInv(se, c.(alternate := c.alternate[side := e]), f) && CacheInv(se, c.(gap := c.gap[side := e]), f)
  {
    hide Build, EntryOk, NotRefused, Find;
    BuildAgain(se, f, index, v, generation);
    BuildKeeps(se, c, f, index, v, generation);
    Replaced(se, c, f, Side(index), Build(se, f, index, v, generation).0);
  }

  /** The prepared packet of the frame may be asked for again. */
  predicate Repeatable(se: Session, c: Caches, f: Q.Fifo, index: Word)
    requires SessionOk(se)
  {
    var p := c.prepared[Side(index)];
    CacheInv(se, c, f) && AudioKnown(f.history, index, p.v.mask) && (NeedsAudio(p.v.mask) ==> NotRefused(f.history, index))
  }

  lemma FirstGuessKeeps(se: Session, c: Caches, f: Q.Fifo, index: Word, generation: Word)
    requires SessionOk(se) && Repeatable(se, c, f, index)
    ensures var (d, g, ok) := FirstGuess(se, c, f, index, generation);
      g == f && d.prepared == c.prepared && Repeatable(se, d, f, index)
  {
    hide CacheInv, NotRefused, Build, GuessedAck, AudioKnown;
    var p := c.prepared[Side(index)];
    QueueOk(se, c, f);
    GuessOne(se, c, f, index, WithAck(p.v, GuessedAck(p)), generation);
  }

  lemma GapGuessKeeps(se: Session, c: Caches, f: Q.Fifo, index: Word, mic: Mic, generation: Word)
    requires SessionOk(se) && Repeatable(se, c, f, index) && mic.frame < index
    ensures var (d, g, ok) := GapGuess(se, c, f, index, mic, generation);
      g == f && d.prepared == c.prepared && Repeatable(se, d, f, index)
  {
    hide CacheInv, NotRefused, Build, Plus, AudioKnown;
    var p := c.prepared[Side(index)];
    QueueOk(se, c, f);
    GuessOne(se, c, f, index, WithAck(p.v, Plus(p.v.ack[0], index - 1 - mic.frame)), generation);
  }

  lemma PreparedKnown(se: Session, c: Caches, f: Q.Fifo, side: nat)
    requires SessionOk(se) && CacheInv(se, c, f) && side < 2 && c.prepared[side].valid && c.prepared[side].index < U32
    ensures AudioKnown(f.history, c.prepared[side].index, c.prepared[side].v.mask)
  {
    hide Fresh, Find, Kept;
  }

  /** Guesses are built beside the prepared packet: it stays, the queue stays, the caches stay right. */
  lemma GuessKeeps(se: Session, c: Caches, f: Q.Fifo, index: Word, mic: Mic, generation: Word)
    requires SessionOk(se) && CacheInv(se, c, f)
    requires var p := c.prepared[Side(index)];
      p.valid && p.index == index && NeedsAudio(p.v.mask) ==> NotRefused(f.history, index)
    ensures var (d, g, ok) := Guess(se, c, f, index, mic, generation);
      g == f && d.prepared == c.prepared && CacheInv(se, d, g)
  {
    var side := Side(index);
    var p := c.prepared[side];
    QueueOk(se, c, f);
    Forgotten(se, c, f, side);
    var c0 := Forget(c, side);
    if !NoGuess(p, index) {
      PreparedKnown(se, c, f, side);
      hide CacheInv, NotRefused, FirstGuess, GapGuess, AudioKnown, Forget;
      ForgetStays(c, side);
      FirstGuessKeeps(se, c0, f, index, generation);
      var c1 := FirstGuess(se, c0, f, index, generation).0;
      if GapWanted(p, mic) { GapGuessKeeps(se, c1, f, index, mic, generation); }
      hide GapWanted, NoGuess;
    }
  }

  lemma ForgetStays(c: Caches, side: nat)
    requires side < 2
    ensures Forget(c, side).prepared == c.prepared
  {
  }


  /** The queue's history after preparing an event: as before, or with that event added after all others. */
  predicate Extends(h: seq<Q.Selection>, g: seq<Q.Selection>, index: Word) {
    g == h || (g != [] && g[..|g| - 1] == h && Q.Last(g).event == index && (h != [] ==> Q.Last(h).event < index))
  }

  lemma AskExtends(f: Q.Fifo, index: Word)
    requires f.taken <= |f.pushed|
    ensures Extends(f.history, Ask(f, index).0.history, index)
  {
    if Q.Recall(f.history, index).None? { Q.RecallNone(f.history, index); }
  }

  lemma PrepareExtends(se: Session, c: Caches, f: Q.Fifo, d: Demand)
    requires SessionOk(se) && f.taken <= |f.pushed|
    ensures var (c', g, ok) := Prepare(se, c, f, d);
      Extends(f.history, g.history, d.index) && (!NeedsAudio(d.v.mask) ==> g.history == f.history)
  {
    AskExtends(f, d.index);
    hide Ask, Fresh, Extends;
    assert Extends(f.history, f.history, d.index) by { AskSame(f.history, d.index); }
  }

  lemma AskSame(h: seq<Q.Selection>, index: Word)
    ensures Extends(h, h, index)
  {
  }

  /** A successful preparation leaves the wanted packet. */
  lemma PrepareLeaves(se: Session, c: Caches, f: Q.Fifo, d: Demand)
    requires SessionOk(se) && f.taken <= |f.pushed| && Prepare(se, c, f, d).2
    ensures var e := Prepare(se, c, f, d).0.prepared[Side(d.index)];
      e.valid && e.index == d.index && (e.v == d.v || e.v == Kept(d.index, d.v))
  {
    hide Ask, Fresh, Kept;
  }

  /** Preparing an event whose audio is needed leaves it among what may be asked again. */
  lemma PrepareFinds(se: Session, c: Caches, f: Q.Fifo, d: Demand)
    requires SessionOk(se) && CacheInv(se, c, f) && NeedsAudio(d.v.mask) && NotRefused(f.history, d.index)
    requires Prepare(se, c, f, d).2
    ensures Q.Recall(Prepare(se, c, f, d).1.history, d.index).Some? && NotRefused(Prepare(se, c, f, d).1.history, d.index)
  {
    PrepareIsFresh(se, c, f, d);
    hide Prepare, Fresh, CacheInv, Find, AllRising;
    if Q.Recall(f.history, d.index).None? { Q.RecallNone(f.history, d.index); Q.SelectRecalls(f, d.index); }
    hide Q.Recall, Q.Select;
  }

  /** Building the same packet again gives the same packet and leaves the queue alone. */
  lemma BuildTwice(se: Session, f: Q.Fifo, index: Word, v: Vector, generation: Word)
    requires SessionOk(se) && f.taken <= |f.pushed| && AllRising(f.history)
    requires NeedsAudio(v.mask) ==> NotRefused(f.history, index)
    requires Build(se, f, index, v, generation).2
    ensures var (e, g, ok) := Build(se, f, index, v, generation); Build(se, g, index, v, generation) == (e, g, true)
  {
    if NeedsAudio(v.mask) {
      AskRecords(f, index);
      AskStays(f, index);
      AskAgain(Ask(f, index).0, index);
    }
    hide Ask, Fresh, AllRising, Find, NotRefused, Kept;
  }

  lemma AskStays(f: Q.Fifo, index: Word)
    requires f.taken <= |f.pushed| && NotRefused(f.history, index)
    ensures NotRefused(Ask(f, index).0.history, index)
  {
    if Q.Recall(f.history, index).None? { Q.SelectRecalls(f, index); }
  }

  /** Once prepared, a direct build from the same demand gives the same packet and leaves the queue alone. */
  lemma PreparedIsFreshNow(se: Session, c: Caches, f: Q.Fifo, d: Demand)
    requires SessionOk(se) && CacheInv(se, c, f) && (NeedsAudio(d.v.mask) ==> NotRefused(f.history, d.index))
    requires Prepare(se, c, f, d).2
    ensures var (c', g, ok) := Prepare(se, c, f, d); var (e, h, built) := Build(se, g, d.index, d.v, d.generation);
      built && h == g && SamePacket(c'.prepared[Side(d.index)], e)
  {
    PrepareIsFresh(se, c, f, d);
    assert AllRising(f.history) && f.taken <= |f.pushed| by { hide PairOk, AllRising; }
    hide CacheInv, Build, Prepare, AllRising, NotRefused;
    BuildTwice(se, f, d.index, d.v, d.generation);
  }
}
