/**
 The one-bit SN/NESN acknowledgement that the receiver keeps up for the retired parent
 link inside Air control records (parent_ack.c), its use on received controls
 (raw_llcp.c), and the exactly-once theorem against a conforming peer on a lossy link.
 */
module ParentAck {
  import opened Words

  // --------------------------------------------------------------------------
  // Packet fields
  // --------------------------------------------------------------------------

  function Llid(h: Byte): int { h % 4 }
  function NesnOf(h: Byte): Bit { (h / 4) % 2 }
  function SnOf(h: Byte): Bit { (h / 8) % 2 }

  function HeaderByte(llid: int, nesn: Bit, sn: Bit, md: Bit): (h: Byte)
    requires 0 <= llid < 4
    ensures Llid(h) == llid && NesnOf(h) == nesn && SnOf(h) == sn && h < 32
  {
    llid + 4 * nesn + 8 * sn + 16 * md
  }

  predicate WheelScalar(p: seq<Byte>) {
    && |p| == 6 && p[0] == 10 && p[1] == 1 && p[2] == 0 && p[4] == 0
    && (((p[3] == 1 || p[3] == 2) && p[5] == 2) || (p[3] == 3 && p[5] <= 100))
  }

  predicate MediaScalar(p: seq<Byte>) {
    |p| == 2 && p[0] == 13
  }

  predicate MicScalar(p: seq<Byte>) {
    |p| == 3 && (p[0] == 5 || p[0] == 6) && p[1] == 2 && p[2] == 0
  }

  datatype Kind = EmptyPdu | WheelPdu | MediaPdu | MicPdu | UnknownPdu

  /** L2CAP header of a control on channel 0x0101 carrying `n` bytes. */
  predicate ControlPrefix(p: seq<Byte>, n: nat) {
    |p| == n + 4 && p[0] == n && p[1] == 0 && p[2] == 1 && p[3] == 1
  }

  function Classify(llid: int, p: seq<Byte>): Kind {
    if llid == 1 && |p| == 0 then EmptyPdu
    else if llid == 2 && |p| == 10 && ControlPrefix(p, 6) && WheelScalar(p[4..]) then WheelPdu
    else if llid == 2 && |p| == 6 && ControlPrefix(p, 2) && MediaScalar(p[4..]) then MediaPdu
    else if llid == 2 && |p| == 7 && ControlPrefix(p, 3) && MicScalar(p[4..]) then MicPdu
    else UnknownPdu
  }

  /**
   The messages of each kind, written out: a step up or down or a level of at most 100, a media command, a muted or
   open microphone.
   */
  lemma KindsAre(llid: int, p: seq<Byte>)
    ensures Classify(llid, p) == EmptyPdu <==> llid == 1 && p == []
    ensures Classify(llid, p) == WheelPdu <==>
      llid == 2 && (p == [6, 0, 1, 1, 10, 1, 0, 1, 0, 2] || p == [6, 0, 1, 1, 10, 1, 0, 2, 0, 2] ||
                    (|p| == 10 && p[9] <= 100 && p == [6, 0, 1, 1, 10, 1, 0, 3, 0, p[9]]))
    ensures Classify(llid, p) == MediaPdu <==> llid == 2 && |p| == 6 && p == [2, 0, 1, 1, 13, p[5]]
    ensures Classify(llid, p) == MicPdu <==> llid == 2 && (p == [3, 0, 1, 1, 5, 2, 0] || p == [3, 0, 1, 1, 6, 2, 0])
  {
  }

  // --------------------------------------------------------------------------
  // The acknowledgement state machine
  // --------------------------------------------------------------------------

  datatype State = State(active: bool, txSn: Bit, rxNesn: Bit, accepted: Word, duplicates: Word,
                         empty: Word, acked: Word, rejected: Word, stale: Word)

  const Reset: State := State(false, 0, 0, 0, 0, 0, 0, 0, 0)

  function HeaderOf(s: State): Byte {
    if s.active then HeaderByte(1, s.rxNesn, s.txSn, 0) else 0
  }

  /** The header sent for an active record is an empty PDU's with its two bits; before that there is none. */
  lemma HeaderReads(s: State)
    ensures var h := HeaderOf(s);
      if s.active then Llid(h) == 1 && NesnOf(h) == s.rxNesn && SnOf(h) == s.txSn && h < 16 else h == 0
  {
  }

  function CountNew(s: State, kind: Kind): State {
    if kind == EmptyPdu then s.(empty := Add32(s.empty, 1)) else s.(accepted := Add32(s.accepted, 1))
  }

  /** Whether the first control seen may seed the sequence bits. */
  predicate MayBootstrap(h: Byte, kind: Kind, sent: Byte, sentLength: int) {
    && kind != UnknownPdu && (kind == EmptyPdu ==> sent == 1) && sentLength == 0
    && (sent == 0 || sent == 1) && (sent == 1 ==> NesnOf(h) == 1)
  }

  /** An active record and a well-formed PDU that answers the header on air. */
  function AfterAnswer(s: State, nesn: Bit, sn: Bit, kind: Kind): (State, bool) {
    var t := if nesn != s.txSn then s.(txSn := Flip(s.txSn), acked := Add32(s.acked, 1)) else s;
    if sn != t.rxNesn then (t.(duplicates := Add32(t.duplicates, 1)), true)
    else if kind == UnknownPdu then (t.(rejected := Add32(t.rejected, 1)), false)
    else (CountNew(t.(rxNesn := Flip(t.rxNesn)), kind), true)
  }

  function AfterReceive(s: State, h: Byte, p: seq<Byte>, sent: Byte, sentLength: int): (State, bool) {
    var kind := Classify(Llid(h), p);
    if h >= 32 || Llid(h) == 0 || |p| > 60 then (s.(rejected := Add32(s.rejected, 1)), false)
    else if !s.active then
      if !MayBootstrap(h, kind, sent, sentLength) then (s.(rejected := Add32(s.rejected, 1)), false)
      else (CountNew(s.(active := true, txSn := NesnOf(h), rxNesn := Flip(SnOf(h))), kind), true)
    else if sentLength != 0 || sent != HeaderOf(s) then (s.(stale := Add32(s.stale, 1)), false)
    else AfterAnswer(s, NesnOf(h), SnOf(h), kind)
  }

  datatype Key = VolumeUp | VolumeDown | PlayPause | MicMute(muted: bool)

  /** The host-side action of one newly accepted control. */
  function KeysOf(llid: int, p: seq<Byte>): (keys: seq<Key>)
    ensures |keys| <= 1
  {
    match Classify(llid, p)
    case WheelPdu => if p[7] == 1 then [VolumeUp] else if p[7] == 2 then [VolumeDown] else []
    case MediaPdu => if p[5] == 2 then [PlayPause] else []
    case MicPdu => [MicMute(p[4] == 5)]
    case _ => []
  }

  /** What the headset's user does, and the control it sends for that. */
  function Press(k: Key): seq<Byte> {
    match k
    case VolumeUp => [6, 0, 1, 1, 10, 1, 0, 1, 0, 2]
    case VolumeDown => [6, 0, 1, 1, 10, 1, 0, 2, 0, 2]
    case PlayPause => [2, 0, 1, 1, 13, 2]
    case MicMute(muted) => [3, 0, 1, 1, if muted then 5 else 6, 2, 0]
  }

  /** A control gives a key exactly when it is the one the headset sends for it. */
  lemma KeyIsPressed(llid: int, p: seq<Byte>, k: Key)
    ensures KeysOf(llid, p) == [k] <==> llid == 2 && p == Press(k)
  {
    if llid == 2 && p == Press(k) {
      assert p[4..] == (match k
        case VolumeUp => [10, 1, 0, 1, 0, 2] case VolumeDown => [10, 1, 0, 2, 0, 2]
        case PlayPause => [13, 2] case MicMute(muted) => [if muted then 5 else 6, 2, 0]);
    }
    if KeysOf(llid, p) == [k] { assert p == Press(k); }
  }

  /** The detached branch of control reception: the new state, the verdict and the keys enqueued. */
  function AfterControl(s: State, h: Byte, p: seq<Byte>, sent: Byte, sentLength: int)
    : (r: (State, bool, seq<Key>))
  {
    if |p| > 60 || sentLength > 68 || h >= 32 || sent >= 16 then (s, false, [])
    else
      var (t, ok) := AfterReceive(s, h, p, sent, sentLength);
      (t, ok, if ok && t.accepted != s.accepted then KeysOf(Llid(h), p) else [])
  }

  /** The controller-owned record, updated in place. */
  class Detached {
    var active: bool
    var txSn: Bit
    var rxNesn: Bit
    var accepted: Word
    var duplicates: Word
    var empty: Word
    var acked: Word
    var rejected: Word
    var stale: Word

    ghost function Abs(): State
      reads this
    {
      State(active, txSn, rxNesn, accepted, duplicates, empty, acked, rejected, stale)
    }

    constructor ()
      ensures Abs() == Reset
    {
      active, txSn, rxNesn := false, 0, 0;
      accepted, duplicates, empty, acked, rejected, stale := 0, 0, 0, 0, 0, 0;
    }

    method Receive(h: Byte, p: seq<Byte>, sent: Byte, sentLength: nat) returns (ok: bool)
      modifies this
      ensures (Abs(), ok) == AfterReceive(old(Abs()), h, p, sent, sentLength)
    {
      var kind := Classify(Llid(h), p);
      if h >= 32 || Llid(h) == 0 || |p| > 60 {
        rejected := Add32(rejected, 1);
        return false;
      }
      if !active {
        if kind == UnknownPdu || (kind == EmptyPdu && sent != 1) || sentLength != 0 ||
           (sent != 0 && sent != 1) || (sent == 1 && NesnOf(h) != 1) {
          rejected := Add32(rejected, 1);
          return false;
        }
        active, txSn, rxNesn := true, NesnOf(h), Flip(SnOf(h));
        if kind == EmptyPdu { empty := Add32(empty, 1); } else { accepted := Add32(accepted, 1); }
        return true;
      }
      if sentLength != 0 || sent != HeaderByte(1, rxNesn, txSn, 0) {
        stale := Add32(stale, 1);
        return false;
      }
      if NesnOf(h) != txSn {
        txSn, acked := Flip(txSn), Add32(acked, 1);
      }
      if SnOf(h) != rxNesn {
        duplicates := Add32(duplicates, 1);
        return true;
      }
      if kind == UnknownPdu {
        rejected := Add32(rejected, 1);
        return false;
      }
      rxNesn := Flip(rxNesn);
      if kind == EmptyPdu { empty := Add32(empty, 1); } else { accepted := Add32(accepted, 1); }
      return true;
    }

    method ReceiveControl(h: Byte, p: seq<Byte>, sent: Byte, sentLength: nat)
      returns (ok: bool, keys: seq<Key>)
      modifies this
      ensures (Abs(), ok, keys) == AfterControl(old(Abs()), h, p, sent, sentLength)
    {
      keys := [];
      if |p| > 60 || sentLength > 68 || h >= 32 || sent >= 16 {
        return false, [];
      }
      var before := accepted;
      ok := Receive(h, p, sent, sentLength);
      if ok && accepted != before && Llid(h) == 2 {
        if |p| == 10 && ControlPrefix(p, 6) && WheelScalar(p[4..]) {
          if p[7] == 1 { keys := [VolumeUp]; } else if p[7] == 2 { keys := [VolumeDown]; }
        } else if |p| == 6 && ControlPrefix(p, 2) && MediaScalar(p[4..]) {
          if p[5] == 2 { keys := [PlayPause]; }
        } else if |p| == 7 && ControlPrefix(p, 3) && MicScalar(p[4..]) {
          keys := [MicMute(p[4] == 5)];
        }
      }
    }
  }

  // --------------------------------------------------------------------------
  // The link: our record, the header now on air, the peer, and the loss between them
  // --------------------------------------------------------------------------

  datatype Pdu = Pdu(llid: int, payload: seq<Byte>)

  ghost predicate PduOk(d: Pdu) {
    1 <= d.llid < 4 && |d.payload| <= 60
  }

  /** The peer's future: the PDUs it will send, one after the other, and the SN of the first. */
  datatype Script = Script(pdu: nat -> Pdu, firstSn: Bit)

  ghost predicate ScriptOk(w: Script) {
    forall i: nat :: PduOk(w.pdu(i))
  }

  function SnAt(w: Script, i: int): Bit {
    (w.firstSn + i) % 2
  }

  /** `index` is the PDU the peer is sending; `took` counts the PDUs of ours it has accepted. */
  datatype Peer = Peer(index: nat, nesn: Bit, took: nat)

  /** `start` and `next` delimit the PDUs delivered since bootstrap, `took0` the peer's count then;
      `ackCount` is the unbounded companion of the `acked` counter. */
  datatype Link = Link(dev: State, sent: Byte, peer: Peer, start: nat, next: nat, took0: nat,
                       ackCount: nat, keys: seq<Key>)

  datatype Event =
    | Frame(offer: bool)                       // next Air frame; with or without a parent PDU
    | Hears(takes: bool)                       // the peer receives the frame's parent PDU
    | Reply(md: Bit, lost: bool, eligible: bool) // the peer transmits its current PDU

  function PeerHears(w: Script, peer: Peer, sent: Byte, takes: bool): Peer {
    Peer(if NesnOf(sent) != SnAt(w, peer.index) then peer.index + 1 else peer.index,
         if SnOf(sent) == peer.nesn && takes then Flip(peer.nesn) else peer.nesn,
         if SnOf(sent) == peer.nesn && takes then peer.took + 1 else peer.took)
  }

  ghost function Deliver(w: Script, l: Link, md: Bit): Link
    requires PduOk(w.pdu(l.peer.index))
  {
    var d := w.pdu(l.peer.index);
    var h := HeaderByte(d.llid, l.peer.nesn, SnAt(w, l.peer.index), md);
    var (t, ok, keys) := AfterControl(l.dev, h, d.payload, l.sent, 0);
    var counted := t.accepted != l.dev.accepted || t.empty != l.dev.empty;
    l.(dev := t, keys := l.keys + keys,
       start := if t.active && !l.dev.active then l.peer.index else l.start,
       took0 := if t.active && !l.dev.active then l.peer.took else l.took0,
       next := if !counted then l.next else if !l.dev.active then l.peer.index + 1 else l.next + 1,
       ackCount := if t.acked != l.dev.acked then l.ackCount + 1 else l.ackCount)
  }

  ghost function Step(w: Script, l: Link, e: Event): Link
    requires ScriptOk(w)
  {
    match e
    case Frame(offer) => l.(sent := if !offer then 0 else if l.dev.active then HeaderOf(l.dev) else 1)
    case Hears(takes) => if l.sent == 0 then l else l.(peer := PeerHears(w, l.peer, l.sent, takes))
    case Reply(md, lost, eligible) => if lost || !eligible then l else Deliver(w, l, md)
  }

  ghost function Run(w: Script, l: Link, es: seq<Event>): Link
    requires ScriptOk(w)
    decreases |es|
  {
    if es == [] then l else Run(w, Step(w, l, es[0]), es[1..])
  }

  ghost predicate Initial(l: Link) {
    && l.dev == Reset && l.sent == 0 && l.keys == [] && l.start == l.next && l.ackCount == 0
  }

  // --------------------------------------------------------------------------
  // Exactly-once delivery
  // --------------------------------------------------------------------------

  /** How many of the PDUs numbered from `i` up to `j` carry data. */
  ghost function DataCount(w: Script, i: nat, j: nat): (n: nat)
    requires i <= j
    ensures n <= j - i
    decreases j - i
  {
    if i == j then 0
    else DataCount(w, i, j - 1) + (if Classify(w.pdu(j - 1).llid, w.pdu(j - 1).payload) == EmptyPdu then 0 else 1)
  }

  /** The keys due for the PDUs numbered from `i` up to `j`, in order. */
  ghost function KeysDue(w: Script, i: nat, j: nat): seq<Key>
    requires i <= j
    decreases j - i
  {
    if i == j then [] else KeysDue(w, i, j - 1) + KeysOf(w.pdu(j - 1).llid, w.pdu(j - 1).payload)
  }

  /** What the record holds about the peer's PDUs: exactly those from `start` up to `next`. */
  ghost predicate Delivered(w: Script, l: Link) {
    && l.start < l.next
    && (forall i: nat :: l.start <= i < l.next ==> Classify(w.pdu(i).llid, w.pdu(i).payload) != UnknownPdu)
    && l.dev.accepted == Wrap(DataCount(w, l.start, l.next))
    && l.dev.empty == Wrap(l.next - l.start - DataCount(w, l.start, l.next))
    && l.keys == KeysDue(w, l.start, l.next)
  }

  /** The expected bit agrees with the true position of the peer. */
  ghost predicate RxInStep(w: Script, l: Link) {
    && l.dev.rxNesn == SnAt(w, l.next)
    && (l.peer.index == l.next || l.peer.index == l.next - 1)
    && (l.sent != 0 && NesnOf(l.sent) != l.dev.rxNesn ==> l.peer.index == l.next - 1)
  }

  /** The transmitted bit agrees with what the peer has taken of ours. */
  ghost predicate TxInStep(l: Link) {
    && l.dev.acked == Wrap(l.ackCount)
    && (l.peer.took == l.took0 + l.ackCount || l.peer.took == l.took0 + l.ackCount + 1)
    && (l.peer.nesn == l.dev.txSn <==> l.peer.took == l.took0 + l.ackCount)
    && (l.sent != 0 && SnOf(l.sent) != l.dev.txSn ==> l.peer.took == l.took0 + l.ackCount)
  }

  ghost predicate Inv(w: Script, l: Link) {
    && (!l.dev.active ==> (l.sent == 0 || l.sent == 1) && l.keys == [] && l.start == l.next &&
                          l.dev.accepted == 0 && l.dev.empty == 0 && l.dev.acked == 0 && l.ackCount == 0)
    && (l.dev.active ==> l.sent < 16 && Delivered(w, l) && RxInStep(w, l) && TxInStep(l))
  }

  lemma FrameKeeps(w: Script, l: Link, offer: bool)
    requires ScriptOk(w) && Inv(w, l)
    ensures Inv(w, Step(w, l, Frame(offer)))
  {
  }

  lemma HearsKeeps(w: Script, l: Link, takes: bool)
    requires ScriptOk(w) && Inv(w, l)
    ensures Inv(w, Step(w, l, Hears(takes)))
  {
    hide Classify, KeysOf, KeysDue, AfterControl, Wrap;
  }

  lemma SnAlternates(w: Script, i: int)
    ensures SnAt(w, i + 1) == Flip(SnAt(w, i)) && SnAt(w, i - 1) == Flip(SnAt(w, i))
  {
  }

  lemma CountsMove(s: State)
    ensures Add32(s.accepted, 1) != s.accepted && Add32(s.empty, 1) != s.empty && Add32(s.acked, 1) != s.acked
  {
  }

  lemma ActiveControl(s: State, d: Pdu, nesn: Bit, sn: Bit, md: Bit, sent: Byte)
    requires PduOk(d) && s.active && sent < 16
    ensures var kind := Classify(d.llid, d.payload);
      var (t, ok) := if sent == HeaderOf(s) then AfterAnswer(s, nesn, sn, kind)
                     else (s.(stale := Add32(s.stale, 1)), false);
      AfterControl(s, HeaderByte(d.llid, nesn, sn, md), d.payload, sent, 0) ==
        (t, ok, if ok && t.accepted != s.accepted then KeysOf(d.llid, d.payload) else [])
  {
    hide Classify, KeysOf;
  }

  /** What one reply does to an active record, by the header it answers and its own SN. */
  lemma ActiveReply(w: Script, l: Link, md: Bit)
    requires ScriptOk(w) && l.dev.active && l.sent < 16
    ensures var r := Deliver(w, l, md);
      var d := w.pdu(l.peer.index);
      var kind := Classify(d.llid, d.payload);
      var current := l.sent == HeaderOf(l.dev);
      var isNew := current && SnAt(w, l.peer.index) == l.dev.rxNesn && kind != UnknownPdu;
      var ack := current && l.peer.nesn != l.dev.txSn;
      && r.dev.active && r.sent == l.sent && r.peer == l.peer && r.start == l.start && r.took0 == l.took0
      && r.next == (if isNew then l.next + 1 else l.next)
      && r.dev.rxNesn == (if isNew then Flip(l.dev.rxNesn) else l.dev.rxNesn)
      && r.dev.accepted == (if isNew && kind != EmptyPdu then Add32(l.dev.accepted, 1) else l.dev.accepted)
      && r.dev.empty == (if isNew && kind == EmptyPdu then Add32(l.dev.empty, 1) else l.dev.empty)
      && r.keys == (if isNew then l.keys + KeysOf(d.llid, d.payload) else l.keys)
      && r.dev.txSn == (if ack then Flip(l.dev.txSn) else l.dev.txSn)
      && r.dev.acked == (if ack then Add32(l.dev.acked, 1) else l.dev.acked)
      && r.ackCount == (if ack then l.ackCount + 1 else l.ackCount)
  {
    var d := w.pdu(l.peer.index);
    assert PduOk(d);
    ActiveControl(l.dev, d, l.peer.nesn, SnAt(w, l.peer.index), md, l.sent);
    CountsMove(l.dev);
  }

  lemma CountOneMore(w: Script, l: Link, r: Link)
    requires Delivered(w, l) && r.start == l.start && r.next == l.next + 1
    requires var kind := Classify(w.pdu(l.next).llid, w.pdu(l.next).payload);
      && kind != UnknownPdu
      && r.dev.accepted == (if kind != EmptyPdu then Add32(l.dev.accepted, 1) else l.dev.accepted)
      && r.dev.empty == (if kind == EmptyPdu then Add32(l.dev.empty, 1) else l.dev.empty)
      && r.keys == l.keys + KeysOf(w.pdu(l.next).llid, w.pdu(l.next).payload)
    ensures Delivered(w, r)
  {
    var n := DataCount(w, l.start, l.next);
    WrappedSum(n, 1);
    WrappedSum(l.next - l.start - n, 1);
  }

  lemma BootstrapControl(s: State, d: Pdu, nesn: Bit, sn: Bit, md: Bit, sent: Byte)
    requires PduOk(d) && !s.active && s.accepted == 0 && s.empty == 0 && (sent == 0 || sent == 1)
    ensures var kind := Classify(d.llid, d.payload);
      var seeds := kind != UnknownPdu && (kind == EmptyPdu ==> sent == 1) && (sent == 1 ==> nesn == 1);
      AfterControl(s, HeaderByte(d.llid, nesn, sn, md), d.payload, sent, 0) ==
        if seeds then (CountNew(s.(active := true, txSn := nesn, rxNesn := Flip(sn)), kind), true,
                       if kind != EmptyPdu then KeysOf(d.llid, d.payload) else [])
        else (s.(rejected := Add32(s.rejected, 1)), false, [])
  {
    hide Classify, KeysOf;
  }

  lemma BootstrapReply(w: Script, l: Link, md: Bit)
    requires ScriptOk(w) && Inv(w, l) && !l.dev.active
    ensures var r := Deliver(w, l, md);
      var d := w.pdu(l.peer.index);
      var kind := Classify(d.llid, d.payload);
      && r.sent == l.sent && r.peer == l.peer
      && (!r.dev.active ==> r == l.(dev := r.dev) && r.dev == l.dev.(rejected := r.dev.rejected))
      && (r.dev.active ==>
            && kind != UnknownPdu && (l.sent == 1 ==> l.peer.nesn == 1)
            && r.start == l.peer.index && r.next == l.peer.index + 1 && r.took0 == l.peer.took
            && r.dev.txSn == l.peer.nesn && r.dev.rxNesn == Flip(SnAt(w, l.peer.index))
            && r.dev.accepted == (if kind == EmptyPdu then 0 else 1)
            && r.dev.empty == (if kind == EmptyPdu then 1 else 0)
            && r.dev.acked == 0 && r.ackCount == 0
            && r.keys == KeysOf(d.llid, d.payload))
  {
    var d := w.pdu(l.peer.index);
    assert PduOk(d);
    BootstrapControl(l.dev, d, l.peer.nesn, SnAt(w, l.peer.index), md, l.sent);
    hide AfterControl, SnAt, HeaderByte, KeysOf;
    assert Classify(d.llid, d.payload) == EmptyPdu ==> KeysOf(d.llid, d.payload) == [] by {
      EmptyHasNoKey(d);
    }
    hide Classify;
  }

  lemma EmptyHasNoKey(d: Pdu)
    ensures Classify(d.llid, d.payload) == EmptyPdu ==> KeysOf(d.llid, d.payload) == []
  {
    hide Classify;
  }

  lemma FirstDelivered(w: Script, r: Link)
    requires r.next == r.start + 1
    requires var d := w.pdu(r.start);
      var kind := Classify(d.llid, d.payload);
      && kind != UnknownPdu && r.keys == KeysOf(d.llid, d.payload)
      && r.dev.accepted == (if kind == EmptyPdu then 0 else 1)
      && r.dev.empty == (if kind == EmptyPdu then 1 else 0)
    ensures Delivered(w, r)
  {
    hide Classify, KeysOf;
    var d := w.pdu(r.start);
    assert DataCount(w, r.start, r.start) == 0 && KeysDue(w, r.start, r.start) == [];
    assert DataCount(w, r.start, r.next) == (if Classify(d.llid, d.payload) == EmptyPdu then 0 else 1);
    assert KeysDue(w, r.start, r.next) == KeysOf(d.llid, d.payload);
  }

  lemma BootstrapKeeps(w: Script, l: Link, md: Bit)
    requires ScriptOk(w) && Inv(w, l) && !l.dev.active
    ensures Inv(w, Deliver(w, l, md))
  {
    BootstrapReply(w, l, md);
    var r := Deliver(w, l, md);
    hide Deliver, Delivered, Classify, KeysOf, SnAt;
    if r.dev.active {
      FirstDelivered(w, r);
      SnAlternates(w, l.peer.index);
      assert RxInStep(w, r) && TxInStep(r);
    }
  }

  lemma HeaderFields(s: State)
    requires s.active
    ensures NesnOf(HeaderOf(s)) == s.rxNesn && SnOf(HeaderOf(s)) == s.txSn
  {
  }

  lemma RxKeeps(w: Script, l: Link, r: Link)
    requires l.dev.active && RxInStep(w, l) && r.sent == l.sent && r.peer == l.peer
    requires
      || (r.next == l.next && r.dev.rxNesn == l.dev.rxNesn)
      || (l.sent == HeaderOf(l.dev) && SnAt(w, l.peer.index) == l.dev.rxNesn &&
          r.next == l.next + 1 && r.dev.rxNesn == Flip(l.dev.rxNesn))
    ensures RxInStep(w, r)
    ensures r.next == l.next + 1 ==> l.peer.index == l.next
  {
    HeaderFields(l.dev);
    hide SnAt, HeaderByte, HeaderOf, NesnOf, SnOf;
    SnAlternates(w, l.next);
  }

  lemma TxKeeps(l: Link, r: Link)
    requires l.dev.active && TxInStep(l) && r.sent == l.sent && r.peer == l.peer && r.took0 == l.took0
    requires var ack := l.sent == HeaderOf(l.dev) && l.peer.nesn != l.dev.txSn;
      && r.dev.txSn == (if ack then Flip(l.dev.txSn) else l.dev.txSn)
      && r.dev.acked == (if ack then Add32(l.dev.acked, 1) else l.dev.acked)
      && r.ackCount == (if ack then l.ackCount + 1 else l.ackCount)
    ensures TxInStep(r)
  {
    HeaderFields(l.dev);
    WrappedSum(l.ackCount, 1);
    hide HeaderByte, HeaderOf, NesnOf, SnOf, Add32, Wrap;
  }

  lemma SameCount(w: Script, l: Link, r: Link)
    requires Delivered(w, l) && r.start == l.start && r.next == l.next && r.keys == l.keys
    requires r.dev.accepted == l.dev.accepted && r.dev.empty == l.dev.empty
    ensures Delivered(w, r)
  {
  }

  lemma ActiveDeliverKeeps(w: Script, l: Link, md: Bit)
    requires ScriptOk(w) && Inv(w, l) && l.dev.active
    ensures Inv(w, Deliver(w, l, md))
  {
    ActiveReply(w, l, md);
    var r := Deliver(w, l, md);
    hide Deliver, Classify, KeysOf, SnAt, HeaderOf, HeaderByte, RxInStep, TxInStep, Delivered, Add32;
    assert Delivered(w, l) && RxInStep(w, l) && TxInStep(l);
    RxKeeps(w, l, r);
    TxKeeps(l, r);
    if r.next != l.next {
      CountOneMore(w, l, r);
    } else {
      SameCount(w, l, r);
    }
  }

  lemma StepKeeps(w: Script, l: Link, e: Event)
    requires ScriptOk(w) && Inv(w, l)
    ensures Inv(w, Step(w, l, e))
  {
    match e {
      case Frame(offer) => FrameKeeps(w, l, offer);
      case Hears(takes) => HearsKeeps(w, l, takes);
      case Reply(md, lost, eligible) =>
        if !lost && eligible {
          if l.dev.active { ActiveDeliverKeeps(w, l, md); } else { BootstrapKeeps(w, l, md); }
        }
    }
  }

  lemma {:induction false} RunKeeps(w: Script, l: Link, es: seq<Event>)
    requires ScriptOk(w) && Inv(w, l)
    ensures Inv(w, Run(w, l, es))
    decreases |es|
  {
    if es != [] {
      StepKeeps(w, l, es[0]);
      RunKeeps(w, Step(w, l, es[0]), es[1..]);
    }
  }

  /** Exactly-once delivery: whatever is lost, repeated or declined, once the record is active it
      has counted precisely the peer's PDUs from `start` up to `next`, has enqueued precisely their
      keys in order, and the peer is at most one PDU behind. In the other direction every local
      PDU counted as acknowledged was taken by the peer exactly once. */
  lemma ExactlyOnce(w: Script, l: Link, es: seq<Event>)
    requires ScriptOk(w) && Initial(l)
    ensures var r := Run(w, l, es);
      r.dev.active ==>
        && Delivered(w, r)
        && (r.peer.index == r.next || r.peer.index == r.next - 1)
        && r.dev.acked == Wrap(r.ackCount)
        && 0 <= r.peer.took - r.took0 - r.ackCount <= 1
  {
    RunKeeps(w, l, es);
  }

  /** A known PDU that the peer sends for the first time is delivered by any reply that answers the
      header now on air; the theorem above is therefore not met by never accepting anything. */
  lemma FreshReplyIsDelivered(w: Script, l: Link, md: Bit)
    requires ScriptOk(w) && l.dev.active && l.sent == HeaderOf(l.dev) < 16
    requires l.peer.index == l.next && l.dev.rxNesn == SnAt(w, l.next)
    ensures var r := Step(w, l, Reply(md, false, true));
      var d := w.pdu(l.peer.index);
      if Classify(d.llid, d.payload) == UnknownPdu then r.next == l.next && r.keys == l.keys
      else r.next == l.next + 1 && r.keys == l.keys + KeysOf(d.llid, d.payload)
  {
    ActiveReply(w, l, md);
  }
}
