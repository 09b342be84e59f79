/**
 Feedback from the headset (air_feedback.c): acceptance of one received packet, the record
 commit, the transmit note, and the prediction of the peer's expected 4-bit sequence, with the
 theorem that the prediction never drifts. Frame indices stay below 2^32 (the trial's frame
 limit), so they are plain naturals here.
 */
module AirFeedback {
  import opened Words
  import AirFrame
  import S = AirSession

  type Nibble = AirFrame.Nibble

  datatype Channel = Channel(frame: nat, expected: Nibble, nextAck: Nibble, valid: bool, afterTx: bool)
  datatype Feedback = Feedback(generation: Word, channels: seq<Channel>)

  const NoFeedback: Feedback := Feedback(0, [Channel(0, 0, 0, false, false), Channel(0, 0, 0, false, false)])

  function Next(n: int): Nibble { (n + 1) % 16 }

  // --------------------------------------------------------------------------
  // Committing the records of one authenticated packet
  // --------------------------------------------------------------------------

  function AckFor(r: AirFrame.RxRecord): Nibble {
    if AirFrame.HasBit(r.flags, 3) then 0 else Next(r.tx)
  }

  /** One channel after one record received in `frame`. */
  function CommitChannel(ch: Channel, frame: nat, expected: Nibble, ack: Nibble): Channel {
    if ch.valid && frame < ch.frame then ch
    else Channel(frame, expected, ack, true,
                 ch.valid && ch.frame == frame && ch.expected == expected && ch.afterTx)
  }

  /** Whether the commit changes the channel. */
  predicate Commits(ch: Channel, frame: nat, expected: Nibble, ack: Nibble) {
    && !(ch.valid && frame < ch.frame)
    && (!ch.valid || ch.frame != frame || ch.expected != expected || ch.nextAck != ack)
  }

  function CommitAll(channels: seq<Channel>, changed: bool, frame: nat, records: seq<AirFrame.RxRecord>)
    : (r: Option<(seq<Channel>, bool)>)
    requires |channels| == 2
    ensures r.Some? ==> |r.value.0| == 2
    decreases |records|
  {
    if records == [] then Some((channels, changed))
    else
      var r := records[0];
      if r.id < 1 || r.id > 2 then None
      else
        var ch := channels[r.id - 1];
        CommitAll(channels[r.id - 1 := if Commits(ch, frame, r.ack, AckFor(r))
                                       then CommitChannel(ch, frame, r.ack, AckFor(r)) else ch],
                  changed || Commits(ch, frame, r.ack, AckFor(r)), frame, records[1..])
  }

  datatype Snapshot = Snapshot(hs: Word, hus: Half, status: Half, header: Byte, length: Byte, payload: seq<Byte>)

  datatype Verdict = Accepted | BadSlot | BadPacket | BadAuth | BadRecords

  /** Everything one call decides: the verdict, the new state, the control handed to the caller and
      the microphone frames published. */
  datatype Outcome = Outcome(verdict: Verdict, state: Feedback, control: Option<AirFrame.Control>,
                             microphone: seq<(Nibble, seq<Byte>)>)

  function Microphone(records: seq<AirFrame.RxRecord>): seq<(Nibble, seq<Byte>)> {
    if records == [] then []
    else (if records[0].id == 1 && |records[0].payload| == 40 then [(records[0].tx, records[0].payload)] else [])
         + Microphone(records[1..])
  }

  function AcceptFrame(st: Feedback, plan: S.Plan, rx: Snapshot, frame: nat,
                       open: (Byte, seq<Byte>) -> Option<seq<Byte>>): (o: Outcome)
    requires |st.channels| == 2 && |plan.e2| == S.E2_BYTES
    ensures |o.state.channels| == 2
  {
    if plan.e2[0] != 0xe2 || rx.hs >= S.CLOCK || rx.hus > 624 then Outcome(BadSlot, st, None, [])
    else if rx.status % 2 == 1 || rx.status / 8 % 2 == 1 || rx.length < 7 || rx.length != |rx.payload| ||
            rx.length > 64 then Outcome(BadPacket, st, None, [])
    else if !S.SlotAccepts(plan, frame, rx.hs, rx.hus) then Outcome(BadSlot, st, None, [])
    else
      var plain := open(rx.header % 4 + rx.header / 32 * 32, rx.payload);
      if plain.None? then Outcome(BadAuth, st, None, [])
      else
        var parsed := AirFrame.ParseUplink(plain.value, rx.header / 8 % 16, [40, 95], 4, rx.header % 2 == 1);
        if parsed.Err? || parsed.value.records == [] then Outcome(BadRecords, st, None, [])
        else
          var p := parsed.value;
          var committed := CommitAll(st.channels, false, frame, p.records);
          if committed.None? || (p.control.Some? && |p.control.value.payload| > 60) then Outcome(BadRecords, st, None, [])
          else
            var (channels, changed) := committed.value;
            Outcome(Accepted, if changed then Feedback(Add32(st.generation, 1), channels) else st,
                    p.control, Microphone(p.records))
  }

  function NoteChannel(ch: Channel, frame: nat, sent: bool, sequence: Nibble): Channel {
    if sent && ch.valid && ch.frame == frame && ch.expected == Next(sequence) then ch.(afterTx := true) else ch
  }

  /** Streams 1 and 2 are bits 1 and 2 of the mask, channels 0 and 1. */
  function NoteTx(st: Feedback, frame: nat, mask: Byte, sequences: seq<Nibble>): Feedback
    requires |st.channels| == 2 && |sequences| == 2
  {
    var channels := seq(2, i requires 0 <= i < 2 =>
      NoteChannel(st.channels[i], frame, AirFrame.HasBit(mask, i + 1), sequences[i]));
    Feedback(if channels != st.channels then Add32(st.generation, 1) else st.generation, channels)
  }

  // --------------------------------------------------------------------------
  // Prediction
  // --------------------------------------------------------------------------

  function ExpiryAge(frame: nat, start: nat): nat {
    if frame > start then frame - start - 1 else 0
  }

  predicate Anchored(ch: Channel, frame: nat, start: nat) {
    ch.valid && ch.frame >= start && frame >= ch.frame
  }

  /** The sequence predicted for one channel, and the acknowledgement to send with it. */
  function Predict(ch: Channel, frame: nat, start: nat): Nibble {
    if !Anchored(ch, frame, start) then ExpiryAge(frame, start) % 16
    else
      var advance := ExpiryAge(frame, start) - ExpiryAge(ch.frame, start);
      (ch.expected + (if ch.afterTx && advance != 0 then advance - 1 else advance)) % 16
  }

  function AckToSend(ch: Channel, frame: nat, start: nat): Nibble {
    if Anchored(ch, frame, start) then ch.nextAck else 0
  }

  // --------------------------------------------------------------------------
  // The record updated in place
  // --------------------------------------------------------------------------

  class Record {
    var generation: Word
    var channels: seq<Channel>

    ghost predicate Valid()
      reads this
    {
      |channels| == 2
    }

    ghost function Abs(): Feedback
      reads this
    {
      Feedback(generation, channels)
    }

    constructor ()
      ensures Valid() && Abs() == NoFeedback
    {
      generation, channels := 0, NoFeedback.channels;
    }

    /** The commit loop of an authenticated packet; nothing changes unless every record is known. */
    method Commit(frame: nat, records: seq<AirFrame.RxRecord>) returns (ok: bool, updated: seq<Channel>, changed: bool)
      requires Valid()
      ensures ok <==> CommitAll(channels, false, frame, records).Some?
      ensures ok ==> CommitAll(channels, false, frame, records) == Some((updated, changed))
    {
      updated, changed := channels, false;
      var i := 0;
      while i < |records|
        invariant 0 <= i <= |records| && |updated| == 2
        invariant CommitAll(channels, false, frame, records) == CommitAll(updated, changed, frame, records[i..])
      {
        var r := records[i];
        assert records[i..][1..] == records[i + 1..];
        if r.id < 1 || r.id > 2 { return false, updated, changed; }
        var ch := updated[r.id - 1];
        var ack := AckFor(r);
        if !(ch.valid && frame < ch.frame) {
          if !ch.valid || ch.frame != frame || ch.expected != r.ack || ch.nextAck != ack {
            var after := ch.afterTx;
            if !ch.valid || ch.frame != frame || ch.expected != r.ack { after := false; }
            updated := updated[r.id - 1 := Channel(frame, r.ack, ack, true, after)];
            changed := true;
          }
        }
        assert updated == updated[r.id - 1 := updated[r.id - 1]];
        i := i + 1;
      }
      ok := true;
    }

    method Accept(plan: S.Plan, rx: Snapshot, frame: nat, open: (Byte, seq<Byte>) -> Option<seq<Byte>>)
      returns (verdict: Verdict, control: Option<AirFrame.Control>, microphone: seq<(Nibble, seq<Byte>)>)
      requires Valid() && |plan.e2| == S.E2_BYTES
      modifies this
      ensures Valid()
      ensures Outcome(verdict, Abs(), control, microphone) == AcceptFrame(old(Abs()), plan, rx, frame, open)
    {
      hide S.SessionTime, CommitAll, AirFrame.ParseUplink;
      control, microphone := None, [];
      if plan.e2[0] != 0xe2 || rx.hs >= S.CLOCK || rx.hus > 624 { return BadSlot, None, []; }
      if rx.status % 2 == 1 || rx.status / 8 % 2 == 1 || rx.length < 7 || rx.length != |rx.payload| ||
         rx.length > 64 { return BadPacket, None, []; }
      var (hs, hus) := S.SessionTime(plan, frame, 0);
      var coarse := (rx.hs - hs) % S.CLOCK;
      if coarse >= S.CLOCK / 2 { return BadSlot, None, []; }
      var elapsed := coarse * 625 + rx.hus - hus;
      if elapsed < 0 || elapsed >= S.FRAME_HUS { return BadSlot, None, []; }
      var plain := open(rx.header % 4 + rx.header / 32 * 32, rx.payload);
      if plain.None? { return BadAuth, None, []; }
      var parsed := AirFrame.UplinkParse(plain.value, rx.header / 8 % 16, [40, 95], 4, rx.header % 2 == 1);
      if parsed.Err? || parsed.value.records == [] { return BadRecords, None, []; }
      var ok, updated, changed := Commit(frame, parsed.value.records);
      if !ok { return BadRecords, None, []; }
      if parsed.value.control.Some? && |parsed.value.control.value.payload| > 60 { return BadRecords, None, []; }
      CommittedTwo(channels, false, frame, parsed.value.records);
      if changed { generation, channels := Add32(generation, 1), updated; }
      return Accepted, parsed.value.control, Microphone(parsed.value.records);
    }

    method Note(frame: nat, mask: Byte, sequences: seq<Nibble>)
      requires Valid() && |sequences| == 2
      modifies this
      ensures Valid() && Abs() == NoteTx(old(Abs()), frame, mask, sequences)
    {
      hide AirFrame.HasBit;
      var changed := false;
      var i := 0;
      while i < 2
        invariant 0 <= i <= 2 && |channels| == 2 && generation == old(generation)
        invariant forall k :: 0 <= k < i ==>
          channels[k] == NoteChannel(old(channels)[k], frame, AirFrame.HasBit(mask, k + 1), sequences[k])
        invariant forall k :: i <= k < 2 ==> channels[k] == old(channels)[k]
        invariant changed <==> channels != old(channels)
      {
        var ch := channels[i];
        if AirFrame.HasBit(mask, i + 1) && ch.valid && ch.frame == frame && ch.expected == Next(sequences[i]) && !ch.afterTx {
          channels := channels[i := ch.(afterTx := true)];
          assert channels[i] != old(channels)[i];
          changed := true;
        }
        i := i + 1;
      }
      if changed { generation := Add32(generation, 1); }
    }

    /** The sender's sequences and acknowledgements for a frame. */
    method Sequences(frame: nat, starts: seq<nat>) returns (tx: seq<Nibble>, ack: seq<Nibble>)
      requires Valid() && |starts| == 2
      ensures |tx| == 2 && |ack| == 2
      ensures forall i :: 0 <= i < 2 ==> tx[i] == Predict(channels[i], frame, starts[i]) &&
                                         ack[i] == AckToSend(channels[i], frame, starts[i])
    {
      tx, ack := [], [];
      for i := 0 to 2
        invariant |tx| == i && |ack| == i
        invariant forall k :: 0 <= k < i ==> tx[k] == Predict(channels[k], frame, starts[k]) &&
                                             ack[k] == AckToSend(channels[k], frame, starts[k])
      {
        var ch := channels[i];
        var age := ExpiryAge(frame, starts[i]);
        var sequence, next: Nibble := age % 16, 0;
        if ch.valid && ch.frame >= starts[i] && frame >= ch.frame {
          var advance := age - ExpiryAge(ch.frame, starts[i]);
          if ch.afterTx && advance != 0 { advance := advance - 1; }
          sequence, next := (ch.expected + advance) % 16, ch.nextAck;
        }
        tx, ack := tx + [sequence], ack + [next];
      }
    }
  }

  lemma {:induction false} CommittedTwo(channels: seq<Channel>, changed: bool, frame: nat, records: seq<AirFrame.RxRecord>)
    requires |channels| == 2
    ensures var r := CommitAll(channels, changed, frame, records);
      r.Some? ==> |r.value.0| == 2
    decreases |records|
  {
    if records != [] && 1 <= records[0].id <= 2 {
      var r := records[0];
      var ch := channels[r.id - 1];
      CommittedTwo(channels[r.id - 1 := if Commits(ch, frame, r.ack, AckFor(r))
                                        then CommitChannel(ch, frame, r.ack, AckFor(r)) else ch],
                   changed || Commits(ch, frame, r.ack, AckFor(r)), frame, records[1..]);
    }
  }

  /** A packet from an earlier frame never moves a channel back. */
  lemma {:induction false} CommitIsForward(channels: seq<Channel>, changed: bool, frame: nat,
                                           records: seq<AirFrame.RxRecord>, i: nat)
    requires |channels| == 2 && i < 2 && CommitAll(channels, changed, frame, records).Some?
    requires channels[i].valid
    ensures var after := CommitAll(channels, changed, frame, records).value.0;
      |after| == 2 && after[i].valid && after[i].frame >= channels[i].frame
    decreases |records|
  {
    if records != [] {
      var r := records[0];
      var ch := channels[r.id - 1];
      CommitIsForward(channels[r.id - 1 := if Commits(ch, frame, r.ack, AckFor(r))
                                           then CommitChannel(ch, frame, r.ack, AckFor(r)) else ch],
                      changed || Commits(ch, frame, r.ack, AckFor(r)), frame, records[1..], i);
    }
  }

  // --------------------------------------------------------------------------
  // An accepted packet, stream by stream
  // --------------------------------------------------------------------------

  /** The records an authenticated packet carries. */
  function RecordsOf(rx: Snapshot, open: (Byte, seq<Byte>) -> Option<seq<Byte>>): seq<AirFrame.RxRecord> {
    var plain := open(rx.header % 4 + rx.header / 32 * 32, rx.payload);
    if plain.None? then []
    else
      var parsed := AirFrame.ParseUplink(plain.value, rx.header / 8 % 16, [40, 95], 4, rx.header % 2 == 1);
      if parsed.Ok? then parsed.value.records else []
  }

  /** The acknowledgements due for one stream's records, in order. */
  function AcksOf(records: seq<AirFrame.RxRecord>, id: nat): seq<Nibble> {
    if records == [] then []
    else (if records[0].id == id then [AckFor(records[0])] else []) + AcksOf(records[1..], id)
  }

  /** The stream's records report `e` as the sequence the peer expects. */
  predicate Reports(records: seq<AirFrame.RxRecord>, id: nat, e: int) {
    forall k :: 0 <= k < |records| && records[k].id == id ==> records[k].ack == e
  }

  function CommitMany(ch: Channel, frame: nat, e: Nibble, acks: seq<Nibble>): Channel
    decreases |acks|
  {
    if acks == [] then ch else CommitMany(CommitChannel(ch, frame, e, acks[0]), frame, e, acks[1..])
  }

  lemma {:induction false} CommitAllIs(channels: seq<Channel>, changed: bool, frame: nat, records: seq<AirFrame.RxRecord>, i: nat, e: Nibble)
    requires |channels| == 2 && i < 2 && CommitAll(channels, changed, frame, records).Some? && Reports(records, i + 1, e)
    ensures CommitAll(channels, changed, frame, records).value.0[i] == CommitMany(channels[i], frame, e, AcksOf(records, i + 1))
    decreases |records|
  {
    if records != [] {
      var r := records[0];
      var ch := channels[r.id - 1];
      var next := channels[r.id - 1 := if Commits(ch, frame, r.ack, AckFor(r)) then CommitChannel(ch, frame, r.ack, AckFor(r)) else ch];
      CommitAllIs(next, changed || Commits(ch, frame, r.ack, AckFor(r)), frame, records[1..], i, e);
      assert next[i] == if r.id == i + 1 then CommitChannel(ch, frame, e, AckFor(r)) else channels[i];
      var acks, rest := AcksOf(records, i + 1), AcksOf(records[1..], i + 1);
      if r.id == i + 1 { assert acks[1..] == rest && acks[0] == AckFor(r); } else { assert acks == rest; }
      hide AckFor, CommitChannel, Commits;
    }
  }

  lemma {:induction false} UnchangedIsSame(channels: seq<Channel>, changed: bool, frame: nat, records: seq<AirFrame.RxRecord>)
    requires |channels| == 2 && CommitAll(channels, changed, frame, records).Some? && !CommitAll(channels, changed, frame, records).value.1
    ensures !changed && CommitAll(channels, changed, frame, records).value.0 == channels
    decreases |records|
  {
    if records != [] {
      var r := records[0];
      var ch := channels[r.id - 1];
      var next := channels[r.id - 1 := if Commits(ch, frame, r.ack, AckFor(r)) then CommitChannel(ch, frame, r.ack, AckFor(r)) else ch];
      UnchangedIsSame(next, changed || Commits(ch, frame, r.ack, AckFor(r)), frame, records[1..]);
      hide AckFor;
    }
  }

  /** An accepted packet commits each stream's records, and nothing else to it. */
  lemma AcceptedCommits(st: Feedback, plan: S.Plan, rx: Snapshot, frame: nat, open: (Byte, seq<Byte>) -> Option<seq<Byte>>, i: nat, e: Nibble)
    requires |st.channels| == 2 && |plan.e2| == S.E2_BYTES && i < 2
    requires AcceptFrame(st, plan, rx, frame, open).verdict.Accepted? && Reports(RecordsOf(rx, open), i + 1, e)
    ensures AcceptFrame(st, plan, rx, frame, open).state.channels[i] ==
            CommitMany(st.channels[i], frame, e, AcksOf(RecordsOf(rx, open), i + 1))
  {
    hide S.SlotAccepts, AirFrame.ParseUplink, CommitAll, AcksOf, CommitMany, Reports;
    var records := RecordsOf(rx, open);
    CommitAllIs(st.channels, false, frame, records, i, e);
    if !CommitAll(st.channels, false, frame, records).value.1 { UnchangedIsSame(st.channels, false, frame, records); }
  }

  lemma RefusedKeeps(st: Feedback, plan: S.Plan, rx: Snapshot, frame: nat, open: (Byte, seq<Byte>) -> Option<seq<Byte>>)
    requires |st.channels| == 2 && |plan.e2| == S.E2_BYTES && !AcceptFrame(st, plan, rx, frame, open).verdict.Accepted?
    ensures AcceptFrame(st, plan, rx, frame, open).state == st
  {
    hide S.SlotAccepts, AirFrame.ParseUplink, CommitAll;
  }

  lemma {:induction false} LastAck(ch: Channel, frame: nat, e: Nibble, acks: seq<Nibble>)
    requires acks != [] && (ch.valid ==> ch.frame <= frame)
    ensures var after := CommitMany(ch, frame, e, acks);
      after.valid && after.frame == frame && after.nextAck == acks[|acks| - 1] && after.expected == e
    decreases |acks|
  {
    if |acks| > 1 { LastAck(CommitChannel(ch, frame, e, acks[0]), frame, e, acks[1..]); }
  }

  lemma {:induction false} AcksLast(records: seq<AirFrame.RxRecord>, id: nat, k: nat)
    requires k < |records| && records[k].id == id && forall j :: k < j < |records| ==> records[j].id != id
    ensures AcksOf(records, id) != [] && AcksOf(records, id)[|AcksOf(records, id)| - 1] == AckFor(records[k])
  {
    if k > 0 {
      AcksLast(records[1..], id, k - 1);
    } else {
      NoAcks(records[1..], id);
    }
  }

  lemma {:induction false} NoAcks(records: seq<AirFrame.RxRecord>, id: nat)
    requires forall j :: 0 <= j < |records| ==> records[j].id != id
    ensures AcksOf(records, id) == []
  {
    if records != [] { NoAcks(records[1..], id); }
  }

  /**
   After an accepted packet, until another is heard, what is sent acknowledges the last record of each stream in it:
   with the sequence that follows the record's, or zero when the record starts over.
   */
  lemma AcknowledgesHeard(st: Feedback, plan: S.Plan, rx: Snapshot, frame: nat, open: (Byte, seq<Byte>) -> Option<seq<Byte>>,
                          i: nat, e: Nibble, k: nat, later: nat, start: nat)
    requires |st.channels| == 2 && |plan.e2| == S.E2_BYTES && i < 2 && (st.channels[i].valid ==> st.channels[i].frame <= frame)
    requires AcceptFrame(st, plan, rx, frame, open).verdict.Accepted? && Reports(RecordsOf(rx, open), i + 1, e)
    requires var records := RecordsOf(rx, open);
      k < |records| && records[k].id == i + 1 && forall j :: k < j < |records| ==> records[j].id != i + 1
    requires start <= frame <= later
    ensures var r := RecordsOf(rx, open)[k]; var sent := AckToSend(AcceptFrame(st, plan, rx, frame, open).state.channels[i], later, start);
      if AirFrame.HasBit(r.flags, 3) then sent == 0 else (sent - r.tx) % 16 == 1
  {
    hide AcceptFrame, RecordsOf, Reports, AirFrame.HasBit, AcksOf, CommitMany;
    AcceptedCommits(st, plan, rx, frame, open, i, e);
    AcksLast(RecordsOf(rx, open), i + 1, k);
    LastAck(st.channels[i], frame, e, AcksOf(RecordsOf(rx, open), i + 1));
  }

  /** Before anything of a stream was heard, nothing is acknowledged. */
  lemma NothingToAcknowledge(ch: Channel, frame: nat, start: nat)
    requires !ch.valid || ch.frame < start
    ensures AckToSend(ch, frame, start) == 0
  {
  }

  /**
   What is accepted: a packet of this session that the radio received without error, whole, at a time less than one frame after this
   frame's start, that opens and parses, with records of the two streams only and a control of at most 60 bytes.
   */
  lemma AcceptedIff(st: Feedback, plan: S.Plan, rx: Snapshot, frame: nat, open: (Byte, seq<Byte>) -> Option<seq<Byte>>)
    requires |st.channels| == 2 && |plan.e2| == S.E2_BYTES
    ensures var plain := open(rx.header % 4 + rx.header / 32 * 32, rx.payload);
      AcceptFrame(st, plan, rx, frame, open).verdict.Accepted? <==>
        plan.e2[0] == 0xe2 && rx.hs < S.CLOCK && rx.hus < 625 && S.SlotAccepts(plan, frame, rx.hs, rx.hus) &&
        rx.status % 2 == 0 && rx.status / 8 % 2 == 0 && 7 <= rx.length == |rx.payload| <= 64 && plain.Some? &&
        var parsed := AirFrame.ParseUplink(plain.value, rx.header / 8 % 16, [40, 95], 4, rx.header % 2 == 1);
        parsed.Ok? && parsed.value.records != [] && OnlyStreams(parsed.value.records) &&
        (parsed.value.control.Some? ==> |parsed.value.control.value.payload| <= 60)
  {
    hide S.SlotAccepts, AirFrame.ParseUplink, CommitAll, OnlyStreams;
    var plain := open(rx.header % 4 + rx.header / 32 * 32, rx.payload);
    if plain.Some? {
      var parsed := AirFrame.ParseUplink(plain.value, rx.header / 8 % 16, [40, 95], 4, rx.header % 2 == 1);
      if parsed.Ok? { CommitsIff(st.channels, false, frame, parsed.value.records); }
    }
  }

  predicate OnlyStreams(records: seq<AirFrame.RxRecord>) {
    forall k :: 0 <= k < |records| ==> 1 <= records[k].id <= 2
  }

  lemma {:induction false} CommitsIff(channels: seq<Channel>, changed: bool, frame: nat, records: seq<AirFrame.RxRecord>)
    requires |channels| == 2
    ensures CommitAll(channels, changed, frame, records).Some? <==> OnlyStreams(records)
    decreases |records|
  {
    if records != [] && 1 <= records[0].id <= 2 {
      var r := records[0];
      var ch := channels[r.id - 1];
      var next := channels[r.id - 1 := if Commits(ch, frame, r.ack, AckFor(r)) then CommitChannel(ch, frame, r.ack, AckFor(r)) else ch];
      CommitsIff(next, changed || Commits(ch, frame, r.ack, AckFor(r)), frame, records[1..]);
      hide AckFor, Commits, CommitChannel;
    }
  }

  /** The microphone frames handed out are the stream 1 records of 40 bytes. */
  lemma {:induction false} MicrophoneIs(records: seq<AirFrame.RxRecord>, n: AirFrame.Nibble, data: seq<Byte>)
    ensures (n, data) in Microphone(records) <==>
      |data| == 40 && exists k :: 0 <= k < |records| && records[k].id == 1 && records[k].tx == n && records[k].payload == data
  {
    if records != [] {
      var rest := records[1..];
      MicrophoneIs(rest, n, data);
      assert forall k :: 0 <= k < |rest| ==> rest[k] == records[k + 1];
    }
  }

  // --------------------------------------------------------------------------
  // One stream against its peer
  // --------------------------------------------------------------------------

  /** `expected` counts the peer's advances without wrapping; `base` is its value when the current
      frame began; `sent` is the sequence on air in this frame, if any. */
  datatype World = World(frame: nat, ch: Channel, expected: nat, advanced: bool, base: nat, sent: Option<Nibble>)

  datatype Event =
    | NextFrame                                  // the frame ends; an unmoved peer expires it
    | Transmit                                   // the sender puts its prediction on air
    | Hear                                       // the peer receives the transmission
    | Expire                                     // the peer's own deadline inside the frame
    | Reply(ack: Nibble, early: bool)            // an accepted reply; early = within 3 ms of the start

  function Advance(w: World, start: nat): World {
    if w.advanced || w.frame <= start then w else w.(expected := w.expected + 1, advanced := true)
  }

  /** A reply may be accepted before any transmission; a transmission precedes the frame's replies. */
  predicate Heard(w: World) { w.ch.valid && w.ch.frame == w.frame }

  function Step(w: World, e: Event, start: nat): World {
    match e
    case NextFrame =>
      var v := Advance(w, start);
      World(v.frame + 1, v.ch, v.expected, false, v.expected, None)
    case Transmit => if Heard(w) then w else w.(sent := Some(Predict(w.ch, w.frame, start)))
    case Hear => if w.sent == Some(w.expected % 16) then Advance(w, start) else w
    case Expire => Advance(w, start)
    case Reply(ack, early) =>
      var ch := CommitChannel(w.ch, w.frame, w.expected % 16, ack);
      w.(ch := if early && w.sent.Some? then NoteChannel(ch, w.frame, true, w.sent.value) else ch)
  }

  function Run(w: World, es: seq<Event>, start: nat): World
    decreases |es|
  {
    if es == [] then w else Run(Step(w, es[0], start), es[1..], start)
  }

  /** A reply is timely unless it is the first to report an advance that no early reply to our own
      transmission has reported. */
  predicate Timely(w: World, e: Event) {
    e.Reply? ==> !w.advanced || (e.early && w.sent.Some?) || (Heard(w) && w.ch.afterTx)
  }

  predicate AllTimely(w: World, es: seq<Event>, start: nat)
    decreases |es|
  {
    es == [] || (Timely(w, es[0]) && AllTimely(Step(w, es[0], start), es[1..], start))
  }

  /** The sender is in sync with the peer. */
  predicate InSync(w: World, start: nat) {
    && w.expected == w.base + (if w.advanced then 1 else 0)
    && (w.advanced ==> w.frame > start)
    && (w.sent.Some? ==> w.sent.value == w.base % 16)
    && (w.ch.valid ==> w.ch.frame <= w.frame)
    && (if Heard(w) && w.frame >= start then
          if w.ch.afterTx then w.advanced && w.ch.expected == (w.base + 1) % 16
          else w.ch.expected == w.base % 16
        else
          && Predict(w.ch, w.frame, start) == w.base % 16
          && (w.ch.valid && w.ch.frame >= start && w.ch.afterTx ==> w.ch.frame > start))
  }

  /** What the peer will expect when the next frame begins. */
  function ExpectedNext(w: World, start: nat): nat {
    w.base + (if w.frame > start then 1 else 0)
  }

  lemma ModNext(a: int, b: int)
    requires a % 16 == b % 16
    ensures (a + 1) % 16 == (b + 1) % 16 && Next(a) == Next(b)
  {
  }

  lemma AgeNext(frame: nat, start: nat)
    ensures ExpiryAge(frame + 1, start) == ExpiryAge(frame, start) + (if frame > start then 1 else 0)
  {
  }

  /** From sync, the next frame is predicted at the value the peer will expect. */
  lemma PredictsNext(w: World, start: nat)
    requires InSync(w, start)
    ensures Predict(w.ch, w.frame + 1, start) == ExpectedNext(w, start) % 16
  {
    AgeNext(w.frame, start);
    if Anchored(w.ch, w.frame + 1, start) {
      if !Heard(w) {
        var advance := ExpiryAge(w.frame, start) - ExpiryAge(w.ch.frame, start);
        hide ExpiryAge;
        ModNext(w.ch.expected + (if w.ch.afterTx && advance != 0 then advance - 1 else advance), w.base);
      }
    } else {
      hide ExpiryAge;
      ModNext(ExpiryAge(w.frame, start), w.base);
    }
  }

  lemma NextFrameKeeps(w: World, start: nat)
    requires InSync(w, start)
    ensures InSync(Step(w, NextFrame, start), start)
  {
    PredictsNext(w, start);
    hide Predict, ExpiryAge;
  }

  lemma ReplyKeeps(w: World, ack: Nibble, early: bool, start: nat)
    requires InSync(w, start) && Timely(w, Reply(ack, early))
    ensures InSync(Step(w, Reply(ack, early), start), start)
  {
    ModNext(w.base % 16, w.base);
    if w.frame < start {
      assert Predict(w.ch, w.frame, start) == 0;
    }
  }

  lemma StepKeeps(w: World, e: Event, start: nat)
    requires InSync(w, start) && Timely(w, e)
    ensures InSync(Step(w, e, start), start)
  {
    match e {
      case NextFrame => NextFrameKeeps(w, start);
      case Transmit =>
      case Hear =>
      case Expire =>
      case Reply(ack, early) => ReplyKeeps(w, ack, early, start);
    }
  }

  /** Sequence prediction never drifts: from sync, whatever is lost, skipped, heard late or
      acknowledged in either window, the sender stays in sync and the next frame is predicted at
      precisely the value the peer will expect. */
  lemma {:induction false} NeverDrifts(w: World, es: seq<Event>, start: nat)
    requires InSync(w, start) && AllTimely(w, es, start)
    ensures var r := Run(w, es, start);
      InSync(r, start) && Predict(r.ch, r.frame + 1, start) == ExpectedNext(r, start) % 16
    decreases |es|
  {
    if es == [] {
      PredictsNext(w, start);
    } else {
      StepKeeps(w, es[0], start);
      NeverDrifts(Step(w, es[0], start), es[1..], start);
    }
  }

  /** A transmission in sync always carries the sequence the peer expects, so hearing it advances
      the peer. */
  lemma TransmissionIsExpected(w: World, start: nat)
    requires InSync(w, start) && !Heard(w) && !w.advanced && w.frame > start
    ensures Step(Step(w, Transmit, start), Hear, start).expected == w.expected + 1
  {
  }

  /** The condition is exact: after a reply to a sender in sync, the next frame is predicted
      correctly if and only if the reply was timely. */
  lemma DriftsExactlyWhenLate(w: World, ack: Nibble, early: bool, start: nat)
    requires InSync(w, start) && w.frame >= start
    ensures Predict(Step(w, Reply(ack, early), start).ch, w.frame + 1, start) == ExpectedNext(w, start) % 16 <==>
            Timely(w, Reply(ack, early))
  {
    if Timely(w, Reply(ack, early)) {
      ReplyKeeps(w, ack, early, start);
      PredictsNext(Step(w, Reply(ack, early), start), start);
    } else {
      var ch := Step(w, Reply(ack, early), start).ch;
      assert w.advanced && !ch.afterTx && ch.expected == (w.base + 1) % 16 && ch.frame == w.frame;
      assert (w.base + 2) % 16 != (w.base + 1) % 16;
    }
  }

  /** Drift happens: a reply four milliseconds into frame 5 that first reports the expiry of that
      frame makes the sender one ahead in frame 6. */
  lemma LateReplyDrifts()
    ensures var w := World(5, Channel(4, 3, 0, true, false), 4, false, 4, Some(4));
      InSync(w, 0) &&
      Predict(Run(w, [Expire, Reply(0, false)], 0).ch, 6, 0) == 6 && Run(w, [Expire, NextFrame], 0).expected == 5
  {
    var w := World(5, Channel(4, 3, 0, true, false), 4, false, 4, Some(4));
    var a := Step(w, Expire, 0);
    var b := Step(a, Reply(0, false), 0);
    assert Run(a, [Reply(0, false)], 0) == Run(b, [], 0) == b;
    assert Run(a, [NextFrame], 0) == Run(Step(a, NextFrame, 0), [], 0);
    assert [Expire, Reply(0, false)][1..] == [Reply(0, false)] && [Expire, NextFrame][1..] == [NextFrame];
  }

  // --------------------------------------------------------------------------
  // A packet as the peer's replies
  // --------------------------------------------------------------------------

  function Replies(acks: seq<Nibble>, early: bool): seq<Event> {
    if acks == [] then [] else [Reply(acks[0], early)] + Replies(acks[1..], early)
  }

  /** The transmit note of this frame, when one is due. */
  function Noted(ch: Channel, w: World, early: bool): Channel {
    if early && w.sent.Some? then NoteChannel(ch, w.frame, true, w.sent.value) else ch
  }

  lemma {:induction false} NoteOnce(ch: Channel, w: World, early: bool, acks: seq<Nibble>)
    requires acks != []
    ensures Noted(CommitMany(Noted(ch, w, early), w.frame, w.expected % 16, acks), w, early) ==
            Noted(CommitMany(ch, w.frame, w.expected % 16, acks), w, early)
    decreases |acks|
  {
    var e := w.expected % 16;
    var c, d := CommitChannel(ch, w.frame, e, acks[0]), CommitChannel(Noted(ch, w, early), w.frame, e, acks[0]);
    assert Noted(c, w, early) == Noted(d, w, early);
    if |acks| > 1 {
      hide CommitChannel, Noted;
      NoteOnce(c, w, early, acks[1..]);
      NoteOnce(d, w, early, acks[1..]);
    }
  }

  /** Replies one after the other are all commits and then one note. */
  lemma {:induction false} RepliesAre(w: World, acks: seq<Nibble>, early: bool, start: nat)
    requires acks != []
    ensures Run(w, Replies(acks, early), start) == w.(ch := Noted(CommitMany(w.ch, w.frame, w.expected % 16, acks), w, early))
    decreases |acks|
  {
    var v := Step(w, Reply(acks[0], early), start);
    var c := CommitChannel(w.ch, w.frame, w.expected % 16, acks[0]);
    assert v == w.(ch := Noted(c, w, early));
    assert Replies(acks, early)[0] == Reply(acks[0], early) && Replies(acks, early)[1..] == Replies(acks[1..], early);
    hide CommitChannel, Noted, NoteChannel;
    assert Run(w, Replies(acks, early), start) == Run(v, Replies(acks[1..], early), start);
    if |acks| > 1 {
      RepliesAre(v, acks[1..], early, start);
      NoteOnce(c, w, early, acks[1..]);
      NotedSame(CommitMany(v.ch, v.frame, v.expected % 16, acks[1..]), v, w, early);
    } else {
      assert acks[1..] == [];
    }
  }

  lemma NotedSame(ch: Channel, v: World, w: World, early: bool)
    requires v.frame == w.frame && v.sent == w.sent
    ensures Noted(ch, v, early) == Noted(ch, w, early)
  {
  }

  /** A note without a reply for the stream finds nothing to mark. */
  lemma SilentNote(w: World, early: bool, start: nat)
    requires InSync(w, start) && (w.sent.Some? ==> w.frame >= start)
    ensures Noted(w.ch, w, early) == w.ch
  {
    assert (w.base % 16 + 1) % 16 != w.base % 16;
  }
}
