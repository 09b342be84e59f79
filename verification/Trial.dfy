/**
 The trial scheduler (tone_trial.c): a 5 ms frame timeline on which packets are prepared ahead,
 late frames are skipped, cancelled ones retried, and results collected.
 One session, from its start to its end; frame indices and counters stay below the frame limit,
 which is below 2^32.
 */
module Trial {
  import opened Words
  import A = AirFrame
  import S = AirSession
  import C = ChannelSelection
  import F = AirFeedback
  import Q = AudioQueue
  import P = PacketCache

  datatype Phase = WaitE2 | Transmitting | Finished | Cancelled | Failed | Fault

  const NoStart: nat := 0xffff_ffff
  const Limit := 3200   // furthest lead of a reservation, in ticks

  type Feedback = f: F.Feedback | |f.channels| == 2 witness F.NoFeedback
  type Queue = f: Q.Fifo | f.taken <= |f.pushed| witness Q.Fifo([], 0, [])

  /** The two-stream join: what is requested, committed and confirmed, and where stream 2 starts. */
  datatype Streams = Streams(requested: bool, committed: bool, confirmed: bool, start: nat)

  datatype Core = Core(
    phase: Phase, reason: nat, next: nat, submitted: nat, skipped: nat, active: nat, cancel: bool, failure: nat,
    first: bool, streams: Streams, hs: int, hus: S.Hus, feedback: Feedback, caches: P.Caches)

  /** One event reported as cancelled: the packets counted for it, and whether the trial ended at that report. */
  datatype Drop = Drop(txCount: nat, last: bool)

  /** The packet in flight, and its start on a clock that never wraps; every build gives a packet one start, the requested one. */
  datatype Flight = Flight(packet: P.Entry, start: nat)

  const NoFlight := Flight(P.NoEntry, 0)

  /**
   The scheduler, the audio list it draws from, and its history: frames that were on air or whose fate is unknown,
   every event reported as cancelled, the flight, and whether an audio request was ever refused.
   */
  datatype World = World(
    core: Core, fifo: Queue, log: seq<nat>, drops: seq<Drop>, flight: Flight, refused: bool)

  // --------------------------------------------------------------------------
  // What a step finds out
  // --------------------------------------------------------------------------

  datatype Result = Ended | Dropped | Other

  /** What is collected of an event. Whether it was on air is a fact of the radio that the scheduler does not see. */
  datatype Receipt = Receipt(result: Result, txCount: nat, rxInvalid: bool, snapshots: seq<F.Snapshot>, aired: bool)

  datatype Collected = Lost | Pending | Done(receipt: Receipt)

  datatype Join = Join(timedOut: bool, requestStatus: nat, ready: bool, prepared: bool, commitStatus: nat, start: Word, confirmed: bool)

  /** Answers to prepare_frame: the parent's packet by either route, and audio that arrived before. */
  datatype Finding = Finding(parent: Option<P.Parent>, detached: Option<P.Parent>, arrived: seq<Q.Frame>)

  /**
   What one step reads: the times are readings, in ticks, of a clock that never wraps, at the start test, the retry
   test, and before and after each frame's preparation.
   */
  datatype Input = Input(
    confirmed: bool, minimum: nat, startNow: nat, collected: Collected, join: Join, retryNow: nat, hasty: bool,
    before: nat -> nat, after: nat -> nat, finding: nat -> Finding, status: nat)

  /** The session's packets, the opening of received ones, and the frame limit. */
  datatype Setting = Setting(se: P.Session, open: (Byte, seq<Byte>) -> Option<seq<Byte>>, limit: nat)

  predicate SettingOk(st: Setting) {
    P.SessionOk(st.se) && st.limit < 0xffff_ffff
  }

  /** Ticks from `now` to the next instant at which the 28-bit clock shows `hs`. */
  function Lead(hs: int, now: nat): nat {
    (hs - now) % S.CLOCK
  }

  // --------------------------------------------------------------------------
  // Preparing one frame
  // --------------------------------------------------------------------------

  predicate Stereo(c: Core, index: nat)
  {
    c.streams.confirmed && index >= c.streams.start && c.feedback.channels[1].valid
  }

  predicate PollDue(index: nat, start: nat) {
    index >= start && (index - start) % 6 == 0
  }

  function StartOf(c: Core, i: nat): nat {
    if i == 0 then 0 else c.streams.start
  }

  function Predicted(c: Core, index: nat): P.Pair
  {
    [F.Predict(c.feedback.channels[0], index, StartOf(c, 0)), F.Predict(c.feedback.channels[1], index, StartOf(c, 1))]
  }

  function Acks(c: Core, index: nat): P.Pair
  {
    [F.AckToSend(c.feedback.channels[0], index, StartOf(c, 0)), F.AckToSend(c.feedback.channels[1], index, StartOf(c, 1))]
  }

  /** The parent's packet to carry; None when it is needed and cannot be had. */
  function ParentFor(c: Core, index: nat, x: Finding): Option<P.Parent>
  {
    if !Stereo(c, index) && !P.Receives(index) then x.parent
    else if Stereo(c, index) && !P.Receives(index) && PollDue(index, c.streams.start) && x.detached.Some? then x.detached
    else Some(P.NoParent)
  }

  function DemandFor(c: Core, index: Word, parent: P.Parent): P.Demand
  {
    P.Demand(index, P.Vector(if Stereo(c, index) then 6 else 2, Predicted(c, index), Acks(c, index), parent),
             c.feedback.generation)
  }

  function Arrive(f: Queue, frames: seq<Q.Frame>): Queue {
    f.(pushed := f.pushed + frames)
  }

  function WithCaches(w: World, c: P.Caches, f: Queue): World {
    w.(core := w.core.(caches := c), fifo := f)
  }

  function PrepareFrame(st: Setting, w: World, index: nat, x: Finding): (World, bool)
    requires SettingOk(st)
  {
    if index >= st.limit then (w, true)
    else
      var parent := ParentFor(w.core, index, x);
      if parent.None? then (w, false)
      else
        var d := DemandFor(w.core, index, parent.value);
        var f := Arrive(w.fifo, x.arrived);
        var (c, g, ok) := P.Prepare(st.se, w.core.caches, f, d);
        (WithCaches(w, c, g).(refused := w.refused || (d.v.mask == 6 && !P.NotRefused(f.history, index))), ok)
  }

  function PrepareGuesses(st: Setting, w: World, index: nat): (World, bool)
    requires SettingOk(st)
  {
    if index >= st.limit then (w, true)
    else
      var mic := w.core.feedback.channels[0];
      var p := w.core.caches.prepared[P.Side(index)];
      var (c, g, ok) := P.Guess(st.se, w.core.caches, w.fifo, index, P.Mic(mic.valid, mic.frame, 0), w.core.feedback.generation);
      (WithCaches(w, c, g).(refused := w.refused || (p.valid && p.index == index && p.v.mask == 6 && !P.NotRefused(w.fifo.history, index))), ok)
  }

  // --------------------------------------------------------------------------
  // Collecting
  // --------------------------------------------------------------------------

  function Elapsed(rx: F.Snapshot, hs: int, hus: int): int {
    (rx.hs - hs) % S.CLOCK * 625 + rx.hus - hus
  }

  /** One received packet: commit its records, and note a transmission it acknowledges in time. */
  function Hear(st: Setting, fb: Feedback, c: Core, rx: F.Snapshot): Feedback
    requires SettingOk(st)
  {
    var sent := c.caches.prepared[P.Side(c.active)];
    if |rx.payload| < 7 then fb
    else
      var heard := F.AcceptFrame(fb, st.se.plan, rx, c.active, st.open);
      if !heard.verdict.Accepted? then fb
      else if !sent.built.receive && sent.index == c.active && 0 <= Elapsed(rx, c.hs, c.hus) < 6000 then
        F.NoteTx(heard.state, c.active, sent.v.mask, sent.v.tx)
      else heard.state
  }

  function HearAll(st: Setting, fb: Feedback, c: Core, rx: seq<F.Snapshot>): Feedback
    requires SettingOk(st)
    decreases |rx|
  {
    if rx == [] then fb else HearAll(st, Hear(st, fb, c, rx[0]), c, rx[1..])
  }

  function FirstThree(rx: seq<F.Snapshot>): seq<F.Snapshot> {
    if |rx| > 3 then rx[..3] else rx
  }

  function Finish(w: World, phase: Phase, reason: nat): World {
    w.(core := w.core.(phase := phase, reason := reason, caches := P.Empty, feedback := F.NoFeedback))
  }

  /** Progress of the second stream, and the error that ends the trial. */
  function Advance(s: Streams, j: Join): (Streams, nat) {
    if s.committed then (s.(confirmed := s.confirmed || j.confirmed), 0)
    else if j.timedOut then (s, 7)
    else if !s.requested then
      if j.requestStatus == 0x0c then (s, 0) else if j.requestStatus != 0 then (s, 8) else (s.(requested := true), 0)
    else if !j.ready then (s, 0)
    else if !j.prepared then (s, 9)
    else if j.commitStatus != 0 then (s, 11)
    else (s.(committed := true, start := j.start), 0)
  }

  function WithStreams(w: World, s: Streams): World {
    w.(core := w.core.(streams := s))
  }

  /** A reservation the arbiter dropped: the frame is tried again while its instant is usable. */
  function AfterDrop(w: World, retry: bool): World {
    if retry then w.(core := w.core.(next := w.core.active)) else w.(core := w.core.(skipped := w.core.skipped + 1))
  }

  /** A cancelled event without counted packets; the count stays zero even for packets that were sent. */
  predicate Retriable(r: Receipt) {
    r.result.Dropped? && r.txCount == 0
  }

  predicate Usable(hs: int, now: nat, minimum: nat) {
    minimum + 1 <= Lead(hs, now) <= Limit
  }

  /** How the trial ends after a collected event, if it does. */
  function StopAfter(c: Core, r: Receipt): Option<(Phase, nat)> {
    if r.result.Other? then Some((Failed, 3))
    else if c.cancel then Some((if c.failure != 0 then Failed else Cancelled, c.failure))
    else if r.rxInvalid then Some((Failed, 13))
    else None
  }

  /** The history with one more collected event. */
  function Noted(w: World, r: Receipt): World {
    w.(log := if r.aired then w.log + [w.core.active] else w.log,
       drops := if r.result.Dropped? then w.drops + [Drop(r.txCount, StopAfter(w.core, r).Some?)] else w.drops)
  }

  /** After a collected event; true when the trial goes on. */
  function AfterEvent(st: Setting, w: World, r: Receipt, x: Input): (World, bool)
    requires SettingOk(st)
  {
    var c := w.core;
    var noted := Noted(w, r);
    var stop := StopAfter(c, r);
    if stop.Some? then (Finish(noted, stop.value.0, stop.value.1), false)
    else
      var fb := HearAll(st, c.feedback, c, FirstThree(r.snapshots));
      var heard := noted.(core := c.(feedback := fb));
      (if Retriable(r) then AfterDrop(heard, Usable(c.hs, x.retryNow, x.minimum)) else heard, true)
  }

  /** The first part of a step; true when the step goes on to submit a frame. */
  function Opening(st: Setting, w: World, x: Input): (World, bool)
    requires SettingOk(st)
  {
    var c := w.core;
    match c.phase
    case WaitE2 =>
      if c.cancel then (Finish(w, Cancelled, 0), false)
      else if !c.first && !x.confirmed then
        (if Usable(st.se.plan.startHs, x.startNow, x.minimum) then w else Finish(w, Failed, 1), false)
      else (w.(core := c.(first := true)), true)
    case Transmitting =>
      (match x.collected
       case Lost => (Finish(w.(log := w.log + [c.active]), Fault, 2), false)
       case Pending =>
         if c.cancel then (w, false)
         else
           var (s, error) := Advance(c.streams, x.join);
           (if error != 0 then w.(core := c.(streams := s, failure := error, cancel := true)) else WithStreams(w, s), false)
       case Done(r) => AfterEvent(st, w, r, x))
    case _ => (w, false)
  }

  // --------------------------------------------------------------------------
  // Finding and submitting the next frame
  // --------------------------------------------------------------------------

  datatype Search = Found | Exhausted | Broken

  function Skip(w: World): World {
    w.(core := w.core.(next := w.core.next + 1, skipped := w.core.skipped + 1))
  }

  predicate InReach(lead: nat, minimum: nat) {
    minimum <= lead <= Limit
  }

  /** Where a frame's packet would start, judged before it is built. */
  function PlannedHs(st: Setting, index: nat): int {
    var (hs, hus) := S.SessionTime(st.se.plan, index, 0);
    P.Later(hs, hus, if P.Receives(index) then P.ReceiveShift else 0).0
  }

  function PreparedHs(w: World): int {
    w.core.caches.prepared[P.Side(w.core.next)].built.hs
  }

  /** Skip frames until one is prepared with enough lead. */
  function Seek(st: Setting, w: World, x: Input, hasty: bool): (World, Search)
    requires SettingOk(st)
    decreases st.limit - w.core.next
  {
    var n := w.core.next;
    if n >= st.limit then (w, Exhausted)
    else if !InReach(Lead(PlannedHs(st, n), x.before(n)), x.minimum + (if hasty then 0 else 1)) then Seek(st, Skip(w), x, false)
    else
      var (v, ok) := PrepareFrame(st, w, n, x.finding(n));
      if !ok then (v, Broken)
      else if InReach(Lead(PreparedHs(v), x.after(n)), x.minimum) then (v, Found)
      else Seek(st, Skip(v), x, false)
  }

  const Conflict := 0x80
  const Expired := 0x81

  /** Channel of the later reply; a frame that sends needs one. */
  function ReplyChannel(st: Setting, index: nat): Option<nat>
    requires SettingOk(st)
  {
    C.Channel(st.se.plan.aa, (st.se.plan.counter + index) % 0x1_0000, st.se.plan.e2[19..24], 2)
  }

  function Chosen(w: World): World {
    var p := w.core.caches.prepared[P.Side(w.core.next)];
    w.(core := w.core.(active := w.core.next, hs := p.built.hs, hus := p.built.hus))
  }

  /** In flight: it starts when the clock next shows the chosen start. */
  function Accepted(s: World, now: nat): World {
    s.(core := s.core.(next := s.core.next + 1, submitted := s.core.submitted + 1, phase := Transmitting),
       flight := Flight(s.core.caches.prepared[P.Side(s.core.next)], now + Lead(s.core.hs, now)))
  }

  function Declined(s: World): World {
    var t := Skip(s);
    t.(core := t.core.(phase := WaitE2))
  }

  /** Submit the prepared frame, then prepare the following one while the reservation is pending. */
  function Submit(st: Setting, w: World, x: Input): World
    requires SettingOk(st)
  {
    var s := Chosen(w);
    var p := w.core.caches.prepared[P.Side(w.core.next)];
    if !p.built.receive && ReplyChannel(st, w.core.next).None? then Finish(s, Failed, 4)
    else if x.status == Conflict || x.status == Expired then Declined(s)
    else if x.status != 0 then Finish(s, Failed, 6)
    else Following(st, Accepted(s, x.after(w.core.next)), x)
  }

  /** The following frame cannot be prepared: the event in flight is cancelled and collected first. */
  function GiveUp(w: World): World {
    w.(core := w.core.(failure := 5, cancel := true))
  }

  function Following(st: Setting, t: World, x: Input): World
    requires SettingOk(st)
  {
    var n := t.core.next;
    var (u, ok) := PrepareFrame(st, t, n, x.finding(n));
    if !ok then GiveUp(u)
    else
      var (v, guessed) := PrepareGuesses(st, u, n);
      if !guessed then GiveUp(v) else v
  }

  function Closing(st: Setting, w: World, x: Input): World
    requires SettingOk(st)
  {
    var (s, error) := Advance(w.core.streams, x.join);
    var j := WithStreams(w, s);
    if error != 0 then Finish(j, Failed, error)
    else
      var (v, search) := Seek(st, j, x, x.hasty);
      match search
      case Broken => Finish(v, Failed, 5)
      case Exhausted =>
        if v.core.streams.committed && x.join.confirmed then Finish(v, Finished, 0) else Finish(v, Failed, 12)
      case Found => Submit(st, v, x)
  }

  /** One step of the trial (ull_tone_trial_step). */
  function Step(st: Setting, w: World, x: Input): World
    requires SettingOk(st)
  {
    var (v, more) := Opening(st, w, x);
    if more then Closing(st, v, x) else v
  }

  // --------------------------------------------------------------------------
  // Which audio may be asked for
  // --------------------------------------------------------------------------

  /**
   Event `i` is not behind the latched ones: everything selected is at most `i`, or the last selection is the
   frame after `i` and `i` is latched just before it or never has audio.
   */
  predicate Askable(h: seq<Q.Selection>, i: nat, start: nat) {
    h == [] || Q.Last(h).event <= i ||
    (Q.Last(h).event == i + 1 && (i < start || (|h| >= 2 && h[|h| - 2].event == i)))
  }

  /** Event `i` is one of the two latched. */
  predicate Latched(h: seq<Q.Selection>, i: nat) {
    h != [] && (Q.Last(h).event == i || (Q.Last(h).event == i + 1 && |h| >= 2 && h[|h| - 2].event == i))
  }

  lemma AskableIsNotRefused(h: seq<Q.Selection>, i: Word, start: nat)
    requires Askable(h, i, start) && i >= start
    ensures P.NotRefused(h, i)
  {
  }

  lemma AskableNext(h: seq<Q.Selection>, i: nat, start: nat)
    requires Askable(h, i, start)
    ensures Askable(h, i + 1, start)
  {
  }

  lemma ExtendAskable(h: seq<Q.Selection>, g: seq<Q.Selection>, i: Word, start: nat)
    requires Askable(h, i, start) && P.Extends(h, g, i)
    ensures Askable(g, i, start)
  {
  }

  /** After the following frame has its audio, the frame before it may still be asked for. */
  lemma ExtendBefore(h: seq<Q.Selection>, g: seq<Q.Selection>, i: Word, start: nat)
    requires i > 0 && Askable(h, i - 1, start) && P.Extends(h, g, i) && (i - 1 >= start ==> Latched(h, i - 1))
    ensures Askable(g, i - 1, start)
  {
  }

  lemma FoundIsLatched(h: seq<Q.Selection>, i: Word, start: nat)
    requires Askable(h, i, start) && Q.Recall(h, i).Some? && P.NotRefused(h, i) && Q.Rising(h)
    ensures Latched(h, i)
  {
  }

  // --------------------------------------------------------------------------
  // What every step keeps
  // --------------------------------------------------------------------------

  /** Caches and audio list agree, no request was refused, and audio is only selected once both streams are on. */
  predicate AudioInv(st: Setting, w: World)
    requires SettingOk(st)
  {
    P.CacheInv(st.se, w.core.caches, w.fifo) && !w.refused &&
    (w.fifo.history != [] ==> w.core.streams.confirmed && w.core.feedback.channels[1].valid) &&
    (w.core.streams.confirmed ==> w.core.streams.committed)
  }

  predicate Live(c: Core) {
    c.phase == WaitE2 || c.phase == Transmitting
  }

  predicate FlightInv(w: World) {
    var e := w.core.caches.prepared[P.Side(w.core.active)];
    w.core.phase == Transmitting ==>
      w.core.next == w.core.active + 1 && e == w.flight.packet && e.valid && e.index == w.core.active &&
      (w.core.hs - w.flight.start) % S.CLOCK == 0 && w.core.hs == e.built.hs && w.core.hus == e.built.hus
  }

  predicate Below(log: seq<nat>, n: nat) {
    forall i :: 0 <= i < |log| ==> log[i] < n
  }

  predicate Increasing(log: seq<nat>) {
    forall i, j :: 0 <= i < j < |log| ==> log[i] < log[j]
  }

  /** Where the next request may start: the active frame may be retried. */
  function Front(c: Core): nat {
    if c.phase == Transmitting then c.active else c.next
  }

  predicate LogInv(w: World) {
    Increasing(w.log) && Below(w.log, if w.core.phase == Transmitting then w.core.active else w.core.next)
  }

  /** Reports of a cancelled event after which its frame is neither tried again nor counted as skipped. */
  function Unused(drops: seq<Drop>): nat {
    if drops == [] then 0
    else Unused(drops[..|drops| - 1]) + (if drops[|drops| - 1].last || drops[|drops| - 1].txCount != 0 then 1 else 0)
  }

  predicate CountInv(c: Core, drops: seq<Drop>) {
    c.next + |drops| == c.submitted + c.skipped + Unused(drops)
  }

  predicate Inv(st: Setting, w: World)
    requires SettingOk(st)
  {
    CountInv(w.core, w.drops) && LogInv(w) && FlightInv(w) && !w.refused &&
    (Live(w.core) ==> AudioInv(st, w) && Askable(w.fifo.history, Front(w.core), w.core.streams.start))
  }

  // --------------------------------------------------------------------------
  // Preparing
  // --------------------------------------------------------------------------

  /** What preparing a frame changes, and what it leaves. */
  predicate PreparedWell(st: Setting, w: World, v: World, index: nat)
    requires SettingOk(st)
  {
    AudioInv(st, v) && v == w.(core := w.core.(caches := v.core.caches), fifo := v.fifo) &&
    v.core.caches.prepared[1 - P.Side(index)] == w.core.caches.prepared[1 - P.Side(index)]
  }

  lemma ArriveKeeps(st: Setting, w: World, frames: seq<Q.Frame>)
    requires SettingOk(st) && AudioInv(st, w)
    ensures P.CacheInv(st.se, w.core.caches, Arrive(w.fifo, frames))
  {
    hide P.PairOk;
  }

  /** The demanded packet is prepared; the caches stay right and the queue at most gains that event. */
  lemma PrepareDemand(se: P.Session, c: P.Caches, f: Queue, d: P.Demand)
    requires P.SessionOk(se) && P.CacheInv(se, c, f) && (d.v.mask != 2 ==> P.NotRefused(f.history, d.index))
    ensures var (c', g, ok) := P.Prepare(se, c, f, d);
      P.CacheInv(se, c', g) && P.Extends(f.history, g.history, d.index) && (d.v.mask == 2 ==> g.history == f.history) &&
      c'.prepared[1 - P.Side(d.index)] == c.prepared[1 - P.Side(d.index)]
  {
    hide P.CacheInv, P.NotRefused, P.Prepare, P.Build, P.SamePacket, P.Extends;
    P.PrepareIsFresh(se, c, f, d);
    P.PrepareExtends(se, c, f, d);
  }

  lemma ExtendsNonempty(h: seq<Q.Selection>, g: seq<Q.Selection>, index: Word)
    requires P.Extends(h, g, index) && g != h
    ensures g != []
  {
  }

  lemma PrepareKeeps(st: Setting, w: World, index: nat, x: Finding)
    requires SettingOk(st) && AudioInv(st, w) && Askable(w.fifo.history, index, w.core.streams.start)
    ensures var (v, ok) := PrepareFrame(st, w, index, x);
      PreparedWell(st, w, v, index) && (index < st.limit ==> P.Extends(w.fifo.history, v.fifo.history, index)) &&
      (index >= st.limit ==> v == w) && (!Stereo(w.core, index) ==> v.fifo.history == w.fifo.history)
  {
    if index < st.limit {
      var parent := ParentFor(w.core, index, x);
      P.AskSame(w.fifo.history, index);
      hide ParentFor, P.Extends;
      if parent.Some? {
        var d := DemandFor(w.core, index, parent.value);
        var f := Arrive(w.fifo, x.arrived);
        ArriveKeeps(st, w, x.arrived);
        assert d.index == index && d.v.mask == (if Stereo(w.core, index) then 6 else 2);
        if Stereo(w.core, index) { AskableIsNotRefused(w.fifo.history, index, w.core.streams.start); }
        hide Askable, P.NotRefused, P.CacheInv, DemandFor, P.Prepare;
        PrepareDemand(st.se, w.core.caches, f, d);
        var (c, g, ok) := P.Prepare(st.se, w.core.caches, f, d);
        if g.history != f.history { ExtendsNonempty(f.history, g.history, index); }
        assert PrepareFrame(st, w, index, x) == (WithCaches(w, c, g), ok);
        assert Stereo(w.core, index) ==> w.core.streams.confirmed && w.core.feedback.channels[1].valid;
        hide Stereo, PrepareFrame;
      }
    }
  }

  lemma CacheRising(se: P.Session, c: P.Caches, f: Queue)
    requires P.SessionOk(se) && P.CacheInv(se, c, f)
    ensures Q.Rising(f.history)
  {
    hide P.PairOk;
  }

  /** A successful preparation leaves the frame's packet, and its audio latched when it has any. */
  lemma PrepareLeaves(st: Setting, w: World, index: nat, x: Finding)
    requires SettingOk(st) && AudioInv(st, w) && Askable(w.fifo.history, index, w.core.streams.start)
    requires index < st.limit && PrepareFrame(st, w, index, x).1
    ensures var v := PrepareFrame(st, w, index, x).0; var e := v.core.caches.prepared[P.Side(index)];
      e.valid && e.index == index && e.v.mask == (if Stereo(w.core, index) then 6 else 2) &&
      (Stereo(w.core, index) ==> Latched(v.fifo.history, index))
  {
    PrepareKeeps(st, w, index, x);
    var parent := ParentFor(w.core, index, x);
    var d := DemandFor(w.core, index, parent.value);
    var f := Arrive(w.fifo, x.arrived);
    ArriveKeeps(st, w, x.arrived);
    assert d.index == index && d.v.mask == (if Stereo(w.core, index) then 6 else 2);
    var (c, g, ok) := P.Prepare(st.se, w.core.caches, f, d);
    assert PrepareFrame(st, w, index, x).0.core.caches == c && PrepareFrame(st, w, index, x).0.fifo == g && ok;
    if Stereo(w.core, index) {
      AskableIsNotRefused(w.fifo.history, index, w.core.streams.start);
      hide P.NotRefused, P.CacheInv, DemandFor, P.Prepare, Askable, PrepareFrame, P.Extends;
      P.PrepareFinds(st.se, w.core.caches, f, d);
      PrepareDemand(st.se, w.core.caches, f, d);
      ExtendAskable(w.fifo.history, g.history, index, w.core.streams.start);
      CacheRising(st.se, c, g);
      FoundIsLatched(g.history, index, w.core.streams.start);
      hide Latched;
      P.PrepareLeaves(st.se, w.core.caches, f, d);
    } else {
      hide P.NotRefused, P.CacheInv, DemandFor, P.Prepare, Askable, PrepareFrame, P.Extends;
      P.PrepareLeaves(st.se, w.core.caches, f, d);
    }
  }

  lemma GuessesKeep(st: Setting, w: World, index: nat)
    requires SettingOk(st) && AudioInv(st, w)
    requires var e := w.core.caches.prepared[P.Side(index)];
      e.valid && e.index == index && e.v.mask == 6 && index < st.limit ==> P.NotRefused(w.fifo.history, index)
    requires var e := w.core.caches.prepared[P.Side(index)]; e.valid && e.index == index && index < st.limit ==> e.v.mask == 2 || e.v.mask == 6
    ensures var (v, ok) := PrepareGuesses(st, w, index);
      PreparedWell(st, w, v, index) && v.fifo == w.fifo && v.core.caches.prepared == w.core.caches.prepared
  {
    if index < st.limit {
      var mic := w.core.feedback.channels[0];
      hide P.CacheInv, P.NotRefused, P.Guess;
      P.GuessKeeps(st.se, w.core.caches, w.fifo, index, P.Mic(mic.valid, mic.frame, 0), w.core.feedback.generation);
    }
  }

  // --------------------------------------------------------------------------
  // Hearing
  // --------------------------------------------------------------------------

  lemma {:induction false} CommitStaysValid(channels: seq<F.Channel>, changed: bool, frame: nat, records: seq<A.RxRecord>)
    requires |channels| == 2 && channels[1].valid
    ensures var r := F.CommitAll(channels, changed, frame, records); r.Some? ==> r.value.0[1].valid
    decreases |records|
  {
    if records != [] {
      var r := records[0];
      if 1 <= r.id <= 2 {
        hide F.AckFor;
        var ch := channels[r.id - 1];
        CommitStaysValid(channels[r.id - 1 := if F.Commits(ch, frame, r.ack, F.AckFor(r))
                                             then F.CommitChannel(ch, frame, r.ack, F.AckFor(r)) else ch],
                         changed || F.Commits(ch, frame, r.ack, F.AckFor(r)), frame, records[1..]);
      }
    }
  }

  lemma AcceptStaysValid(fb: Feedback, plan: S.Plan, rx: F.Snapshot, frame: nat, open: (Byte, seq<Byte>) -> Option<seq<Byte>>)
    requires |plan.e2| == S.E2_BYTES && fb.channels[1].valid
    ensures F.AcceptFrame(fb, plan, rx, frame, open).state.channels[1].valid
  {
    hide A.ParseUplink, S.SlotAccepts, F.Microphone, F.CommitAll;
    if rx.hs < S.CLOCK && rx.hus <= 624 {
      var plain := open(rx.header % 4 + rx.header / 32 * 32, rx.payload);
      if plain.Some? {
        var parsed := A.ParseUplink(plain.value, rx.header / 8 % 16, [40, 95], 4, rx.header % 2 == 1);
        if parsed.Ok? { CommitStaysValid(fb.channels, false, frame, parsed.value.records); }
      }
    }
  }

  lemma HearStaysValid(st: Setting, fb: Feedback, c: Core, rx: F.Snapshot)
    requires SettingOk(st) && fb.channels[1].valid
    ensures Hear(st, fb, c, rx).channels[1].valid
  {
    AcceptStaysValid(fb, st.se.plan, rx, c.active, st.open);
    hide F.AcceptFrame, A.HasBit, Elapsed;
  }

  lemma {:induction false} HearAllStaysValid(st: Setting, fb: Feedback, c: Core, rx: seq<F.Snapshot>)
    requires SettingOk(st) && fb.channels[1].valid
    ensures HearAll(st, fb, c, rx).channels[1].valid
    decreases |rx|
  {
    if rx != [] {
      hide Hear;
      HearStaysValid(st, fb, c, rx[0]);
      HearAllStaysValid(st, Hear(st, fb, c, rx[0]), c, rx[1..]);
    }
  }

  // --------------------------------------------------------------------------
  // Submitting
  // --------------------------------------------------------------------------

  lemma LatchedIsNotRefused(h: seq<Q.Selection>, i: Word)
    requires Latched(h, i)
    ensures P.NotRefused(h, i)
  {
  }

  /** What holds between finding a frame and submitting it. */
  predicate ReadyToSubmit(st: Setting, w: World)
    requires SettingOk(st)
  {
    var e := w.core.caches.prepared[P.Side(w.core.next)]; var n := w.core.next;
    AudioInv(st, w) && n < st.limit && Askable(w.fifo.history, n, w.core.streams.start) && e.valid && e.index == n &&
    (Stereo(w.core, n) ==> Latched(w.fifo.history, n)) && Increasing(w.log) && Below(w.log, n) && CountInv(w.core, w.drops)
  }

  lemma SidesApart(n: nat)
    ensures P.Side(n + 1) == 1 - P.Side(n)
  {
  }

  lemma StereoBefore(c: Core, n: nat)
    requires Stereo(c, n + 1) && n >= c.streams.start
    ensures Stereo(c, n)
  {
  }

  predicate Guessable(st: Setting, u: World, n: nat)
    requires SettingOk(st)
  {
    var e := u.core.caches.prepared[P.Side(n)];
    n < st.limit ==>
      e.valid && e.index == n && (e.v.mask == 2 || (e.v.mask == 6 && P.NotRefused(u.fifo.history, n)))
  }

  /** Preparing the following frame: the frame in flight may still be retried, and guesses may be made. */
  lemma FollowingFirst(st: Setting, t: World, a: nat, x: Finding)
    requires SettingOk(st) && AudioInv(st, t) && a < st.limit && Askable(t.fifo.history, a, t.core.streams.start)
    requires Stereo(t.core, a) ==> Latched(t.fifo.history, a)
    ensures var (u, ok) := PrepareFrame(st, t, a + 1, x);
      PreparedWell(st, t, u, a + 1) && Askable(u.fifo.history, a, t.core.streams.start) && (ok ==> Guessable(st, u, a + 1))
  {
    var n, start := a + 1, t.core.streams.start;
    AskableNext(t.fifo.history, a, start);
    PrepareKeeps(st, t, n, x);
    var (u, ok) := PrepareFrame(st, t, n, x);
    if n < st.limit {
      if Stereo(t.core, n) && a >= start { StereoBefore(t.core, a); }
      if ok {
        PrepareLeaves(st, t, n, x);
        if Stereo(t.core, n) { LatchedIsNotRefused(u.fifo.history, n); }
      }
      hide PrepareFrame, Latched, Askable, P.Extends, P.NotRefused, AudioInv;
      if Stereo(t.core, n) { ExtendBefore(t.fifo.history, u.fifo.history, n, start); }
      hide Stereo;
    }
  }

  /** In flight: changes to the other side of the caches keep everything. */
  lemma WellKeeps(st: Setting, t: World, u: World, n: nat)
    requires SettingOk(st) && Inv(st, t) && t.core.phase == Transmitting && n == t.core.active + 1
    requires PreparedWell(st, t, u, n) && Askable(u.fifo.history, t.core.active, t.core.streams.start)
    ensures Inv(st, u) && Inv(st, GiveUp(u)) && u.core.phase == Transmitting && u.core.active == t.core.active
  {
    SidesApart(t.core.active);
    hide Askable, P.CacheInv;
  }

  lemma GuessWell(st: Setting, t: World, u: World, v: World, n: nat)
    requires SettingOk(st) && PreparedWell(st, t, u, n) && PreparedWell(st, u, v, n)
    ensures PreparedWell(st, t, v, n)
  {
    hide P.CacheInv;
  }

  /** Preparing the following frame leaves the packet in flight alone, and it may still be retried. */
  lemma FollowingKeeps(st: Setting, t: World, x: Input)
    requires SettingOk(st) && Inv(st, t) && t.core.phase == Transmitting && t.core.active < st.limit
    requires Stereo(t.core, t.core.active) ==> Latched(t.fifo.history, t.core.active)
    ensures Inv(st, Following(st, t, x)) && Following(st, t, x).core.phase == Transmitting
  {
    var n, a := t.core.next, t.core.active;
    var (u, ok) := PrepareFrame(st, t, n, x.finding(n));
    FollowingFirst(st, t, a, x.finding(n));
    hide PrepareFrame, Stereo, Latched, Askable, P.NotRefused, PrepareGuesses, AudioInv, CountInv, LogInv;
    WellKeeps(st, t, u, n);
    if ok {
      GuessesKeep(st, u, n);
      var (v, guessed) := PrepareGuesses(st, u, n);
      GuessWell(st, t, u, v, n);
      WellKeeps(st, t, v, n);
    }
    hide Inv;
  }

  lemma FinishKeeps(st: Setting, w: World, phase: Phase, reason: nat)
    requires SettingOk(st) && CountInv(w.core, w.drops) && Increasing(w.log) && Below(w.log, w.core.next) && !w.refused
    requires phase != WaitE2 && phase != Transmitting
    ensures Inv(st, Finish(w, phase, reason))
  {
  }

  lemma BelowMore(log: seq<nat>, n: nat, m: nat)
    requires Below(log, n) && n <= m
    ensures Below(log, m)
  {
  }

  lemma DeclinedKeeps(st: Setting, w: World)
    requires SettingOk(st) && ReadyToSubmit(st, w)
    ensures Inv(st, Declined(Chosen(w)))
  {
    BelowMore(w.log, w.core.next, w.core.next + 1);
    AskableNext(w.fifo.history, w.core.next, w.core.streams.start);
    hide Askable, P.CacheInv, Latched, Below, Increasing, Stereo;
  }

  lemma LeadIsLead(hs: int, now: nat)
    ensures (hs - (now + Lead(hs, now))) % S.CLOCK == 0
  {
  }

  lemma AcceptedKeeps(st: Setting, w: World, now: nat)
    requires SettingOk(st) && ReadyToSubmit(st, w)
    ensures var t := Accepted(Chosen(w), now);
      Inv(st, t) && t.core.phase == Transmitting && t.core.active == w.core.next < st.limit &&
      (Stereo(t.core, t.core.active) ==> Latched(t.fifo.history, t.core.active))
  {
    hide Askable, P.CacheInv, Latched, Below, Increasing;
    assert Stereo(Accepted(Chosen(w), now).core, w.core.next) == Stereo(w.core, w.core.next);
    LeadIsLead(Chosen(w).core.hs, now);
    hide Stereo;
  }

  lemma SubmitKeeps(st: Setting, w: World, x: Input)
    requires SettingOk(st) && ReadyToSubmit(st, w)
    ensures Inv(st, Submit(st, w, x))
  {
    DeclinedKeeps(st, w);
    AcceptedKeeps(st, w, x.after(w.core.next));
    var s := Chosen(w);
    assert CountInv(s.core, s.drops) && Increasing(s.log) && Below(s.log, s.core.next) && !s.refused by {
      hide Askable, P.CacheInv, Latched, Below, Increasing;
    }
    FinishKeeps(st, s, Failed, 4);
    FinishKeeps(st, s, Failed, 6);
    hide ReadyToSubmit, Inv, Following, ReplyChannel, CountInv, Below, Increasing, Latched, Stereo;
    if x.status == 0 { FollowingKeeps(st, Accepted(s, x.after(w.core.next)), x); }
  }

  /** What holds while a frame to submit is sought. */
  predicate Seeking(st: Setting, w: World)
    requires SettingOk(st)
  {
    AudioInv(st, w) && Askable(w.fifo.history, w.core.next, w.core.streams.start) && Increasing(w.log) &&
    Below(w.log, w.core.next) && CountInv(w.core, w.drops)
  }

  lemma SkipKeeps(st: Setting, w: World)
    requires SettingOk(st) && Seeking(st, w)
    ensures Seeking(st, Skip(w))
  {
    AskableNext(w.fifo.history, w.core.next, w.core.streams.start);
    hide Askable, P.CacheInv;
  }

  lemma PrepareSeeks(st: Setting, w: World, x: Finding)
    requires SettingOk(st) && Seeking(st, w)
    ensures var (v, ok) := PrepareFrame(st, w, w.core.next, x);
      Seeking(st, v) && v.core.next == w.core.next && (ok && w.core.next < st.limit ==> ReadyToSubmit(st, v))
  {
    var n := w.core.next;
    var (v, ok) := PrepareFrame(st, w, n, x);
    PrepareKeeps(st, w, n, x);
    if n < st.limit {
      hide PrepareFrame;
      ExtendAskable(w.fifo.history, v.fifo.history, n, w.core.streams.start);
      if ok { PrepareLeaves(st, w, n, x); }
    }
    hide PrepareFrame, Askable, P.CacheInv, P.Extends, Latched, Increasing, Below;
    assert Stereo(v.core, n) == Stereo(w.core, n);
  }

  /** However many frames are skipped, what is found is ready to submit. */
  lemma {:induction false} SeekKeeps(st: Setting, w: World, x: Input, hasty: bool)
    requires SettingOk(st) && Seeking(st, w)
    ensures var (v, search) := Seek(st, w, x, hasty);
      Seeking(st, v) && v.core.next >= w.core.next && (search.Found? ==> ReadyToSubmit(st, v)) &&
      v.core.streams == w.core.streams && v.log == w.log
    decreases st.limit - w.core.next
  {
    var n := w.core.next;
    hide Seeking, ReadyToSubmit, InReach, Lead, PlannedHs;
    if n < st.limit {
      if !InReach(Lead(PlannedHs(st, n), x.before(n)), x.minimum + (if hasty then 0 else 1)) {
        SkipKeeps(st, w);
        SeekKeeps(st, Skip(w), x, false);
      } else {
        var (v, ok) := PrepareFrame(st, w, n, x.finding(n));
        PrepareSeeks(st, w, x.finding(n));
        PrepareStays(st, w, n, x.finding(n));
        hide PrepareFrame;
        if ok && !InReach(Lead(PreparedHs(v), x.after(n)), x.minimum) {
          SkipKeeps(st, v);
          SeekKeeps(st, Skip(v), x, false);
        }
      }
    }
  }

  lemma PrepareStays(st: Setting, w: World, index: nat, x: Finding)
    requires SettingOk(st)
    ensures var v := PrepareFrame(st, w, index, x).0; v.core.streams == w.core.streams && v.log == w.log && v.core.next == w.core.next
  {
  }

  lemma AdvanceKeeps(st: Setting, w: World, j: Join)
    requires SettingOk(st) && AudioInv(st, w)
    ensures var s := Advance(w.core.streams, j).0;
      AudioInv(st, WithStreams(w, s)) && (w.fifo.history != [] ==> s.start == w.core.streams.start)
  {
    hide P.CacheInv;
  }

  lemma ClosingKeeps(st: Setting, w: World, x: Input)
    requires SettingOk(st) && Seeking(st, w)
    ensures Inv(st, Closing(st, w, x))
  {
    var (s, error) := Advance(w.core.streams, x.join);
    AdvanceKeeps(st, w, x.join);
    var j := WithStreams(w, s);
    assert Seeking(st, j) by { hide P.CacheInv; }
    hide Advance, AudioInv, Askable;
    if error != 0 {
      FinishSeeking(st, j, Failed, error);
    } else {
      SeekKeeps(st, j, x, x.hasty);
      var (v, search) := Seek(st, j, x, x.hasty);
      FinishSeeking(st, v, Failed, 5);
      FinishSeeking(st, v, Finished, 0);
      FinishSeeking(st, v, Failed, 12);
      hide Seeking, Seek, Inv, ReadyToSubmit;
      if search.Found? { SubmitKeeps(st, v, x); }
    }
  }

  lemma FinishSeeking(st: Setting, w: World, phase: Phase, reason: nat)
    requires SettingOk(st) && Seeking(st, w) && phase != WaitE2 && phase != Transmitting
    ensures Inv(st, Finish(w, phase, reason))
  {
    hide P.CacheInv, Askable, Inv;
    FinishKeeps(st, w, phase, reason);
  }

  lemma LogMore(log: seq<nat>, a: nat)
    requires Increasing(log) && Below(log, a)
    ensures Increasing(log + [a]) && Below(log + [a], a + 1)
  {
  }

  /**
   The radio's side of the retry test: an event that was on air is collected at or after its start, and less than one
   turn of the clock minus the furthest lead after it.
   */
  predicate InTime(w: World, r: Receipt, now: nat) {
    r.aired ==> w.flight.start <= now < w.flight.start + S.CLOCK - Limit
  }

  /** The start an event in flight was given, seen from the retry test. */
  lemma LeadFromStart(hs: int, start: nat, now: nat)
    requires (hs - start) % S.CLOCK == 0
    ensures Lead(hs, now) == (start - now) % S.CLOCK
  {
    var q := (hs - start) / S.CLOCK;
    assert hs - now == start - now + S.CLOCK * q;
    WholeTurns(start - now, q);
  }

  lemma WholeTurns(a: int, q: int)
    ensures (a + S.CLOCK * q) % S.CLOCK == a % S.CLOCK
  {
  }

  /** Ticks to an instant less than one turn away, on either side. */
  lemma WrappedLead(start: nat, now: nat)
    ensures now <= start < now + S.CLOCK ==> (start - now) % S.CLOCK == start - now
    ensures start < now <= start + S.CLOCK ==> (start - now) % S.CLOCK == start + S.CLOCK - now
  {
  }

  /** An event that was on air is never found usable again. */
  lemma AiredIsPast(w: World, r: Receipt, now: nat, minimum: nat)
    requires FlightInv(w) && w.core.phase == Transmitting && InTime(w, r, now) && r.aired
    ensures !Usable(w.core.hs, now, minimum)
  {
    LeadFromStart(w.core.hs, w.flight.start, now);
    WrappedLead(w.flight.start, now);
  }

  lemma UnusedMore(drops: seq<Drop>, d: Drop)
    ensures Unused(drops + [d]) == Unused(drops) + (if d.last || d.txCount != 0 then 1 else 0)
  {
    assert (drops + [d])[..|drops|] == drops;
  }

  lemma NotedLog(w: World, r: Receipt)
    requires Increasing(w.log) && Below(w.log, w.core.active)
    ensures Increasing(Noted(w, r).log) && Below(Noted(w, r).log, w.core.active + 1)
  {
    LogMore(w.log, w.core.active);
    BelowMore(w.log, w.core.active, w.core.active + 1);
    hide Increasing, Below, StopAfter;
  }

  lemma NotedCounts(w: World, r: Receipt)
    ensures var d := Noted(w, r).drops;
      if r.result.Dropped? then
        |d| == |w.drops| + 1 &&
        Unused(d) == Unused(w.drops) + (if StopAfter(w.core, r).Some? || r.txCount != 0 then 1 else 0)
      else d == w.drops
  {
    UnusedMore(w.drops, Drop(r.txCount, StopAfter(w.core, r).Some?));
    hide Unused, StopAfter;
  }

  /** What the search for the next frame needs of the history, after a collected event. */
  lemma AfterEventCounts(st: Setting, w: World, r: Receipt, x: Input)
    requires SettingOk(st) && FlightInv(w) && w.core.phase == Transmitting && CountInv(w.core, w.drops) && LogInv(w)
    requires InTime(w, r, x.retryNow)
    ensures var v := AfterEvent(st, w, r, x).0;
      CountInv(v.core, v.drops) && Increasing(v.log) && Below(v.log, v.core.next)
  {
    hide HearAll, FirstThree, Increasing, Below, Unused, StopAfter, Usable;
    NotedCounts(w, r);
    NotedLog(w, r);
    if r.aired { AiredIsPast(w, r, x.retryNow, x.minimum); }
    hide FlightInv, InTime;
    InFlight(w);
  }

  /** After a collected event the next frame is sought from the retried or the following frame. */
  lemma AfterEventKeeps(st: Setting, w: World, r: Receipt, x: Input)
    requires SettingOk(st) && Inv(st, w) && w.core.phase == Transmitting && InTime(w, r, x.retryNow)
    ensures var (v, more) := AfterEvent(st, w, r, x); if more then Seeking(st, v) else Inv(st, v)
  {
    var c := w.core;
    hide InTime, Usable, HearAll, FirstThree, P.CacheInv, Increasing, Below, Retriable;
    AskableNext(w.fifo.history, c.active, c.streams.start);
    if c.feedback.channels[1].valid { HearAllStaysValid(st, c.feedback, c, FirstThree(r.snapshots)); }
    AfterEventCounts(st, w, r, x);
    InFlight(w);
    hide Askable, Increasing, Below, FlightInv, LogInv, CountInv, StopAfter;
  }

  lemma InFlight(w: World)
    requires FlightInv(w) && w.core.phase == Transmitting
    ensures w.core.next == w.core.active + 1
  {
  }

  predicate Timely(w: World, x: Input) {
    w.core.phase == Transmitting && x.collected.Done? ==> InTime(w, x.collected.receipt, x.retryNow)
  }

  lemma CollectedKeeps(st: Setting, w: World, x: Input)
    requires SettingOk(st) && Inv(st, w) && w.core.phase == Transmitting && Timely(w, x)
    ensures var (v, more) := Opening(st, w, x); if more then Seeking(st, v) else Inv(st, v)
  {
    match x.collected
    case Lost => LostKeeps(st, w, x);
    case Pending => PendingKeeps(st, w, x);
    case Done(r) =>
      assert InTime(w, r, x.retryNow);
      AfterEventKeeps(st, w, r, x);
      hide AfterEvent, Inv, Seeking;
  }

  lemma LostKeeps(st: Setting, w: World, x: Input)
    requires SettingOk(st) && Inv(st, w) && w.core.phase == Transmitting && x.collected.Lost?
    ensures !Opening(st, w, x).1 && Inv(st, Opening(st, w, x).0)
  {
    var c := w.core;
    LogMore(w.log, c.active);
    InFlight(w);
    hide Increasing, Below, AudioInv, Askable, Unused;
    FinishKeeps(st, w.(log := w.log + [c.active]), Fault, 2);
    hide Inv;
  }

  lemma PendingKeeps(st: Setting, w: World, x: Input)
    requires SettingOk(st) && Inv(st, w) && w.core.phase == Transmitting && x.collected.Pending?
    ensures !Opening(st, w, x).1 && Inv(st, Opening(st, w, x).0)
  {
    AdvanceKeeps(st, w, x.join);
    var (s, error) := Advance(w.core.streams, x.join);
    assert AudioInv(st, w) && Askable(w.fifo.history, w.core.active, s.start) by {
      assert w.fifo.history == [] ==> Askable(w.fifo.history, w.core.active, s.start);
      hide AudioInv;
    }
    hide Advance;
    StreamsKeep(st, w, s, error);
    hide Inv;
  }

  /** While an event is in flight, the streams may progress and a stop may be noted. */
  lemma StreamsKeep(st: Setting, w: World, s: Streams, error: nat)
    requires SettingOk(st) && Inv(st, w) && w.core.phase == Transmitting
    requires AudioInv(st, WithStreams(w, s)) && Askable(w.fifo.history, w.core.active, s.start)
    ensures Inv(st, WithStreams(w, s)) && Inv(st, w.(core := w.core.(streams := s, failure := error, cancel := true)))
  {
    hide Askable, P.CacheInv, Increasing, Below, Unused;
  }

  lemma OpeningKeeps(st: Setting, w: World, x: Input)
    requires SettingOk(st) && Inv(st, w) && Timely(w, x)
    ensures var (v, more) := Opening(st, w, x); if more then Seeking(st, v) else Inv(st, v)
  {
    var c := w.core;
    match c.phase
    case WaitE2 =>
      hide Askable, P.CacheInv, Increasing, Below;
      FinishKeeps(st, w, Cancelled, 0);
      FinishKeeps(st, w, Failed, 1);
    case Transmitting => CollectedKeeps(st, w, x);
    case _ => hide Inv;
  }

  /** Every step keeps the invariant. */
  lemma StepKeeps(st: Setting, w: World, x: Input)
    requires SettingOk(st) && Inv(st, w) && Timely(w, x)
    ensures Inv(st, Step(st, w, x))
  {
    hide Inv, Seeking, Opening, Closing, Timely;
    OpeningKeeps(st, w, x);
    var (v, more) := Opening(st, w, x);
    if more { ClosingKeeps(st, v, x); }
  }

  // --------------------------------------------------------------------------
  // Runs
  // --------------------------------------------------------------------------

  /** The trial's timer step, a request to stop, or encoded audio that arrives. */
  datatype Move = Tick(x: Input) | Stop | Audio(frames: seq<Q.Frame>)

  function Moved(st: Setting, w: World, m: Move): World
    requires SettingOk(st)
  {
    match m
    case Tick(x) => Step(st, w, x)
    case Stop => w.(core := w.core.(cancel := true))
    case Audio(frames) => w.(fifo := Arrive(w.fifo, frames))
  }

  function Run(st: Setting, w: World, moves: seq<Move>): World
    requires SettingOk(st)
  {
    if moves == [] then w else Moved(st, Run(st, w, moves[..|moves| - 1]), moves[|moves| - 1])
  }

  const NoStreams := Streams(false, false, false, NoStart)

  /** A trial that starts over a fresh audio session, its first frame prepared. */
  function Begin(st: Setting, pushed: seq<Q.Frame>, x: Finding): World
    requires SettingOk(st)
  {
    var core := Core(WaitE2, 0, 0, 0, 0, 0, false, 0, false, NoStreams, 0, 0, F.NoFeedback, P.Empty);
    PrepareFrame(st, World(core, Q.Fifo(pushed, 0, []), [], [], NoFlight, false), 0, x).0
  }

  lemma BeginHolds(st: Setting, pushed: seq<Q.Frame>, x: Finding)
    requires SettingOk(st)
    ensures Inv(st, Begin(st, pushed, x))
  {
    var core := Core(WaitE2, 0, 0, 0, 0, 0, false, 0, false, NoStreams, 0, 0, F.NoFeedback, P.Empty);
    var w := World(core, Q.Fifo(pushed, 0, []), [], [], NoFlight, false);
    hide P.Fresh;
    assert AudioInv(st, w);
    PrepareKeeps(st, w, 0, x);
    hide PrepareFrame, P.CacheInv;
  }

  predicate MoveTimely(w: World, m: Move) {
    m.Tick? ==> Timely(w, m.x)
  }

  /** Every event of the run that was on air is collected in time. */
  predicate AllTimely(st: Setting, w: World, moves: seq<Move>)
    requires SettingOk(st)
  {
    moves != [] ==>
      AllTimely(st, w, moves[..|moves| - 1]) && MoveTimely(Run(st, w, moves[..|moves| - 1]), moves[|moves| - 1])
  }

  lemma MovedKeeps(st: Setting, w: World, m: Move)
    requires SettingOk(st) && Inv(st, w) && MoveTimely(w, m)
    ensures Inv(st, Moved(st, w, m))
  {
    match m
    case Tick(x) => hide Inv, Step, Timely; StepKeeps(st, w, x);
    case Stop => StopKeeps(st, w);
    case Audio(frames) => ArrivalKeeps(st, w, frames);
  }

  lemma StopKeeps(st: Setting, w: World)
    requires SettingOk(st) && Inv(st, w)
    ensures Inv(st, w.(core := w.core.(cancel := true)))
  {
    hide P.CacheInv, Askable, Increasing, Below, Unused;
  }

  lemma ArrivalKeeps(st: Setting, w: World, frames: seq<Q.Frame>)
    requires SettingOk(st) && Inv(st, w)
    ensures Inv(st, w.(fifo := Arrive(w.fifo, frames)))
  {
    hide P.CacheInv, Askable, Increasing, Below, Unused;
    if Live(w.core) { ArriveKeeps(st, w, frames); }
    hide FlightInv, LogInv, CountInv;
    var v := w.(fifo := Arrive(w.fifo, frames));
    assert FlightInv(v) && LogInv(v) by { FlightSame(w, v); }
  }

  lemma FlightSame(w: World, v: World)
    requires FlightInv(w) && LogInv(w) && v == w.(fifo := v.fifo)
    ensures FlightInv(v) && LogInv(v)
  {
    hide Increasing, Below;
  }

  lemma {:induction false} RunKeeps(st: Setting, w: World, moves: seq<Move>)
    requires SettingOk(st) && Inv(st, w) && AllTimely(st, w, moves)
    ensures Inv(st, Run(st, w, moves))
    decreases |moves|
  {
    if moves != [] {
      hide Inv, Moved, MoveTimely;
      RunKeeps(st, w, moves[..|moves| - 1]);
      MovedKeeps(st, Run(st, w, moves[..|moves| - 1]), moves[|moves| - 1]);
    }
  }

  lemma {:induction false} UnusedZero(drops: seq<Drop>)
    ensures Unused(drops) == 0 <==> forall i :: 0 <= i < |drops| ==> !drops[i].last && drops[i].txCount == 0
  {
    if drops != [] {
      var rest := drops[..|drops| - 1];
      UnusedZero(rest);
      assert drops == rest + [drops[|drops| - 1]];
    }
  }

  /**
   Over every run in which events that were on air are collected in time: no frame goes on air twice and the order is
   increasing, although sent frames may be reported as cancelled without counted packets. Frames passed and cancelled
   reports balance submissions and skips up to the unused reports: exactly while none ended the trial or counted a packet.
   No audio request is ever refused.
   */
  lemma EveryRun(st: Setting, pushed: seq<Q.Frame>, x: Finding, moves: seq<Move>)
    requires SettingOk(st) && AllTimely(st, Begin(st, pushed, x), moves)
    ensures var w := Run(st, Begin(st, pushed, x), moves);
      Increasing(w.log) && Below(w.log, w.core.next) && !w.refused &&
      w.core.next + |w.drops| == w.core.submitted + w.core.skipped + Unused(w.drops) &&
      (w.core.next + |w.drops| == w.core.submitted + w.core.skipped <==>
        forall i :: 0 <= i < |w.drops| ==> !w.drops[i].last && w.drops[i].txCount == 0)
  {
    BeginHolds(st, pushed, x);
    RunKeeps(st, Begin(st, pushed, x), moves);
    hide Run, Begin, P.CacheInv, Askable, Increasing, AllTimely, Unused;
    var w := Run(st, Begin(st, pushed, x), moves);
    if w.core.phase == Transmitting { BelowMore(w.log, w.core.active, w.core.next); }
    UnusedZero(w.drops);
    hide Below;
  }

  lemma InvFlight(st: Setting, u: World)
    requires SettingOk(st) && Inv(st, u)
    ensures FlightInv(u)
  {
  }

  /** While an event is in flight, its cache side still holds the packet that was submitted. */
  lemma FlightIsPrepared(st: Setting, pushed: seq<Q.Frame>, x: Finding, moves: seq<Move>)
    requires SettingOk(st) && AllTimely(st, Begin(st, pushed, x), moves)
    requires Run(st, Begin(st, pushed, x), moves).core.phase == Transmitting
    ensures var w := Run(st, Begin(st, pushed, x), moves); var e := w.core.caches.prepared[P.Side(w.core.active)];
      e == w.flight.packet && e.valid && e.index == w.core.active && w.core.hs == e.built.hs && w.core.hus == e.built.hus &&
      (e.built.hs - w.flight.start) % S.CLOCK == 0
  {
    hide Run, Begin, Inv, AllTimely;
    BeginHolds(st, pushed, x);
    RunKeeps(st, Begin(st, pushed, x), moves);
    InvFlight(st, Run(st, Begin(st, pushed, x), moves));
  }

  /**
   A frame that is tried again was not on air, when events on air are collected in time. Less than a turn from the start,
   it is tried again exactly when it was cancelled without counted packets and its start, on a clock that never wraps,
   is still more than the minimum and at most 3200 ticks ahead.
   */
  lemma RetriedIff(st: Setting, w: World, r: Receipt, x: Input)
    requires SettingOk(st) && Inv(st, w) && w.core.phase == Transmitting && AfterEvent(st, w, r, x).1
    ensures var retried := AfterEvent(st, w, r, x).0.core.next == w.core.active;
      (retried && InTime(w, r, x.retryNow) ==> !r.aired) &&
      (w.flight.start - S.CLOCK < x.retryNow < w.flight.start + S.CLOCK - Limit ==>
        (retried <==> r.result.Dropped? && r.txCount == 0 && x.minimum + 1 <= w.flight.start - x.retryNow <= Limit))
  {
    hide HearAll, FirstThree, AudioInv, Askable, Increasing, Below, LogInv;
    InFlight(w);
    LeadFromStart(w.core.hs, w.flight.start, x.retryNow);
    WrappedLead(w.flight.start, x.retryNow);
    hide Inv, FlightInv, Lead;
  }

  /** Collected later than that, a frame that was on air is sent again: the bound is exact. */
  lemma LateCollectionRepeats(st: Setting, w: World, r: Receipt, x: Input)
    requires SettingOk(st) && Inv(st, w) && w.core.phase == Transmitting && AfterEvent(st, w, r, x).1
    requires r.aired && r.result.Dropped? && r.txCount == 0
    requires w.flight.start + S.CLOCK - Limit <= x.retryNow < w.flight.start + S.CLOCK - x.minimum
    ensures var v := AfterEvent(st, w, r, x).0; v.core.next == w.core.active && w.core.active in v.log
  {
    hide HearAll, FirstThree, AudioInv, Askable, Increasing, Below, LogInv;
    InFlight(w);
    LeadFromStart(w.core.hs, w.flight.start, x.retryNow);
    WrappedLead(w.flight.start, x.retryNow);
    hide Inv, FlightInv, Lead;
    assert Noted(w, r).log[|w.log|] == w.core.active;
  }

  /** The packet that a search finds is what a fresh build of that frame would be at that moment. */
  lemma {:induction false} FoundIsFresh(st: Setting, w: World, x: Input, hasty: bool)
    requires SettingOk(st) && Seeking(st, w) && Seek(st, w, x, hasty).1.Found?
    ensures var v := Seek(st, w, x, hasty).0; var n := v.core.next;
      n < st.limit && ParentFor(v.core, n, x.finding(n)).Some? &&
      var d := DemandFor(v.core, n, ParentFor(v.core, n, x.finding(n)).value);
      var (e, g, ok) := P.Build(st.se, v.fifo, n, d.v, d.generation);
      ok && g == v.fifo && P.SamePacket(v.core.caches.prepared[P.Side(n)], e) && x.minimum <= Lead(PreparedHs(v), x.after(n)) <= 3200
    decreases st.limit - w.core.next
  {
    var n := w.core.next;
    hide Seeking, Lead, PlannedHs, P.Build, ParentFor, DemandFor, P.SamePacket, PreparedHs;
    if !InReach(Lead(PlannedHs(st, n), x.before(n)), x.minimum + (if hasty then 0 else 1)) {
      SkipKeeps(st, w);
      FoundIsFresh(st, Skip(w), x, false);
    } else {
      var (v, ok) := PrepareFrame(st, w, n, x.finding(n));
      PrepareSeeks(st, w, x.finding(n));
      if InReach(Lead(PreparedHs(v), x.after(n)), x.minimum) {
        PreparedIsFresh(st, w, x.finding(n));
      } else {
        hide PrepareFrame;
        SkipKeeps(st, v);
        FoundIsFresh(st, Skip(v), x, false);
      }
    }
  }

  /** A frame that can be prepared and is in reach before and after that is not skipped. */
  lemma InReachIsFound(st: Setting, w: World, x: Input, hasty: bool)
    requires SettingOk(st) && w.core.next < st.limit && PrepareFrame(st, w, w.core.next, x.finding(w.core.next)).1
    requires var ahead := Lead(PlannedHs(st, w.core.next), x.before(w.core.next)); (if hasty then x.minimum else x.minimum + 1) <= ahead <= 3200
    requires var v := PrepareFrame(st, w, w.core.next, x.finding(w.core.next)).0;
      x.minimum <= Lead(v.core.caches.prepared[P.Side(w.core.next)].built.hs, x.after(w.core.next)) <= 3200
    ensures Seek(st, w, x, hasty) == (PrepareFrame(st, w, w.core.next, x.finding(w.core.next)).0, Found)
  {
    PrepareStays(st, w, w.core.next, x.finding(w.core.next));
    hide PrepareFrame, Lead, PlannedHs;
  }

  /** The start judged before a frame is built is its packet's, unless it polls and is shifted further. */
  lemma PlannedIsStart(st: Setting, index: nat, v: P.Vector, audio: Option<Q.Frame>)
    requires SettingOk(st) && P.Fresh(st.se, index, v, audio).Some? && !P.Polls(index, v.mask)
    ensures P.Fresh(st.se, index, v, audio).value.hs == PlannedHs(st, index)
  {
    hide P.Fresh, P.Later, S.SessionTime;
    P.FreshTime(st.se, index, v, audio);
  }

  lemma PreparedIsFresh(st: Setting, w: World, x: Finding)
    requires SettingOk(st) && Seeking(st, w) && w.core.next < st.limit && PrepareFrame(st, w, w.core.next, x).1
    ensures var v := PrepareFrame(st, w, w.core.next, x).0; var n := v.core.next;
      n == w.core.next && ParentFor(v.core, n, x).Some? &&
      var d := DemandFor(v.core, n, ParentFor(v.core, n, x).value);
      var (e, g, ok) := P.Build(st.se, v.fifo, n, d.v, d.generation);
      ok && g == v.fifo && P.SamePacket(v.core.caches.prepared[P.Side(n)], e)
  {
    var n := w.core.next;
    var v := PrepareFrame(st, w, n, x).0;
    var parent := ParentFor(w.core, n, x);
    var d := DemandFor(w.core, n, parent.value);
    var f := Arrive(w.fifo, x.arrived);
    ArriveKeeps(st, w, x.arrived);
    assert d.index == n && d.v.mask == (if Stereo(w.core, n) then 6 else 2);
    if Stereo(w.core, n) { AskableIsNotRefused(w.fifo.history, n, w.core.streams.start); }
    hide P.CacheInv, P.NotRefused, P.Prepare, P.Build, Askable, P.SamePacket;
    P.PreparedIsFreshNow(st.se, w.core.caches, f, d);
    assert ParentFor(v.core, n, x) == parent && DemandFor(v.core, n, parent.value) == d;
  }

  // --------------------------------------------------------------------------
  // The channels of one frame
  // --------------------------------------------------------------------------

  /**
   A built packet goes to the first subevent after the event's own channel, and its later reply to the one after that:
   each is at least the distance from the one before, counted around the used channels.
   */
  lemma SlotsSpread(st: Setting, index: nat, v: P.Vector, audio: Option<Q.Frame>)
    requires SettingOk(st) && P.Fresh(st.se, index, v, audio).Some?
    ensures var plan := st.se.plan;
      var packet := Some(P.Fresh(st.se, index, v, audio).value.channel);
      C.FarApart(plan.e2[19..24], C.Channel(plan.aa, (plan.counter + index) % 0x1_0000, plan.e2[19..24], 0), packet) &&
      C.FarApart(plan.e2[19..24], packet, ReplyChannel(st, index))
  {
    hide P.Fresh, C.Channel, C.Apart, C.Distance, C.UsedList, P.ContentFor, P.HeaderOf, P.MaskedAad;
    P.PacketNeeds(st.se, index, v, audio);
    var map5, counter := st.se.plan.e2[19..24], (st.se.plan.counter + index) % 0x1_0000;
    EventExists(st.se.plan.aa, counter, map5);
    C.ChannelsSpread(st.se.plan.aa, counter, map5, 0);
    C.ChannelsSpread(st.se.plan.aa, counter, map5, 1);
  }

  lemma EventExists(aa: Word, counter: Half, map5: seq<Byte>)
    requires |map5| == 5 && C.Channel(aa, counter, map5, 1).Some?
    ensures C.Channel(aa, counter, map5, 0).Some?
  {
    hide C.ChannelIndex, C.UsedList;
  }

  /** With every channel in use, packets are at least eleven channels from their event's number and from their reply. */
  lemma FullMapSlots(st: Setting, index: nat, v: P.Vector, audio: Option<Q.Frame>)
    requires SettingOk(st) && P.Fresh(st.se, index, v, audio).Some? && C.FullMap(st.se.plan.e2[19..24])
    ensures var number := C.PrnOf(st.se.plan.counter + index, C.Identifier(st.se.plan.aa)) % 37;
      var packet, reply := P.Fresh(st.se, index, v, audio).value.channel, ReplyChannel(st, index);
      C.Circular(number, packet, 37) >= 11 && reply.Some? && C.Circular(packet, reply.value, 37) >= 11
  {
    hide P.Fresh, C.Channel, C.Distance, C.UsedList, C.FullMap, C.PrnOf, C.Identifier, C.Position, C.Circular, S.MapBit;
    var map5, counter := st.se.plan.e2[19..24], (st.se.plan.counter + index) % 0x1_0000;
    SlotsSpread(st, index, v, audio);
    C.ChannelIsNumber(st.se.plan.aa, map5, counter);
    C.PrnPeriodic(st.se.plan.counter + index, counter, C.Identifier(st.se.plan.aa));
    C.DistanceIs(37);
    C.FullList(map5, 37);
    P.FreshUses(st.se, index, v, audio);
    C.ResultIsUsed(st.se.plan.aa, counter, map5, 2);
    FullPosition(map5, C.PrnOf(counter, C.Identifier(st.se.plan.aa)) % 37);
    FullPosition(map5, P.Fresh(st.se, index, v, audio).value.channel);
    FullPosition(map5, ReplyChannel(st, index).value);
  }

  lemma FullPosition(map5: seq<Byte>, c: nat)
    requires |map5| == 5 && C.FullMap(map5) && c < 37
    ensures C.Position(C.UsedList(map5, 37), c) == c
  {
    hide C.FullMap, C.UsedList;
    C.FullList(map5, 37);
    C.PositionOf(C.UsedList(map5, 37), c);
  }
}
