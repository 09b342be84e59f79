/**
 The trial against its peer (tone_trial.c, air_feedback.c): whole runs of the scheduler beside the headset's two streams,
 each as the peer machine of module AirFeedback. Whatever is skipped, refused, cancelled, lost or
 heard, every packet submitted carries for each of its streams the sequence the peer expects.
 */
module TrialPeer {
  import opened Words
  import A = AirFrame
  import S = AirSession
  import F = AirFeedback
  import Q = AudioQueue
  import P = PacketCache
  import opened T = Trial

  // --------------------------------------------------------------------------
  // One event
  // --------------------------------------------------------------------------

  /** The sequence that the packet in flight carries for a stream, if it sends for it. */
  function Sends(c: Core, i: nat): Option<A.Nibble>
    requires i < 2
  {
    var e := c.caches.prepared[P.Side(c.active)];
    if !e.built.receive && e.index == c.active && A.HasBit(e.v.mask, i + 1) then Some(e.v.tx[i]) else None
  }

  /** The packet was received less than 3 milliseconds after the event's start, on the clock. */
  predicate Early(c: Core, rx: F.Snapshot) {
    (rx.hs * 625 + rx.hus - (c.hs * 625 + c.hus)) % P.ClockHus < 2 * 3000
  }

  lemma EarlyIs(c: Core, rx: F.Snapshot)
    requires rx.hus < 625
    ensures Early(c, rx) <==> 0 <= Elapsed(rx, c.hs, c.hus) < 6000
  {
    var coarse, fine: int := (rx.hs - c.hs) % S.CLOCK, rx.hus - c.hus;
    var q := (rx.hs - c.hs) / S.CLOCK;
    assert rx.hs * 625 + rx.hus - (c.hs * 625 + c.hus) == (coarse * 625 + fine) + P.ClockHus * q;
    ClockTurns(coarse * 625 + fine, q);
  }

  lemma ClockTurns(x: int, q: int)
    requires -625 < x < P.ClockHus
    ensures (x + P.ClockHus * q) % P.ClockHus == if x < 0 then x + P.ClockHus else x
  {
    P.WholeTurns(x, q);
  }

  predicate AcceptedHere(st: Setting, fb: Feedback, c: Core, rx: F.Snapshot)
    requires SettingOk(st)
  {
    |rx.payload| >= 7 && F.AcceptFrame(fb, st.se.plan, rx, c.active, st.open).verdict.Accepted?
  }

  function RepliesIn(st: Setting, c: Core, i: nat, rx: F.Snapshot): seq<F.Event> {
    F.Replies(F.AcksOf(F.RecordsOf(rx, st.open), i + 1), Early(c, rx))
  }

  /** The peer machine of stream `i + 1` after one snapshot. */
  function FollowOne(st: Setting, fb: Feedback, c: Core, v: F.World, i: nat, rx: F.Snapshot): F.World
    requires SettingOk(st) && i < 2
  {
    if AcceptedHere(st, fb, c, rx) then F.Run(v, RepliesIn(st, c, i, rx), StartOf(c, i)) else v
  }

  /** The machine and the scheduler's record of the stream agree, and the machine is in sync. */
  predicate Tracks(fb: Feedback, c: Core, v: F.World, i: nat)
    requires i < 2
  {
    v.ch == fb.channels[i] && v.frame == c.active && v.sent == Sends(c, i) && F.InSync(v, StartOf(c, i)) &&
    (v.sent.Some? ==> v.frame >= StartOf(c, i))
  }

  predicate FairOne(st: Setting, fb: Feedback, c: Core, v: F.World, i: nat, rx: F.Snapshot)
    requires SettingOk(st) && i < 2
  {
    AcceptedHere(st, fb, c, rx) ==>
      F.Reports(F.RecordsOf(rx, st.open), i + 1, v.expected % 16) && F.AllTimely(v, RepliesIn(st, c, i, rx), StartOf(c, i))
  }

  lemma HearNotes(st: Setting, fb: Feedback, c: Core, v: F.World, i: nat, rx: F.Snapshot)
    requires SettingOk(st) && i < 2 && AcceptedHere(st, fb, c, rx) && v.frame == c.active && v.sent == Sends(c, i)
    ensures Hear(st, fb, c, rx).channels[i] ==
            F.Noted(F.AcceptFrame(fb, st.se.plan, rx, c.active, st.open).state.channels[i], v, Early(c, rx))
  {
    assert rx.hus < 625 by { hide S.SlotAccepts, A.ParseUplink, F.CommitAll; }
    EarlyIs(c, rx);
    hide F.AcceptFrame, Elapsed, A.HasBit, Early;
  }

  lemma NoReplies(v: F.World, early: bool, start: nat)
    ensures F.Run(v, F.Replies([], early), start) == v
  {
  }

  /** One snapshot changes the stream's record exactly as the peer's replies in it do. */
  lemma HearFollows(st: Setting, fb: Feedback, c: Core, v: F.World, i: nat, rx: F.Snapshot)
    requires SettingOk(st) && i < 2 && Tracks(fb, c, v, i) && FairOne(st, fb, c, v, i, rx)
    ensures Tracks(Hear(st, fb, c, rx), c, FollowOne(st, fb, c, v, i, rx), i)
  {
    var u := FollowOne(st, fb, c, v, i, rx);
    hide F.AcceptFrame, F.AllTimely, F.InSync, F.RecordsOf, F.Reports, F.AcksOf, F.CommitMany, F.Replies, F.Run, Early, Elapsed;
    if AcceptedHere(st, fb, c, rx) {
      var acks := F.AcksOf(F.RecordsOf(rx, st.open), i + 1);
      F.NeverDrifts(v, RepliesIn(st, c, i, rx), StartOf(c, i));
      F.AcceptedCommits(fb, st.se.plan, rx, c.active, st.open, i, v.expected % 16);
      HearNotes(st, fb, c, v, i, rx);
      if acks == [] {
        NoReplies(v, Early(c, rx), StartOf(c, i));
        F.SilentNote(v, Early(c, rx), StartOf(c, i));
      } else {
        F.RepliesAre(v, acks, Early(c, rx), StartOf(c, i));
      }
    } else if |rx.payload| >= 7 {
      F.RefusedKeeps(fb, st.se.plan, rx, c.active, st.open);
    }
  }

  /** The peer by itself, between two snapshots. */
  predicate PeerOnly(es: seq<F.Event>) {
    forall e :: e in es ==> e.Hear? || e.Expire?
  }

  /** The machine over all snapshots of an event; before each, with `k` left, the peer makes the moves `hears(k)`. */
  function Follow(st: Setting, fb: Feedback, c: Core, v: F.World, i: nat, rx: seq<F.Snapshot>, hears: nat -> seq<F.Event>): F.World
    requires SettingOk(st) && i < 2
    decreases |rx|
  {
    if rx == [] then v
    else
      var a := F.Run(v, hears(|rx|), StartOf(c, i));
      Follow(st, Hear(st, fb, c, rx[0]), c, FollowOne(st, fb, c, a, i, rx[0]), i, rx[1..], hears)
  }

  /** What is asked of the peer: its replies report what it expects, and the first report of an advance is in time. */
  predicate Fair(st: Setting, fb: Feedback, c: Core, v: F.World, i: nat, rx: seq<F.Snapshot>, hears: nat -> seq<F.Event>)
    requires SettingOk(st) && i < 2
    decreases |rx|
  {
    rx != [] ==>
      var a := F.Run(v, hears(|rx|), StartOf(c, i));
      PeerOnly(hears(|rx|)) && FairOne(st, fb, c, a, i, rx[0]) &&
      Fair(st, Hear(st, fb, c, rx[0]), c, FollowOne(st, fb, c, a, i, rx[0]), i, rx[1..], hears)
  }

  lemma {:induction false} PeerMoves(v: F.World, es: seq<F.Event>, start: nat)
    requires PeerOnly(es)
    ensures F.AllTimely(v, es, start)
    ensures var u := F.Run(v, es, start); u.ch == v.ch && u.frame == v.frame && u.sent == v.sent
    decreases |es|
  {
    if es != [] { PeerMoves(F.Step(v, es[0], start), es[1..], start); }
  }

  lemma PeerTracks(fb: Feedback, c: Core, v: F.World, i: nat, es: seq<F.Event>)
    requires i < 2 && Tracks(fb, c, v, i) && PeerOnly(es)
    ensures Tracks(fb, c, F.Run(v, es, StartOf(c, i)), i)
  {
    hide F.InSync, F.Run, F.AllTimely, PeerOnly, Sends;
    PeerMoves(v, es, StartOf(c, i));
    F.NeverDrifts(v, es, StartOf(c, i));
  }

  /** All snapshots of an event leave the record as the peer machine has it, in sync. */
  lemma {:induction false} HearAllFollows(st: Setting, fb: Feedback, c: Core, v: F.World, i: nat, rx: seq<F.Snapshot>, hears: nat -> seq<F.Event>)
    requires SettingOk(st) && i < 2 && Tracks(fb, c, v, i) && Fair(st, fb, c, v, i, rx, hears)
    ensures Tracks(HearAll(st, fb, c, rx), c, Follow(st, fb, c, v, i, rx, hears), i)
    decreases |rx|
  {
    if rx != [] {
      hide Tracks, FairOne, Hear, FollowOne, PeerOnly, F.Run;
      PeerTracks(fb, c, v, i, hears(|rx|));
      var a := F.Run(v, hears(|rx|), StartOf(c, i));
      HearFollows(st, fb, c, a, i, rx[0]);
      HearAllFollows(st, Hear(st, fb, c, rx[0]), c, FollowOne(st, fb, c, a, i, rx[0]), i, rx[1..], hears);
    }
  }

  // --------------------------------------------------------------------------
  // What a submission carries
  // --------------------------------------------------------------------------

  /** The packet of frame `n` carries what is predicted for it now, for the streams that are on. */
  predicate Carries(c: Core, e: P.Entry, n: nat) {
    e.valid && e.index == n && e.v.tx == Predicted(c, n) && e.v.mask == (if Stereo(c, n) then 6 else 2)
  }

  predicate SameFeedback(w: World, v: World) {
    v.core.feedback == w.core.feedback && v.core.streams == w.core.streams
  }

  lemma PrepareSame(st: Setting, w: World, index: nat, x: Finding)
    requires SettingOk(st)
    ensures var v := PrepareFrame(st, w, index, x).0;
      SameFeedback(w, v) && v.core.next == w.core.next && v.core.active == w.core.active && v.core.phase == w.core.phase &&
      v.flight == w.flight
  {
    hide ParentFor, DemandFor, P.Prepare, P.NotRefused;
  }

  lemma PrepareCarries(st: Setting, w: World, index: nat, x: Finding)
    requires SettingOk(st) && index < st.limit && PrepareFrame(st, w, index, x).1
    ensures var v := PrepareFrame(st, w, index, x).0; Carries(v.core, v.core.caches.prepared[P.Side(index)], index)
  {
    var parent := ParentFor(w.core, index, x);
    var d := DemandFor(w.core, index, parent.value);
    var f := Arrive(w.fifo, x.arrived);
    assert d.index == index && d.v.tx == Predicted(w.core, index) && d.v.mask == (if Stereo(w.core, index) then 6 else 2);
    hide ParentFor, P.Prepare, P.NotRefused, F.Predict, DemandFor;
    P.PrepareLeaves(st.se, w.core.caches, f, d);
    var v := PrepareFrame(st, w, index, x).0;
    assert Predicted(v.core, index) == Predicted(w.core, index) && Stereo(v.core, index) == Stereo(w.core, index);
  }

  lemma SkipSame(w: World)
    ensures SameFeedback(w, Skip(w)) && Skip(w).core.next == w.core.next + 1
  {
  }

  lemma {:induction false} SeekCarries(st: Setting, w: World, x: Input, hasty: bool)
    requires SettingOk(st) && w.core.next <= st.limit
    ensures var (v, search) := Seek(st, w, x, hasty); var n := v.core.next;
      SameFeedback(w, v) && w.core.next <= n <= st.limit &&
      (search.Found? ==> n < st.limit && Carries(v.core, v.core.caches.prepared[P.Side(n)], n))
    decreases st.limit - w.core.next
  {
    var n := w.core.next;
    hide InReach, Lead, PlannedHs, PrepareFrame, Carries, Skip;
    if n < st.limit {
      SkipSame(w);
      if !InReach(Lead(PlannedHs(st, n), x.before(n)), x.minimum + (if hasty then 0 else 1)) {
        SeekCarries(st, Skip(w), x, false);
      } else {
        var (v, ok) := PrepareFrame(st, w, n, x.finding(n));
        PrepareSame(st, w, n, x.finding(n));
        if ok { PrepareCarries(st, w, n, x.finding(n)); }
        SkipSame(v);
        if ok && !InReach(Lead(PreparedHs(v), x.after(n)), x.minimum) { SeekCarries(st, Skip(v), x, false); }
      }
    }
  }

  lemma GuessesSame(st: Setting, w: World, index: nat)
    requires SettingOk(st)
    ensures var v := PrepareGuesses(st, w, index).0;
      SameFeedback(w, v) && v.core.next == w.core.next && v.core.active == w.core.active && v.core.phase == w.core.phase &&
      v.flight == w.flight
  {
    hide P.Guess, P.NotRefused;
  }

  lemma FollowingSame(st: Setting, t: World, x: Input)
    requires SettingOk(st)
    ensures var v := Following(st, t, x);
      SameFeedback(t, v) && v.core.next == t.core.next && v.core.active == t.core.active && v.core.phase == t.core.phase &&
      v.flight == t.flight
  {
    var n := t.core.next;
    PrepareSame(st, t, n, x.finding(n));
    GuessesSame(st, PrepareFrame(st, t, n, x.finding(n)).0, n);
    hide PrepareFrame, PrepareGuesses;
  }

  /** What the second part of a step does to what the peers see. */
  predicate Onward(st: Setting, o: World, u: World)
    requires SettingOk(st)
  {
    var n := u.core.active;
    u.core.feedback == o.core.feedback && u.core.next <= st.limit &&
    if u.core.phase == Transmitting then o.core.next <= n && u.core.next == n + 1 && Carries(u.core, u.flight.packet, n)
    else o.core.next < u.core.next
  }

  lemma SubmitCarries(st: Setting, o: World, v: World, x: Input)
    requires SettingOk(st) && v.core.feedback == o.core.feedback && o.core.next <= v.core.next < st.limit
    requires Carries(v.core, v.core.caches.prepared[P.Side(v.core.next)], v.core.next) && Live(Submit(st, v, x).core)
    ensures Onward(st, o, Submit(st, v, x)) && Submit(st, v, x).core.streams == v.core.streams
  {
    hide Following, ReplyChannel, F.Predict, Lead;
    var s := Chosen(v);
    var t := Accepted(s, x.after(v.core.next));
    FollowingSame(st, t, x);
    assert forall u: World, n: nat :: SameFeedback(t, u) ==> Predicted(u.core, n) == Predicted(v.core, n) && Stereo(u.core, n) == Stereo(v.core, n);
  }

  lemma ClosingCarries(st: Setting, o: World, x: Input)
    requires SettingOk(st) && o.core.next <= st.limit && Live(Closing(st, o, x).core)
    ensures var u := Closing(st, o, x); Onward(st, o, u) && u.core.streams == Advance(o.core.streams, x.join).0
  {
    var (s, error) := Advance(o.core.streams, x.join);
    var j := WithStreams(o, s);
    hide Advance, Seek, Submit, Carries, Onward;
    SeekCarries(st, j, x, x.hasty);
    var (v, search) := Seek(st, j, x, x.hasty);
    if error == 0 && search.Found? { SubmitCarries(st, o, v, x); }
  }

  // --------------------------------------------------------------------------
  // The scheduler beside its two peers
  // --------------------------------------------------------------------------

  /** A move of the scheduler, and the peers' own moves while its event's snapshots are heard. */
  datatype PeerMove = PeerMove(move: Move, hears: (nat, nat) -> seq<F.Event>)

  datatype Air = Air(w: World, peers: seq<F.World>)

  function Hears(m: PeerMove, i: nat): nat -> seq<F.Event> {
    (k: nat) => m.hears(i, k)
  }

  predicate Collects(w: World, m: PeerMove) {
    m.move.Tick? && w.core.phase == Transmitting && m.move.x.collected.Done?
  }

  function Snapshots(m: PeerMove): seq<F.Snapshot>
    requires m.move.Tick? && m.move.x.collected.Done?
  {
    var rx := m.move.x.collected.receipt.snapshots;
    if |rx| <= 3 then rx else [rx[0], rx[1], rx[2]]
  }

  /** The peer at the end of the collected event. */
  function AfterHeard(st: Setting, w: World, v: F.World, i: nat, m: PeerMove): F.World
    requires SettingOk(st) && i < 2
  {
    if Collects(w, m) then Follow(st, w.core.feedback, w.core, v, i, Snapshots(m), Hears(m, i)) else v
  }

  /** Frames pass; in each of them the peer's own deadline does. */
  function Through(v: F.World, end: nat, start: nat): F.World
    decreases end - v.frame
  {
    if v.frame >= end then v else Through(F.Step(v, F.NextFrame, start), end, start)
  }

  /** A submitted packet is transmitted for the streams it sends; nothing of an attempt withdrawn before it was. */
  function Launched(c: Core, v: F.World, i: nat): F.World
    requires i < 2
  {
    var idle := v.(sent := None);
    if Sends(c, i).Some? then F.Step(idle, F.Transmit, StartOf(c, i)) else idle
  }

  predicate Goes(st: Setting, w: World, m: PeerMove)
    requires SettingOk(st)
  {
    m.move.Tick? && Opening(st, w, m.move.x).1
  }

  function PeerNext(st: Setting, w: World, v: F.World, i: nat, m: PeerMove): F.World
    requires SettingOk(st) && i < 2
  {
    var u, a := Moved(st, w, m.move).core, AfterHeard(st, w, v, i, m);
    if !Goes(st, w, m) then a
    else if u.phase == Transmitting then Launched(u, Through(a, u.active, StartOf(u, i)), i)
    else Through(a, u.next, StartOf(u, i))
  }

  function Next(st: Setting, s: Air, m: PeerMove): Air
    requires SettingOk(st) && |s.peers| == 2
  {
    Air(Moved(st, s.w, m.move), [PeerNext(st, s.w, s.peers[0], 0, m), PeerNext(st, s.w, s.peers[1], 1, m)])
  }

  // --------------------------------------------------------------------------
  // What every move keeps
  // --------------------------------------------------------------------------

  predicate StreamsOk(s: Streams) {
    (!s.committed ==> s.start == NoStart) && (s.confirmed ==> s.committed)
  }

  predicate Together(st: Setting, w: World, v: F.World, i: nat)
    requires SettingOk(st) && i < 2
  {
    Live(w.core) ==>
      !F.Heard(v) && w.core.next <= st.limit && StreamsOk(w.core.streams) &&
      if w.core.phase == Transmitting then Tracks(w.core.feedback, w.core, v, i)
      else v.ch == w.core.feedback.channels[i] && v.frame == w.core.next && v.sent.None? && F.InSync(v, StartOf(w.core, i))
  }

  /** A second stream that is committed now starts after the frames passed so far. */
  predicate JoinAhead(w: World, j: Join) {
    var s := Advance(w.core.streams, j).0;
    s.committed && !w.core.streams.committed ==> s.start > w.core.next
  }

  /** What is asked of the collected event: in time, no snapshots of an event that never was on air, fair peers. */
  predicate Sound(st: Setting, s: Air, m: PeerMove)
    requires SettingOk(st) && |s.peers| == 2
  {
    MoveTimely(s.w, m.move) && (m.move.Tick? ==> JoinAhead(s.w, m.move.x.join)) &&
    (Collects(s.w, m) ==>
      (m.move.x.collected.receipt.aired || m.move.x.collected.receipt.snapshots == []) &&
      Fair(st, s.w.core.feedback, s.w.core, s.peers[0], 0, Snapshots(m), Hears(m, 0)) &&
      Fair(st, s.w.core.feedback, s.w.core, s.peers[1], 1, Snapshots(m), Hears(m, 1)))
  }

  /** Before its start a stream is in sync with any other start that is still ahead. */
  lemma StartMoves(v: F.World, before: nat, after: nat)
    requires F.InSync(v, before) && v.frame < before && v.frame < after && v.sent.None?
    ensures F.InSync(v, after)
  {
  }

  lemma StreamsMove(w: World, v: F.World, i: nat, j: Join)
    requires i < 2 && F.InSync(v, StartOf(w.core, i)) && StreamsOk(w.core.streams) && JoinAhead(w, j)
    requires v.frame <= w.core.next < NoStart && (v.sent.Some? ==> v.frame >= StartOf(w.core, i))
    ensures var s := Advance(w.core.streams, j).0; var c := w.core.(streams := s);
      StreamsOk(s) && F.InSync(v, StartOf(c, i)) && (v.sent.Some? ==> v.frame >= StartOf(c, i))
  {
    hide F.InSync;
    var s := Advance(w.core.streams, j).0;
    if i == 1 && s.start != w.core.streams.start { StartMoves(v, w.core.streams.start, s.start); }
  }

  lemma {:induction false} ThroughKeeps(v: F.World, end: nat, start: nat)
    requires F.InSync(v, start) && v.frame <= end
    ensures var u := Through(v, end, start);
      F.InSync(u, start) && u.frame == end && u.ch == v.ch && (v.frame < end ==> u.sent.None?) && (v.frame == end ==> u == v)
    decreases end - v.frame
  {
    hide F.InSync;
    if v.frame < end {
      F.NextFrameKeeps(v, start);
      ThroughKeeps(F.Step(v, F.NextFrame, start), end, start);
    }
  }

  /** Between the two parts of a step: the peer is at the last frame, or at one that is tried again. */
  predicate Between(st: Setting, o: World, a: F.World, i: nat)
    requires SettingOk(st) && i < 2
  {
    a.ch == o.core.feedback.channels[i] && F.InSync(a, StartOf(o.core, i)) && a.frame <= o.core.next <= st.limit &&
    (a.frame == o.core.next ==> !F.Heard(a)) && StreamsOk(o.core.streams) && (a.sent.Some? ==> a.frame >= StartOf(o.core, i))
  }

  lemma LaunchTogether(st: Setting, u: World, b: F.World, i: nat)
    requires SettingOk(st) && i < 2 && FlightInv(u) && u.core.phase == Transmitting && Carries(u.core, u.flight.packet, u.core.active)
    requires b.ch == u.core.feedback.channels[i] && F.InSync(b, StartOf(u.core, i)) && b.frame == u.core.active && !F.Heard(b)
    requires u.core.next <= st.limit && StreamsOk(u.core.streams)
    ensures Together(st, u, Launched(u.core, b, i), i)
  {
    hide F.Predict;
    MaskBits();
  }

  lemma MaskBits()
    ensures A.HasBit(2, 1) && !A.HasBit(2, 2) && A.HasBit(6, 1) && A.HasBit(6, 2)
  {
  }

  lemma ClosingTogether(st: Setting, o: World, a: F.World, i: nat, x: Input)
    requires SettingOk(st) && i < 2 && Between(st, o, a, i) && Seeking(st, o) && JoinAhead(o, x.join)
    ensures var u := Closing(st, o, x); var start := StartOf(u.core, i);
      Together(st, u, if u.core.phase == Transmitting then Launched(u.core, Through(a, u.core.active, start), i)
                      else Through(a, u.core.next, start), i)
  {
    hide Closing, F.InSync, Seeking, F.Predict, Inv, Advance, Carries, Tracks, Launched, FlightInv, Through;
    var u := Closing(st, o, x);
    if Live(u.core) {
      ClosingCarries(st, o, x);
      ClosingKeeps(st, o, x);
      StreamsMove(o, a, i, x.join);
      var start := StartOf(u.core, i);
      if u.core.phase == Transmitting {
        ThroughKeeps(a, u.core.active, start);
        InvFlight(st, u);
        HeardPast(a, Through(a, u.core.active, start), start);
        LaunchTogether(st, u, Through(a, u.core.active, start), i);
      } else {
        ThroughKeeps(a, u.core.next, start);
        HeardPast(a, Through(a, u.core.next, start), start);
      }
    }
  }

  lemma HeardPast(a: F.World, b: F.World, start: nat)
    requires F.InSync(a, start) && b.ch == a.ch && a.frame <= b.frame && (a.frame == b.frame ==> !F.Heard(a))
    ensures !F.Heard(b)
  {
  }

  lemma SnapshotsAre(m: PeerMove)
    requires m.move.Tick? && m.move.x.collected.Done?
    ensures Snapshots(m) == FirstThree(m.move.x.collected.receipt.snapshots)
  {
  }

  lemma CollectedBetween(st: Setting, s: Air, i: nat, m: PeerMove)
    requires SettingOk(st) && i < 2 && |s.peers| == 2 && Inv(st, s.w) && Together(st, s.w, s.peers[i], i) && Sound(st, s, m)
    requires Collects(s.w, m)
    ensures var (o, more) := Opening(st, s.w, m.move.x);
      if more then Between(st, o, AfterHeard(st, s.w, s.peers[i], i, m), i) && o.core.streams == s.w.core.streams && o.core.next <= s.w.core.next
      else !Live(o.core)
  {
    var w, v, x := s.w, s.peers[i], m.move.x;
    var r := x.collected.receipt;
    SnapshotsAre(m);
    hide HearAll, FirstThree, Snapshots, Inv, Tracks, F.InSync, Follow, Fair, Hears, Sends;
    assert Fair(st, w.core.feedback, w.core, v, i, Snapshots(m), Hears(m, i));
    HearAllFollows(st, w.core.feedback, w.core, v, i, Snapshots(m), Hears(m, i));
    var a := AfterHeard(st, w, v, i, m);
    TracksMeans(HearAll(st, w.core.feedback, w.core, Snapshots(m)), w.core, a, i);
    if StopAfter(w.core, r).None? {
      InvFlight(st, w);
      InFlight(w);
      if Retriable(r) && Usable(w.core.hs, x.retryNow, x.minimum) {
        RetriedIff(st, w, r, x);
        assert r.snapshots == [] && FirstThree(r.snapshots) == [] by { NoneOfThree(r.snapshots); }
        assert a == v by { NothingFollows(st, w.core.feedback, w.core, v, i, Hears(m, i)); }
      }
    }
    hide Usable, Retriable, StopAfter;
  }

  lemma NoneOfThree(rx: seq<F.Snapshot>)
    ensures rx == [] ==> FirstThree(rx) == []
  {
  }

  lemma NothingFollows(st: Setting, fb: Feedback, c: Core, v: F.World, i: nat, hears: nat -> seq<F.Event>)
    requires SettingOk(st) && i < 2
    ensures Follow(st, fb, c, v, i, [], hears) == v
  {
  }

  lemma TracksMeans(fb: Feedback, c: Core, v: F.World, i: nat)
    requires i < 2 && Tracks(fb, c, v, i)
    ensures v.ch == fb.channels[i] && v.frame == c.active && F.InSync(v, StartOf(c, i)) && (v.sent.Some? ==> v.frame >= StartOf(c, i))
  {
  }

  lemma PendingTogether(st: Setting, s: Air, i: nat, x: Input)
    requires SettingOk(st) && i < 2 && |s.peers| == 2 && Inv(st, s.w) && Together(st, s.w, s.peers[i], i) && JoinAhead(s.w, x.join)
    requires s.w.core.phase == Transmitting && !x.collected.Done?
    ensures var (o, more) := Opening(st, s.w, x); !more && Together(st, o, s.peers[i], i)
  {
    var w := s.w;
    InvFlight(st, w);
    InFlight(w);
    hide Inv, F.InSync, Advance;
    StreamsMove(w, s.peers[i], i, x.join);
    var t := Advance(w.core.streams, x.join).0;
    assert Sends(w.core.(streams := t), i) == Sends(w.core, i);
    assert forall c: Core :: c.caches == w.core.caches && c.active == w.core.active ==> Sends(c, i) == Sends(w.core, i);
    hide Sends, JoinAhead;
  }

  /** The first part of a step. */
  lemma OpeningTogether(st: Setting, s: Air, i: nat, m: PeerMove)
    requires SettingOk(st) && i < 2 && |s.peers| == 2 && Inv(st, s.w) && Together(st, s.w, s.peers[i], i) && Sound(st, s, m)
    requires m.move.Tick? && Live(s.w.core)
    ensures var (o, more) := Opening(st, s.w, m.move.x); var a := AfterHeard(st, s.w, s.peers[i], i, m);
      if more then Between(st, o, a, i) && o.core.streams == s.w.core.streams && o.core.next <= s.w.core.next else Together(st, o, a, i)
  {
    hide Between, Together, Opening, Inv, Sound;
    var w, v, x := s.w, s.peers[i], m.move.x;
    if Collects(w, m) {
      CollectedBetween(st, s, i, m);
      if !Opening(st, w, x).1 { OverTogether(st, Opening(st, w, x).0, AfterHeard(st, w, v, i, m), i); }
    } else if w.core.phase == Transmitting {
      SoundMeans(st, s, m);
      PendingTogether(st, s, i, x);
    } else {
      WaitingTogether(st, s, i, m);
    }
  }

  lemma SoundMeans(st: Setting, s: Air, m: PeerMove)
    requires SettingOk(st) && |s.peers| == 2 && Sound(st, s, m) && m.move.Tick?
    ensures JoinAhead(s.w, m.move.x.join) && Timely(s.w, m.move.x)
  {
  }

  lemma OverTogether(st: Setting, w: World, v: F.World, i: nat)
    requires SettingOk(st) && i < 2 && !Live(w.core)
    ensures Together(st, w, v, i)
  {
  }

  lemma WaitingTogether(st: Setting, s: Air, i: nat, m: PeerMove)
    requires SettingOk(st) && i < 2 && |s.peers| == 2 && Together(st, s.w, s.peers[i], i) && m.move.Tick? && s.w.core.phase == WaitE2
    ensures var (o, more) := Opening(st, s.w, m.move.x);
      if more then Between(st, o, s.peers[i], i) && o.core.streams == s.w.core.streams && o.core.next == s.w.core.next else Together(st, o, s.peers[i], i)
  {
    hide F.InSync, Usable;
  }

  /** Every move keeps the scheduler and both peers together. */
  lemma NextKeeps(st: Setting, s: Air, i: nat, m: PeerMove)
    requires SettingOk(st) && i < 2 && |s.peers| == 2 && Inv(st, s.w) && Together(st, s.w, s.peers[i], i) && Sound(st, s, m)
    ensures Together(st, Next(st, s, m).w, Next(st, s, m).peers[i], i)
  {
    var w, v := s.w, s.peers[i];
    match m.move
    case Tick(x) =>
      if Live(w.core) {
        OpeningTogether(st, s, i, m);
        OpeningKeeps(st, w, x);
        hide Inv, Opening, Between, Together, Closing, AfterHeard, Through, Launched, Seeking;
        var (o, more) := Opening(st, w, x);
        if more {
          assert JoinAhead(o, x.join);
          ClosingTogether(st, o, AfterHeard(st, w, v, i, m), i, x);
        }
      } else {
        hide Together, Closing;
        StaysOver(st, w, x);
        assert !Live(Step(st, w, x).core);
      }
    case Stop =>
      assert Sends(w.core.(cancel := true), i) == Sends(w.core, i);
      hide F.InSync, Inv, Sends;
    case Audio(frames) => hide F.InSync, Inv, Sends;
  }

  lemma StaysOver(st: Setting, w: World, x: Input)
    requires SettingOk(st) && !Live(w.core)
    ensures Step(st, w, x) == w
  {
  }

  // --------------------------------------------------------------------------
  // Runs
  // --------------------------------------------------------------------------

  function AirRun(st: Setting, s: Air, moves: seq<PeerMove>): (t: Air)
    requires SettingOk(st) && |s.peers| == 2
    ensures |t.peers| == 2
  {
    if moves == [] then s else Next(st, AirRun(st, s, moves[..|moves| - 1]), moves[|moves| - 1])
  }

  predicate AllSound(st: Setting, s: Air, moves: seq<PeerMove>)
    requires SettingOk(st) && |s.peers| == 2
  {
    moves != [] ==>
      AllSound(st, s, moves[..|moves| - 1]) && Sound(st, AirRun(st, s, moves[..|moves| - 1]), moves[|moves| - 1])
  }

  /** Neither stream has begun: nothing is expected of frame 0. */
  const Unheard := F.World(0, F.NoFeedback.channels[0], 0, false, 0, None)

  function AirBegin(st: Setting, pushed: seq<Q.Frame>, x: Finding): (s: Air)
    requires SettingOk(st)
    ensures |s.peers| == 2
  {
    Air(Begin(st, pushed, x), [Unheard, Unheard])
  }

  lemma BeginTogether(st: Setting, pushed: seq<Q.Frame>, x: Finding, i: nat)
    requires SettingOk(st) && i < 2
    ensures Inv(st, Begin(st, pushed, x)) && Together(st, Begin(st, pushed, x), Unheard, i)
  {
    BeginHolds(st, pushed, x);
    hide Inv, ParentFor, DemandFor, P.Prepare, P.NotRefused;
  }

  lemma {:induction false} AirKeeps(st: Setting, pushed: seq<Q.Frame>, x: Finding, moves: seq<PeerMove>, i: nat)
    requires SettingOk(st) && i < 2 && AllSound(st, AirBegin(st, pushed, x), moves)
    ensures var s := AirRun(st, AirBegin(st, pushed, x), moves); Inv(st, s.w) && Together(st, s.w, s.peers[i], i)
    decreases |moves|
  {
    BeginTogether(st, pushed, x, i);
    if moves != [] {
      hide Inv, Together, Begin, Moved, PeerNext, MoveTimely, JoinAhead, Collects;
      AirKeeps(st, pushed, x, moves[..|moves| - 1], i);
      var s, m := AirRun(st, AirBegin(st, pushed, x), moves[..|moves| - 1]), moves[|moves| - 1];
      MovedKeeps(st, s.w, m.move);
      NextKeeps(st, s, i, m);
    }
  }

  /**
   In every run with fair peers, whatever is skipped, refused, cancelled, lost or heard in either window: the packet in
   flight carries, for each stream it sends, the sequence that stream's peer expected when the frame began; and once
   its replies are in, the next frame is predicted at the value the peer will then expect.
   */
  lemma PacketsAreExpected(st: Setting, pushed: seq<Q.Frame>, x: Finding, moves: seq<PeerMove>, i: nat)
    requires SettingOk(st) && i < 2 && AllSound(st, AirBegin(st, pushed, x), moves)
    requires AirRun(st, AirBegin(st, pushed, x), moves).w.core.phase == Transmitting
    ensures var s := AirRun(st, AirBegin(st, pushed, x), moves); var c, e, v := s.w.core, s.w.flight.packet, s.peers[i];
      e.index == c.active == v.frame && (!e.built.receive && A.HasBit(e.v.mask, i + 1) ==> e.v.tx[i] == v.base % 16)
  {
    hide AirRun, AirBegin, F.InSync, AllSound;
    AirKeeps(st, pushed, x, moves, i);
    var s := AirRun(st, AirBegin(st, pushed, x), moves);
    InvFlight(st, s.w);
    assert F.InSync(s.peers[i], StartOf(s.w.core, i));
    SentIsBase(s.peers[i], StartOf(s.w.core, i));
    hide Inv;
  }

  lemma SentIsBase(v: F.World, start: nat)
    requires F.InSync(v, start)
    ensures v.sent.Some? ==> v.sent.value == v.base % 16
  {
  }

  /** After a collected event that lets the trial go on, both streams are predicted as their peers will expect. */
  lemma CollectedPredicts(st: Setting, pushed: seq<Q.Frame>, x: Finding, moves: seq<PeerMove>, m: PeerMove, i: nat)
    requires SettingOk(st) && i < 2 && AllSound(st, AirBegin(st, pushed, x), moves)
    requires var s := AirRun(st, AirBegin(st, pushed, x), moves);
      Sound(st, s, m) && Collects(s.w, m) && Opening(st, s.w, m.move.x).1
    ensures var s := AirRun(st, AirBegin(st, pushed, x), moves); var o := Opening(st, s.w, m.move.x).0.core;
      var v := AfterHeard(st, s.w, s.peers[i], i, m);
      v.frame == s.w.core.active &&
      Predicted(o, s.w.core.active + 1)[i] == F.ExpectedNext(v, StartOf(s.w.core, i)) % 16
  {
    hide AirRun, AirBegin, F.InSync, AllSound, Opening, Inv, Sound, F.Predict, F.ExpectedNext, Tracks, Follow, Fair, Sends;
    AirKeeps(st, pushed, x, moves, i);
    var s := AirRun(st, AirBegin(st, pushed, x), moves);
    CollectedBetween(st, s, i, m);
    var v := AfterHeard(st, s.w, s.peers[i], i, m);
    F.PredictsNext(v, StartOf(s.w.core, i));
    FairMeans(st, s, m, i);
    HearAllFollows(st, s.w.core.feedback, s.w.core, s.peers[i], i, Snapshots(m), Hears(m, i));
    TracksMeans(HearAll(st, s.w.core.feedback, s.w.core, Snapshots(m)), s.w.core, v, i);
  }

  lemma FairMeans(st: Setting, s: Air, m: PeerMove, i: nat)
    requires SettingOk(st) && i < 2 && |s.peers| == 2 && Sound(st, s, m) && Collects(s.w, m)
    ensures Fair(st, s.w.core.feedback, s.w.core, s.peers[i], i, Snapshots(m), Hears(m, i))
  {
    hide Fair;
  }
}
