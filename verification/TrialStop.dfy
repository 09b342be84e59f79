/**
 A trial that is stopped while its first event is in flight (tone_trial.c): the event is reported as
 cancelled, and the frame counters no longer balance.
 */
module TrialStop {
  import opened Words
  import A = AirFrame
  import S = AirSession
  import C = ChannelSelection
  import F = AirFeedback
  import Q = AudioQueue
  import P = PacketCache
  import opened T = Trial

  const Message: seq<Byte> := seq(68, i => if i == 0 then 0xe2 else if 19 <= i < 23 then 0xff else if i == 23 then 0x1f else 0)

  /** A session with every channel in use, silent records, four zero bytes as each packet's authentication, and ten frames. */
  const Plain := Setting(
    P.Session(S.Plan(0, 0, 0, 0, 1, 0, Message), (aad: Byte, c: seq<Byte>) => Some(c + [0, 0, 0, 0]), (n: int) => seq(95, i => 0)),
    (header: Byte, c: seq<Byte>) => None, 10)

  /** The parent has an empty packet, and no audio arrives. */
  const Quiet := Finding(Some(P.NoParent), None, [])

  lemma FullBit(map5: seq<Byte>, i: nat)
    requires map5 == [0xff, 0xff, 0xff, 0xff, 0x1f] && i < 37
    ensures S.MapBit(map5, i) == 1
  {
    assert map5[i / 8] == (if i < 32 then 0xff else 0x1f);
  }

  lemma ChannelFound(index: nat)
    ensures P.ChannelAt(Plain.se.plan, index).Some?
  {
    var map5 := Message[19..24];
    assert map5 == [0xff, 0xff, 0xff, 0xff, 0x1f];
    hide S.MapBit, C.ChannelIndex, C.UsedList;
    forall i: nat | i < 37 ensures S.MapBit(map5, i) == 1 { FullBit(map5, i); }
    C.FullList(map5, 37);
  }

  lemma PlainCoding()
    ensures P.GoodCoding(Plain.se)
  {
  }

  /** The first frame of this session can be built, and starts where it was planned. */
  lemma FirstBuilds(v: P.Vector)
    requires v.mask == 2
    ensures P.Fresh(Plain.se, 0, v, None).Some? && P.Fresh(Plain.se, 0, v, None).value.receive &&
            P.Fresh(Plain.se, 0, v, None).value.hs == PlannedHs(Plain, 0)
  {
    ChannelFound(0);
    PlainCoding();
    assert Plain.se.plan.e2[0] == 0xe2;
    hide P.ChannelAt, P.Fresh, P.Later, S.SessionTime, Plain, P.GoodCoding;
    P.FreshIff(Plain.se, 0, v, None);
    P.FreshTime(Plain.se, 0, v, None);
  }

  lemma PrepareSucceeds(se: P.Session, c: P.Caches, f: Queue, d: P.Demand)
    requires P.SessionOk(se) && d.index == 0 && d.v.mask == 2 && P.Fresh(se, 0, d.v, None).Some?
    ensures P.Prepare(se, c, f, d).2
  {
    hide P.Fresh, P.Cached;
  }

  lemma FirstSucceeds(w: World)
    requires AudioInv(Plain, w) && !w.core.streams.confirmed
    ensures PrepareFrame(Plain, w, 0, Quiet).1
  {
    var d := DemandFor(w.core, 0, P.NoParent);
    FirstBuilds(d.v);
    PrepareSucceeds(Plain.se, w.core.caches, Arrive(w.fifo, []), d);
    hide P.Fresh, PlannedHs, P.CacheInv, P.Prepare, DemandFor;
  }

  /** Before the second stream is on, the first frame is always prepared, and starts where it was planned. */
  lemma FirstPrepares(w: World)
    requires AudioInv(Plain, w) && !w.core.streams.confirmed && w.core.next == 0
    ensures var (v, ok) := PrepareFrame(Plain, w, 0, Quiet);
      ok && PreparedWell(Plain, w, v, 0) && PreparedHs(v) == PlannedHs(Plain, 0) && v.core.caches.prepared[0].built.receive
  {
    FirstSucceeds(w);
    assert w.fifo.history == [];
    PrepareKeeps(Plain, w, 0, Quiet);
    PrepareLeaves(Plain, w, 0, Quiet);
    var v := PrepareFrame(Plain, w, 0, Quiet).0;
    hide PrepareFrame, P.Fresh, PlannedHs, Latched, Askable;
    var e := v.core.caches.prepared[0];
    assert P.EntryOk(Plain.se, v.fifo.history, e);
    FirstBuilds(e.v);
  }

  /** The stream is confirmed, the first frame is in reach, and its event is not refused. */
  const Start := Input(
    true, 10, 0, Pending, Join(false, 0x0c, false, false, 0, 0, false), 0, false,
    n => PlannedHs(Plain, 0) + S.CLOCK - 100, n => PlannedHs(Plain, 0) + S.CLOCK - 100, n => Quiet, 0)

  /** The event is collected as cancelled, never on air. */
  const Cancelling := Start.(collected := Done(Receipt(Dropped, 0, false, [], false)))

  lemma HundredAhead(hs: int)
    requires 0 <= hs < S.CLOCK
    ensures Lead(hs, hs + S.CLOCK - 100) == 100
  {
  }

  lemma FirstSubmitted(v: World)
    requires v.core.next == 0 && v.core.caches.prepared[0].built.receive
    ensures Submit(Plain, v, Start).core.phase == Transmitting && Submit(Plain, v, Start).drops == v.drops
  {
    hide ParentFor, DemandFor, P.Prepare, P.Guess, ReplyChannel, Lead, P.NotRefused;
  }

  /** From the start of the trial, one step puts the first frame in flight. */
  lemma FirstFlies(w: World)
    requires Inv(Plain, w) && w.core.phase == WaitE2 && !w.core.cancel && w.core.next == 0 && w.core.streams == NoStreams && w.drops == []
    ensures var v := Step(Plain, w, Start); v.core.phase == Transmitting && v.drops == [] && Inv(Plain, v)
  {
    var o := w.(core := w.core.(first := true));
    assert Opening(Plain, w, Start) == (o, true);
    StepKeeps(Plain, w, Start);
    OpeningKeeps(Plain, w, Start);
    HundredAhead(PlannedHs(Plain, 0));
    var v := PrepareFrame(Plain, o, 0, Quiet).0;
    hide Inv, PlannedHs, Lead, Step, Opening, Seeking;
    assert AudioInv(Plain, o) && Seeking(Plain, o) by { hide AudioInv; }
    FirstPrepares(o);
    assert Seek(Plain, o, Start, false) == (v, Found) by { hide PrepareFrame, AudioInv; }
    hide PrepareFrame, AudioInv, Seek;
    FirstSubmitted(v);
    hide Submit;
    assert Step(Plain, w, Start) == Submit(Plain, v, Start);
  }

  lemma BeginIs()
    ensures var w := Begin(Plain, [], Quiet);
      Inv(Plain, w) && w.core.phase == WaitE2 && !w.core.cancel && w.core.next == 0 && w.core.streams == NoStreams && w.drops == []
  {
    BeginHolds(Plain, [], Quiet);
    hide Inv, ParentFor, DemandFor, P.Prepare, P.NotRefused;
  }

  lemma RunMore(st: Setting, w: World, moves: seq<Move>, m: Move)
    requires SettingOk(st)
    ensures Run(st, w, moves + [m]) == Moved(st, Run(st, w, moves), m)
    ensures AllTimely(st, w, moves + [m]) == (AllTimely(st, w, moves) && MoveTimely(Run(st, w, moves), m))
  {
    hide Moved, MoveTimely;
    assert (moves + [m])[..|moves|] == moves;
  }

  lemma RunThree(st: Setting, w: World, a: Move, b: Move, c: Move, moves: seq<Move>)
    requires SettingOk(st) && moves == [] + [a] + [b] + [c]
    ensures var u := Moved(st, w, a); var v := Moved(st, u, b);
      Run(st, w, moves) == Moved(st, v, c) &&
      (AllTimely(st, w, moves) <==> MoveTimely(w, a) && MoveTimely(u, b) && MoveTimely(v, c))
  {
    assert Run(st, w, []) == w && AllTimely(st, w, []);
    hide Moved, MoveTimely, Run, AllTimely;
    RunMore(st, w, [], a);
    RunMore(st, w, [] + [a], b);
    RunMore(st, w, [] + [a] + [b], c);
  }

  lemma StopEnds(st: Setting, v: World, x: Input, txCount: nat)
    requires SettingOk(st) && v.core.phase == Transmitting && v.drops == [] && v.core.cancel
    requires x.collected == Done(Receipt(Dropped, txCount, false, [], false))
    ensures var u := Step(st, v, x); u.core.phase != Transmitting && u.drops == [Drop(txCount, true)]
  {
    hide HearAll, Closing;
    assert [] + [Drop(txCount, true)] == [Drop(txCount, true)];
  }

  /** Stopped with its first event in flight: when that is reported as cancelled, the counters are one apart. */
  lemma StopReported(st: Setting, v: World, x: Input, txCount: nat)
    requires SettingOk(st) && Inv(st, v) && v.core.phase == Transmitting && v.drops == []
    requires x.collected == Done(Receipt(Dropped, txCount, false, [], false))
    ensures var s := Moved(st, v, Stop); var u := Moved(st, s, Tick(x));
      MoveTimely(s, Tick(x)) && Inv(st, u) && u.core.phase != Transmitting && u.drops == [Drop(txCount, true)]
  {
    hide Inv, Step;
    var s := Moved(st, v, Stop);
    assert MoveTimely(v, Stop) && MoveTimely(s, Tick(x));
    MovedKeeps(st, v, Stop);
    MovedKeeps(st, s, Tick(x));
    StopEnds(st, s, x, txCount);
  }

  const StopInFlight: seq<Move> := [] + [Tick(Start)] + [Stop] + [Tick(Cancelling)]

  /**
   One frame is submitted, the trial is stopped while it is in flight, and its event is reported as cancelled: the run
   keeps to its times, and yet frames passed and cancelled reports exceed submissions and skips.
   */
  lemma StoppedRunMiscounts()
    ensures AllTimely(Plain, Begin(Plain, [], Quiet), StopInFlight)
    ensures var w := Run(Plain, Begin(Plain, [], Quiet), StopInFlight);
      w.drops == [Drop(0, true)] && w.core.next + |w.drops| > w.core.submitted + w.core.skipped
  {
    BeginIs();
    FirstFlies(Begin(Plain, [], Quiet));
    StopMiscounts(Plain, Begin(Plain, [], Quiet), Start, Cancelling, StopInFlight);
  }

  lemma StopMiscounts(st: Setting, w: World, first: Input, x: Input, moves: seq<Move>)
    requires SettingOk(st) && moves == [] + [Tick(first)] + [Stop] + [Tick(x)] && MoveTimely(w, Tick(first))
    requires x.collected == Done(Receipt(Dropped, 0, false, [], false))
    requires var v := Step(st, w, first); Inv(st, v) && v.core.phase == Transmitting && v.drops == []
    ensures AllTimely(st, w, moves)
    ensures var u := Run(st, w, moves); u.drops == [Drop(0, true)] && u.core.next + |u.drops| > u.core.submitted + u.core.skipped
  {
    RunThree(st, w, Tick(first), Stop, Tick(x), moves);
    var v := Step(st, w, first);
    assert v == Moved(st, w, Tick(first)) && MoveTimely(v, Stop);
    hide Moved, Run, AllTimely, MoveTimely, Step;
    StopReported(st, v, x, 0);
    Counts(st, Run(st, w, moves));
  }

  lemma Counts(st: Setting, u: World)
    requires SettingOk(st) && Inv(st, u)
    ensures u.drops == [Drop(0, true)] ==> u.core.next + |u.drops| > u.core.submitted + u.core.skipped
  {
    hide AudioInv, FlightInv, LogInv, Askable;
    UnusedMore([], Drop(0, true));
    assert [] + [Drop(0, true)] == [Drop(0, true)];
    assert Unused([]) == 0;
    hide Unused;
  }
}
