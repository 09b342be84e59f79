/**
 How a trial ends (tone_trial.c): finished only with every frame passed and both streams joined, cancelled only on
 request, and at the first opportunity after one; how often the parent's packets are carried.
 */
module TrialEnd {
  import opened Words
  import F = AirFeedback
  import Q = AudioQueue
  import P = PacketCache
  import opened T = Trial

  /** What the end, and the request for it, say about the trial. */
  predicate EndInv(st: Setting, c: Core, asked: bool) {
    c.next <= st.limit && (c.phase == Finished ==> c.next == st.limit && c.streams.committed && c.reason == 0) &&
    (c.phase == T.Cancelled ==> asked && c.reason == 0) && (c.phase == Failed || c.phase == Fault ==> c.reason != 0) &&
    (c.cancel ==> asked || c.failure != 0) && (c.phase == WaitE2 ==> c.failure == 0) && (c.failure != 0 ==> c.cancel) &&
    (c.streams.confirmed ==> c.streams.committed) && (c.submitted > 0 || c.phase == Transmitting ==> c.first)
  }

  lemma PrepareSame(st: Setting, w: World, index: nat, x: Finding)
    requires SettingOk(st)
    ensures var v := PrepareFrame(st, w, index, x).0; v.core == w.core.(caches := v.core.caches)
  {
    hide ParentFor, DemandFor, P.Prepare, P.NotRefused;
  }

  lemma GuessesSame(st: Setting, w: World, index: nat)
    requires SettingOk(st)
    ensures var v := PrepareGuesses(st, w, index).0; v.core == w.core.(caches := v.core.caches)
  {
    hide P.Guess, P.NotRefused;
  }

  lemma {:induction false} SeekEnds(st: Setting, w: World, x: Input, hasty: bool)
    requires SettingOk(st) && w.core.next <= st.limit
    ensures var (v, search) := Seek(st, w, x, hasty);
      v.core == w.core.(caches := v.core.caches, next := v.core.next, skipped := v.core.skipped) && v.core.next <= st.limit &&
      (search.Exhausted? ==> v.core.next == st.limit) && (search.Found? ==> v.core.next < st.limit)
    decreases st.limit - w.core.next
  {
    var n := w.core.next;
    hide InReach, Lead, PlannedHs, PrepareFrame;
    if n < st.limit {
      if !InReach(Lead(PlannedHs(st, n), x.before(n)), x.minimum + (if hasty then 0 else 1)) {
        SeekEnds(st, Skip(w), x, false);
      } else {
        var (v, ok) := PrepareFrame(st, w, n, x.finding(n));
        PrepareSame(st, w, n, x.finding(n));
        if ok && !InReach(Lead(PreparedHs(v), x.after(n)), x.minimum) { SeekEnds(st, Skip(v), x, false); }
      }
    }
  }

  lemma SubmitEnds(st: Setting, w: World, x: Input, asked: bool)
    requires SettingOk(st) && EndInv(st, w.core, asked) && w.core.next < st.limit && Live(w.core) && w.core.failure == 0 && w.core.first
    ensures EndInv(st, Submit(st, w, x).core, asked)
  {
    hide PrepareFrame, PrepareGuesses, ReplyChannel, Lead;
    var t := Accepted(Chosen(w), x.after(w.core.next));
    var n := t.core.next;
    var u := PrepareFrame(st, t, n, x.finding(n)).0;
    PrepareSame(st, t, n, x.finding(n));
    GuessesSame(st, u, n);
  }

  lemma FinishEnds(st: Setting, w: World, phase: Phase, reason: nat, asked: bool)
    requires SettingOk(st) && EndInv(st, w.core, asked) && !(phase == WaitE2 || phase == Transmitting)
    requires phase == Finished ==> w.core.next == st.limit && w.core.streams.committed
    requires (phase == Finished || phase == T.Cancelled) <==> reason == 0
    requires phase == T.Cancelled ==> asked
    ensures EndInv(st, Finish(w, phase, reason).core, asked)
  {
  }

  lemma StreamsEnd(st: Setting, w: World, j: Join, asked: bool)
    requires SettingOk(st) && EndInv(st, w.core, asked) && Live(w.core)
    ensures EndInv(st, WithStreams(w, Advance(w.core.streams, j).0).core, asked)
  {
  }

  lemma ClosingEnds(st: Setting, w: World, x: Input, asked: bool)
    requires SettingOk(st) && EndInv(st, w.core, asked) && Live(w.core) && w.core.failure == 0 && w.core.first
    ensures EndInv(st, Closing(st, w, x).core, asked)
  {
    var (s, error) := Advance(w.core.streams, x.join);
    StreamsEnd(st, w, x.join, asked);
    var j := WithStreams(w, s);
    hide Advance, Seek, Submit, Finish;
    SeekEnds(st, j, x, x.hasty);
    var (v, search) := Seek(st, j, x, x.hasty);
    assert EndInv(st, v.core, asked);
    if error != 0 {
      FinishEnds(st, j, Failed, error, asked);
    } else {
      FinishEnds(st, v, Failed, 5, asked);
      FinishEnds(st, v, Failed, 12, asked);
      if search.Exhausted? && v.core.streams.committed { FinishEnds(st, v, Finished, 0, asked); }
      if search.Found? { SubmitEnds(st, v, x, asked); }
    }
    hide EndInv;
  }

  lemma CollectedEnds(st: Setting, w: World, r: Receipt, x: Input, asked: bool)
    requires SettingOk(st) && EndInv(st, w.core, asked) && w.core.phase == Transmitting && w.core.next == w.core.active + 1
    ensures var (v, more) := AfterEvent(st, w, r, x); EndInv(st, v.core, asked) && (more ==> Live(v.core) && v.core.failure == 0 && v.core.first)
  {
    hide HearAll, FirstThree, Usable, Retriable;
    if StopAfter(w.core, r).Some? {
      FinishEnds(st, Noted(w, r), StopAfter(w.core, r).value.0, StopAfter(w.core, r).value.1, asked);
    }
    hide Finish;
  }

  lemma OpeningEnds(st: Setting, w: World, x: Input, asked: bool)
    requires SettingOk(st) && EndInv(st, w.core, asked) && FlightInv(w)
    ensures var (v, more) := Opening(st, w, x); EndInv(st, v.core, asked) && (more ==> Live(v.core) && v.core.failure == 0 && v.core.first)
  {
    hide AfterEvent, Usable;
    if w.core.phase == Transmitting {
      InFlight(w);
      if x.collected.Done? { CollectedEnds(st, w, x.collected.receipt, x, asked); }
      StreamsEnd(st, w, x.join, asked);
    }
    hide FlightInv;
  }

  lemma MovedEnds(st: Setting, w: World, m: Move, asked: bool)
    requires SettingOk(st) && EndInv(st, w.core, asked) && FlightInv(w)
    ensures EndInv(st, Moved(st, w, m).core, asked || m.Stop?)
  {
    match m
    case Tick(x) =>
      hide Opening, Closing, FlightInv, EndInv, Live;
      OpeningEnds(st, w, x, asked);
      var (v, more) := Opening(st, w, x);
      if more { ClosingEnds(st, v, x, asked); }
    case Stop =>
    case Audio(frames) =>
  }

  lemma BeginEnds(st: Setting, pushed: seq<Q.Frame>, x: Finding)
    requires SettingOk(st)
    ensures EndInv(st, Begin(st, pushed, x).core, false)
  {
    hide ParentFor, DemandFor, P.Prepare, P.NotRefused;
  }

  lemma {:induction false} RunEnds(st: Setting, pushed: seq<Q.Frame>, x: Finding, moves: seq<Move>)
    requires SettingOk(st) && AllTimely(st, Begin(st, pushed, x), moves)
    ensures EndInv(st, Run(st, Begin(st, pushed, x), moves).core, Stop in moves)
    ensures Inv(st, Run(st, Begin(st, pushed, x), moves))
    decreases |moves|
  {
    hide EndInv, Inv, Moved, Begin, MoveTimely;
    BeginEnds(st, pushed, x);
    BeginHolds(st, pushed, x);
    if moves != [] {
      var before, m := moves[..|moves| - 1], moves[|moves| - 1];
      RunEnds(st, pushed, x, before);
      var w := Run(st, Begin(st, pushed, x), before);
      InvFlight(st, w);
      MovedEnds(st, w, m, Stop in before);
      MovedKeeps(st, w, m);
      assert moves == before + [m];
      assert (Stop in moves) == (Stop in before || m.Stop?);
    }
  }

  /**
   In every run: a trial that finished has passed every frame and joined the second stream, a cancelled one was asked to
   stop, and any other end has its reason.
   */
  lemma EndsMean(st: Setting, pushed: seq<Q.Frame>, x: Finding, moves: seq<Move>)
    requires SettingOk(st) && AllTimely(st, Begin(st, pushed, x), moves)
    ensures var c := Run(st, Begin(st, pushed, x), moves).core;
      (c.phase == Finished ==> c.next == st.limit && c.streams.committed) &&
      (c.phase == T.Cancelled ==> Stop in moves) && (c.phase == Failed || c.phase == Fault ==> c.reason != 0)
  {
    hide Run, Begin, Inv, AllTimely;
    RunEnds(st, pushed, x, moves);
  }

  /**
   The second stream is requested, committed and confirmed in this order, each exactly when its own condition holds and, before the
   commit, only within the time allowed; what it starts at is what was committed.
   */
  lemma JoinSteps(s: Streams, j: Join)
    ensures var (t, error) := Advance(s, j);
      (t.requested <==> s.requested || (!s.committed && !j.timedOut && j.requestStatus == 0)) &&
      (t.committed <==> s.committed || (s.requested && !j.timedOut && j.ready && j.prepared && j.commitStatus == 0)) &&
      (t.confirmed <==> s.confirmed || (s.committed && j.confirmed)) &&
      (t.start == if t.committed && !s.committed then j.start else s.start) &&
      (error != 0 <==> !s.committed && (j.timedOut || (if s.requested then j.ready && (!j.prepared || j.commitStatus != 0)
                                                       else j.requestStatus != 0 && j.requestStatus != 0x0c)))
  {
  }

  /**
   What the driver's answer does: taken, the frame is in flight; refused for conflict or time, it is passed over and
   the trial goes on; refused otherwise, or without a channel for the reply of a frame that sends, the trial fails.
   */
  lemma SubmitMeans(st: Setting, v: World, x: Input)
    requires SettingOk(st)
    ensures var u := Submit(st, v, x); var n := v.core.next;
      var possible := v.core.caches.prepared[P.Side(n)].built.receive || ReplyChannel(st, n).Some?;
      (u.core.phase == Transmitting && u.core.submitted == v.core.submitted + 1 && u.core.active == n <==> possible && x.status == 0) &&
      (possible && (x.status == 0x80 || x.status == 0x81) ==>
        u.core.phase == WaitE2 && u.core.next == n + 1 && u.core.skipped == v.core.skipped + 1 && u.core.submitted == v.core.submitted) &&
      (!possible || (x.status != 0 && x.status != 0x80 && x.status != 0x81) ==> u.core.phase == Failed && u.core.submitted == v.core.submitted)
  {
    hide ReplyChannel, PrepareFrame, PrepareGuesses, Lead;
    var t := Accepted(Chosen(v), x.after(v.core.next));
    PrepareSame(st, t, t.core.next, x.finding(t.core.next));
    GuessesSame(st, PrepareFrame(st, t, t.core.next, x.finding(t.core.next)).0, t.core.next);
  }

  /** Asked to stop, the trial ends in the next step that does not find its event still in flight, and submits nothing more. */
  lemma StopsAtOnce(st: Setting, w: World, x: Input)
    requires SettingOk(st) && Live(w.core) && w.core.cancel
    ensures var u := Step(st, w, x);
      u.core.submitted == w.core.submitted &&
      (Live(u.core) <==> w.core.phase == Transmitting && x.collected.Pending?) &&
      (Live(u.core) ==> u == w) &&
      (!Live(u.core) && !(w.core.phase == Transmitting && (x.collected.Lost? || x.collected.receipt.result.Other?)) && w.core.failure == 0 ==>
        u.core.phase == T.Cancelled)
  {
    hide HearAll, FirstThree, Usable, Retriable, Closing;
  }

  /** The control trailers of stereo frames are at least six frames apart, counted from the second stream's start. */
  lemma TrailersApart(st: Setting, w: World, index: nat, x: Finding)
    requires SettingOk(st) && index < st.limit && PrepareFrame(st, w, index, x).1 && Stereo(w.core, index) && index >= 2
    ensures var e := PrepareFrame(st, w, index, x).0.core.caches.prepared[P.Side(index)];
      (e.v.parent.header != 0 ==> (index - w.core.streams.start) % 6 == 0) &&
      ((index - w.core.streams.start) % 6 == 0 && x.detached.Some? && x.detached.value.header != 0 ==> e.v.parent == x.detached.value)
  {
    var parent := ParentFor(w.core, index, x);
    var d := DemandFor(w.core, index, parent.value);
    var f := Arrive(w.fifo, x.arrived);
    assert d.index == index && d.v.parent == parent.value && d.v.mask == 6;
    hide P.Prepare, P.NotRefused, F.Predict, DemandFor;
    P.PrepareLeaves(st.se, w.core.caches, f, d);
    hide PrepareFrame;
  }
}
