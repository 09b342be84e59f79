/**
 The trial as it is written (tone_trial.c): one static record, updated in place by the step.
 Every method is proved to make exactly the step of module Trial.
 */
module TrialDriver {
  import opened Words
  import S = AirSession
  import F = AirFeedback
  import Q = AudioQueue
  import P = PacketCache
  import opened T = Trial

  class Scheduler {
    const st: Setting
    var phase: Phase
    var reason: nat
    var next: nat
    var submitted: nat
    var skipped: nat
    var active: nat
    var cancel: bool
    var failure: nat
    var first: bool
    var streams: Streams
    var hs: int
    var hus: S.Hus
    var feedback: Feedback
    var prepared: P.Two
    var alternate: P.Two
    var gap: P.Two
    var fifo: Queue
    ghost var log: seq<nat>
    ghost var drops: seq<Drop>
    ghost var flight: Flight
    ghost var refused: bool

    function Caches(): P.Caches
      reads this
    {
      P.Caches(prepared, alternate, gap)
    }

    function Record(): Core
      reads this
    {
      Core(phase, reason, next, submitted, skipped, active, cancel, failure, first, streams, hs, hus, feedback, Caches())
    }

    ghost function Value(): World
      reads this
    {
      World(Record(), fifo, log, drops, flight, refused)
    }

    constructor (setting: Setting, audio: Queue)
      requires SettingOk(setting)
      ensures st == setting
      ensures Value() == World(
        Core(WaitE2, 0, 0, 0, 0, 0, false, 0, false, NoStreams, 0, 0, F.NoFeedback, P.Empty), audio, [], [], NoFlight, false)
    {
      st := setting;
      phase, reason, next, submitted, skipped, active, cancel := WaitE2, 0, 0, 0, 0, 0, false;
      failure, first, streams, hs, hus, feedback := 0, false, NoStreams, 0, 0, F.NoFeedback;
      prepared, alternate, gap := [P.NoEntry, P.NoEntry], [P.NoEntry, P.NoEntry], [P.NoEntry, P.NoEntry];
      fifo, log, drops, flight, refused := audio, [], [], NoFlight, false;
    }

    /** Look through the caches in order, and build only when none holds the wanted packet. */
    method Choose(d: P.Demand) returns (ok: bool)
      requires SettingOk(st)
      modifies this`prepared, this`fifo
      ensures (Caches(), fifo, ok) == P.Prepare(st.se, old(Caches()), old(fifo), d)
    {
      hide P.Build, P.Matches;
      var side := P.Side(d.index);
      var p, a, g := prepared[side], alternate[side], gap[side];
      if P.Matches(p, d.index, d.v) {
        prepared := prepared[side := P.Reuse(p, d.generation)];
        return true;
      }
      if P.Matches(a, d.index, d.v) {
        prepared := prepared[side := P.Reuse(a, d.generation)];
        return true;
      }
      if P.Matches(g, d.index, d.v) {
        prepared := prepared[side := P.Reuse(g, d.generation)];
        return true;
      }
      var (e, f, built) := P.Build(st.se, fifo, d.index, d.v, d.generation);
      fifo := f;
      prepared := prepared[side := e];
      return built;
    }

    method Prepare(index: nat, x: Finding) returns (ok: bool)
      requires SettingOk(st)
      modifies this`prepared, this`fifo, this`refused
      ensures (Value(), ok) == PrepareFrame(st, old(Value()), index, x)
    {
      hide ParentFor, DemandFor, P.Prepare, P.NotRefused;
      if index >= st.limit { return true; }
      var parent := ParentFor(Record(), index, x);
      if parent.None? { return false; }
      var d := DemandFor(Record(), index, parent.value);
      fifo := Arrive(fifo, x.arrived);
      refused := refused || (d.v.mask == 6 && !P.NotRefused(fifo.history, index));
      ok := Choose(d);
    }

    method Guess(index: nat) returns (ok: bool)
      requires SettingOk(st)
      modifies this`alternate, this`gap, this`prepared, this`fifo, this`refused
      ensures (Value(), ok) == PrepareGuesses(st, old(Value()), index)
    {
      hide P.Guess, P.NotRefused;
      if index >= st.limit { return true; }
      var p := prepared[P.Side(index)];
      var mic := feedback.channels[0];
      ghost var w, h := Value(), fifo.history;
      ok := Alternate(index, P.Mic(mic.valid, mic.frame, 0), feedback.generation);
      assert Value() == WithCaches(w, Caches(), fifo);
      refused := refused || (p.valid && p.index == index && p.v.mask == 6 && !P.NotRefused(h, index));
    }

    /** Forget the old guesses, then build those that differ from the prepared packet. */
    method Alternate(index: Word, mic: P.Mic, generation: Word) returns (ok: bool)
      requires SettingOk(st)
      modifies this`alternate, this`gap, this`prepared, this`fifo
      ensures (Caches(), fifo, ok) == P.Guess(st.se, old(Caches()), old(fifo), index, mic, generation)
    {
      hide P.Build, P.NoGuess, P.GapWanted, P.GuessedAck, P.WithAck, P.Plus;
      var side := P.Side(index);
      var p := prepared[side];
      alternate := alternate[side := alternate[side].(valid := false)];
      gap := gap[side := gap[side].(valid := false)];
      assert Caches() == P.Forget(old(Caches()), side);
      if P.NoGuess(p, index) { return true; }
      var (e, f, built) := P.Build(st.se, fifo, index, P.WithAck(p.v, P.GuessedAck(p)), generation);
      ghost var c0, f0 := Caches(), fifo;
      alternate := alternate[side := e];
      fifo := f;
      assert (Caches(), fifo, built) == P.FirstGuess(st.se, c0, f0, index, generation);
      if !built { return false; }
      if !P.GapWanted(p, mic) { return true; }
      WantedIsEarlier(p, mic, index);
      var (e2, f2, built2) := P.Build(st.se, fifo, index, P.WithAck(p.v, P.Plus(p.v.ack[0], index - 1 - mic.frame)), generation);
      gap := gap[side := e2];
      fifo := f2;
      return built2;
    }

    method End(p: Phase, why: nat)
      modifies this`phase, this`reason, this`prepared, this`alternate, this`gap, this`feedback
      ensures Value() == Finish(old(Value()), p, why)
    {
      ZeroPackets();
      phase, reason, feedback := p, why, F.NoFeedback;
    }

    method ZeroPackets()
      modifies this`prepared, this`alternate, this`gap
      ensures Caches() == P.Empty
    {
      prepared := [P.NoEntry, P.NoEntry];
      alternate := [P.NoEntry, P.NoEntry];
      gap := [P.NoEntry, P.NoEntry];
    }

    method SkipFrame()
      modifies this`next, this`skipped
      ensures Value() == Skip(old(Value()))
    {
      next := next + 1;
      skipped := skipped + 1;
    }

    /** The skip loop: frames are passed over until one is prepared with enough lead. */
    method SeekFrame(x: Input) returns (search: Search)
      requires SettingOk(st)
      modifies this
      ensures (Value(), search) == Seek(st, old(Value()), x, x.hasty)
    {
      hide PrepareFrame, Skip, InReach, Lead, PlannedHs;
      var hasty := x.hasty;
      while next < st.limit
        invariant Seek(st, Value(), x, hasty) == Seek(st, old(Value()), x, x.hasty)
        decreases st.limit - next
      {
        ghost var w := Value();
        PrepareNext(st, w, next, x.finding(next));
        SkipNext(w);
        if InReach(Lead(PlannedHs(st, next), x.before(next)), x.minimum + (if hasty then 0 else 1)) {
          var ok := Prepare(next, x.finding(next));
          if !ok { return Broken; }
          if InReach(Lead(prepared[P.Side(next)].built.hs, x.after(next)), x.minimum) { return Found; }
          SkipNext(Value());
        }
        hasty := false;
        SkipFrame();
      }
      return Exhausted;
    }

    method SubmitFrame(x: Input)
      requires SettingOk(st)
      modifies this
      ensures Value() == Submit(st, old(Value()), x)
    {
      hide Following, ReplyChannel, Chosen, Accepted, Declined, Finish;
      var receive := prepared[P.Side(next)].built.receive;
      Commit();
      if !receive && ReplyChannel(st, active).None? {
        End(Failed, 4);
      } else if x.status == Conflict || x.status == Expired {
        Decline();
      } else if x.status != 0 {
        End(Failed, 6);
      } else {
        Accept(x.after(next));
        PrepareFollowing(x);
      }
    }

    method Commit()
      modifies this`active, this`hs, this`hus
      ensures Value() == Chosen(old(Value())) && active == next
    {
      var p := prepared[P.Side(next)];
      active, hs, hus := next, p.built.hs, p.built.hus;
    }

    method Decline()
      modifies this`next, this`skipped, this`phase
      ensures Value() == Declined(old(Value()))
    {
      next := next + 1;
      skipped := skipped + 1;
      phase := WaitE2;
    }

    method Accept(ghost now: nat)
      modifies this`next, this`submitted, this`phase, this`flight
      ensures Value() == Accepted(old(Value()), now)
    {
      hide Lead, P.Side;
      flight := Flight(prepared[P.Side(next)], now + Lead(hs, now));
      next := next + 1;
      submitted := submitted + 1;
      phase := Transmitting;
    }

    method PrepareFollowing(x: Input)
      requires SettingOk(st)
      modifies this
      ensures Value() == Following(st, old(Value()), x)
    {
      hide PrepareFrame, PrepareGuesses;
      ghost var t := Value();
      PrepareNext(st, t, next, x.finding(next));
      var ok := Prepare(next, x.finding(next));
      if ok { ok := Guess(next); }
      if !ok {
        failure := 5;
        cancel := true;
      }
    }

    method Collected(r: Receipt, x: Input) returns (more: bool)
      requires SettingOk(st)
      modifies this
      ensures (Value(), more) == AfterEvent(st, old(Value()), r, x)
    {
      hide HearAll, FirstThree, AfterDrop, Finish, StopAfter, Usable;
      ghost var w := Value();
      if r.aired { log := log + [active]; }
      if r.result.Dropped? { drops := drops + [Drop(r.txCount, StopAfter(Record(), r).Some?)]; }
      var stop := EndsAfter(r);
      if stop.Some? {
        End(stop.value.0, stop.value.1);
        return false;
      }
      assert Value() == Noted(w, r);
      feedback := HearAll(st, feedback, Record(), FirstThree(r.snapshots));
      if Retriable(r) { Dropped(Usable(hs, x.retryNow, x.minimum)); }
      return true;
    }

    method EndsAfter(r: Receipt) returns (stop: Option<(Phase, nat)>)
      ensures stop == StopAfter(Record(), r)
    {
      if r.result.Other? { return Some((Failed, 3)); }
      if cancel { return Some((if failure != 0 then Failed else Cancelled, failure)); }
      if r.rxInvalid { return Some((Failed, 13)); }
      return None;
    }

    method Dropped(retry: bool)
      modifies this`next, this`skipped
      ensures Value() == AfterDrop(old(Value()), retry)
    {
      if retry { next := active; } else { skipped := skipped + 1; }
    }

    /** Progress of the second stream while an event is in flight; an error cancels it. */
    method Negotiate(j: Join)
      modifies this`streams, this`failure, this`cancel
      ensures var (s, error) := Advance(old(streams), j);
        Value() == if error != 0 then old(Value()).(core := old(Record()).(streams := s, failure := error, cancel := true))
                   else WithStreams(old(Value()), s)
    {
      hide Advance;
      var (s, error) := Advance(streams, j);
      streams := s;
      if error != 0 {
        failure := error;
        cancel := true;
      }
    }

    method Open(x: Input) returns (more: bool)
      requires SettingOk(st)
      modifies this
      ensures (Value(), more) == Opening(st, old(Value()), x)
    {
      hide AfterEvent, Advance, Finish;
      if phase == WaitE2 {
        if cancel {
          End(Cancelled, 0);
          return false;
        }
        if !first && !x.confirmed {
          if !Usable(st.se.plan.startHs, x.startNow, x.minimum) { End(Failed, 1); }
          return false;
        }
        first := true;
        return true;
      }
      if phase != Transmitting { return false; }
      match x.collected {
        case Lost =>
          log := log + [active];
          End(Fault, 2);
          return false;
        case Pending =>
          if !cancel { Negotiate(x.join); }
          return false;
        case Done(r) =>
          more := Collected(r, x);
      }
    }

    method Close(x: Input)
      requires SettingOk(st)
      modifies this
      ensures Value() == Closing(st, old(Value()), x)
    {
      hide Advance, Seek, Submit;
      var (s, error) := Advance(streams, x.join);
      streams := s;
      if error != 0 {
        End(Failed, error);
        return;
      }
      var search := SeekFrame(x);
      match search {
        case Broken => End(Failed, 5);
        case Exhausted =>
          if streams.committed && x.join.confirmed { End(Finished, 0); } else { End(Failed, 12); }
        case Found => SubmitFrame(x);
      }
    }

    method TrialStep(x: Input)
      requires SettingOk(st)
      modifies this
      ensures Value() == Step(st, old(Value()), x)
    {
      hide Opening, Closing;
      var more := Open(x);
      if more { Close(x); }
    }
  }

  lemma WantedIsEarlier(p: P.Entry, mic: P.Mic, index: Word)
    requires P.GapWanted(p, mic) && !P.NoGuess(p, index)
    ensures mic.frame < index - 1
  {
  }

  lemma PrepareNext(st: Setting, w: World, index: nat, x: Finding)
    requires SettingOk(st)
    ensures PrepareFrame(st, w, index, x).0.core.next == w.core.next
  {
  }

  lemma SkipNext(w: World)
    ensures Skip(w).core.next == w.core.next + 1
  {
  }
}
