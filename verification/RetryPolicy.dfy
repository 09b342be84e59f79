/**
 When a stereo frame may be sent twice (tone_trial.c): automatic repeats with warm-up, cooldown and hard block,
 beside the explicitly armed burst and probe that share the right to repeat.
 Time is microseconds since boot; the policy sees it as milliseconds in 32 bits.
 */
module RetryPolicy {
  import opened Words

  const Free := 0
  const ProbeOwns := 1
  const BurstOwns := 2
  const AutoOwns := 3

  const Conflict := 0x80
  const Expired := 0x81

  const Unused := 0
  const Armed := 1
  const Running := 2
  const Closed := 3

  datatype Burst = Burst(state: nat, reason: nat, count: nat, done: nat, failed: nat, skipped: nat, started: Word)

  /** Counters of the automatic repeats, with the block and the warm-up. */
  datatype Auto = Auto(active: nat, blocked: nat, attempts: nat, done: nat, failed: nat, skipped: nat, warmup: nat)

  datatype Cooldown = Cooldown(on: bool, stable: nat, recoveries: nat, since: Word)

  datatype Policy = Policy(
    owner: nat, burst: Burst, active: bool, watch: bool, lead: bool, enabled: bool, auto: Auto, cool: Cooldown,
    lastFrame: int, failedSkip: bool, lastRepeat: bool, probe: nat)

  const NoFrame := 0xffff_ffff

  const Boot := Policy(
    Free, Burst(Unused, 0, 0, 0, 0, 0, 0), false, false, false, true, Auto(0, 0, 0, 0, 0, 0, 0), Cooldown(false, 0, 0, 0),
    NoFrame, false, false, 0)

  function Ms(us: nat): Word {
    us / 1000 % U32
  }

  // --------------------------------------------------------------------------
  // The policy's operations
  // --------------------------------------------------------------------------

  function AutoRelease(p: Policy): Policy {
    p.(auto := p.auto.(active := 0), owner := if p.owner == AutoOwns then Free else p.owner)
  }

  function AutoBlock(p: Policy): Policy {
    AutoRelease(p.(cool := p.cool.(on := false, stable := 0), auto := p.auto.(blocked := 1), watch := false, lead := false))
  }

  function CooldownStart(p: Policy, now: nat): Policy {
    AutoRelease(p.(cool := p.cool.(on := true, stable := 0, since := Ms(now)), watch := false, lead := false))
  }

  /** A collected event: `stereo` when it carried audio for both ears and ended. */
  function OrdinaryCompleted(p: Policy, stereo: bool): Policy {
    if !p.cool.on then p
    else if !stereo || p.lastRepeat then p.(cool := p.cool.(stable := 0))
    else if p.cool.stable < 50 then p.(cool := p.cool.(stable := p.cool.stable + 1))
    else p
  }

  predicate Cooled(p: Policy, now: nat) {
    p.cool.stable >= 50 && Sub32(Ms(now), p.cool.since) >= 250
  }

  function Warm(p: Policy, frame: nat): Policy {
    if p.lastFrame == frame then p
    else p.(lastFrame := frame, auto := p.auto.(warmup := if p.auto.warmup < 1000 then p.auto.warmup + 1 else p.auto.warmup))
  }

  /** Decide on an automatic repeat of a frame (auto_take). */
  function AutoTake(p: Policy, eligible: bool, cancel: bool, frame: nat, now: nat): (Policy, bool) {
    if !eligible || cancel || !p.enabled || p.auto.blocked != 0 then (p, false)
    else if p.owner != Free && p.owner != AutoOwns then (p, false)
    else if p.owner == AutoOwns && !p.active && p.probe == 1 then (CooldownStart(p.(probe := 2), now), false)
    else if p.cool.on && !Cooled(p, now) then (p, false)
    else
      var w := Warm(p, frame);
      if w.auto.warmup < 1000 || frame < 1000 then (w, false)
      else
        (w.(owner := AutoOwns, active := true,
            cool := if w.cool.on then w.cool.(on := false, recoveries := w.cool.recoveries + 1) else w.cool,
            auto := w.auto.(active := 1, attempts := w.auto.attempts + 1)), true)
  }

  function BurstEnd(p: Policy, reason: nat): Policy {
    var q := if p.burst.state == Armed || p.burst.state == Running
             then p.(burst := p.burst.(reason := reason, state := Closed)) else p;
    if !q.active && !q.watch && q.owner == BurstOwns then q.(owner := Free) else q
  }

  function BurstTick(p: Policy, now: nat): Policy {
    var q := if p.owner == AutoOwns && !p.enabled && !p.active && !p.watch then AutoRelease(p) else p;
    if (q.burst.state == Armed || q.burst.state == Running) && Sub32(Ms(now), q.burst.started) >= 125000 then BurstEnd(q, 2) else q
  }

  function BurstTake(p: Policy, eligible: bool, now: nat): (Policy, bool) {
    var q := BurstTick(p, now);
    if !eligible || (q.burst.state != Armed && q.burst.state != Running) then (q, false)
    else if q.burst.count >= 24000 then (BurstEnd(q, 1), false)
    else (q.(burst := q.burst.(state := Running, count := q.burst.count + 1), active := true), true)
  }

  /** A repeated event's submission failed (`error`), or the event was collected: `ended` when it ended normally. */
  function BurstDone(p: Policy, error: nat, ended: bool, now: nat): Policy {
    if !p.active then p
    else
      var q := p.(active := false);
      if q.owner == AutoOwns then
        if error != 0 || !ended then
          var r := q.(failedSkip := q.failedSkip || error != 0, auto := q.auto.(failed := q.auto.failed + 1));
          if error == Expired || error == Conflict then CooldownStart(r, now) else AutoBlock(r)
        else q.(auto := q.auto.(done := q.auto.done + 1), watch := true, lead := true)
      else if error != 0 then BurstEnd(q.(burst := q.burst.(failed := q.burst.failed + 1)), 6)
      else if !ended then BurstEnd(q, 4)
      else
        var r := q.(burst := q.burst.(done := q.burst.done + 1), watch := true, lead := true);
        if r.burst.count >= 24000 then BurstEnd(r, 1) else r
  }

  /** A frame was passed over. */
  function BurstSkip(p: Policy, now: nat): Policy {
    var q := p.(cool := if p.cool.on then p.cool.(stable := 0) else p.cool,
                auto := if p.failedSkip then p.auto.(skipped := p.auto.skipped + 1) else p.auto, failedSkip := false);
    if !q.watch then
      if q.auto.active == 0 && !q.cool.on then q.(auto := q.auto.(warmup := 0), lastFrame := NoFrame) else q
    else if q.owner == AutoOwns then CooldownStart(q.(auto := q.auto.(skipped := q.auto.skipped + 1)), now)
    else BurstEnd(q.(burst := q.burst.(skipped := q.burst.skipped + 1), watch := false, lead := false), 5)
  }

  /** An event was submitted: as a repeat, or as an ordinary one. */
  function BurstSubmitted(p: Policy, repeat: bool): Policy {
    var q := p.(lastRepeat := repeat, watch := false);
    var r := if q.owner == AutoOwns && !q.active && !q.enabled then AutoRelease(q) else q;
    if r.burst.state == Closed then BurstEnd(r, r.burst.reason) else r
  }

  /** The conflicting automatic repeat is submitted once more as an ordinary event (submit_with_retry_fallback). */
  function Submitted(p: Policy, automatic: bool, repeat: bool, status: nat, single: nat, now: nat): (Policy, nat) {
    if !automatic || status != Conflict then
      (if status != 0 then BurstDone(p, status, false, now) else BurstSubmitted(p, repeat), status)
    else
      var q := BurstDone(p, status, false, now);
      if single == 0 then (BurstSubmitted(q.(failedSkip := false), false), 0) else (q, status)
  }

  function Finish(p: Policy, cancelled: bool, now: nat): Policy {
    var q := p.(probe := if p.probe == 1 then 2 else p.probe, watch := false, lead := false);
    var r := BurstEnd(BurstDone(q, 0, false, now), if cancelled then 3 else 4);
    r.(cool := r.cool.(on := false, stable := 0), auto := r.auto.(active := 0, blocked := 1), owner := Free)
  }

  function Rearm(p: Policy): Policy {
    p.(auto := p.auto.(active := 0, blocked := 0, warmup := 0), lastFrame := NoFrame, failedSkip := false,
       cool := p.cool.(on := false, stable := 0), lastRepeat := false)
  }

  function BurstArm(p: Policy, transmitting: bool, now: nat): Policy {
    if !transmitting || p.owner != Free || p.burst.state != Unused then p
    else p.(owner := BurstOwns, burst := p.burst.(started := Ms(now), state := Armed))
  }

  function ProbeArm(p: Policy, transmitting: bool): Policy {
    if !transmitting || p.owner != Free then p else p.(owner := ProbeOwns)
  }

  function ProbeEnds(p: Policy): Policy {
    if p.owner == ProbeOwns then p.(owner := Free) else p
  }

  function CooldownProbeArm(p: Policy): Policy {
    if !p.enabled || p.owner != AutoOwns || p.auto.blocked != 0 || p.probe != 0 then p else p.(probe := 1)
  }

  // --------------------------------------------------------------------------
  // Runs
  // --------------------------------------------------------------------------

  /** What an automatic repeat that ran into the schedule leaves behind: when, and the ordinary completions in a row since. */
  datatype Setback = Setback(at: nat, run: nat)

  /**
   The policy over time. `setback` is the latest one of this session not yet recovered from, `broken` whether an
   automatic repeat failed otherwise, `start` when the cooldown last began.
   */
  datatype State = State(
    p: Policy, now: nat, auto: bool, watchAuto: bool, setback: Option<Setback>, broken: bool, start: nat, taken: bool)

  const Initial := State(Boot, 0, false, false, None, false, 0, false)

  datatype Action =
    | Pass(us: nat)
    | Tick
    | Collect(stereo: bool)
    | Take(eligible: bool, cancel: bool, frame: nat)
    | TakeBurst(eligible: bool)
    | Submit(repeat: bool, status: nat, single: nat)
    | Done(ended: bool)
    | Skip
    | Stop
    | End(cancelled: bool)
    | NewSession
    | Enable(on: bool)
    | ArmBurst(transmitting: bool)
    | ArmProbe(transmitting: bool)
    | EndProbe
    | ArmCooldown

  function Hit(s: State): State {
    s.(setback := Some(Setback(s.now, 0)), start := s.now)
  }

  /** The history of a failed or finished repeat. */
  function AfterDone(s: State, error: nat, ended: bool): State {
    var p := BurstDone(s.p, error, ended, s.now);
    if !s.p.active then s
    else if !s.auto then s.(p := p, watchAuto := s.watchAuto && p.watch)
    else if error == 0 && ended then s.(p := p, auto := false, watchAuto := true)
    else if error == Expired || error == Conflict then Hit(s.(p := p, auto := false, watchAuto := false))
    else s.(p := p, auto := false, watchAuto := false, broken := true)
  }

  function AfterSubmit(s: State, repeat: bool, status: nat, single: nat): State {
    var p := Submitted(s.p, s.auto, repeat, status, single, s.now).0;
    if s.auto && status == Conflict then AfterDone(s, status, false).(p := p)
    else if status != 0 then AfterDone(s, status, false)
    else s.(p := p, watchAuto := false)
  }

  function AfterSkip(s: State): State {
    var p := BurstSkip(s.p, s.now);
    if s.p.watch && s.watchAuto then Hit(s.(p := p, watchAuto := false))
    else s.(p := p, setback := if s.setback.Some? then Some(s.setback.value.(run := 0)) else None)
  }

  function AfterCollect(s: State, stereo: bool): State {
    var run := if !stereo || s.p.lastRepeat then 0 else if s.setback.Some? then s.setback.value.run + 1 else 0;
    s.(p := OrdinaryCompleted(s.p, stereo), setback := if s.setback.Some? then Some(s.setback.value.(run := run)) else None)
  }

  function AfterTake(s: State, eligible: bool, cancel: bool, frame: nat): State {
    var (p, taken) := AutoTake(s.p, eligible, cancel, frame, s.now);
    if taken then s.(p := p, auto := true, setback := None, taken := true)
    else if p.probe != s.p.probe then s.(p := p, start := s.now, watchAuto := false)
    else s.(p := p)
  }

  /** Frames are chosen and passed over only while no repeat is in flight. */
  function Step(s: State, a: Action): State {
    var t := s.(taken := false);
    match a
    case Pass(us) => t.(now := s.now + us)
    case Tick => t.(p := BurstTick(s.p, s.now))
    case Collect(stereo) => AfterCollect(t, stereo)
    case Take(eligible, cancel, frame) => if s.p.active then t else AfterTake(t, eligible, cancel, frame)
    case TakeBurst(eligible) => if s.p.active then t else t.(p := BurstTake(s.p, eligible, s.now).0)
    case Submit(repeat, status, single) => AfterSubmit(t, repeat, status, single)
    case Done(ended) => AfterDone(t, 0, ended)
    case Skip => if s.p.active then t else AfterSkip(t)
    case Stop => t.(p := BurstEnd(s.p, 3).(lead := false))
    case End(cancelled) => t.(p := Finish(s.p, cancelled, s.now), auto := false, watchAuto := false)
    case NewSession => t.(p := Rearm(s.p), setback := None, broken := false)
    case Enable(on) => t.(p := s.p.(enabled := on))
    case ArmBurst(transmitting) => t.(p := BurstArm(s.p, transmitting, s.now))
    case ArmProbe(transmitting) => t.(p := ProbeArm(s.p, transmitting))
    case EndProbe => t.(p := ProbeEnds(s.p))
    case ArmCooldown => t.(p := CooldownProbeArm(s.p))
  }

  function Run(s: State, actions: seq<Action>): State {
    if actions == [] then s else Step(Run(s, actions[..|actions| - 1]), actions[|actions| - 1])
  }

  // --------------------------------------------------------------------------
  // What every step keeps
  // --------------------------------------------------------------------------

  predicate OwnerInv(p: Policy, auto: bool, watchAuto: bool) {
    (auto ==> p.active && p.owner == AutoOwns) && (watchAuto ==> p.watch && p.owner == AutoOwns) &&
    (p.burst.state == Armed || p.burst.state == Running ==> p.owner == BurstOwns) &&
    (p.active && !auto ==> p.owner == BurstOwns) && (p.watch && !watchAuto ==> p.owner == BurstOwns) &&
    (p.cool.on ==> p.owner != AutoOwns) && (p.auto.active != 0 ==> p.owner == AutoOwns) &&
    (p.auto.blocked != 0 ==> !p.cool.on && p.owner != AutoOwns) &&
    (p.owner == BurstOwns ==>
      p.burst.state != Unused && (p.burst.state == Armed || p.burst.state == Running || p.active || p.watch)) &&
    p.burst.state <= Closed &&
    p.burst.count <= 24000
  }

  predicate CoolInv(p: Policy, setback: Option<Setback>, broken: bool, start: nat, now: nat) {
    start <= now && (broken ==> p.auto.blocked != 0) &&
    (setback.Some? ==>
      p.auto.blocked != 0 ||
      (p.cool.on && p.cool.since == Ms(start) && p.cool.stable <= setback.value.run && setback.value.at == start))
  }

  predicate Inv(s: State) {
    OwnerInv(s.p, s.auto, s.watchAuto) && CoolInv(s.p, s.setback, s.broken, s.start, s.now)
  }

  lemma AutoDoneKeeps(s: State, error: nat, ended: bool)
    requires Inv(s) && s.auto
    ensures Inv(AfterDone(s, error, ended))
  {
    BlockShape(s.p, s.now);
    hide Ms, Sub32, BurstEnd, AutoBlock, CooldownStart, CoolInv;
    var t := AfterDone(s, error, ended);
    assert OwnerInv(t.p, t.auto, t.watchAuto) by {
      var r := s.p.(active := false, failedSkip := s.p.failedSkip || error != 0, auto := s.p.auto.(failed := s.p.auto.failed + 1));
      BlockShape(r, s.now);
    }
    AutoDoneCools(s, error, ended);
    hide OwnerInv;
  }

  /** What blocking and cooling do to the right to repeat. */
  lemma BlockShape(p: Policy, now: nat)
    ensures var b, c := AutoBlock(p), CooldownStart(p, now); var owner := if p.owner == AutoOwns then Free else p.owner;
      b.owner == owner && c.owner == owner && !b.watch && !c.watch && b.active == p.active && c.active == p.active &&
      b.burst == p.burst && c.burst == p.burst && b.auto.blocked == 1 && c.auto.blocked == p.auto.blocked &&
      c.cool.on && c.cool.stable == 0 && c.cool.since == Ms(now) && !b.cool.on && b.auto.active == 0 && c.auto.active == 0
  {
    hide Ms;
  }

  lemma AutoDoneShape(p: Policy, error: nat, ended: bool, now: nat)
    requires p.active && p.owner == AutoOwns
    ensures var q := BurstDone(p, error, ended, now);
      if error == 0 && ended then q.cool == p.cool && q.auto.blocked == p.auto.blocked
      else if error == Expired || error == Conflict then
        q.cool.on && q.cool.stable == 0 && q.cool.since == Ms(now) && q.auto.blocked == p.auto.blocked
      else q.auto.blocked == 1
  {
    BlockShape(p.(active := false, failedSkip := p.failedSkip || error != 0, auto := p.auto.(failed := p.auto.failed + 1)), now);
    hide Ms, BurstEnd, AutoBlock, CooldownStart;
  }

  lemma AutoDoneCools(s: State, error: nat, ended: bool)
    requires s.auto && s.p.active && s.p.owner == AutoOwns && CoolInv(s.p, s.setback, s.broken, s.start, s.now)
    ensures var t := AfterDone(s, error, ended); CoolInv(t.p, t.setback, t.broken, t.start, t.now)
  {
    AutoDoneShape(s.p, error, ended, s.now);
    hide Ms, BurstDone;
  }

  lemma BurstDoneKeeps(s: State, error: nat, ended: bool)
    requires Inv(s) && !s.auto
    ensures Inv(AfterDone(s, error, ended))
  {
    hide Ms, Sub32, AutoBlock, CooldownStart;
  }

  lemma DoneKeeps(s: State, error: nat, ended: bool)
    requires Inv(s)
    ensures Inv(AfterDone(s, error, ended))
  {
    hide Inv, AfterDone;
    if s.auto { AutoDoneKeeps(s, error, ended); } else { BurstDoneKeeps(s, error, ended); }
  }

  lemma SubmitKeeps(s: State, repeat: bool, status: nat, single: nat)
    requires Inv(s)
    ensures Inv(AfterSubmit(s, repeat, status, single))
  {
    DoneKeeps(s, status, false);
    hide Ms, Sub32;
  }

  lemma SkipKeeps(s: State)
    requires Inv(s) && !s.p.active
    ensures Inv(AfterSkip(s))
  {
    hide Ms, Sub32;
  }

  lemma TakeShape(p: Policy, eligible: bool, cancel: bool, frame: nat, now: nat)
    ensures var (q, taken) := AutoTake(p, eligible, cancel, frame, now);
      q.burst == p.burst && q.auto.blocked == p.auto.blocked &&
      (if taken then
         q.owner == AutoOwns && q.active && q.watch == p.watch && (p.owner == Free || p.owner == AutoOwns) && !q.cool.on &&
         q.auto.blocked == 0
       else if q.probe != p.probe then
         p.owner == AutoOwns && q.owner == Free && !q.watch && q.active == p.active && q.cool.on && q.cool.stable == 0 && q.cool.since == Ms(now) &&
         q.auto.active == 0 && q.auto.blocked == 0
       else q.auto.active == p.auto.active && q.owner == p.owner && q.active == p.active && q.watch == p.watch && q.cool == p.cool)
  {
    BlockShape(p.(probe := 2), now);
    hide Ms, Cooled, CooldownStart;
  }

  lemma TakeKeeps(s: State, eligible: bool, cancel: bool, frame: nat)
    requires Inv(s) && !s.p.active
    ensures Inv(AfterTake(s, eligible, cancel, frame))
  {
    TakeShape(s.p, eligible, cancel, frame, s.now);
    hide Ms, AutoTake;
  }

  lemma EndKeeps(s: State, cancelled: bool)
    requires Inv(s)
    ensures Inv(s.(p := Finish(s.p, cancelled, s.now), auto := false, watchAuto := false))
  {
    hide Ms, Sub32;
  }

  lemma BurstKeeps(s: State, eligible: bool)
    requires Inv(s)
    ensures Inv(s.(p := BurstTick(s.p, s.now))) && Inv(s.(p := BurstTake(s.p, eligible, s.now).0))
  {
    hide Ms, Sub32;
  }

  lemma OthersKeep(s: State, a: Action)
    requires Inv(s) && !(a.Take? || a.Submit? || a.Done? || a.Skip? || a.End? || a.Tick? || a.TakeBurst?)
    ensures Inv(Step(s, a))
  {
    hide Ms, Sub32, AfterTake, AfterSubmit, AfterDone, AfterSkip, Finish, BurstTick, BurstTake;
    OthersOwn(s, a);
    hide OwnerInv;
  }

  lemma OthersOwn(s: State, a: Action)
    requires OwnerInv(s.p, s.auto, s.watchAuto) && !(a.Take? || a.Submit? || a.Done? || a.Skip? || a.End? || a.Tick? || a.TakeBurst?)
    ensures var t := Step(s, a); OwnerInv(t.p, t.auto, t.watchAuto)
  {
    hide Ms, Sub32, AfterTake, AfterSubmit, AfterDone, AfterSkip, Finish, BurstTick, BurstTake, BurstEnd, BurstArm;
    match a
    case Stop => StopOwns(s.p, s.auto, s.watchAuto);
    case ArmBurst(transmitting) => ArmOwns(s.p, s.auto, s.watchAuto, transmitting, s.now);
    case Collect(stereo) => CollectOwns(s.p, stereo); hide OrdinaryCompleted;
    case _ =>
  }

  lemma StopOwns(p: Policy, auto: bool, watchAuto: bool)
    requires OwnerInv(p, auto, watchAuto)
    ensures OwnerInv(BurstEnd(p, 3).(lead := false), auto, watchAuto)
  {
  }

  lemma ArmOwns(p: Policy, auto: bool, watchAuto: bool, transmitting: bool, now: nat)
    requires OwnerInv(p, auto, watchAuto)
    ensures OwnerInv(BurstArm(p, transmitting, now), auto, watchAuto)
  {
    hide Ms;
  }

  lemma CollectOwns(p: Policy, stereo: bool)
    ensures var q := OrdinaryCompleted(p, stereo); q == p.(cool := q.cool) && q.cool.on == p.cool.on
  {
  }

  lemma StepKeeps(s: State, a: Action)
    requires Inv(s)
    ensures Inv(Step(s, a))
  {
    var t := s.(taken := false);
    assert Inv(t);
    hide Inv, AfterTake, AfterSubmit, AfterDone, AfterSkip, Finish, BurstTick, BurstTake, AfterCollect, Rearm, BurstEnd,
      BurstArm, ProbeArm, ProbeEnds, CooldownProbeArm;
    match a
    case Tick => BurstKeeps(t, false);
    case TakeBurst(eligible) => BurstKeeps(t, eligible);
    case Take(eligible, cancel, frame) => if !s.p.active { TakeKeeps(t, eligible, cancel, frame); }
    case Submit(repeat, status, single) => SubmitKeeps(t, repeat, status, single);
    case Done(ended) => DoneKeeps(t, 0, ended);
    case Skip => if !s.p.active { SkipKeeps(t); }
    case End(cancelled) => EndKeeps(t, cancelled);
    case _ => OthersKeep(s, a);
  }

  lemma {:induction false} RunKeeps(actions: seq<Action>)
    ensures Inv(Run(Initial, actions))
    decreases |actions|
  {
    if actions != [] {
      hide Inv, Step;
      RunKeeps(actions[..|actions| - 1]);
      StepKeeps(Run(Initial, actions[..|actions| - 1]), actions[|actions| - 1]);
    } else {
      StartHolds();
    }
  }

  lemma StartHolds()
    ensures Inv(Initial)
  {
  }

  // --------------------------------------------------------------------------
  // What the runs promise
  // --------------------------------------------------------------------------

  /** The millisecond counts are more than 250 apart, or the later moment is not earlier within its millisecond. */
  predicate FullSpan(start: nat, now: nat) {
    now / 1000 - start / 1000 > 250 || now % 1000 >= start % 1000
  }

  /**
   Measured in whole milliseconds of 32 bits, 250 of them are always more than 249 real ones, and are 250 real ones
   exactly when the span is full.
   */
  lemma MeasuredIsReal(start: nat, now: nat)
    requires start <= now && Sub32(Ms(now), Ms(start)) >= 250
    ensures now - start > 249000
    ensures now - start >= 250000 <==> FullSpan(start, now)
  {
    var a, b := now / 1000, start / 1000;
    assert a >= b;
    if a - b < U32 { WrappedDifference(a, b); }
    assert a - b >= 250;
    assert now - start == 1000 * (a - b) + (now % 1000 - start % 1000);
  }

  lemma TakenMeans(p: Policy, eligible: bool, cancel: bool, frame: nat, now: nat)
    requires AutoTake(p, eligible, cancel, frame, now).1
    ensures p.auto.blocked == 0 && p.enabled && (p.cool.on ==> Cooled(p, now)) && frame >= 1000
  {
    hide Cooled, Ms;
  }

  /**
   In every run: once an automatic repeat met a conflict, an expired deadline or a skip right after it, the next one is
   taken only after 50 ordinary stereo completions in a row without a skip and more than 249 ms; it is 250 ms or more
   exactly when the span is full. After any other failure of one, none is taken in that session.
   */
  lemma NoRepeatWhileCooling(actions: seq<Action>, eligible: bool, cancel: bool, frame: nat)
    requires var s := Run(Initial, actions); AutoTake(s.p, eligible, cancel, frame, s.now).1
    ensures var s := Run(Initial, actions);
      !s.broken &&
      (s.setback.Some? ==>
        var at := s.setback.value.at;
        at <= s.now && s.setback.value.run >= 50 && s.now - at > 249000 && (s.now - at >= 250000 <==> FullSpan(at, s.now)))
  {
    RunKeeps(actions);
    hide Run, Ms, AutoTake, OwnerInv, FullSpan;
    var s := Run(Initial, actions);
    TakenMeans(s.p, eligible, cancel, frame, s.now);
    if s.setback.Some? {
      MeasuredIsReal(s.start, s.now);
    }
  }

  // --------------------------------------------------------------------------
  // When the cooldown begins
  // --------------------------------------------------------------------------

  /** An automatic repeat is in flight and the schedule refuses it, or a frame is passed over right after one. */
  predicate MeetsSchedule(p: Policy, a: Action) {
    p.owner == AutoOwns &&
    ((a.Submit? && p.active && (a.status == Conflict || a.status == Expired)) || (a.Skip? && p.watch && !p.active))
  }

  /** The armed cooldown probe is consumed by the next decision. */
  predicate ProbeFires(p: Policy, a: Action) {
    a.Take? && p.owner == AutoOwns && !p.active && p.probe == 1 && p.enabled && p.auto.blocked == 0 && a.eligible && !a.cancel
  }

  predicate Begins(p: Policy, q: Policy) {
    !p.cool.on && q.cool.on
  }

  /** What one step may do to the cooldown. */
  predicate BeginsRightly(s: State, a: Action, t: State) {
    (Begins(s.p, t.p) <==> MeetsSchedule(s.p, a) || ProbeFires(s.p, a)) &&
    (Begins(s.p, t.p) ==>
      t.p.cool.stable == 0 && t.p.cool.since == Ms(s.now) && t.p.owner != AutoOwns &&
      t.setback == (if ProbeFires(s.p, a) then s.setback else Some(Setback(s.now, 0)))) &&
    (s.p.cool.on && t.p.cool.on ==> t.p.cool.since == s.p.cool.since)
  }

  lemma TakeBegins(s: State, eligible: bool, cancel: bool, frame: nat)
    requires Inv(s)
    ensures BeginsRightly(s, Take(eligible, cancel, frame), Step(s, Take(eligible, cancel, frame)))
  {
    BlockShape(s.p.(probe := 2), s.now);
    assert s.p.cool.on ==> s.p.owner != AutoOwns;
    hide Ms, Sub32, Cooled, CooldownStart, CoolInv, OwnerInv;
  }

  lemma BurstEndStays(p: Policy, reason: nat)
    ensures var q := BurstEnd(p, reason); q.cool == p.cool && (q.owner == p.owner || q.owner == Free)
  {
  }

  lemma DoneCools(p: Policy, error: nat, ended: bool, now: nat)
    ensures var q := BurstDone(p, error, ended, now); var hit := p.active && p.owner == AutoOwns && (error == Expired || error == Conflict);
      (hit ==> q.cool.on && q.cool.stable == 0 && q.cool.since == Ms(now) && q.owner == Free) &&
      (!hit ==> q.cool == p.cool || !q.cool.on)
  {
    var r := p.(active := false, failedSkip := p.failedSkip || error != 0, auto := p.auto.(failed := p.auto.failed + 1));
    BlockShape(r, now);
    hide Ms, BurstEnd, CooldownStart;
    BurstEndStays(p.(active := false, burst := p.burst.(failed := p.burst.failed + 1)), 6);
    BurstEndStays(p.(active := false), 4);
    BurstEndStays(p.(active := false, burst := p.burst.(done := p.burst.done + 1), watch := true, lead := true), 1);
  }

  lemma SubmittedCools(p: Policy, repeat: bool)
    ensures var q := BurstSubmitted(p, repeat); q.cool == p.cool && (q.owner == p.owner || q.owner == Free)
  {
  }

  lemma SubmitBegins(s: State, repeat: bool, status: nat, single: nat)
    requires Inv(s)
    ensures BeginsRightly(s, Submit(repeat, status, single), Step(s, Submit(repeat, status, single)))
  {
    DoneCools(s.p, status, false, s.now);
    SubmittedCools(s.p, repeat);
    var q := BurstDone(s.p, status, false, s.now);
    SubmittedCools(q.(failedSkip := false), false);
    hide Ms, Sub32, BurstDone, BurstSubmitted, CoolInv;
  }

  lemma DoneBegins(s: State, ended: bool)
    requires Inv(s)
    ensures BeginsRightly(s, Done(ended), Step(s, Done(ended)))
  {
    DoneCools(s.p, 0, ended, s.now);
    hide Ms, Sub32, BurstDone, CoolInv;
  }

  lemma SkipBegins(s: State)
    requires Inv(s)
    ensures BeginsRightly(s, Skip, Step(s, Skip))
  {
    hide Ms, Sub32, CoolInv;
  }

  lemma OthersBegin(s: State, a: Action)
    requires Inv(s) && !(a.Take? || a.Submit? || a.Done? || a.Skip?)
    ensures BeginsRightly(s, a, Step(s, a))
  {
    hide Ms, Sub32, CoolInv, AfterTake, AfterSubmit, AfterDone, AfterSkip, BurstDone;
  }

  /**
   The cooldown begins exactly when an automatic repeat meets the schedule or the armed probe fires, with no completion
   counted and the clock read anew; while it lasts it is never begun again; and every beginning is in the history as a
   setback unless the probe caused it.
   */
  lemma CooldownBeginsIff(s: State, a: Action)
    requires Inv(s)
    ensures BeginsRightly(s, a, Step(s, a))
    ensures s.p.cool.on ==> !MeetsSchedule(s.p, a) && !ProbeFires(s.p, a)
  {
    assert s.p.cool.on ==> s.p.owner != AutoOwns;
    hide Inv, BeginsRightly, Step;
    match a
    case Take(eligible, cancel, frame) => TakeBegins(s, eligible, cancel, frame);
    case Submit(repeat, status, single) => SubmitBegins(s, repeat, status, single);
    case Done(ended) => DoneBegins(s, ended);
    case Skip => SkipBegins(s);
    case _ => OthersBegin(s, a);
  }

  // --------------------------------------------------------------------------
  // A run with a short cooldown
  // --------------------------------------------------------------------------

  lemma {:induction false} RunAppend(s: State, a: seq<Action>, b: seq<Action>)
    ensures Run(s, a + b) == Run(Run(s, a), b)
    decreases |b|
  {
    hide Step;
    if b == [] {
      assert a + b == a;
    } else {
      assert (a + b)[..|a + b| - 1] == a + b[..|b| - 1];
      RunAppend(s, a, b[..|b| - 1]);
    }
  }

  lemma RunOne(s: State, a: Action)
    ensures Run(s, [a]) == Step(s, a)
  {
    hide Step;
    assert Run(s, [a][..0]) == s;
  }

  /** The first `n` frames, each eligible: they only warm the policy up. */
  function Warming(n: nat): seq<Action> {
    if n == 0 then [] else Warming(n - 1) + [Take(true, false, n - 1)]
  }

  function WarmState(n: nat): State {
    Initial.(p := Boot.(lastFrame := if n == 0 then NoFrame else n - 1, auto := Boot.auto.(warmup := n)))
  }

  lemma {:induction false} WarmsUp(n: nat)
    requires n <= 1000
    ensures Run(Initial, Warming(n)) == WarmState(n)
    decreases n
  {
    if n > 0 {
      hide Run, Step, WarmState;
      WarmsUp(n - 1);
      RunAppend(Initial, Warming(n - 1), [Take(true, false, n - 1)]);
      RunOne(WarmState(n - 1), Take(true, false, n - 1));
      WarmOne(n);
    } else {
      hide Step;
    }
  }

  lemma WarmOne(n: nat)
    requires 1 <= n <= 1000
    ensures Step(WarmState(n - 1), Take(true, false, n - 1)) == WarmState(n)
  {
    hide Ms, Sub32, Cooled, CooldownStart;
  }

  /** Completions of ordinary stereo frames on the 5 ms timeline, the first 4 ms after the setback. */
  function Completions(n: nat): seq<Action> {
    if n == 0 then [] else Completions(n - 1) + [Pass(if n == 1 then 4000 else 5000), Collect(true)]
  }

  predicate CoolingSince(s: State, at: nat) {
    s.p.cool.on && s.p.cool.since == Ms(at) && s.setback.Some? && s.setback.value.at == at && !s.p.lastRepeat &&
    s.p.owner == Free && s.p.enabled && s.p.auto.blocked == 0 && s.p.auto.warmup == 1000
  }

  lemma {:induction false} Completes(s: State, n: nat)
    requires CoolingSince(s, 999) && s.now == 999 && s.p.cool.stable == 0 && n <= 50
    ensures var t := Run(s, Completions(n));
      CoolingSince(t, 999) && t.p.cool.stable == n && t.now == (if n == 0 then 999 else 5000 * n - 1)
    decreases n
  {
    hide Ms, Run, Step, CoolingSince;
    assert Run(s, Completions(0)) == s by { assert Completions(0) == []; NoneRun(s); }
    if n > 0 {
      Completes(s, n - 1);
      var a := Pass(if n == 1 then 4000 else 5000);
      var u := Run(s, Completions(n - 1));
      RunAppend(s, Completions(n - 1), [a, Collect(true)]);
      assert [a, Collect(true)] == [a] + [Collect(true)];
      RunAppend(u, [a], [Collect(true)]);
      RunOne(u, a);
      RunOne(Step(u, a), Collect(true));
      CompleteOne(u, if n == 1 then 4000 else 5000);
    }
  }

  lemma NoneRun(s: State)
    ensures Run(s, []) == s
  {
  }

  lemma CompleteOne(u: State, us: nat)
    requires CoolingSince(u, 999) && u.p.cool.stable < 50
    ensures var t := Step(Step(u, Pass(us)), Collect(true));
      CoolingSince(t, 999) && t.p.cool.stable == u.p.cool.stable + 1 && t.now == u.now + us
  {
    hide Ms;
  }

  /** Warm up, repeat frame 1000, meet a conflict at 999 microseconds, complete 50 frames. */
  const Setting := [Pass(999), Take(true, false, 1000), Submit(true, Conflict, 0)]

  function ShortCooldown(frames: nat, completions: nat): seq<Action> {
    Warming(frames) + Setting + Completions(completions) + [Pass(1)]
  }

  lemma SettingCools()
    ensures var s := Run(WarmState(1000), Setting); CoolingSince(s, 999) && s.now == 999 && s.p.cool.stable == 0
  {
    var s0 := WarmState(1000);
    var s1 := Step(s0, Pass(999));
    var s2 := Step(s1, Take(true, false, 1000));
    assert Setting == [Pass(999)] + [Take(true, false, 1000)] + [Submit(true, Conflict, 0)];
    RunAppend(s0, [Pass(999)] + [Take(true, false, 1000)], [Submit(true, Conflict, 0)]);
    RunAppend(s0, [Pass(999)], [Take(true, false, 1000)]);
    RunOne(s0, Pass(999));
    RunOne(s1, Take(true, false, 1000));
    RunOne(s2, Submit(true, Conflict, 0));
    hide Run, Ms;
    assert s2.auto && s2.p.active && s2.p.owner == AutoOwns && s2.now == 999;
  }

  lemma ShortRun(frames: nat, completions: nat)
    requires frames == 1000 && completions == 50
    ensures var s := Run(Initial, ShortCooldown(frames, completions));
      CoolingSince(s, 999) && s.p.cool.stable == 50 && s.now == 250000
  {
    hide Run, Warming, Completions, WarmState, Ms;
    WarmsUp(frames);
    SettingCools();
    var s := Run(WarmState(frames), Setting);
    Completes(s, completions);
    var t := Run(s, Completions(completions));
    RunAppend(Initial, Warming(frames) + Setting + Completions(completions), [Pass(1)]);
    RunAppend(Initial, Warming(frames) + Setting, Completions(completions));
    RunAppend(Initial, Warming(frames), Setting);
    RunOne(t, Pass(1));
  }

  /** At the end of that run from the start an automatic repeat is taken 249.001 ms after the setback. */
  lemma CooldownMayBeShort()
    ensures var s := Run(Initial, ShortCooldown(1000, 50));
      AutoTake(s.p, true, false, 1050, s.now).1 && s.setback.Some? && s.now - s.setback.value.at == 249001
  {
    hide Run, ShortCooldown;
    ShortRun(1000, 50);
    assert Ms(999) == 0 && Ms(250000) == 250;
  }

  // --------------------------------------------------------------------------
  // Warm-up
  // --------------------------------------------------------------------------

  /** A frame passed over outside any repeat, its watch and its cooldown: the warm-up starts over. */
  predicate StartsOver(s: State, a: Action) {
    a.NewSession? || (a.Skip? && !s.p.active && !s.p.watch && s.p.auto.active == 0 && !s.p.cool.on)
  }

  /** Frames eligible for a repeat that were offered since the warm-up last started over. */
  function Offered(actions: seq<Action>): seq<nat> {
    if actions == [] then []
    else
      var a, before := actions[|actions| - 1], actions[..|actions| - 1];
      if StartsOver(Run(Initial, before), a) then []
      else if a.Take? && a.eligible && !a.cancel then Offered(before) + [a.frame]
      else Offered(before)
  }

  /** How often a sequence of frames moves on to another frame; the first one counts. */
  function Changes(frames: seq<nat>): nat {
    if frames == [] then 0
    else
      var n := |frames| - 1;
      Changes(frames[..n]) + (if n == 0 || frames[n] != frames[n - 1] then 1 else 0)
  }

  /** The warm-up counts at most the changes, and one less when the last offer was not looked at. */
  predicate WarmInv(p: Policy, offered: seq<nat>) {
    p.auto.warmup <= Changes(offered) &&
    (if offered == [] then p.lastFrame == NoFrame
     else p.lastFrame != offered[|offered| - 1] ==> p.auto.warmup + 1 <= Changes(offered))
  }

  lemma ChangesMore(frames: seq<nat>, f: nat)
    ensures Changes(frames + [f]) == Changes(frames) + (if frames == [] || f != frames[|frames| - 1] then 1 else 0)
  {
    assert (frames + [f])[..|frames|] == frames;
  }

  predicate SameWarm(p: Policy, q: Policy) {
    q.auto.warmup == p.auto.warmup && q.lastFrame == p.lastFrame
  }

  /** Whatever is not a take or a start over leaves the warm-up alone. */
  lemma WarmStays(s: State, a: Action)
    requires !StartsOver(s, a) && !a.Take?
    ensures SameWarm(s.p, Step(s, a).p)
  {
    hide Ms, Sub32;
    match a
    case Submit(repeat, status, single) =>
      DoneWarm(s.p, status, false, s.now);
      SubmitWarm(s.p, s.auto, repeat, status, single, s.now);
      hide BurstDone, Submitted;
    case Done(ended) =>
      DoneWarm(s.p, 0, ended, s.now);
      hide BurstDone;
    case Skip => if !s.p.active { SkipWarm(s.p, s.now); } hide BurstSkip;
    case End(cancelled) =>
      FinishWarm(s.p, cancelled, s.now);
      hide Finish;
    case _ => OthersWarm(s, a);
  }

  lemma OthersWarm(s: State, a: Action)
    requires !(a.Take? || a.Submit? || a.Done? || a.Skip? || a.End? || a.NewSession?)
    ensures SameWarm(s.p, Step(s, a).p)
  {
    hide Ms, Sub32, AfterTake, AfterSubmit, AfterDone, AfterSkip, Finish, BurstTick, BurstTake, BurstEnd;
    match a
    case Tick => TickWarm(s.p, s.now);
    case TakeBurst(eligible) => BurstWarm(s.p, eligible, s.now);
    case Stop => EndWarm(s.p, 3, s.now);
    case _ =>
  }

  lemma TickWarm(p: Policy, now: nat)
    ensures SameWarm(p, BurstTick(p, now))
  {
    hide Ms, Sub32;
  }

  lemma BurstWarm(p: Policy, eligible: bool, now: nat)
    ensures SameWarm(p, BurstTake(p, eligible, now).0)
  {
    TickWarm(p, now);
    EndWarm(BurstTick(p, now), 1, now);
    hide BurstTick, BurstEnd;
  }

  lemma EndWarm(p: Policy, reason: nat, now: nat)
    ensures SameWarm(p, AutoBlock(p)) && SameWarm(p, CooldownStart(p, now)) && SameWarm(p, BurstEnd(p, reason))
  {
    hide Ms;
  }

  lemma DoneWarm(p: Policy, error: nat, ended: bool, now: nat)
    ensures SameWarm(p, BurstDone(p, error, ended, now))
  {
    hide Ms;
  }

  lemma SubmitWarm(p: Policy, automatic: bool, repeat: bool, status: nat, single: nat, now: nat)
    ensures SameWarm(p, Submitted(p, automatic, repeat, status, single, now).0)
  {
    DoneWarm(p, status, false, now);
    hide BurstDone, Ms;
  }

  lemma FinishWarm(p: Policy, cancelled: bool, now: nat)
    ensures SameWarm(p, Finish(p, cancelled, now))
  {
    var q := p.(probe := if p.probe == 1 then 2 else p.probe, watch := false, lead := false);
    DoneWarm(q, 0, false, now);
    EndWarm(BurstDone(q, 0, false, now), if cancelled then 3 else 4, now);
    hide BurstDone, BurstEnd;
  }

  lemma SkipWarm(p: Policy, now: nat)
    requires p.watch || p.auto.active != 0 || p.cool.on
    ensures SameWarm(p, BurstSkip(p, now))
  {
    hide Ms;
  }

  /** A take looks at the frame or leaves the warm-up alone. */
  lemma TakeLooks(p: Policy, eligible: bool, cancel: bool, frame: nat, now: nat)
    ensures var (q, taken) := AutoTake(p, eligible, cancel, frame, now);
      (SameWarm(p, q) || (eligible && !cancel && SameWarm(Warm(p, frame), q))) &&
      (taken ==> eligible && !cancel && SameWarm(Warm(p, frame), q) && q.auto.warmup >= 1000 && frame >= 1000)
  {
    EndWarm(p.(probe := 2), 0, now);
    hide Cooled, CooldownStart;
  }

  lemma TakeWarm(p: Policy, eligible: bool, cancel: bool, frame: nat, now: nat, offered: seq<nat>)
    requires WarmInv(p, offered)
    ensures var (q, taken) := AutoTake(p, eligible, cancel, frame, now);
      WarmInv(q, if eligible && !cancel then offered + [frame] else offered) && (taken ==> eligible && !cancel && q.auto.warmup >= 1000 && frame >= 1000)
  {
    hide Changes, AutoTake;
    ChangesMore(offered, frame);
    TakeLooks(p, eligible, cancel, frame, now);
  }

  lemma StepWarm(s: State, a: Action, offered: seq<nat>)
    requires WarmInv(s.p, offered)
    ensures WarmInv(Step(s, a).p, if StartsOver(s, a) then [] else if a.Take? && a.eligible && !a.cancel then offered + [a.frame] else offered)
  {
    hide Ms, Sub32, Changes;
    if StartsOver(s, a) {
      assert Changes([]) == 0 by { EmptyChanges(); }
    } else if a.Take? {
      TakeWarm(s.p, a.eligible, a.cancel, a.frame, s.now, offered);
      if s.p.active && a.eligible && !a.cancel { ChangesMore(offered, a.frame); }
      hide AutoTake;
    } else {
      WarmStays(s, a);
      hide Step;
    }
  }

  lemma EmptyChanges()
    ensures Changes([]) == 0
  {
  }

  lemma {:induction false} RunWarm(actions: seq<Action>)
    ensures WarmInv(Run(Initial, actions).p, Offered(actions))
    decreases |actions|
  {
    if actions == [] {
      EmptyChanges();
    } else {
      hide Step, WarmInv, StartsOver, Changes;
      var before := actions[..|actions| - 1];
      RunWarm(before);
      StepWarm(Run(Initial, before), actions[|actions| - 1], Offered(before));
    }
  }

  /**
   In every run an automatic repeat is taken only from frame 1000 on, and after at least 1000 changes of the eligible
   frame offered since the session began or a frame was last passed over outside repeats and cooldown.
   */
  lemma NoRepeatBeforeWarm(actions: seq<Action>, eligible: bool, cancel: bool, frame: nat)
    requires var s := Run(Initial, actions); AutoTake(s.p, eligible, cancel, frame, s.now).1
    ensures frame >= 1000 && Changes(Offered(actions) + [frame]) >= 1000
  {
    hide Run, Offered, AutoTake, Changes;
    RunWarm(actions);
    var s := Run(Initial, actions);
    TakeWarm(s.p, eligible, cancel, frame, s.now, Offered(actions));
  }

  // --------------------------------------------------------------------------
  // Sessions, fallback and the armed burst
  // --------------------------------------------------------------------------

  /** The end of a session blocks automatic repeats and frees the right; a new one starts without block, cooldown or warm-up. */
  lemma SessionsAreApart(p: Policy, cancelled: bool, now: nat)
    ensures var q := Finish(p, cancelled, now); q.auto.blocked != 0 && q.owner == Free && !q.cool.on && !q.watch && !q.lead
    ensures var q := Rearm(p);
      q.auto.blocked == 0 && q.auto.warmup == 0 && !q.cool.on && !q.lastRepeat && q.lastFrame == NoFrame && !q.failedSkip
  {
    hide Ms;
    var q := p.(probe := if p.probe == 1 then 2 else p.probe, watch := false, lead := false);
    FinishClears(BurstDone(q, 0, false, now), if cancelled then 3 else 4);
    DoneClears(q, now);
    hide BurstDone, BurstEnd;
  }

  lemma DoneClears(p: Policy, now: nat)
    requires !p.watch && !p.lead
    ensures !BurstDone(p, 0, false, now).watch && !BurstDone(p, 0, false, now).lead
  {
    hide Ms;
  }

  lemma FinishClears(p: Policy, reason: nat)
    ensures BurstEnd(p, reason).watch == p.watch && BurstEnd(p, reason).lead == p.lead
  {
  }

  /**
   A submission succeeds exactly when the first try does, or an automatic repeat conflicts and its ordinary shape succeeds; the
   event counts as a repeat only in the first case.
   */
  lemma SubmissionAnswers(p: Policy, automatic: bool, repeat: bool, status: nat, single: nat, now: nat)
    ensures var (q, answer) := Submitted(p, automatic, repeat, status, single, now);
      var second := automatic && status == Conflict && single == 0;
      answer == (if second then 0 else status) && (answer == 0 ==> q.lastRepeat == (repeat && !second) && !q.watch) &&
      (second ==> !q.failedSkip)
  {
    hide BurstDone, AutoRelease, BurstEnd;
    forall r: Policy, reason: nat
      ensures var e := BurstEnd(r, reason); e.watch == r.watch && e.lastRepeat == r.lastRepeat && e.failedSkip == r.failedSkip
    {
      EndLeaves(r, reason);
    }
    forall r: Policy
      ensures var e := AutoRelease(r); e.watch == r.watch && e.lastRepeat == r.lastRepeat && e.failedSkip == r.failedSkip
    {
      EndLeaves(r, 0);
    }
  }

  lemma EndLeaves(r: Policy, reason: nat)
    ensures BurstEnd(r, reason).watch == r.watch && BurstEnd(r, reason).lastRepeat == r.lastRepeat
    ensures BurstEnd(r, reason).failedSkip == r.failedSkip && AutoRelease(r).watch == r.watch
    ensures AutoRelease(r).lastRepeat == r.lastRepeat && AutoRelease(r).failedSkip == r.failedSkip
  {
  }

  /** A burst is armed once, while transmitting and with the right free; it takes at most 24000 frames within 125 seconds. */
  lemma BurstIsBounded(p: Policy, eligible: bool, transmitting: bool, now: nat)
    ensures var q := BurstArm(p, transmitting, now);
      if transmitting && p.owner == Free && p.burst.state == Unused then
        q.burst.state == Armed && q.owner == BurstOwns && q.burst.started == Ms(now) && BurstTake(q, true, now).1 == (q.burst.count < 24000)
      else q == p
    ensures var (q, taken) := BurstTake(p, eligible, now);
      taken ==> eligible && q.burst.state == Running && q.active && q.burst.count == p.burst.count + 1 <= 24000 &&
                Sub32(Ms(now), p.burst.started) < 125000 && (p.burst.state == Armed || p.burst.state == Running)
  {
    hide Ms, BurstEnd, AutoRelease;
    assert Sub32(Ms(now), Ms(now)) == 0;
    EndCloses(p, 2);
    EndCloses(AutoRelease(p), 2);
    ReleaseLeaves(p);
  }

  lemma EndCloses(p: Policy, reason: nat)
    ensures BurstEnd(p, reason).burst.state != Armed && BurstEnd(p, reason).burst.state != Running
  {
  }

  lemma ReleaseLeaves(p: Policy)
    ensures AutoRelease(p).burst == p.burst
  {
  }
}
