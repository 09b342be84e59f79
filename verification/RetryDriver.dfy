/**
 The repeat policy as it is written (tone_trial.c): static flags and counters updated in place.
 Every method is proved to make exactly the step of module RetryPolicy.
 */
module RetryDriver {
  import opened Words
  import opened R = RetryPolicy

  class Repeats {
    var owner: nat
    var burst: Burst
    var active: bool
    var watch: bool
    var lead: bool
    var enabled: bool
    var auto: Auto
    var cool: Cooldown
    var lastFrame: int
    var failedSkip: bool
    var lastRepeat: bool
    var probe: nat

    function Value(): Policy
      reads this
    {
      Policy(owner, burst, active, watch, lead, enabled, auto, cool, lastFrame, failedSkip, lastRepeat, probe)
    }

    constructor ()
      ensures Value() == Boot
    {
      owner, burst, active, watch, lead, enabled := Free, Burst(Unused, 0, 0, 0, 0, 0, 0), false, false, false, true;
      auto, cool := Auto(0, 0, 0, 0, 0, 0, 0), Cooldown(false, 0, 0, 0);
      lastFrame, failedSkip, lastRepeat, probe := NoFrame, false, false, 0;
    }

    method Release()
      modifies this`auto, this`owner
      ensures Value() == AutoRelease(old(Value()))
    {
      auto := auto.(active := 0);
      if owner == AutoOwns { owner := Free; }
    }

    method Block()
      modifies this`auto, this`owner, this`cool, this`watch, this`lead
      ensures Value() == AutoBlock(old(Value()))
    {
      cool := cool.(on := false, stable := 0);
      auto := auto.(blocked := 1);
      watch, lead := false, false;
      Release();
    }

    method StartCooldown(now: nat)
      modifies this`auto, this`owner, this`cool, this`watch, this`lead
      ensures Value() == CooldownStart(old(Value()), now)
    {
      hide Ms;
      cool := cool.(since := Ms(now));
      cool := cool.(on := true, stable := 0);
      watch, lead := false, false;
      Release();
    }

    method Completed(stereo: bool)
      modifies this`cool
      ensures Value() == OrdinaryCompleted(old(Value()), stereo)
    {
      if !cool.on { return; }
      if !stereo || lastRepeat {
        cool := cool.(stable := 0);
        return;
      }
      if cool.stable < 50 { cool := cool.(stable := cool.stable + 1); }
    }

    method Take(eligible: bool, cancel: bool, frame: nat, now: nat) returns (taken: bool)
      modifies this
      ensures (Value(), taken) == AutoTake(old(Value()), eligible, cancel, frame, now)
    {
      hide CooldownStart, Cooled, Warm;
      if !eligible || cancel || !enabled || auto.blocked != 0 { return false; }
      if owner != Free && owner != AutoOwns { return false; }
      if owner == AutoOwns && !active && probe == 1 {
        probe := 2;
        StartCooldown(now);
        return false;
      }
      if cool.on && !Cooled(Value(), now) { return false; }
      WarmUp(frame);
      if auto.warmup < 1000 || frame < 1000 { return false; }
      Grant();
      return true;
    }

    method WarmUp(frame: nat)
      modifies this`lastFrame, this`auto
      ensures Value() == Warm(old(Value()), frame)
    {
      if lastFrame != frame {
        lastFrame := frame;
        if auto.warmup < 1000 { auto := auto.(warmup := auto.warmup + 1); }
      }
    }

    method Grant()
      modifies this`owner, this`active, this`cool, this`auto
      ensures owner == AutoOwns && active && auto == old(auto).(active := 1, attempts := old(auto).attempts + 1)
      ensures cool == if old(cool).on then old(cool).(on := false, recoveries := old(cool).recoveries + 1) else old(cool)
    {
      owner := AutoOwns;
      if cool.on { cool := cool.(on := false, recoveries := cool.recoveries + 1); }
      auto := auto.(active := 1, attempts := auto.attempts + 1);
      active := true;
    }

    method EndBurst(reason: nat)
      modifies this`burst, this`owner
      ensures Value() == BurstEnd(old(Value()), reason)
    {
      if burst.state == Armed || burst.state == Running { burst := burst.(reason := reason, state := Closed); }
      if !active && !watch && owner == BurstOwns { owner := Free; }
    }

    method TickBurst(now: nat)
      modifies this`burst, this`owner, this`auto
      ensures Value() == BurstTick(old(Value()), now)
    {
      hide Ms, Sub32, BurstEnd;
      if owner == AutoOwns && !enabled && !active && !watch { Release(); }
      if (burst.state == Armed || burst.state == Running) && Sub32(Ms(now), burst.started) >= 125000 { EndBurst(2); }
    }

    method TakeBurst(eligible: bool, now: nat) returns (taken: bool)
      modifies this`burst, this`owner, this`auto, this`active
      ensures (Value(), taken) == BurstTake(old(Value()), eligible, now)
    {
      hide BurstTick, BurstEnd;
      TickBurst(now);
      if !eligible || (burst.state != Armed && burst.state != Running) { return false; }
      if burst.count >= 24000 {
        EndBurst(1);
        return false;
      }
      burst := burst.(state := Running, count := burst.count + 1);
      active := true;
      return true;
    }

    method Done(error: nat, ended: bool, now: nat)
      modifies this
      ensures Value() == BurstDone(old(Value()), error, ended, now)
    {
      hide CooldownStart, AutoBlock, BurstEnd;
      if !active { return; }
      active := false;
      if owner == AutoOwns {
        AutoDone(error, ended, now);
      } else {
        ExplicitDone(error, ended);
      }
    }

    method AutoDone(error: nat, ended: bool, now: nat)
      requires owner == AutoOwns && !active
      modifies this
      ensures Value() == BurstDone(old(Value()).(active := true), error, ended, now)
    {
      hide CooldownStart, AutoBlock, BurstEnd;
      if error != 0 || !ended {
        if error != 0 { failedSkip := true; }
        auto := auto.(failed := auto.failed + 1);
        if error == Expired || error == Conflict { StartCooldown(now); } else { Block(); }
      } else {
        auto := auto.(done := auto.done + 1);
        watch, lead := true, true;
      }
    }

    method ExplicitDone(error: nat, ended: bool)
      requires owner != AutoOwns && !active
      modifies this`burst, this`owner, this`watch, this`lead
      ensures forall now: nat :: Value() == BurstDone(old(Value()).(active := true), error, ended, now)
    {
      hide CooldownStart, AutoBlock, BurstEnd;
      if error != 0 {
        burst := burst.(failed := burst.failed + 1);
        EndBurst(6);
      } else if !ended {
        EndBurst(4);
      } else {
        burst := burst.(done := burst.done + 1);
        watch, lead := true, true;
        if burst.count >= 24000 { EndBurst(1); }
      }
    }

    method Skip(now: nat)
      modifies this
      ensures Value() == BurstSkip(old(Value()), now)
    {
      hide CooldownStart, BurstEnd;
      if cool.on { cool := cool.(stable := 0); }
      if failedSkip {
        auto := auto.(skipped := auto.skipped + 1);
        failedSkip := false;
      }
      if !watch {
        if auto.active == 0 && !cool.on {
          auto := auto.(warmup := 0);
          lastFrame := NoFrame;
        }
      } else if owner == AutoOwns {
        auto := auto.(skipped := auto.skipped + 1);
        StartCooldown(now);
      } else {
        burst := burst.(skipped := burst.skipped + 1);
        watch, lead := false, false;
        EndBurst(5);
      }
    }

    method OnSubmitted(repeat: bool)
      modifies this`lastRepeat, this`watch, this`auto, this`owner, this`burst
      ensures Value() == BurstSubmitted(old(Value()), repeat)
    {
      hide BurstEnd;
      lastRepeat := repeat;
      watch := false;
      if owner == AutoOwns && !active && !enabled { Release(); }
      if burst.state == Closed { EndBurst(burst.reason); }
    }

    /** Submit a frame: `status` is the first answer of the radio, `single` the one for the ordinary shape. */
    method SubmitWithFallback(automatic: bool, repeat: bool, status: nat, single: nat, now: nat) returns (result: nat)
      modifies this
      ensures (Value(), result) == Submitted(old(Value()), automatic, repeat, status, single, now)
    {
      hide BurstDone, BurstSubmitted;
      if !automatic || status != Conflict {
        if status != 0 { Done(status, false, now); } else { OnSubmitted(repeat); }
        return status;
      }
      Done(status, false, now);
      if single == 0 {
        failedSkip := false;
        OnSubmitted(false);
        return 0;
      }
      return status;
    }

    method FinishSession(cancelled: bool, now: nat)
      modifies this
      ensures Value() == Finish(old(Value()), cancelled, now)
    {
      hide BurstDone, BurstEnd;
      CloseProbe();
      Done(0, false, now);
      EndBurst(if cancelled then 3 else 4);
      BlockAll();
    }

    method CloseProbe()
      modifies this`probe, this`watch, this`lead
      ensures Value() == old(Value()).(probe := if old(probe) == 1 then 2 else old(probe), watch := false, lead := false)
    {
      if probe == 1 { probe := 2; }
      watch, lead := false, false;
    }

    method BlockAll()
      modifies this`cool, this`auto, this`owner
      ensures Value() == old(Value()).(
        cool := old(cool).(on := false, stable := 0), auto := old(auto).(active := 0, blocked := 1), owner := Free)
    {
      cool := cool.(on := false, stable := 0);
      auto := auto.(active := 0, blocked := 1);
      owner := Free;
    }

    method RearmSession()
      modifies this`auto, this`lastFrame, this`failedSkip, this`cool, this`lastRepeat
      ensures Value() == Rearm(old(Value()))
    {
      auto := auto.(active := 0, blocked := 0);
      auto := auto.(warmup := 0);
      lastFrame, failedSkip, lastRepeat := NoFrame, false, false;
      cool := cool.(on := false, stable := 0);
    }
  }
}
