/**
 The trial pump (trial_pump.c): a timer callback that sends at most one step command to the controller, the
 completion that clears it, the ends of a run, and the question whether the pump is busy. Every access to the
 shared flags is a step; callbacks run one at a time in the timer task.
 */
module TrialPump {

  /** The timer callback, before each of its accesses. */
  datatype Tick = Out | LoadActive | CheckTime | LoadPending | Publish | Send | Withdraw | Leave

  /** The three loads of `busy`, in the order of the code: active, tick_running, pending. */
  datatype Asker = Idle | SawInactive | SawNoTick | Said(busy: bool)

  /** `outstanding`: commands sent and not completed. `restarted`: a start since the asker's first load. */
  datatype State = State(
    active: bool, pending: bool, running: nat, tick: Tick, asker: Asker, outstanding: nat, restarted: bool)

  const Initial := State(false, false, 0, Out, Idle, 0, false)

  datatype Action =
    | TickMoves(end: bool, sent: bool)
    | Complete(failed: bool)
    | Finish
    | Start
    | Ask

  /** `end`: the run's time is over, or the command in hand is too old; `sent`: the controller takes the command. */
  function TickStep(s: State, end: bool, sent: bool): State {
    match s.tick
    case Out => s.(running := s.running + 1, tick := LoadActive)
    case LoadActive => s.(tick := if s.active then CheckTime else Leave)
    case CheckTime => if end then s.(active := false, tick := Leave) else s.(tick := LoadPending)
    case LoadPending =>
      if s.pending then s.(active := s.active && !end, tick := Leave) else s.(tick := Publish)
    case Publish => s.(pending := true, tick := Send)
    case Send => if sent then s.(outstanding := s.outstanding + 1, tick := Leave) else s.(tick := Withdraw)
    case Withdraw => s.(pending := false, tick := Leave)
    case Leave => s.(running := if s.running > 0 then s.running - 1 else 0, tick := Out)
  }

  function AskStep(s: State): State {
    match s.asker
    case Idle => s.(asker := if s.active then Said(true) else SawInactive, restarted := false)
    case SawInactive => s.(asker := if s.running != 0 then Said(true) else SawNoTick)
    case SawNoTick => s.(asker := Said(s.pending))
    case Said(_) => s.(asker := Idle)
  }

  function Step(s: State, a: Action): State {
    match a
    case TickMoves(end, sent) => TickStep(s, end, sent)
    case Complete(failed) =>
      if s.outstanding == 0 then s
      else s.(outstanding := s.outstanding - 1, pending := false, active := s.active && !failed)
    case Finish => s.(active := false)
    case Start => if s.active then s else s.(active := true, restarted := true)
    case Ask => AskStep(s)
  }

  function Run(s: State, actions: seq<Action>): State {
    if actions == [] then s else Step(Run(s, actions[..|actions| - 1]), actions[|actions| - 1])
  }

  /** The callback may still send: it saw the pump active. */
  predicate MaySend(t: Tick) {
    t.CheckTime? || t.LoadPending? || t.Publish? || t.Send?
  }

  /** What has been learned since the asker's first load, unless a start came in between. */
  predicate AskerInv(s: State) {
    match s.asker
    case Idle => true
    case SawInactive => !s.active
    case SawNoTick => !s.active && !MaySend(s.tick) && !s.tick.Withdraw?
    case Said(busy) => busy || (!s.active && !MaySend(s.tick) && !s.tick.Withdraw? && !s.pending && s.outstanding == 0)
  }

  predicate Inv(s: State) {
    s.outstanding <= 1 && (s.outstanding == 1 ==> s.pending) &&
    (s.pending ==> s.outstanding == 1 || s.tick.Send? || s.tick.Withdraw?) &&
    (s.tick.Publish? ==> !s.pending && s.outstanding == 0) &&
    (s.tick.Send? || s.tick.Withdraw? ==> s.pending && s.outstanding == 0) &&
    s.running == (if s.tick.Out? then 0 else 1) && (!s.restarted ==> AskerInv(s))
  }

  lemma TickKeeps(s: State, end: bool, sent: bool)
    requires Inv(s)
    ensures Inv(TickStep(s, end, sent))
  {
  }

  lemma StepKeeps(s: State, a: Action)
    requires Inv(s)
    ensures Inv(Step(s, a))
  {
    if a.TickMoves? { TickKeeps(s, a.end, a.sent); }
    hide TickStep;
  }

  lemma {:induction false} RunKeeps(s: State, actions: seq<Action>)
    requires Inv(s)
    ensures Inv(Run(s, actions))
    decreases |actions|
  {
    if actions != [] {
      RunKeeps(s, actions[..|actions| - 1]);
      StepKeeps(Run(s, actions[..|actions| - 1]), actions[|actions| - 1]);
    }
  }

  /** In every interleaving at most one step command is outstanding. */
  lemma OneOutstanding(actions: seq<Action>)
    ensures Run(Initial, actions).outstanding <= 1
  {
    RunKeeps(Initial, actions);
  }

  predicate SaidIdle(s: State) {
    s.asker == Said(false) && !s.restarted
  }

  /** Inactive, nothing outstanding, and the callback can neither send nor withdraw. */
  predicate AtRest(s: State) {
    !s.active && !s.pending && s.outstanding == 0 && !MaySend(s.tick) && !s.tick.Withdraw?
  }

  /** Only a start ends the rest; new questions do not. */
  lemma {:induction false} RestStays(s: State, later: seq<Action>)
    requires AtRest(s) && Start !in later
    ensures AtRest(Run(s, later))
    decreases |later|
  {
    if later != [] {
      RestStays(s, later[..|later| - 1]);
    }
  }

  /**
   Once the pump has said that it is not busy (with no start since the question began), no command is outstanding and
   none is sent until the next start, whatever callbacks, completions, ends and further questions still happen.
   */
  lemma IdleStaysIdle(actions: seq<Action>, later: seq<Action>)
    requires SaidIdle(Run(Initial, actions)) && Start !in later
    ensures Run(Run(Initial, actions), later).outstanding == 0 && !Run(Run(Initial, actions), later).active
  {
    RunKeeps(Initial, actions);
    RestStays(Run(Initial, actions), later);
  }

  // --------------------------------------------------------------------------
  // Asking in another order
  // --------------------------------------------------------------------------

  /** A callback that is inside when the question starts with `pending`: it publishes, sends and leaves. */
  const Inside := State(true, false, 1, LoadPending, Idle, 0, false)

  function SendAndEnd(s: State): State {
    Step(TickStep(TickStep(TickStep(TickStep(s, false, true), false, true), false, true), false, true), Finish)
  }

  /**
   Were `pending` loaded first, the answer could be wrong: it is false at the start, and after the callback's last
   command the other two are false as well, with that command outstanding.
   */
  lemma PendingFirstIsWrong()
    ensures Inv(Inside) && !Inside.pending
    ensures var t := SendAndEnd(Inside); !t.active && t.running == 0 && t.outstanding == 1
  {
  }

  /** One undisturbed beat of an active pump sends one command; its completion, and only that, makes room for the next. */
  lemma OneBeat(s: State)
    requires s.active && !s.pending && s.tick.Out? && s.outstanding == 0
    ensures var beat := TickMoves(false, true);
      var sent := Step(Step(Step(Step(Step(Step(Step(s, beat), beat), beat), beat), beat), beat), beat);
      sent == s.(pending := true, outstanding := 1) && Step(sent, Complete(false)) == s &&
      Step(sent, Complete(true)) == s.(active := false) &&
      Step(Step(Step(Step(Step(sent, beat), beat), beat), beat), beat) == sent
  {
  }

  /** A command that the controller does not take is withdrawn. */
  lemma RefusedBeat(s: State)
    requires s.active && !s.pending && s.tick.Out?
    ensures var beat := TickMoves(false, false);
      Step(Step(Step(Step(Step(Step(Step(Step(s, beat), beat), beat), beat), beat), beat), beat), beat) == s
  {
  }

  /** Busy is the disjunction of active, a running callback, and a pending command, each as loaded; a start makes the pump active. */
  lemma BusyIs(s: State)
    requires s.asker.Idle?
    ensures var a := Step(s, Ask); var b := Step(a, Ask); var c := Step(b, Ask);
      if s.active then a.asker == Said(true) else if s.running != 0 then b.asker == Said(true)
      else c.asker == Said(s.pending) && Step(c, Ask).asker.Idle?
    ensures Step(s, Start).active && !Step(s, Finish).active
  {
  }
}
