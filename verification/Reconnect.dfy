/**
 Stopping the codec worker for a reconnect (reconnect_barrier.h, pcm_stream.c, auto_link.c, controller_diag.c):
 the coordinator asks, the worker acknowledges and parks, the controller rearms the audio queue on the
 coordinator's command, and the worker leaves. Every load and store of the two flags is a step of its own.
 */
module Reconnect {

  /** The codec worker: at the top of its loop, inside a cycle, or on its way through the barrier. */
  datatype Worker = Top | Cycling | Clearing | Parked | Leaving

  /** The coordinator; `Dead` once a step failed, after which it only restarts the device. */
  datatype Coordinator = Streaming | SawNoAck | SawNoRequest | Waiting | SawRequest | Paused | Commanding | Dead

  /** The controller, carrying out one rearm command; `Rearming` counts the accesses still to do. */
  datatype Controller = Quiet | Called | Check1 | Check2 | Check3 | Rearming(left: nat) | Rearmed | Refused

  datatype State = State(
    requested: bool, acknowledged: bool, worker: Worker, coordinator: Coordinator, controller: Controller,
    round: nat, ackRound: nat)

  const Initial := State(false, false, Top, Streaming, Quiet, 0, 0)

  /** Accesses of a rearm after its checks: two loads, the count, the index, the flag, the latches. */
  const RearmAccesses := 6

  datatype Action = WorkerMoves(more: bool) | CoordinatorMoves(giveUp: bool) | ControllerMoves(ok: bool)

  function WorkerStep(s: State, more: bool): State {
    match s.worker
    case Top => s.(worker := if s.requested then Clearing else Cycling)
    case Cycling => s.(worker := if more then Cycling else Top)
    case Clearing => s.(acknowledged := true, ackRound := s.round, worker := Parked)
    case Parked => s.(worker := if s.requested then Parked else Leaving)
    case Leaving => s.(acknowledged := false, worker := Top)
  }

  /** `giveUp`: the waiting time is over, or the command timed out. */
  function CoordinatorStep(s: State, giveUp: bool): State {
    match s.coordinator
    case Streaming => s.(coordinator := if s.acknowledged then Dead else SawNoAck)
    case SawNoAck => s.(coordinator := if s.requested then Dead else SawNoRequest)
    case SawNoRequest => s.(requested := true, round := s.round + 1, coordinator := Waiting)
    case Waiting => s.(coordinator := if s.requested then SawRequest else if giveUp then Dead else Waiting)
    case SawRequest => s.(coordinator := if s.acknowledged then Paused else if giveUp then Dead else Waiting)
    case Paused => s.(coordinator := Commanding, controller := if s.controller.Quiet? then Called else s.controller)
    case Commanding =>
      if giveUp || s.controller.Refused? then s.(coordinator := Dead)
      else if s.controller.Rearmed? then s.(requested := false, coordinator := Streaming, controller := Quiet)
      else s
    case Dead => s
  }

  /** `ok`: the pump is idle and the trial could be rearmed. */
  function ControllerStep(s: State, ok: bool): State {
    match s.controller
    case Quiet => s
    case Called => s.(controller := if s.requested then Check1 else Refused)
    case Check1 => s.(controller := if s.acknowledged && ok then Check2 else Refused)
    case Check2 => s.(controller := if s.requested then Check3 else Refused)
    case Check3 => s.(controller := if s.acknowledged then Rearming(RearmAccesses) else Refused)
    case Rearming(left) => s.(controller := if left == 0 then Rearmed else Rearming(left - 1))
    case Rearmed => s
    case Refused => s
  }

  function Step(s: State, a: Action): State {
    match a
    case WorkerMoves(more) => WorkerStep(s, more)
    case CoordinatorMoves(giveUp) => CoordinatorStep(s, giveUp)
    case ControllerMoves(ok) => ControllerStep(s, ok)
  }

  function Run(s: State, actions: seq<Action>): State {
    if actions == [] then s else Step(Run(s, actions[..|actions| - 1]), actions[|actions| - 1])
  }

  /** The coordinator has taken the worker's acknowledgement of this round. */
  predicate Holds(c: Coordinator) {
    c.Paused? || c.Commanding?
  }

  predicate Inv(s: State) {
    (s.acknowledged <==> s.worker.Parked? || s.worker.Leaving?) &&
    (s.worker.Leaving? ==> !s.requested) && (s.worker.Clearing? ==> s.requested) &&
    (s.acknowledged && s.requested ==> s.ackRound == s.round) &&
    (s.coordinator.Streaming? ==> !s.requested) &&
    (s.coordinator.SawNoAck? || s.coordinator.SawNoRequest? ==> !s.requested && !s.acknowledged) &&
    (s.coordinator.Waiting? || s.coordinator.SawRequest? || Holds(s.coordinator) ==> s.requested) &&
    (Holds(s.coordinator) ==> s.acknowledged) &&
    (!s.controller.Quiet? ==> s.coordinator.Commanding? || (s.coordinator.Dead? && s.requested && s.acknowledged))
  }

  lemma StepKeeps(s: State, a: Action)
    requires Inv(s)
    ensures Inv(Step(s, a))
  {
  }

  lemma {:induction false} RunKeeps(actions: seq<Action>)
    ensures Inv(Run(Initial, actions))
    decreases |actions|
  {
    if actions != [] {
      RunKeeps(actions[..|actions| - 1]);
      StepKeeps(Run(Initial, actions[..|actions| - 1]), actions[|actions| - 1]);
    }
  }

  /**
   In every interleaving over repeated reconnects: while the controller carries out a rearm command the worker is
   parked, so no cycle of it overlaps.
   */
  lemma RearmOnlyWhileParked(actions: seq<Action>)
    ensures var s := Run(Initial, actions); !s.controller.Quiet? ==> s.worker.Parked? && s.requested && s.acknowledged
  {
    RunKeeps(actions);
  }

  /** An acknowledgement that the coordinator acts on is the worker's answer to the request of this round. */
  lemma AcknowledgementIsFresh(actions: seq<Action>)
    ensures var s := Run(Initial, actions); Holds(s.coordinator) ==> s.worker.Parked? && s.ackRound == s.round
  {
    RunKeeps(actions);
  }

  /** A coordinator that comes back before the worker has left is refused instead of taking the old acknowledgement. */
  lemma EarlyReturnIsRefused(actions: seq<Action>)
    ensures var s := Run(Initial, actions);
      s.coordinator.Streaming? && (s.worker.Parked? || s.worker.Leaving?) ==>
        CoordinatorStep(s, false).coordinator.Dead? && CoordinatorStep(s, false).round == s.round
  {
    RunKeeps(actions);
  }

  /**
   The order matters: were the rearm command's checks answered after the coordinator had already let the worker go,
   the worker could be inside a cycle while the controller rearms.
   */
  lemma UnorderedRearmOverlaps()
    ensures var s := State(false, true, Parked, Streaming, Check3, 1, 1);
      var t := WorkerStep(WorkerStep(WorkerStep(ControllerStep(s, true), false), false), true);
      t.controller.Rearming? && t.worker.Cycling?
  {
  }

  function Steps(s: State, actions: seq<Action>): State
    decreases |actions|
  {
    if actions == [] then s else Steps(Step(s, actions[0]), actions[1..])
  }

  function Again(a: Action, n: nat): seq<Action> {
    if n == 0 then [] else [a] + Again(a, n - 1)
  }

  lemma StepsAgain(s: State, a: Action, n: nat)
    ensures Steps(s, Again(a, n)) == if n == 0 then s else Steps(Step(s, a), Again(a, n - 1))
  {
    if n > 0 { assert Again(a, n)[1..] == Again(a, n - 1); }
  }

  /** The coordinator asks, and the worker finishes its cycle and parks. */
  lemma RoundBegins(s: State)
    requires s.coordinator.Streaming? && !s.requested && !s.acknowledged && s.worker.Cycling?
    ensures Steps(Steps(Steps(s, Again(CoordinatorMoves(false), 3)), Again(WorkerMoves(false), 3)), Again(CoordinatorMoves(false), 2)) ==
            s.(requested := true, acknowledged := true, worker := Parked, coordinator := Paused, round := s.round + 1, ackRound := s.round + 1)
  {
    var c, w := CoordinatorMoves(false), WorkerMoves(false);
    forall t: State, a: Action, n: nat ensures Steps(t, Again(a, n)) == if n == 0 then t else Steps(Step(t, a), Again(a, n - 1)) {
      StepsAgain(t, a, n);
    }
    hide Again, Steps;
    var s1 := Step(Step(Step(s, c), c), c);
    var s2 := Step(Step(Step(s1, w), w), w);
    assert Steps(s, Again(c, 3)) == s1;
    assert Steps(s1, Again(w, 3)) == s2;
    assert Steps(s2, Again(c, 2)) == Step(Step(s2, c), c);
  }

  /** The controller carries out the command in one check after the other and seven accesses. */
  lemma RearmCompletes(s: State)
    requires s.controller.Called? && s.requested && s.acknowledged
    ensures Steps(s, Again(ControllerMoves(true), 11)) == s.(controller := Rearmed)
  {
    var m := ControllerMoves(true);
    hide Again, Steps;
    var s4 := Step(Step(Step(Step(s, m), m), m), m);
    var s8 := Step(Step(Step(Step(s4, m), m), m), m);
    FourSteps(s, m, 11);
    FourSteps(s4, m, 7);
    StepsAgain(s8, m, 3);
    StepsAgain(Step(s8, m), m, 2);
    StepsAgain(Step(Step(s8, m), m), m, 1);
    StepsAgain(Step(Step(Step(s8, m), m), m), m, 0);
  }

  lemma FourSteps(s: State, a: Action, n: nat)
    requires n >= 4
    ensures Steps(s, Again(a, n)) == Steps(Step(Step(Step(Step(s, a), a), a), a), Again(a, n - 4))
  {
    hide Again, Steps, Step;
    StepsAgain(s, a, n);
    StepsAgain(Step(s, a), a, n - 1);
    StepsAgain(Step(Step(s, a), a), a, n - 2);
    StepsAgain(Step(Step(Step(s, a), a), a), a, n - 3);
  }

  /** An undisturbed round goes through: the worker parks, the queue is rearmed, and everybody is back where they began. */
  lemma RoundCompletes(s: State)
    requires s.coordinator.Streaming? && s.controller.Quiet? && !s.requested && !s.acknowledged && s.worker.Cycling?
    ensures var parked := Steps(Steps(Steps(s, Again(CoordinatorMoves(false), 3)), Again(WorkerMoves(false), 3)), Again(CoordinatorMoves(false), 2));
      var rearmed := Steps(Step(parked, CoordinatorMoves(false)), Again(ControllerMoves(true), 11));
      var t := Step(Step(Step(rearmed, CoordinatorMoves(false)), WorkerMoves(false)), WorkerMoves(false));
      parked.worker.Parked? && rearmed.controller.Rearmed? &&
      t == s.(worker := Top, round := s.round + 1, ackRound := s.round + 1)
  {
    hide Steps, Again, Step;
    RoundBegins(s);
    var parked := s.(requested := true, acknowledged := true, worker := Parked, coordinator := Paused, round := s.round + 1, ackRound := s.round + 1);
    Commands(parked);
    var called := Step(parked, CoordinatorMoves(false));
    RearmCompletes(called);
    Returns(called.(controller := Rearmed));
  }

  lemma Commands(s: State)
    requires s.coordinator.Paused? && s.controller.Quiet?
    ensures Step(s, CoordinatorMoves(false)) == s.(coordinator := Commanding, controller := Called)
  {
  }

  lemma Returns(s: State)
    requires s.coordinator.Commanding? && s.controller.Rearmed? && s.requested && s.worker.Parked?
    ensures Step(Step(Step(s, CoordinatorMoves(false)), WorkerMoves(false)), WorkerMoves(false)) ==
            s.(requested := false, acknowledged := false, worker := Top, coordinator := Streaming, controller := Quiet)
  {
  }

  /** A worker with more to do stays in its cycle; a coordinator told to give up before the acknowledgement stops for good. */
  lemma WaitingIs(s: State)
    ensures s.worker.Cycling? ==> Step(s, WorkerMoves(true)) == s
    ensures s.coordinator.SawRequest? && !s.acknowledged ==>
              Step(s, CoordinatorMoves(true)).coordinator.Dead? && Step(s, CoordinatorMoves(false)).coordinator.Waiting?
  {
  }
}
