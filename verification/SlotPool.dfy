/**
 The controller's twenty control-message slots (llcp_pool.c) and their way through a raw message
 (raw_llcp.c): reservation of consecutive slots, hand-over to the driver, and the hook through which
 every slot is freed.
 */
module SlotPool {
  import opened Words

  const Slots := 20
  const MessageSlots := 7
  const SlotBytes := 27

  function All(n: nat): (s: set<nat>)
    ensures forall i :: i in s <==> 0 <= i < n
  {
    if n == 0 then {} else All(n - 1) + {n - 1}
  }

  /** The slots start, ..., start + count - 1. */
  function Span(start: nat, count: nat): (s: set<nat>)
    ensures forall i :: i in s <==> start <= i < start + count
  {
    if count == 0 then {} else Span(start, count - 1) + {start + count - 1}
  }

  predicate RunAt(free: set<nat>, start: nat, count: nat) {
    start + count <= Slots && forall j :: start <= j < start + count ==> j in free
  }

  /** The first of `count` consecutive free slots at or after `from`. */
  function FirstRun(free: set<nat>, from: nat, count: nat): (r: Option<nat>)
    ensures r.Some? ==> from <= r.value && RunAt(free, r.value, count)
    ensures forall i :: from <= i && (r.None? || i < r.value) ==> !RunAt(free, i, count)
    decreases Slots - from
  {
    if from + count > Slots then None
    else if RunAt(free, from, count) then Some(from)
    else FirstRun(free, from + 1, count)
  }

  predicate Linear(address: nat -> int, start: nat, count: nat) {
    forall i :: 0 <= i < count ==> address(start + i) == address(start) + SlotBytes * i
  }

  /** What a reservation takes: the first run, if there is one and its memory is contiguous. */
  function Reserved(free: set<nat>, count: nat, address: nat -> int): Option<nat> {
    if count < 1 || count > MessageSlots then None
    else
      var start := FirstRun(free, 0, count);
      if start.Some? && Linear(address, start.value, count) then start else None
  }

  /** A reservation succeeds exactly when some run of consecutive free slots exists. */
  lemma ReservesIffRunExists(free: set<nat>, count: nat, address: nat -> int)
    requires 1 <= count <= MessageSlots && forall i, n: nat :: Linear(address, i, n)
    ensures Reserved(free, count, address).Some? <==> exists i :: RunAt(free, i, count)
    ensures Reserved(free, count, address).Some? ==>
      var start := Reserved(free, count, address).value;
      RunAt(free, start, count) && forall i :: 0 <= i < start ==> !RunAt(free, i, count)
  {
    var r := FirstRun(free, 0, count);
    if r.Some? { assert RunAt(free, r.value, count); }
  }

  // --------------------------------------------------------------------------
  // Slots over time
  // --------------------------------------------------------------------------

  /**
   `free` is the controller's list, `held` the run reserved for a raw message, `others` what the controller's own
   messages use. `doubled` records a slot that was freed while it was free.
   */
  datatype Pool = Pool(free: set<nat>, held: Option<nat>, handedOff: bool, others: set<nat>, doubled: bool)

  const Initial := Pool(All(Slots), None, false, {}, false)

  function HeldSlots(p: Pool): set<nat> {
    if p.held.Some? then Span(p.held.value, MessageSlots) else {}
  }

  function FreeOne(p: Pool, i: nat): Pool {
    if i in p.free then p.(doubled := true) else p.(free := p.free + {i})
  }

  function FreeSpan(p: Pool, start: nat, count: nat): Pool {
    if count == 0 then p else FreeOne(FreeSpan(p, start, count - 1), start + count - 1)
  }

  /** The hook on the controller's free function: the first slot of a message takes the others with it. */
  function HookFree(p: Pool, i: nat): Pool {
    if p.handedOff && p.held == Some(i) then FreeSpan(p, i, MessageSlots).(held := None, handedOff := false)
    else FreeOne(p, i)
  }

  function Release(p: Pool): Pool {
    if p.held.Some? then FreeSpan(p, p.held.value, MessageSlots).(held := None) else p
  }

  /** Why a message was not sent. */
  datatype Outcome = Sent | Busy | NoSlots | NoNode | Rejected

  function Send(p: Pool, node: bool, accepted: bool, address: nat -> int): (Pool, Outcome) {
    if p.handedOff then (p, Busy)
    else
      var start := Reserved(p.free, MessageSlots, address);
      if start.None? then (p.(held := None), NoSlots)
      else
        var q := p.(free := p.free - Span(start.value, MessageSlots), held := start);
        if !node then (Release(q), NoNode)
        else if !accepted then (Release(q), Rejected)
        else (q.(handedOff := true), Sent)
  }

  datatype Action =
    | SendMessage(node: bool, accepted: bool, address: nat -> int)
    | ControllerTakes(i: nat)
    | DriverFrees(i: nat)

  /** The controller's driver frees only what it was given: its own messages' slots, or a message's first slot. */
  predicate Owns(p: Pool, i: nat) {
    i in p.others || (p.handedOff && p.held == Some(i))
  }

  function Step(p: Pool, a: Action): Pool {
    match a
    case SendMessage(node, accepted, address) => Send(p, node, accepted, address).0
    case ControllerTakes(i) => if i in p.free then p.(free := p.free - {i}, others := p.others + {i}) else p
    case DriverFrees(i) =>
      if !Owns(p, i) then p else if i in p.others then HookFree(p, i).(others := p.others - {i}) else HookFree(p, i)
  }

  function Run(p: Pool, actions: seq<Action>): Pool {
    if actions == [] then p else Step(Run(p, actions[..|actions| - 1]), actions[|actions| - 1])
  }

  /** Every slot is in exactly one place, and none was ever freed twice. */
  predicate Partition(p: Pool) {
    p.free + HeldSlots(p) + p.others == All(Slots) && p.free !! HeldSlots(p) && p.free !! p.others &&
    HeldSlots(p) !! p.others && !p.doubled
  }

  predicate Inv(p: Pool) {
    Partition(p) && (p.handedOff <==> p.held.Some?)
  }

  lemma {:induction false} FreeSpanFrees(p: Pool, start: nat, count: nat)
    requires p.free !! Span(start, count)
    ensures FreeSpan(p, start, count) == p.(free := p.free + Span(start, count))
    decreases count
  {
    if count > 0 {
      FreeSpanFrees(p, start, count - 1);
      assert p.free + Span(start, count - 1) + {start + count - 1} == p.free + Span(start, count);
    } else {
      assert p.free + Span(start, 0) == p.free;
    }
  }

  /** Whatever way a message fails, its slots are free again; sent, exactly its run is gone. */
  lemma SendSpends(p: Pool, node: bool, accepted: bool, address: nat -> int)
    requires Inv(p)
    ensures var (q, outcome) := Send(p, node, accepted, address);
      if outcome.Sent? then
        q.handedOff && q.held.Some? && RunAt(p.free, q.held.value, MessageSlots) &&
        q.free == p.free - Span(q.held.value, MessageSlots) && q.others == p.others && !q.doubled
      else q == p
  {
    hide All;
    var start := Reserved(p.free, MessageSlots, address);
    if !p.handedOff && start.Some? {
      var span := Span(start.value, MessageSlots);
      var q := p.(free := p.free - span, held := start);
      FreeSpanFrees(q, start.value, MessageSlots);
      assert q.free + span == p.free;
    }
    hide Reserved, FreeSpan;
  }

  lemma StepKeeps(p: Pool, a: Action)
    requires Inv(p)
    ensures Inv(Step(p, a))
  {
    hide All, Linear;
    match a
    case SendMessage(node, accepted, address) =>
      SendSpends(p, node, accepted, address);
      hide Reserved, Send;
    case ControllerTakes(i) =>
    case DriverFrees(i) =>
      if Owns(p, i) && i !in p.others {
        FreeSpanFrees(p, i, MessageSlots);
      }
  }

  /** Over every run of sends, failures and frees the twenty slots stay partitioned; none is lost or freed twice. */
  lemma {:induction false} SlotsConserved(actions: seq<Action>)
    ensures Inv(Run(Initial, actions))
    decreases |actions|
  {
    if actions == [] {
      hide All;
    } else {
      hide Inv, Step;
      SlotsConserved(actions[..|actions| - 1]);
      StepKeeps(Run(Initial, actions[..|actions| - 1]), actions[|actions| - 1]);
    }
  }

  // --------------------------------------------------------------------------
  // The operations as they are written
  // --------------------------------------------------------------------------

  class SlotList {
    /** The controller's free list, in its own order. */
    var list: seq<nat>

    ghost predicate Valid()
      reads this
    {
      (forall i :: 0 <= i < |list| ==> list[i] < Slots) && (forall i, j :: 0 <= i < j < |list| ==> list[i] != list[j])
    }

    ghost function Free(): set<nat>
      reads this
    {
      set i | i in list
    }

    constructor (slots: seq<nat>)
      requires forall i :: 0 <= i < |slots| ==> slots[i] < Slots
      requires forall i, j :: 0 <= i < j < |slots| ==> slots[i] != slots[j]
      ensures Valid() && list == slots
    {
      list := slots;
    }

    method Alloc() returns (d: Option<nat>)
      requires Valid()
      modifies this
      ensures Valid()
      ensures d.None? <==> old(list) == []
      ensures d.None? ==> list == old(list)
      ensures d.Some? ==> d.value == old(list)[0] && list == old(list)[1..] && d.value !in list
    {
      if list == [] { return None; }
      d := Some(list[0]);
      list := list[1..];
    }

    /** Returning a slot requires that it is not free. */
    method Return(i: nat)
      requires Valid() && i < Slots && i !in list
      modifies this
      ensures Valid() && list == old(list) + [i]
    {
      list := list + [i];
    }

    /** Take every free slot. */
    method Drain(owned: array<bool>)
      requires Valid() && owned.Length == Slots && forall i :: 0 <= i < Slots ==> !owned[i]
      modifies this, owned
      ensures Valid() && list == []
      ensures forall i :: 0 <= i < Slots ==> (owned[i] <==> i in old(list))
    {
      DistinctBound(list, Slots);
      ghost var was := list;
      var n := 0;
      while n < Slots
        invariant 0 <= n <= Slots && Valid() && |was| <= Slots
        invariant list == if n <= |was| then was[n..] else []
        invariant forall i :: 0 <= i < Slots ==> (owned[i] <==> i in was[..if n <= |was| then n else |was|])
      {
        var d := Alloc();
        if d.None? { break; }
        assert was[..n + 1] == was[..n] + [was[n]];
        owned[d.value] := true;
        n := n + 1;
      }
      assert was[..|was|] == was;
    }

    /** The first run of owned slots. */
    method FindRun(owned: array<bool>, count: nat, ghost free: set<nat>) returns (start: Option<nat>)
      requires owned.Length == Slots && 1 <= count <= MessageSlots
      requires forall i :: 0 <= i < Slots ==> (owned[i] <==> i in free)
      ensures start == FirstRun(free, 0, count)
    {
      var i := 0;
      while i + count <= Slots
        invariant FirstRun(free, 0, count) == FirstRun(free, i, count)
        decreases Slots - i
      {
        var found := true;
        var j := 0;
        while j < count
          invariant 0 <= j <= count
          invariant found <==> forall k :: i <= k < i + j ==> k in free
        {
          if !owned[i + j] {
            found := false;
            assert i + j !in free;
            break;
          }
          j := j + 1;
        }
        assert found <==> RunAt(free, i, count);
        if found { return Some(i); }
        i := i + 1;
      }
      return None;
    }

    /** Give back every owned slot outside the run that is kept. */
    method GiveBack(owned: array<bool>, start: Option<nat>, count: nat, ghost free: set<nat>)
      requires Valid() && list == [] && owned.Length == Slots
      requires forall i :: 0 <= i < Slots ==> (owned[i] <==> i in free)
      requires forall i :: i in free ==> i < Slots
      modifies this
      ensures Valid()
      ensures Free() == if start.Some? then free - Span(start.value, count) else free
    {
      ghost var kept := if start.Some? then Span(start.value, count) else {};
      for i := 0 to Slots
        invariant Valid()
        invariant forall k :: k in list <==> 0 <= k < i && k in free && k !in kept
      {
        if owned[i] && !(start.Some? && start.value <= i < start.value + count) { Return(i); }
      }
    }

    method Reserve(count: nat, address: nat -> int) returns (start: Option<nat>)
      requires Valid()
      modifies this
      ensures Valid() && start == Reserved(old(Free()), count, address)
      ensures Free() == if start.Some? then old(Free()) - Span(start.value, count) else old(Free())
    {
      if count < 1 || count > MessageSlots { return None; }
      ghost var free := Free();
      assert forall i :: i in free ==> i < Slots;
      var owned := new bool[Slots](i => false);
      Drain(owned);
      start := FindRun(owned, count, free);
      hide FirstRun, RunAt, Linear;
      if start.Some? {
        var contiguous := IsContiguous(start.value, count, address);
        if !contiguous { start := None; }
      }
      GiveBack(owned, start, count, free);
    }

    method IsContiguous(start: nat, count: nat, address: nat -> int) returns (contiguous: bool)
      ensures contiguous == Linear(address, start, count)
    {
      for i := 0 to count
        invariant Linear(address, start, i)
      {
        if address(start + i) != address(start) + SlotBytes * i { return false; }
      }
      return true;
    }
  }

  /** The reservation of the raw message and the hook (raw_llcp.c), on the controller's list. */
  class RawMessage {
    const slots: SlotList
    var held: Option<nat>
    var handedOff: bool
    ghost var others: set<nat>

    ghost predicate Valid()
      reads this, slots
    {
      slots.Valid() && Inv(Value())
    }

    ghost function Value(): Pool
      reads this, slots
    {
      Pool(slots.Free(), held, handedOff, others, false)
    }

    constructor (list: SlotList)
      requires list.Valid() && list.Free() == All(Slots)
      ensures Valid() && slots == list && Value() == Initial
    {
      slots := list;
      held, handedOff, others := None, false, {};
    }

    /** Return the slots of a run, which are not free; SlotList.Return would refuse one that is. */
    method ReturnSpan(start: nat, count: nat)
      requires slots.Valid() && start + count <= Slots && slots.Free() !! Span(start, count)
      modifies slots
      ensures slots.Valid() && slots.Free() == old(slots.Free()) + Span(start, count)
    {
      for i := 0 to count
        invariant slots.Valid() && slots.Free() == old(slots.Free()) + Span(start, i)
      {
        assert start + i in Span(start, count);
        slots.Return(start + i);
        assert slots.Free() == old(slots.Free()) + Span(start, i) + {start + i};
      }
    }

    /** The controller's driver frees slot `i`. */
    method Hook(i: nat)
      requires Valid() && Owns(Value(), i)
      modifies this, slots
      ensures Valid() && Value() == Step(old(Value()), DriverFrees(i))
    {
      hide All, Reserved, RunAt;
      StepKeeps(Value(), DriverFrees(i));
      if handedOff && held == Some(i) {
        HeldIsNotOther(Value(), i);
        FreeSpanFrees(Value(), i, MessageSlots);
        handedOff := false;
        ReturnSpan(i, MessageSlots);
        held := None;
      } else {
        OtherIsNotFree(Value(), i);
        slots.Return(i);
        others := others - {i};
        assert slots.Free() == old(slots.Free()) + {i};
      }
    }

    /** Reserve, queue and hand over one message, or undo everything. */
    method SendRaw(node: bool, accepted: bool, address: nat -> int) returns (outcome: Outcome)
      requires Valid()
      modifies this, slots
      ensures Valid() && (Value(), outcome) == Send(old(Value()), node, accepted, address)
    {
      hide All, Reserved, RunAt;
      StepKeeps(Value(), SendMessage(node, accepted, address));
      if handedOff { return Busy; }
      ghost var p := Value();
      held := slots.Reserve(MessageSlots, address);
      if held.None? { return NoSlots; }
      ReservedFits(p.free, address);
      FreeSpanFrees(Value(), held.value, MessageSlots);
      if !node {
        ReturnSpan(held.value, MessageSlots);
        held := None;
        return NoNode;
      }
      handedOff := true;
      if !accepted {
        handedOff := false;
        ReturnSpan(held.value, MessageSlots);
        held := None;
        return Rejected;
      }
      return Sent;
    }
  }

  lemma ReservedFits(free: set<nat>, address: nat -> int)
    ensures var r := Reserved(free, MessageSlots, address); r.Some? ==> r.value + MessageSlots <= Slots
  {
  }

  lemma HeldIsNotOther(p: Pool, i: nat)
    requires Inv(p) && p.held == Some(i)
    ensures i !in p.others && p.free !! Span(i, MessageSlots) && i + MessageSlots <= Slots
  {
    assert i in HeldSlots(p);
    assert i + MessageSlots - 1 in HeldSlots(p);
  }

  lemma OtherIsNotFree(p: Pool, i: nat)
    requires Inv(p) && i in p.others
    ensures i !in p.free && i < Slots
  {
    assert i in p.free + HeldSlots(p) + p.others;
  }

  lemma {:induction false} DistinctBound(list: seq<nat>, n: nat)
    requires (forall i :: 0 <= i < |list| ==> list[i] < n) && (forall i, j :: 0 <= i < j < |list| ==> list[i] != list[j])
    ensures |list| <= n
    decreases n
  {
    assert list != [] ==> list[0] < n;
    if n > 0 {
      if n - 1 in list {
        var k :| 0 <= k < |list| && list[k] == n - 1;
        DistinctBound(list[..k] + list[k + 1..], n - 1);
      } else {
        DistinctBound(list, n - 1);
      }
    }
  }
}
