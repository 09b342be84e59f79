/**
 The encoded-audio queue between the codec worker and the radio controller (audio_source.c):
 one producer and one consumer that interleave at every atomic access and at every half of a
 frame copy, 32-bit indices that wrap, and the two latched selections.
 */
module AudioQueue {
  import opened Words

  const Slots := 4

  /** Encoded left and right records; each is copied on its own. */
  datatype Frame = Frame(left: int, right: int)

  const Silence := Frame(0, 0)

  datatype Latch = Latch(event: Word, valid: bool, present: bool, data: Frame)

  const NoLatch := Latch(0, false, false, Silence)

  type Ring = q: seq<Frame> | |q| == 4 witness [Silence, Silence, Silence, Silence]
  type Latches = l: seq<Latch> | |l| == 2 witness [NoLatch, NoLatch]

  datatype Memory = Memory(
    written: Word, read: Word, requested: bool, queue: Ring, latch: Latches,
    lastEvent: Word, selectedAny: bool, selected: Word, underflows: Word, discarded: Word)

  const Cleared := Memory(0, 0, false, [Silence, Silence, Silence, Silence], [NoLatch, NoLatch], 0, false, 0, 0, 0)

  datatype Answer = Copied(frame: Frame) | Empty | Refused

  // --------------------------------------------------------------------------
  // What the queue is for: an unbounded first-in first-out list
  // --------------------------------------------------------------------------

  datatype Selection = Selection(event: Word, frame: Option<Frame>)

  /** Everything pushed, how much of it is used up, and the selections of this session. */
  datatype Fifo = Fifo(pushed: seq<Frame>, taken: nat, history: seq<Selection>)

  function Last(h: seq<Selection>): Selection
    requires h != []
  {
    h[|h| - 1]
  }

  function AnswerOf(s: Selection): Answer {
    if s.frame.Some? then Copied(s.frame.value) else Empty
  }

  /** The answer to an event that is not new: one of the two latest keeps its answer. */
  function Recall(h: seq<Selection>, event: Word): Option<Answer> {
    if |h| > 0 && Last(h).event == event then Some(AnswerOf(Last(h)))
    else if |h| > 1 && h[|h| - 2].event == event then Some(AnswerOf(h[|h| - 2]))
    else if |h| > 0 && event <= Last(h).event then Some(Refused)
    else None
  }

  function Skipped(h: seq<Selection>, event: Word): int {
    if h == [] then 0 else event - Last(h).event - 1
  }

  function Min(a: int, b: int): int { if a < b then a else b }

  /** Frames of skipped events are dropped; the next one, if any, belongs to the event. */
  function Select(f: Fifo, event: Word): Fifo
    requires f.taken <= |f.pushed| && Recall(f.history, event).None?
  {
    var next := f.taken + Min(Skipped(f.history, event), |f.pushed| - f.taken);
    if next < |f.pushed| then
      Fifo(f.pushed, next + 1, f.history + [Selection(event, Some(f.pushed[next]))])
    else
      Fifo(f.pushed, next, f.history + [Selection(event, None)])
  }

  // --------------------------------------------------------------------------
  // The two tasks, one memory access at a time
  // --------------------------------------------------------------------------

  datatype Producer =
    | Ready
    | Loaded(frame: Frame, w: Word)
    | Room(frame: Frame, w: Word)
    | HalfCopied(frame: Frame, w: Word)
    | AllCopied(frame: Frame, w: Word)

  datatype Consumer =
    | Idle
    | Asked(event: Word, r: Word)
    | Counted(event: Word, r: Word, discard: nat, available: nat)
    | Taking(event: Word, r: Word)
    | HalfTaken(event: Word, r: Word)
    | Missing(event: Word, r: Word)
    | Releasing(event: Word, r: Word, present: bool)
    | Closing(event: Word, present: bool)

  /** Unbounded counts behind the wrapping statistics. */
  datatype Counts = Counts(selected: nat, underflows: nat, discarded: nat)

  datatype State = State(
    m: Memory, producer: Producer, consumer: Consumer,
    fifo: Fifo, released: nat, counts: Counts,
    reply: Option<Answer>, expected: Option<Answer>)

  const Initial := State(Cleared, Ready, Idle, Fifo([], 0, []), 0, Counts(0, 0, 0), None, None)

  datatype Action = Push(frame: Frame) | Produce | Ask(event: Word) | Consume | Rearm

  function Slot(index: int): (s: nat)
    ensures s < 4
  {
    index % 4
  }

  function Parity(n: int): (s: nat)
    ensures s < 2
  {
    n % 2
  }

  function PushStep(s: State): State {
    var m := s.m;
    match s.producer
    case Ready => s
    case Loaded(f, w) => s.(producer := if Sub32(w, m.read) >= 4 then Ready else Room(f, w))
    case Room(f, w) =>
      var q := m.queue;
      s.(m := m.(queue := q[Slot(w) := q[Slot(w)].(left := f.left)]), producer := HalfCopied(f, w))
    case HalfCopied(f, w) =>
      var q := m.queue;
      s.(m := m.(queue := q[Slot(w) := q[Slot(w)].(right := f.right)]), producer := AllCopied(f, w))
    case AllCopied(f, w) =>
      s.(m := m.(written := Add32(w, 1)), producer := Ready, fifo := s.fifo.(pushed := s.fifo.pushed + [f]))
  }

  function Held(m: Memory, event: Word): Option<Answer> {
    if m.latch[0].valid && m.latch[0].event == event then Some(LatchAnswer(m.latch[0]))
    else if m.latch[1].valid && m.latch[1].event == event then Some(LatchAnswer(m.latch[1]))
    else if m.selectedAny && event <= m.lastEvent then Some(Refused)
    else None
  }

  function LatchAnswer(l: Latch): Answer {
    if l.present then Copied(l.data) else Empty
  }

  function AskStep(s: State, event: Word): State {
    if !s.consumer.Idle? then s
    else
      var m := s.m.(requested := true);
      var held := Held(m, event);
      if held.Some? then s.(m := m, reply := held, expected := Recall(s.fifo.history, event))
      else s.(m := m, consumer := Asked(event, m.read), reply := None, expected := None)
  }

  /** The latched copy of the current selection. */
  function Fill(m: Memory, l: Latch): Memory {
    m.(latch := m.latch[Parity(m.selected) := l])
  }

  function Current(m: Memory): Latch {
    m.latch[Parity(m.selected)]
  }

  function CountStep(s: State, event: Word, r: Word): State {
    var available := Sub32(s.m.written, r);
    if available > 4 then s.(consumer := Idle, reply := Some(Refused))
    else
      var skipped := if s.m.selectedAny then Sub32(event, s.m.lastEvent + 1) else 0;
      var discard := Min(skipped, available);
      var fifo := if s.fifo.taken <= |s.fifo.pushed| && Recall(s.fifo.history, event).None?
                  then Select(s.fifo, event) else s.fifo;
      s.(consumer := Counted(event, Add32(r, discard), discard, available - discard), fifo := fifo,
         expected := Recall(fifo.history, event))
  }

  function ConsumeStep(s: State): State {
    var m := s.m;
    match s.consumer
    case Idle => s
    case Asked(event, r) => CountStep(s, event, r)
    case Counted(event, r, discard, available) =>
      s.(m := Fill(m, Latch(event, true, available != 0, Current(m).data)).(discarded := Add32(m.discarded, discard)),
         counts := s.counts.(discarded := s.counts.discarded + discard),
         consumer := if available != 0 then Taking(event, r) else Missing(event, r))
    case Taking(event, r) =>
      s.(m := Fill(m, Current(m).(data := Current(m).data.(left := m.queue[Slot(r)].left))),
         consumer := HalfTaken(event, r))
    case HalfTaken(event, r) =>
      s.(m := Fill(m, Current(m).(data := Current(m).data.(right := m.queue[Slot(r)].right))),
         consumer := Releasing(event, Add32(r, 1), true))
    case Missing(event, r) =>
      s.(m := Fill(m, Current(m).(data := Silence)).(underflows := Add32(m.underflows, 1)),
         counts := s.counts.(underflows := s.counts.underflows + 1),
         consumer := Releasing(event, r, false))
    case Releasing(event, r, present) =>
      s.(m := m.(read := r), released := s.fifo.taken, consumer := Closing(event, present))
    case Closing(event, present) =>
      s.(m := m.(lastEvent := event, selectedAny := true, selected := Add32(m.selected, 1)),
         counts := s.counts.(selected := s.counts.selected + 1),
         consumer := Idle, reply := Some(LatchAnswer(Current(m))))
  }

  /** Rearming happens only while neither task is inside an operation (see Reconnect). */
  function RearmStep(s: State): State {
    var m := s.m;
    var queued := Sub32(m.written, m.read);
    if !s.producer.Ready? || !s.consumer.Idle? || queued > 4 then s
    else
      s.(m := m.(discarded := Add32(m.discarded, queued), read := m.written, requested := false,
                 latch := [NoLatch, NoLatch], lastEvent := 0, selectedAny := false),
         counts := s.counts.(discarded := s.counts.discarded + queued),
         released := |s.fifo.pushed|, fifo := Fifo(s.fifo.pushed, |s.fifo.pushed|, []),
         reply := None, expected := None)
  }

  function Step(s: State, a: Action): State {
    match a
    case Push(f) => if s.producer.Ready? then s.(producer := Loaded(f, s.m.written)) else s
    case Produce => PushStep(s)
    case Ask(event) => AskStep(s, event)
    case Consume => ConsumeStep(s)
    case Rearm => RearmStep(s)
  }

  function Run(s: State, actions: seq<Action>): State {
    if actions == [] then s else Step(Run(s, actions[..|actions| - 1]), actions[|actions| - 1])
  }

  // --------------------------------------------------------------------------
  // What every step keeps
  // --------------------------------------------------------------------------

  /** The ring holds exactly the pushed frames whose slots are not released. */
  ghost predicate RingInv(s: State) {
    var pushed := s.fifo.pushed;
    s.m.written == Wrap(|pushed|) && s.m.read == Wrap(s.released) &&
    s.released <= s.fifo.taken <= |pushed| <= s.released + 4 &&
    forall i :: s.released <= i < |pushed| ==> s.m.queue[Slot(i)] == pushed[i]
  }

  predicate ProducerInv(s: State) {
    var room := |s.fifo.pushed| < s.released + 4;
    match s.producer
    case Ready => true
    case Loaded(f, w) => w == s.m.written
    case Room(f, w) => w == s.m.written && room
    case HalfCopied(f, w) => w == s.m.written && room && s.m.queue[Slot(w)].left == f.left
    case AllCopied(f, w) => w == s.m.written && room && s.m.queue[Slot(w)] == f
  }

  predicate IsLatch(l: Latch, x: Selection) {
    l.valid && l.event == x.event && l.present == x.frame.Some? && (l.present ==> l.data == x.frame.value)
  }

  /** The selections that are closed: all but one in progress. */
  function Closed(s: State): seq<Selection> {
    var h := s.fifo.history;
    if s.consumer.Idle? || s.consumer.Asked? || h == [] then h else h[..|h| - 1]
  }

  predicate LatchInv(m: Memory, h: seq<Selection>, count: nat, open: bool) {
    m.selected == Wrap(count) &&
    (if h == [] then !m.latch[Parity(count + 1)].valid else IsLatch(m.latch[Parity(count + 1)], Last(h))) &&
    (!open ==> if |h| < 2 then !m.latch[Parity(count)].valid else IsLatch(m.latch[Parity(count)], h[|h| - 2])) &&
    m.selectedAny == (h != []) && (h != [] ==> m.lastEvent == Last(h).event)
  }

  predicate Rising(h: seq<Selection>) {
    |h| >= 2 ==> h[|h| - 2].event < h[|h| - 1].event
  }

  predicate CountInv(s: State, discarded: int, selected: int) {
    var c := s.counts;
    s.m.underflows == Wrap(c.underflows) && s.m.discarded == Wrap(c.discarded) &&
    s.released + discarded == c.selected + selected - c.underflows + c.discarded
  }

  predicate Open(s: State, event: Word, present: bool) {
    var h := s.fifo.history;
    h != [] && Last(h).event == event && Last(h).frame.Some? == present && s.expected == Some(AnswerOf(Last(h)))
  }

  /** The frame being taken is still in its slot. */
  predicate Source(s: State, r: Word) {
    var f := s.fifo;
    s.released < f.taken <= |f.pushed| && r == Wrap(f.taken - 1) && f.history != [] && Last(f.history).frame == Some(f.pushed[f.taken - 1])
  }

  predicate Marked(s: State, present: bool) {
    var l := Current(s.m);
    s.fifo.history != [] && l.valid && l.event == Last(s.fifo.history).event && l.present == present
  }

  predicate ConsumerInv(s: State)
    requires s.fifo.taken <= |s.fifo.pushed|
  {
    var f := s.fifo;
    match s.consumer
    case Idle => s.released == f.taken && CountInv(s, 0, 0) && s.reply == s.expected
    case Asked(event, r) => s.released == f.taken && r == s.m.read && Recall(f.history, event).None? && CountInv(s, 0, 0)
    case Counted(event, r, discard, available) =>
      Open(s, event, available != 0) && CountInv(s, 0, 0) &&
      f.taken == s.released + discard + (if available != 0 then 1 else 0) &&
      if available != 0 then Source(s, r) else r == Wrap(f.taken)
    case Taking(event, r) =>
      Open(s, event, true) && Source(s, r) && Marked(s, true) && CountInv(s, f.taken - 1 - s.released, 0)
    case HalfTaken(event, r) =>
      Open(s, event, true) && Source(s, r) && Marked(s, true) && CountInv(s, f.taken - 1 - s.released, 0) &&
      Current(s.m).data.left == f.pushed[f.taken - 1].left
    case Missing(event, r) =>
      Open(s, event, false) && r == Wrap(f.taken) && Marked(s, false) && CountInv(s, f.taken - s.released, 0)
    case Releasing(event, r, present) =>
      Open(s, event, present) && r == Wrap(f.taken) && IsLatch(Current(s.m), Last(f.history)) &&
      CountInv(s, f.taken - s.released, 1)
    case Closing(event, present) =>
      Open(s, event, present) && s.released == f.taken && IsLatch(Current(s.m), Last(f.history)) && CountInv(s, 0, 1)
  }

  ghost predicate Inv(s: State) {
    RingInv(s) && ProducerInv(s) && ConsumerInv(s) && Rising(s.fifo.history) &&
    LatchInv(s.m, Closed(s), s.counts.selected, !s.consumer.Idle? && !s.consumer.Asked?)
  }

  lemma SlotOfIndex(n: nat)
    ensures Slot(Wrap(n)) == Slot(n)
  {
    var q := n / U32;
    assert n == Wrap(n) + 4 * (0x4000_0000 * q);
    SlotTurns(Wrap(n), 0x4000_0000 * q);
  }

  lemma SlotTurns(x: int, k: int)
    ensures Slot(x + 4 * k) == Slot(x)
  {
  }

  lemma SlotsApart(i: int, j: int)
    requires i < j < i + 4
    ensures Slot(i) != Slot(j)
  {
  }

  lemma IndexDifference(high: nat, low: nat)
    requires 0 <= high - low < U32
    ensures Sub32(Wrap(high), Wrap(low)) == high - low
  {
    WrappedDifference(high, low);
  }

  lemma Flips(n: nat)
    ensures Parity(n + 1) == 1 - Parity(n) && Parity(n + 2) == Parity(n)
  {
  }

  lemma ParityOfIndex(n: nat)
    ensures Parity(Wrap(n)) == Parity(n)
  {
    var q := n / U32;
    assert n == Wrap(n) + 2 * (0x8000_0000 * q);
    ParityTurns(Wrap(n), 0x8000_0000 * q);
  }

  lemma ParityTurns(x: int, k: int)
    ensures Parity(x + 2 * k) == Parity(x)
  {
  }

  lemma ProduceKeeps(s: State)
    requires Inv(s)
    ensures Inv(PushStep(s))
  {
    hide Slot, Wrap, Recall, Parity;
    var t := PushStep(s);
    var n := |s.fifo.pushed|;
    SlotOfIndex(n);
    match s.producer
    case Ready =>
    case Loaded(f, w) =>
      IndexDifference(n, s.released);
    case Room(f, w) => WriteKeeps(s, t);
    case HalfCopied(f, w) => WriteKeeps(s, t);
    case AllCopied(f, w) =>
      WrappedSum(n, 1);
  }

  lemma WriteKeeps(s: State, t: State)
    requires Inv(s) && (s.producer.Room? || s.producer.HalfCopied?) && t == PushStep(s)
    ensures Inv(t)
  {
    hide Wrap, Recall, Parity;
    var n := |s.fifo.pushed|;
    var w := s.producer.w;
    SlotOfIndex(n);
    assert Slot(w) == Slot(n);
    forall i | s.released <= i < n ensures t.m.queue[Slot(i)] == s.m.queue[Slot(i)] {
      SlotsApart(i, n);
    }
    hide Slot;
  }

  /** A call for an event that is not new is answered from the latches as the list would answer it. */
  lemma HeldIsRecall(m: Memory, h: seq<Selection>, count: nat, event: Word)
    requires LatchInv(m, h, count, false) && Rising(h)
    ensures Held(m, event) == Recall(h, event)
  {
    Flips(count);
    hide Wrap, Parity;
  }

  lemma AskKeeps(s: State, event: Word)
    requires Inv(s)
    ensures Inv(AskStep(s, event))
  {
    hide Wrap, Recall, Parity, Held, Slot, LatchInv, Rising;
    if s.consumer.Idle? {
      var m := s.m.(requested := true);
      LatchesOnly(s.m, m, s.fifo.history, s.counts.selected, false);
      HeldIsRecall(m, s.fifo.history, s.counts.selected, event);
    }
  }

  lemma LatchesOnly(m: Memory, n: Memory, h: seq<Selection>, count: nat, open: bool)
    requires LatchInv(m, h, count, open)
    requires m.latch == n.latch && m.selected == n.selected && m.selectedAny == n.selectedAny && m.lastEvent == n.lastEvent
    ensures LatchInv(n, h, count, open)
  {
  }

  /** At the load of `written` the concrete arithmetic makes the list's selection. */
  lemma CountSelects(s: State)
    requires Inv(s) && s.consumer.Asked?
    ensures var t := ConsumeStep(s); var h := s.fifo.history; var event := s.consumer.event;
      var available := |s.fifo.pushed| - s.released; var discard := Min(Skipped(h, event), available);
      0 <= discard <= available && t.fifo == Select(s.fifo, event) &&
      t == s.(fifo := t.fifo, expected := Recall(t.fifo.history, event),
              consumer := Counted(event, Wrap(s.released + discard), discard, available - discard))
  {
    hide Parity, Slot, LatchInv, ProducerInv, CountInv;
    var event := s.consumer.event;
    var h := s.fifo.history;
    IndexDifference(|s.fifo.pushed|, s.released);
    var discard := Min(Skipped(h, event), |s.fifo.pushed| - s.released);
    RecallNone(h, event);
    WrappedSum(s.released, discard);
    assert s.m.selectedAny == (h != []) && (h != [] ==> s.m.lastEvent == Last(h).event) by { LatchedLast(s.m, h, s.counts.selected); }
    if h != [] { SmallDifference(event, s.m.lastEvent); }
    hide Wrap, Sub32, Add32, Recall, Select;
  }

  lemma LatchedLast(m: Memory, h: seq<Selection>, count: nat)
    requires LatchInv(m, h, count, false)
    ensures m.selectedAny == (h != []) && (h != [] ==> m.lastEvent == Last(h).event)
  {
  }

  lemma CountKeeps(s: State)
    requires Inv(s) && s.consumer.Asked?
    ensures Inv(ConsumeStep(s)) && ConsumeStep(s).consumer.Counted?
  {
    var h := s.fifo.history;
    var t := ConsumeStep(s);
    CountSelects(s);
    SelectRecalls(s.fifo, s.consumer.event);
    LatchOpens(s.m, h, s.counts.selected);
    hide Parity, Slot, LatchInv, ConsumeStep, Wrap, Recall;
    assert Closed(t) == h;
    hide ProducerInv, CountInv, Rising;
  }

  lemma LatchOpens(m: Memory, h: seq<Selection>, count: nat)
    requires LatchInv(m, h, count, false)
    ensures LatchInv(m, h, count, true)
  {
  }

  lemma RecallNone(h: seq<Selection>, event: Word)
    requires Recall(h, event).None?
    ensures Skipped(h, event) >= 0 && (h != [] ==> event > Last(h).event)
  {
  }

  lemma SmallDifference(event: Word, last: Word)
    requires event > last
    ensures Sub32(event, last + 1) == event - last - 1
  {
  }

  lemma SelectRecalls(f: Fifo, event: Word)
    requires f.taken <= |f.pushed| && Recall(f.history, event).None?
    ensures var g := Select(f, event);
      g.history != [] && Last(g.history).event == event && Recall(g.history, event) == Some(AnswerOf(Last(g.history))) &&
      g.history[..|g.history| - 1] == f.history && Rising(g.history)
  {
    RecallNone(f.history, event);
  }

  lemma FillKeepsOther(m: Memory, h: seq<Selection>, count: nat, l: Latch)
    requires LatchInv(m, h, count, true)
    ensures LatchInv(Fill(m, l), h, count, true)
  {
    ParityOfIndex(count);
    Flips(count);
    hide Parity, Wrap;
  }

  lemma TakeKeeps(s: State)
    requires Inv(s) && (s.consumer.Counted? || s.consumer.Taking? || s.consumer.HalfTaken? || s.consumer.Missing?)
    ensures Inv(ConsumeStep(s))
  {
    var t := ConsumeStep(s);
    var h, f := Closed(s), s.fifo;
    hide Parity, Slot, Wrap, Recall, LatchInv, Rising;
    FillKeepsOther(s.m, h, s.counts.selected, Current(t.m));
    LatchesOnly(Fill(s.m, Current(t.m)), t.m, h, s.counts.selected, true);
    match s.consumer
    case Counted(event, r, discard, available) =>
      WrappedSum(s.counts.discarded, discard);
    case Taking(event, r) =>
      SlotOfIndex(f.taken - 1);
    case HalfTaken(event, r) =>
      SlotOfIndex(f.taken - 1);
      WrappedSum(f.taken - 1, 1);
    case Missing(event, r) =>
      WrappedSum(s.counts.underflows, 1);
  }

  lemma CloseKeeps(s: State)
    requires Inv(s) && (s.consumer.Releasing? || s.consumer.Closing?)
    ensures Inv(ConsumeStep(s))
  {
    var t := ConsumeStep(s);
    var h, f := s.fifo.history, s.fifo;
    if s.consumer.Releasing? {
      hide Parity, Slot, Wrap, Recall, LatchInv, Rising;
      LatchesOnly(s.m, t.m, Closed(s), s.counts.selected, true);
    } else {
      LatchCloses(s.m, h, s.counts.selected, t.m);
      WrappedSum(s.counts.selected, 1);
      hide Parity, Slot, Wrap, Recall, LatchInv, Rising;
    }
  }

  lemma LatchCloses(m: Memory, h: seq<Selection>, count: nat, n: Memory)
    requires h != [] && LatchInv(m, h[..|h| - 1], count, true) && IsLatch(Current(m), Last(h))
    requires n == m.(lastEvent := Last(h).event, selectedAny := true, selected := Add32(m.selected, 1))
    ensures LatchInv(n, h, count + 1, false)
  {
    WrappedSum(count, 1);
    ParityOfIndex(count);
    Flips(count);
    hide Parity, Wrap;
  }

  lemma RearmKeeps(s: State)
    requires Inv(s)
    ensures Inv(RearmStep(s))
  {
    var t := RearmStep(s);
    if s.producer.Ready? && s.consumer.Idle? {
      var queued := |s.fifo.pushed| - s.released;
      IndexDifference(|s.fifo.pushed|, s.released);
      WrappedSum(s.counts.discarded, queued);
      hide Parity, Slot, Wrap;
    }
  }

  lemma StepKeeps(s: State, a: Action)
    requires Inv(s)
    ensures Inv(Step(s, a))
  {
    match a
    case Push(f) =>
      hide LatchInv, Wrap, Slot, Recall;
      LatchesOnly(s.m, Step(s, a).m, Closed(s), s.counts.selected, !s.consumer.Idle? && !s.consumer.Asked?);
    case Produce =>
      hide Inv;
      ProduceKeeps(s);
    case Ask(event) =>
      hide Inv;
      AskKeeps(s, event);
    case Consume =>
      hide Inv;
      ConsumeKeeps(s);
    case Rearm =>
      hide Inv;
      RearmKeeps(s);
  }

  lemma ConsumeKeeps(s: State)
    requires Inv(s)
    ensures Inv(ConsumeStep(s))
  {
    hide Inv;
    match s.consumer
    case Idle =>
    case Asked(_, _) => CountKeeps(s);
    case Counted(_, _, _, _) => TakeKeeps(s);
    case Taking(_, _) => TakeKeeps(s);
    case HalfTaken(_, _) => TakeKeeps(s);
    case Missing(_, _) => TakeKeeps(s);
    case Releasing(_, _, _) => CloseKeeps(s);
    case Closing(_, _) => CloseKeeps(s);
  }

  lemma {:induction false} RunKeeps(actions: seq<Action>)
    ensures Inv(Run(Initial, actions))
    decreases |actions|
  {
    if actions == [] {
      StartHolds();
    } else {
      hide Inv, Step;
      RunKeeps(actions[..|actions| - 1]);
      StepKeeps(Run(Initial, actions[..|actions| - 1]), actions[|actions| - 1]);
    }
  }

  lemma StartHolds()
    ensures Inv(Initial)
  {
  }

  // --------------------------------------------------------------------------
  // What the runs promise
  // --------------------------------------------------------------------------

  predicate Writing(p: Producer) {
    p.Room? || p.HalfCopied? || p.AllCopied?
  }

  predicate Reading(c: Consumer) {
    c.Taking? || c.HalfTaken?
  }

  /** In every run no slot is written while it is being read. */
  lemma NeverTorn(actions: seq<Action>)
    ensures var s := Run(Initial, actions);
      Writing(s.producer) && Reading(s.consumer) ==> Slot(s.producer.w) != Slot(s.consumer.r)
  {
    hide Run, LatchInv, CountInv, Wrap, Recall, Marked;
    RunKeeps(actions);
    var s := Run(Initial, actions);
    if Writing(s.producer) && Reading(s.consumer) {
      SlotOfIndex(|s.fifo.pushed|);
      SlotOfIndex(s.fifo.taken - 1);
      SlotsApart(s.fifo.taken - 1, |s.fifo.pushed|);
      hide Slot;
    }
  }

  /** In every run each finished call answered exactly as the unbounded list does. */
  lemma AnswersAreTheLists(actions: seq<Action>)
    ensures var s := Run(Initial, actions); s.consumer.Idle? ==> s.reply == s.expected
  {
    hide Run, LatchInv, RingInv, CountInv, ProducerInv;
    RunKeeps(actions);
  }

  /** The list hands out the pushed frames in order: nothing before `taken` again, nothing out of turn. */
  lemma SelectsInOrder(f: Fifo, event: Word)
    requires f.taken <= |f.pushed| && Recall(f.history, event).None?
    ensures var g := Select(f, event); var skipped := Skipped(f.history, event);
      f.taken <= g.taken <= |f.pushed| && g.pushed == f.pushed &&
      (Last(g.history).frame.Some? <==> skipped < |f.pushed| - f.taken) &&
      (Last(g.history).frame.Some? ==>
        g.taken == f.taken + skipped + 1 && Last(g.history).frame == Some(f.pushed[g.taken - 1])) &&
      (Last(g.history).frame.None? ==> g.taken == |f.pushed|)
  {
    RecallNone(f.history, event);
  }

  /** Between calls, `read` is selected - underflows + discarded, modulo 2^32. */
  lemma CountersBalance(actions: seq<Action>)
    ensures var s := Run(Initial, actions);
      s.consumer.Idle? ==> s.m.read == Wrap(s.m.selected - s.m.underflows + s.m.discarded)
  {
    hide Run, ProducerInv, Rising, Recall, Wrap;
    RunKeeps(actions);
    var s := Run(Initial, actions);
    WrapCombines(s.counts.selected, s.counts.underflows, s.counts.discarded);
  }

  lemma WrapCombines(a: int, b: int, c: int)
    ensures Wrap(Wrap(a) - Wrap(b) + Wrap(c)) == Wrap(a - b + c)
  {
    var k := a / U32 - b / U32 + c / U32;
    assert a - b + c == Wrap(a) - Wrap(b) + Wrap(c) + U32 * k;
    WrapTurns(Wrap(a) - Wrap(b) + Wrap(c), k);
  }

  lemma WrapTurns(x: int, k: int)
    ensures Wrap(x + U32 * k) == Wrap(x)
  {
  }

  /** A push is refused exactly when all four slots hold frames that are not released. */
  lemma PushRefusedIffFull(s: State)
    requires Inv(s) && s.producer.Loaded?
    ensures PushStep(s).producer.Ready? <==> |s.fifo.pushed| == s.released + 4
  {
    hide LatchInv, Recall, Wrap;
    IndexDifference(|s.fifo.pushed|, s.released);
  }

  lemma StepHistory(s: State, a: Action)
    requires Inv(s) && a != Rearm
    ensures var h, g := s.fifo.history, Step(s, a).fifo.history; g == h || (g != [] && g[..|g| - 1] == h)
  {
    hide Wrap, Slot, LatchInv, Recall;
  }

  lemma {:induction false} RunHistory(s: State, actions: seq<Action>)
    requires Inv(s) && Rearm !in actions
    ensures var h, g := s.fifo.history, Run(s, actions).fifo.history; |h| <= |g| && g[..|h|] == h
    ensures Inv(Run(s, actions))
    decreases |actions|
  {
    if actions != [] {
      var before := actions[..|actions| - 1];
      RunHistory(s, before);
      hide Inv, Step;
      StepHistory(Run(s, before), actions[|actions| - 1]);
      StepKeeps(Run(s, before), actions[|actions| - 1]);
    }
  }

  /**
   A selection keeps its answer while at most one newer event is selected, whatever is pushed
   in between and however the two sides interleave.
   */
  lemma ReselectRepeats(start: seq<Action>, more: seq<Action>)
    requires Rearm !in more
    requires Run(Initial, start).fifo.history != []
    requires var s, t := Run(Initial, start), Run(Run(Initial, start), more);
      t.consumer.Idle? && |t.fifo.history| <= |s.fifo.history| + 1
    ensures var s, t := Run(Initial, start), Run(Run(Initial, start), more);
      var x := Last(s.fifo.history);
      AskStep(t, x.event).reply == Some(AnswerOf(x)) && AskStep(t, x.event).fifo == t.fifo
  {
    RunKeeps(start);
    hide Run;
    var s := Run(Initial, start);
    RunHistory(s, more);
    var t := Run(s, more);
    var h, g, x := s.fifo.history, t.fifo.history, Last(s.fifo.history);
    assert g[..|h|][|h| - 1] == x;
    var m := t.m.(requested := true);
    LatchesOnly(t.m, m, g, t.counts.selected, false);
    HeldIsRecall(m, g, t.counts.selected, x.event);
    hide Inv, LatchInv, Held;
  }

  // --------------------------------------------------------------------------
  // Statistics
  // --------------------------------------------------------------------------

  lemma StepReleases(s: State, a: Action)
    requires Inv(s)
    ensures s.released <= Step(s, a).released
  {
    hide Wrap, Slot, LatchInv, Recall;
  }

  lemma {:induction false} RunReleases(s: State, actions: seq<Action>)
    requires Inv(s)
    ensures Inv(Run(s, actions)) && s.released <= Run(s, actions).released
    decreases |actions|
  {
    if actions != [] {
      var before := actions[..|actions| - 1];
      RunReleases(s, before);
      hide Inv, Step;
      StepReleases(Run(s, before), actions[|actions| - 1]);
      StepKeeps(Run(s, before), actions[|actions| - 1]);
    }
  }

  /**
   A sampled occupancy (read, written, read again, equal reads) is the true one at the load of
   `written`, provided the consumer did not release 2^32 frames in between.
   */
  lemma SampleIsExact(s: State, first: seq<Action>, second: seq<Action>)
    requires Inv(s)
    requires var u, v := Run(s, first), Run(Run(s, first), second);
      v.released - s.released < U32 && s.m.read == v.m.read
    ensures var u := Run(s, first);
      Sub32(u.m.written, s.m.read) == |u.fifo.pushed| - u.released <= 4
  {
    RunReleases(s, first);
    var u := Run(s, first);
    RunReleases(u, second);
    var v := Run(u, second);
    hide Run, Wrap, LatchInv, ProducerInv, ConsumerInv, Sub32;
    IndexDifference(v.released, s.released);
    SameIndex(s.m.read);
    IndexDifference(|u.fifo.pushed|, u.released);
  }

  lemma SameIndex(x: Word)
    ensures Sub32(x, x) == 0
  {
  }

  // --------------------------------------------------------------------------
  // The operations as the two boards call them
  // --------------------------------------------------------------------------

  function PushAlone(m: Memory, f: Frame): (Memory, bool) {
    if Sub32(m.written, m.read) >= 4 then (m, false)
    else (m.(queue := m.queue[Slot(m.written) := f], written := Add32(m.written, 1)), true)
  }

  function SelectAlone(m: Memory, event: Word): (Memory, Answer) {
    var n := m.(requested := true);
    if Held(n, event).Some? then (n, Held(n, event).value)
    else if Sub32(n.written, n.read) > 4 then (n, Refused)
    else
      var available := Sub32(n.written, n.read);
      var skipped := if n.selectedAny then Sub32(event, n.lastEvent + 1) else 0;
      var discard := Min(skipped, available);
      var read := Add32(n.read, discard);
      var present := discard < available;
      var data := if present then n.queue[Slot(read)] else Silence;
      (Fill(n, Latch(event, true, present, data)).(
         discarded := Add32(n.discarded, discard), underflows := Add32(n.underflows, if present then 0 else 1),
         read := Add32(read, if present then 1 else 0), lastEvent := event, selectedAny := true,
         selected := Add32(n.selected, 1)),
       if present then Copied(data) else Empty)
  }

  function RearmAlone(m: Memory, paused: bool): (Memory, bool) {
    var queued := Sub32(m.written, m.read);
    if !paused || queued > 4 then (m, false)
    else
      (m.(discarded := Add32(m.discarded, queued), read := m.written, requested := false,
          latch := [NoLatch, NoLatch], lastEvent := 0, selectedAny := false), true)
  }

  function Produced(s: State): State {
    PushStep(PushStep(PushStep(PushStep(s))))
  }

  function Consumed(s: State): State {
    ConsumeStep(ConsumeStep(ConsumeStep(ConsumeStep(ConsumeStep(ConsumeStep(s))))))
  }

  /** A push that nothing interrupts is the producer's steps in a row. */
  lemma PushAloneIsItsSteps(s: State, f: Frame)
    requires s.producer.Ready?
    ensures var t := Produced(Step(s, Push(f)));
      t.m == PushAlone(s.m, f).0 && t.producer.Ready? && t.consumer == s.consumer &&
      t.fifo.pushed == if PushAlone(s.m, f).1 then s.fifo.pushed + [f] else s.fifo.pushed
  {
    hide Slot, Sub32, Add32;
    var s1 := Step(s, Push(f));
    var s2 := PushStep(s1);
    if Sub32(s.m.written, s.m.read) < 4 {
      var s3 := PushStep(s2);
      var s4 := PushStep(s3);
      assert s4.m.queue == s.m.queue[Slot(s.m.written) := f];
    }
  }

  /** A selection that nothing interrupts is the consumer's steps in a row. */
  lemma SelectAloneIsItsSteps(s: State, event: Word)
    requires s.consumer.Idle?
    ensures var t := Consumed(AskStep(s, event));
      t.m == SelectAlone(s.m, event).0 && t.reply == Some(SelectAlone(s.m, event).1) && t.consumer.Idle? &&
      t.producer == s.producer
  {
    hide Slot, Sub32, Recall, Select, Held, Parity, Wrap;
    var t1 := AskStep(s, event);
    if t1.consumer.Asked? {
      var t2 := ConsumeStep(t1);
      if t2.consumer.Counted? {
        CountedToIdle(t2);
        AddNothing(t2.consumer.r, t2.m.underflows);
      }
    }
  }

  /** Between operations, a rearm that nothing interrupts is the step. */
  lemma RearmAloneIsItsStep(s: State)
    requires s.producer.Ready? && s.consumer.Idle?
    ensures RearmAlone(s.m, true).0 == Step(s, Rearm).m && RearmAlone(s.m, false) == (s.m, false)
  {
    hide Sub32, Add32;
  }

  /**
   After any run, a rearm between operations succeeds and starts over: every frame not yet handed out is counted as
   discarded, nothing is queued, no event is latched or refused, and the first selection of the new session, whatever
   its event, is empty, or the first frame pushed after the rearm.
   */
  lemma RearmStartsOver(actions: seq<Action>, f: Frame, event: Word)
    requires Run(Initial, actions).producer.Ready? && Run(Initial, actions).consumer.Idle?
    ensures var s := Run(Initial, actions); var (m, ok) := RearmAlone(s.m, true);
      ok && m == Step(s, Rearm).m && m.written == m.read == s.m.written && m.selected == s.m.selected &&
      m.discarded == Wrap(s.counts.discarded + |s.fifo.pushed| - s.fifo.taken) &&
      Held(m, event).None? && SelectAlone(m, event).1 == Empty &&
      PushAlone(m, f).1 && SelectAlone(PushAlone(m, f).0, event).1 == Copied(f)
  {
    RunKeeps(actions);
    var s := Run(Initial, actions);
    hide Run, LatchInv, Slot, Parity;
    IndexDifference(|s.fifo.pushed|, s.released);
    WrappedSum(s.counts.discarded, |s.fifo.pushed| - s.released);
    var m := RearmAlone(s.m, true).0;
    FirstAfter(m, f, event);
    hide Wrap, SelectAlone, PushAlone;
  }

  lemma FirstAfter(m: Memory, f: Frame, event: Word)
    requires m.written == m.read && !m.selectedAny && m.latch == [NoLatch, NoLatch]
    ensures Held(m, event).None? && SelectAlone(m, event).1 == Empty
    ensures PushAlone(m, f).1 && SelectAlone(PushAlone(m, f).0, event).1 == Copied(f)
  {
    hide Slot, Parity;
    assert Sub32(m.written, m.read) == 0 && Sub32(Add32(m.written, 1), m.read) == 1;
    AddNothing(m.read, m.discarded);
    hide Sub32, Add32;
  }

  lemma AddNothing(a: Word, b: Word)
    ensures Add32(a, 0) == a && Add32(b, 0) == b
  {
  }

  lemma CountedToIdle(s: State)
    requires s.consumer.Counted?
    ensures var t := ConsumeStep(ConsumeStep(ConsumeStep(ConsumeStep(ConsumeStep(s)))));
      var present := s.consumer.available != 0;
      var data := if present then s.m.queue[Slot(s.consumer.r)] else Silence;
      t.consumer.Idle? && t.producer == s.producer &&
      t.m == Fill(s.m, Latch(s.consumer.event, true, present, data)).(
        discarded := Add32(s.m.discarded, s.consumer.discard),
        underflows := if present then s.m.underflows else Add32(s.m.underflows, 1),
        read := if present then Add32(s.consumer.r, 1) else s.consumer.r,
        lastEvent := s.consumer.event, selectedAny := true, selected := Add32(s.m.selected, 1)) &&
      t.reply == Some(if present then Copied(data) else Empty)
  {
    hide Slot, Add32, Parity, Recall;
    var a := ConsumeStep(s);
    var b := ConsumeStep(a);
    var c := ConsumeStep(b);
    var d := ConsumeStep(c);
    var e := ConsumeStep(d);
    if s.consumer.available != 0 {
      assert c.m.latch[Parity(s.m.selected)].data == s.m.queue[Slot(s.consumer.r)];
      assert e.consumer.Idle?;
    } else {
      assert d.consumer.Idle?;
    }
  }

  datatype Statistics = Statistics(selected: Word, underflows: Word, discarded: Word, queued: Option<Word>)

  class AudioSource {
    var written: Word
    var read: Word
    var requested: bool
    const queue: array<Frame>
    const latch: array<Latch>
    var lastEvent: Word
    var selectedAny: bool
    var selected: Word
    var underflows: Word
    var discarded: Word

    ghost predicate Valid()
      reads this
    {
      queue.Length == 4 && latch.Length == 2
    }

    ghost function Contents(): Memory
      reads this, queue, latch
      requires Valid()
    {
      Memory(written, read, requested, queue[..], latch[..], lastEvent, selectedAny, selected, underflows, discarded)
    }

    constructor ()
      ensures Valid() && fresh(queue) && fresh(latch) && Contents() == Cleared
    {
      queue := new Frame[4](i => Silence);
      latch := new Latch[2](i => NoLatch);
      written, read, requested, lastEvent, selectedAny := 0, 0, false, 0, false;
      selected, underflows, discarded := 0, 0, 0;
    }

    method Push(frame: Frame) returns (ok: bool)
      requires Valid()
      modifies this, queue
      ensures Valid() && (Contents(), ok) == PushAlone(old(Contents()), frame)
    {
      hide Sub32, Add32;
      var w, r := written, read;
      if Sub32(w, r) >= 4 { return false; }
      queue[Slot(w)] := frame;
      written := Add32(w, 1);
      assert Contents() == PushAlone(old(Contents()), frame).0;
      return true;
    }

    method Select(event: Word) returns (answer: Answer)
      requires Valid()
      modifies this, queue, latch
      ensures Valid() && (Contents(), answer) == SelectAlone(old(Contents()), event)
    {
      hide Sub32, Add32, Slot, Parity;
      requested := true;
      for i := 0 to 2
        invariant Contents() == old(Contents()).(requested := true)
        invariant forall k :: 0 <= k < i ==> !(latch[k].valid && latch[k].event == event)
      {
        if latch[i].valid && latch[i].event == event {
          return if latch[i].present then Copied(latch[i].data) else Empty;
        }
      }
      if selectedAny && event <= lastEvent { return Refused; }
      var r, w := read, written;
      var available := Sub32(w, r);
      if available > 4 { return Refused; }
      var skipped := if selectedAny then Sub32(event, lastEvent + 1) else 0;
      var discard := if skipped < available then skipped else available;
      r := Add32(r, discard);
      available := available - discard;
      discarded := Add32(discarded, discard);
      var slot := Parity(selected);
      latch[slot] := Latch(event, true, available != 0, latch[slot].data);
      if available != 0 {
        latch[slot] := latch[slot].(data := queue[Slot(r)]);
        answer := Copied(latch[slot].data);
        r := Add32(r, 1);
      } else {
        latch[slot] := latch[slot].(data := Silence);
        underflows := Add32(underflows, 1);
        answer := Empty;
      }
      read := r;
      lastEvent, selectedAny := event, true;
      selected := Add32(selected, 1);
      ghost var m, n := old(Contents()), SelectAlone(old(Contents()), event).0;
      AddNothing(r, underflows);
      AddNothing(Add32(m.read, discard), m.underflows);
      assert Contents().latch == n.latch;
    }

    method Stats() returns (out: Statistics)
      requires Valid()
      ensures out.selected == selected && out.underflows == underflows && out.discarded == discarded
      ensures out.queued == if Sub32(written, read) <= 4 then Some(Sub32(written, read)) else None
    {
      hide Sub32;
      var queued: Option<Word> := None;
      for attempt := 0 to 3
        invariant queued == if attempt == 0 || Sub32(written, read) > 4 then None else Some(Sub32(written, read))
      {
        var r := read;
        var w := written;
        var again := read;
        if r == again && Sub32(w, r) <= 4 {
          queued := Some(Sub32(w, r));
          break;
        }
      }
      out := Statistics(selected, underflows, discarded, queued);
    }

    method Rearm(paused: bool) returns (ok: bool)
      requires Valid()
      modifies this, latch
      ensures Valid() && (Contents(), ok) == RearmAlone(old(Contents()), paused)
    {
      hide Sub32, Add32;
      if !paused { return false; }
      var w, r := written, read;
      if Sub32(w, r) > 4 { return false; }
      discarded := Add32(discarded, Sub32(w, r));
      read := w;
      requested := false;
      latch[0], latch[1] := NoLatch, NoLatch;
      lastEvent, selectedAny := 0, false;
      assert latch[..] == [NoLatch, NoLatch];
      return true;
    }
  }
}
