/**
 The owned radio event (radio_tx.c): one transmission, an optional later receive window, or three
 queued programs, run by the ROM's arbiter and program ring. Storage, registers and the payload
 buffer are borrowed when the event starts and given back after everything has retired.
 */
module RadioTx {
  import opened Words

  // --------------------------------------------------------------------------
  // The controller around the driver
  // --------------------------------------------------------------------------

  datatype Owner = Nobody | Ours | Other

  /** `ours`: the entry carries the driver's callback; `context` tells which of its programs. */
  datatype Entry = Entry(used: bool, ours: bool, context: nat, hs: int)

  type Ring = r: seq<Entry> | |r| == 16 witness seq(16, i => Entry(false, false, 0, 0))

  /** The register bits the driver touches, and the rest of the two control words. */
  datatype Registers = Registers(
    testEnable: bool, abort: bool, radioRest: int, testBits: int, testRest: int, rxTiming: int)

  /** Control structures of the three reserved activities and the two transmit descriptors. */
  datatype Cells = Cells(cs: seq<int>, reply: seq<int>, stop: seq<int>, descriptor: seq<int>, second: seq<int>)

  datatype Arbiter = Arbiter(active: Owner, linked: bool)
  datatype Programs = Programs(ring: Ring, consumer: int, producer: int, count: int)

  /** Payload buffers in the driver's hands, and a history of the allocator's calls. */
  datatype Pool = Pool(held: set<int>, obtained: nat, returned: nat, corrupted: bool)

  /** Identity of the reserved activities' parameters; 0 when not as expected. */
  datatype Owners = Owners(first: int, second: int, third: int)

  datatype Rom = Rom(
    arb: Arbiter, prog: Programs, alarm: bool, regs: Registers, cells: Cells, owners: Owners, pool: Pool)

  // --------------------------------------------------------------------------
  // The driver
  // --------------------------------------------------------------------------

  datatype Phase = IDLE | QUEUED | ACTIVE | ABORTING | ENDED | CANCELLED | REFUSED | FAULT

  datatype Program = Program(context: nat, hs: int)

  const NoProgram := Program(0, 0)
  const NoCells := Cells([], [], [], [], [])

  datatype Loan = Loan(lent: bool, saved: Cells, payload: int)
  datatype Globals = Globals(taken: bool, timed: bool, enable: bool, bits: int, timing: int)

  /** The programs, and the ring positions the driver records for them. */
  datatype Books = Books(
    many: bool, repeat: bool, program: Program, reply: Program, stop: Program, first: int, second: int, third: int)

  datatype Ended = Ended(first: bool, second: bool, third: bool, abortAsked: bool)
  datatype Later = Later(pending: bool, active: bool, hs: int, hus: int, window: int, channel: int, status: int)

  datatype Tx = Tx(
    phase: Phase, alarmSet: bool, loan: Loan, globals: Globals, owners: Owners, books: Books, ended: Ended,
    later: Later, format: int, phy: int, stopHus: int, rxInvalid: bool, complete: bool)

  const NoLoan := Loan(false, NoCells, 0)
  const NoGlobals := Globals(false, false, false, 0, 0)
  const NoBooks := Books(false, false, NoProgram, NoProgram, NoProgram, 255, 0, 0)
  const NoneEnded := Ended(false, false, false, false)
  const NoLater := Later(false, false, 0, 0, 0, 0, 0)
  const Blank := Tx(IDLE, false, NoLoan, NoGlobals, Owners(0, 0, 0), NoBooks, NoneEnded, NoLater, 0, 0, 0, false, false)

  /**
   `calm` is what cells and registers would hold without the driver. `orphans` are ring positions
   whose entry the driver no longer records.
   */
  datatype State = State(tx: Tx, rom: Rom, calmCells: Cells, calmRegs: Registers, orphans: set<int>)

  /** Everything a step may find out from the controller. */
  datatype Oracle = Oracle(
    status: int, next: Owner, buffer: int, antenna: seq<(int, int)>, hs: int, hus: int, delay: int,
    invalid: bool, complete: bool, executing: bool)

  datatype Request = Request(
    hs: int, hus: int, address: int, crcInit: int, length: int, channel: int, header: int, phy: int,
    receive: int, txReceive: int, delay: int, window: int, followupChannel: int, prequeued: int, repeat: int,
    optionByte: int)

  predicate Matches(e: Entry, p: Program) {
    e.used && e.ours && e.context == p.context && e.hs == p.hs
  }

  predicate EntryIsOurs(prog: Programs, index: int, p: Program, current: bool) {
    0 <= index < 16 && (current ==> prog.consumer == index) && Matches(prog.ring[index], p)
  }

  predicate ProgramIsOurs(b: Books, prog: Programs, current: bool) {
    EntryIsOurs(prog, b.first, b.program, current) ||
    (b.many && EntryIsOurs(prog, b.second, b.reply, current)) ||
    (b.repeat && EntryIsOurs(prog, b.third, b.stop, current))
  }

  predicate Used(prog: Programs, index: int) {
    0 <= index < 16 && prog.ring[index].used
  }

  // --------------------------------------------------------------------------
  // Borrowing and giving back
  // --------------------------------------------------------------------------

  function Freed(pool: Pool, buffer: int): Pool {
    if buffer in pool.held then pool.(held := pool.held - {buffer}, returned := pool.returned + 1)
    else pool.(corrupted := true)
  }

  function Restored(v: Cells, b: Books, c: Cells): Cells {
    Cells(v.cs, if b.many then v.reply else c.reply, if b.repeat then v.stop else c.stop,
          v.descriptor, if b.repeat then v.second else c.second)
  }

  function ReleaseStorage(s: State): State {
    var loan := s.tx.loan;
    if !loan.lent then s
    else
      s.(rom := s.rom.(cells := Restored(loan.saved, s.tx.books, s.rom.cells), pool := Freed(s.rom.pool, loan.payload)),
         tx := s.tx.(loan := loan.(lent := false)))
  }

  function RestoreGlobals(s: State): State {
    var g, r := s.tx.globals, s.rom.regs;
    if !g.taken then s
    else
      s.(rom := s.rom.(regs := r.(testEnable := g.enable, abort := false, testBits := g.bits,
                                  rxTiming := if g.timed then g.timing else r.rxTiming)),
         tx := s.tx.(globals := g.(taken := false, timed := false)))
  }

  function ClearAlarm(s: State): State {
    if s.tx.alarmSet then s.(tx := s.tx.(alarmSet := false), rom := s.rom.(alarm := false)) else s
  }

  function NextActive(o: Oracle): Owner {
    if o.next == Ours then Nobody else o.next
  }

  /** Give up the arbiter's current slot; the arbiter may start somebody else at once. */
  function RemoveActive(s: State, o: Oracle): State {
    if s.rom.arb.active == Ours then s.(rom := s.rom.(arb := Arbiter(NextActive(o), false))) else s
  }

  function WithPhase(s: State, p: Phase): State {
    s.(tx := s.tx.(phase := p))
  }

  function WithLater(s: State, l: Later): State {
    s.(tx := s.tx.(later := l))
  }

  function AbortActive(s: State): State {
    var b := s.tx.books;
    if s.tx.phase != ACTIVE && s.tx.phase != ABORTING then s
    else if !(s.rom.arb.active == Ours && ProgramIsOurs(b, s.rom.prog, true)) then WithPhase(s, FAULT)
    else
      var stopping := b.repeat && EntryIsOurs(s.rom.prog, b.third, b.stop, true);
      s.(tx := s.tx.(phase := ABORTING, ended := s.tx.ended.(abortAsked := s.tx.ended.abortAsked || stopping)),
         rom := s.rom.(regs := s.rom.regs.(testEnable := false, abort := true)))
  }

  // --------------------------------------------------------------------------
  // Submission
  // --------------------------------------------------------------------------

  predicate GoodHeader(r: Request) {
    0 <= r.header <= 15 || r.header == 0x10 || r.header == 0x11 || r.header == 0x20 || r.header == 0x30 ||
    (r.header == 0x32 && (r.length == 205 || r.length == 15) && r.phy == 2)
  }

  function PacketTime(r: Request): int {
    if r.phy == 1 then (r.length + 10) * 8 else (r.length + 11) * 4
  }

  predicate GoodRepeat(r: Request) {
    r.repeat == 1 ==>
      r.prequeued == 1 && ((r.length == 203 && r.header == 0x30) || (r.length == 205 && r.header == 0x32)) &&
      r.phy == 2 && r.delay == 1420
  }

  predicate GoodFollowup(r: Request) {
    (r.prequeued == 1 ==> r.delay != 0 && r.delay >= PacketTime(r) + 300) &&
    (r.delay != 0 ==>
      r.receive == 0 && r.txReceive == 0 && (if r.prequeued == 1 then 700 else 1800) <= r.delay <= 3500 &&
      1 <= r.window <= 1000 && 0 <= r.followupChannel <= 39) &&
    (r.delay == 0 ==> r.window == 0)
  }

  predicate GoodRequest(r: Request) {
    0 < r.length <= 251 && 0 <= r.channel <= 39 && GoodHeader(r) && 1 <= r.phy <= 2 &&
    0 <= r.hs < 0x1000_0000 && 0 <= r.hus <= 624 && 0 <= r.crcInit <= 0xffffff &&
    0 <= r.receive <= 1000 && 0 <= r.txReceive <= 1000 && (r.receive == 0 || r.txReceive == 0) &&
    0 <= r.prequeued <= 1 && 0 <= r.repeat <= 1 && GoodRepeat(r) && GoodFollowup(r)
  }

  function Put(c: seq<int>, field: int, value: int): seq<int> {
    if 0 <= field < |c| then c[field := value % 0x1_0000] else c
  }

  /** Assign 16-bit fields; all others keep their value. */
  function PutAll(c: seq<int>, fields: map<int, int>): seq<int> {
    seq(|c|, i requires 0 <= i < |c| => if i in fields then fields[i] % 0x1_0000 else c[i])
  }

  function WindowField(us: int): int {
    (us + 1) / 2
  }

  const FirstDescriptor := 0x1400 + 126
  const SecondDescriptor := 0x1400 + 252

  /** Fields configured for the first program, by their index: half the byte offset. */
  function FirstFields(r: Request): map<int, int> {
    var rate := r.phy - 1;
    var receive := if r.receive != 0 then r.receive else r.txReceive;
    map[1 := 0x801, 2 := if r.receive != 0 then 0x1000 + 4 * rate else 0x1100 + 5 * rate,
        6 := r.address, 7 := r.address / 0x1_0000, 8 := r.crcInit, 9 := r.crcInit / 0x1_0000,
        11 := 0x8000 + r.channel, 13 := if receive != 0 then WindowField(receive) else r.optionByte,
        14 := FirstDescriptor, 15 := 0, 16 := 0, 17 := 0xffff, 18 := 0xffff, 19 := 0x1f, 20 := 251, 21 := 0,
        34 := 0, 35 := 0, 36 := 0, 37 := 0, 38 := 0, 39 := 0]
  }

  function ReplyFields(r: Request): map<int, int> {
    var f := FirstFields(r)[1 := 0x802][11 := 0x8000 + r.followupChannel][13 := WindowField(r.window)];
    if r.repeat == 1 then f[14 := SecondDescriptor] else f[2 := 0x1000 + 4 * (r.phy - 1)]
  }

  function StopFields(r: Request): map<int, int> {
    FirstFields(r)[1 := 0x803][2 := 0x1000 + 4 * (r.phy - 1)][11 := 0x8000 + r.followupChannel][13 := 10][14 := 0][15 := 0]
  }

  function Descriptor(r: Request, buffer: int): seq<int> {
    [0, r.header + 256 * r.length, buffer, 0, 0, 0, 0]
  }

  function Configured(c: Cells, r: Request, buffer: int): Cells {
    Cells(PutAll(c.cs, FirstFields(r)),
          if r.prequeued == 1 then PutAll(c.reply, ReplyFields(r)) else c.reply,
          if r.repeat == 1 then PutAll(c.stop, StopFields(r)) else c.stop,
          Descriptor(r, buffer),
          if r.repeat == 1 then Descriptor(r, buffer) else c.second)
  }

  function Saved(c: Cells, r: Request): Cells {
    Cells(c.cs, if r.prequeued == 1 then c.reply else [], if r.repeat == 1 then c.stop else [],
          c.descriptor, if r.repeat == 1 then c.second else [])
  }

  function Clock(hs: int): int {
    hs % 0x1000_0000
  }

  function MinLead(delay: int): int {
    if delay != 0 then delay + 2 else 8
  }

  function LaterTime(r: Request): (int, int) {
    var fine := r.hus + 2 * r.delay;
    if r.delay != 0 then (Clock(r.hs + fine / 625), fine % 625) else (0, 0)
  }

  function StopTime(r: Request): (int, int) {
    var fine := r.hus + 5950;
    (Clock(r.hs + fine / 625), fine % 625)
  }

  /** A fresh event: what it owns, and the identity and times of its programs. */
  function Prepared(rom: Rom, r: Request, buffer: int): Tx {
    var later, stop := LaterTime(r), StopTime(r);
    var many, repeat := r.prequeued == 1, r.repeat == 1;
    Tx(QUEUED, false, Loan(true, Saved(rom.cells, r), buffer), NoGlobals,
       Owners(rom.owners.first, if many then rom.owners.second else 0, if repeat then rom.owners.third else 0),
       Books(many, repeat, Program(0, r.hs), if many then Program(1, later.0) else NoProgram,
             if repeat then Program(2, stop.0) else NoProgram, 255, 255, 255),
       NoneEnded,
       if r.delay == 0 then NoLater else Later(!many, false, later.0, later.1, r.window, r.followupChannel, 0),
       if r.receive != 0 then 29 else 2, r.phy, if repeat then stop.1 else 0, false, false)
  }

  const Invalid := 0x12
  const Busy := 0x0c
  const NoMemory := 0x07
  const Conflict := 0x80
  const Expired := 0x81

  predicate OwnersPresent(w: Owners, r: Request) {
    w.first != 0 && (r.prequeued == 1 ==> w.second != 0) && (r.repeat == 1 ==> w.third != 0)
  }

  /** Borrow the storage for an event and configure it. */
  function Borrow(s: State, r: Request, buffer: int): State {
    var pool := s.rom.pool;
    s.(tx := Prepared(s.rom, r, buffer),
       rom := s.rom.(cells := Configured(s.rom.cells, r, buffer),
                     pool := pool.(held := pool.held + {buffer}, obtained := pool.obtained + 1)))
  }

  function Submit(s: State, r: Request, o: Oracle): (State, int) {
    if !GoodRequest(r) then (s, Invalid)
    else if s.tx.phase != IDLE || !OwnersPresent(s.rom.owners, r) then (s, Busy)
    else if Clock(r.hs - o.hs) < MinLead(o.delay) || Clock(r.hs - o.hs) > 3200 then (s, Expired)
    else if o.buffer == 0 then (s, NoMemory)
    else
      var t := Borrow(s, r, o.buffer);
      if o.status != 0 then (ReleaseStorage(t).(tx := Blank), Conflict)
      else (t.(rom := t.rom.(arb := t.rom.arb.(linked := true))), 0)
  }

  // --------------------------------------------------------------------------
  // The arbiter's callbacks
  // --------------------------------------------------------------------------

  function Refuse(s: State, o: Oracle): State {
    WithPhase(RemoveActive(s, o), REFUSED)
  }

  predicate SameOwners(tx: Tx, w: Owners) {
    w.first == tx.owners.first && (tx.books.many ==> w.second == tx.owners.second) &&
    (tx.books.repeat ==> w.third == tx.owners.third)
  }

  predicate Quiet(r: Registers) {
    !r.testEnable && !r.abort && r.testBits == 0
  }

  predicate MayStart(s: State) {
    s.tx.phase == QUEUED && s.rom.arb.active == Ours && SameOwners(s.tx, s.rom.owners) && s.rom.prog.count == 0 &&
    Quiet(s.rom.regs)
  }

  predicate Timed(tx: Tx) {
    tx.format == 2 && tx.phy == 2 && (!tx.books.many || tx.books.repeat)
  }

  const TimingBase := 0x20407
  const TimingShift := 24

  function Antenna(o: Oracle, i: nat): (int, int) {
    if i < |o.antenna| then o.antenna[i] else (2, 2)
  }

  predicate GoodAntenna(a: (int, int)) {
    0 <= a.0 <= 1 && 0 <= a.1 <= 1
  }

  function FormatField(format: int, a: (int, int)): int {
    format + 128 * a.0 + 64 * a.1
  }

  /** Write the programs' format fields; false at the first antenna that is not understood. */
  function Antennas(tx: Tx, c: Cells, o: Oracle): (Cells, bool) {
    if !GoodAntenna(Antenna(o, 0)) then (c, false)
    else
      var c1 := c.(cs := Put(c.cs, 0, FormatField(tx.format, Antenna(o, 0))));
      if !tx.books.many then (c1, true)
      else if !GoodAntenna(Antenna(o, 1)) then (c1, false)
      else
        var c2 := c1.(reply := Put(c1.reply, 0, FormatField(if tx.books.repeat then 2 else 29, Antenna(o, 1))));
        if !tx.books.repeat then (c2, true)
        else if !GoodAntenna(Antenna(o, 2)) then (c2, false)
        else (c2.(stop := Put(c2.stop, 0, FormatField(29, Antenna(o, 2)))), true)
  }

  /** Save the register bits, then leave test mode and shift the transmit path. */
  function TakeGlobals(s: State): State {
    var r, timed := s.rom.regs, Timed(s.tx);
    s.(tx := s.tx.(globals := Globals(true, timed, r.testEnable, r.testBits, if timed then r.rxTiming else s.tx.globals.timing)),
       rom := s.rom.(regs := r.(testEnable := false, testBits := 0,
                                rxTiming := if timed then (r.rxTiming + TimingShift) % 0x1_0000_0000 else r.rxTiming)))
  }

  /** The books, the ring and the orphans: all that pushing programs changes. */
  datatype Pushing = Pushing(books: Books, prog: Programs, orphans: set<int>)

  /** The ROM stores a program at its producer position. */
  function Push(u: Pushing, p: Program): Pushing {
    var at := u.prog.producer;
    if 0 <= at < 16 then
      Pushing(u.books,
              u.prog.(ring := u.prog.ring[at := Entry(true, true, p.context, p.hs)], producer := (at + 1) % 16,
                      count := u.prog.count + 1),
              u.orphans - {at})
    else u
  }

  /** Queue the further programs; false when a ring position or count is not as expected. */
  function PushReply(u: Pushing): (Pushing, bool) {
    var at, b := u.prog.producer, u.books;
    if !b.many then (u, true)
    else
      var v := u.(books := b.(second := at));
      if at < 0 || at >= 16 || at == b.first || u.prog.count != 1 then (v, false)
      else
        var w := Push(v, b.reply);
        (w, EntryIsOurs(w.prog, at, b.reply, false))
  }

  function PushStop(u: Pushing): (Pushing, bool) {
    var at, b := u.prog.producer, u.books;
    if !b.repeat then (u, true)
    else
      var v := u.(books := b.(third := at));
      if at < 0 || at >= 16 || at == b.first || at == b.second || u.prog.count != 2 then (v, false)
      else
        var w := Push(v, b.stop);
        (w, EntryIsOurs(w.prog, at, b.stop, false))
  }

  function PushAll(u: Pushing): (Pushing, bool) {
    var v := Push(u, u.books.program);
    if !ProgramIsOurs(v.books, v.prog, false) then (v, false)
    else
      var (w, replied) := PushReply(v);
      if !replied then (w, false) else PushStop(w)
  }

  /** The reply is queued, whatever becomes of the stopper. */
  predicate ReplyQueued(u: Pushing) {
    var v := Push(u, u.books.program);
    u.books.many && ProgramIsOurs(v.books, v.prog, false) && PushReply(v).1
  }

  function LaterOnStart(l: Later, replied: bool): Later {
    l.(status := if replied then 1 else if l.active then 2 else l.status)
  }

  function Activate(s: State): State {
    var t := TakeGlobals(s);
    var before := Pushing(t.tx.books, t.rom.prog, t.orphans);
    var (u, pushed) := PushAll(before);
    State(t.tx.(phase := if pushed then ACTIVE else FAULT, books := u.books, alarmSet := pushed,
                later := LaterOnStart(t.tx.later, ReplyQueued(before))),
          t.rom.(prog := u.prog, alarm := if pushed then true else t.rom.alarm), t.calmCells, t.calmRegs, u.orphans)
  }

  /** The arbiter gives our reservation its slot. */
  function Started(s: State, o: Oracle): State {
    if !MayStart(s) || (Timed(s.tx) && s.rom.regs.rxTiming != TimingBase) then Refuse(s, o)
    else
      var t := s.(tx := s.tx.(books := s.tx.books.(first := s.rom.prog.producer)));
      if s.rom.prog.producer < 0 || s.rom.prog.producer >= 16 then WithPhase(RemoveActive(t, o), FAULT)
      else
        var (cells, good) := Antennas(t.tx, t.rom.cells, o);
        var u := t.(rom := t.rom.(cells := cells));
        if !good then Refuse(u, o) else Activate(u)
  }

  function Deadline(s: State): State {
    AbortActive(s.(tx := s.tx.(alarmSet := false), rom := s.rom.(alarm := false)))
  }

  /** The arbiter drops a reservation that has not started; it is already unlinked. */
  function CancelledByRom(s: State): State {
    WithPhase(s.(rom := s.rom.(arb := s.rom.arb.(linked := false))), if s.tx.phase != QUEUED then FAULT else CANCELLED)
  }

  // --------------------------------------------------------------------------
  // The program callback
  // --------------------------------------------------------------------------

  function FollowupFields(l: Later, phy: int): map<int, int> {
    map[2 := 0x1000 + 4 * (phy - 1), 11 := 0x8000 + l.channel, 13 := WindowField(l.window),
        34 := 0, 35 := 0, 36 := 0, 37 := 0, 38 := 0, 39 := 0]
  }

  predicate TooLate(l: Later, o: Oracle) {
    var ahead := Clock(l.hs - o.hs);
    o.delay == 0 || ahead > 3200 || ahead * 625 + l.hus - o.hus < (o.delay + 1) * 625
  }

  /** Turn the finished reservation into the later receive window. */
  function QueueFollowup(s: State, o: Oracle): State {
    var l := s.tx.later.(pending := false);
    var arb := s.rom.arb;
    if s.rom.owners.first != s.tx.owners.first || arb.active == Ours || s.rom.prog.count == 0 then
      WithPhase(WithLater(s, l), FAULT)
    else if arb.active != Nobody || s.rom.prog.count > 1 then WithLater(s, l.(status := 5))
    else if TooLate(l, o) then WithLater(s, l.(status := 4))
    else
      var queued := o.status == 0;
      var cells := s.rom.cells.(cs := PutAll(s.rom.cells.cs, FollowupFields(s.tx.later, s.tx.phy)));
      State(s.tx.(format := 29, books := s.tx.books.(program := Program(0, l.hs), first := 255),
                  phase := if queued then QUEUED else ENDED, later := l.(active := true, status := if queued then 1 else 5)),
            s.rom.(cells := cells, arb := arb.(linked := arb.linked || queued)),
            s.calmCells, s.calmRegs, s.orphans + {s.tx.books.first})
  }

  function Receive(s: State, o: Oracle, published: bool): State {
    s.(tx := s.tx.(rxInvalid := s.tx.rxInvalid || o.invalid, complete := s.tx.complete || (published && o.complete)))
  }

  /** Which of the programs a callback is for: 0 first, 1 reply, 2 stopper. */
  function Which(b: Books, context: nat): nat {
    if b.repeat && context == b.stop.context then 2 else if b.many && context == b.reply.context then 1 else 0
  }

  function Its(b: Books, which: nat): (Program, int) {
    if which == 2 then (b.stop, b.third) else if which == 1 then (b.reply, b.second) else (b.program, b.first)
  }

  predicate EndedOf(e: Ended, which: nat) {
    if which == 2 then e.third else if which == 1 then e.second else e.first
  }

  predicate EarlierPending(e: Ended, which: nat) {
    if which == 2 then !e.first || !e.second else which == 1 && !e.first
  }

  predicate AllEnded(b: Books, e: Ended) {
    b.many && e.first && e.second && (b.repeat ==> e.third)
  }

  function MarkEnded(e: Ended, which: nat): Ended {
    if which == 2 then e.(third := true) else if which == 1 then e.(second := true) else e.(first := true)
  }

  function ToEnded(s: State): State {
    if s.tx.phase != FAULT then WithPhase(s, ENDED) else s
  }

  /** A packet was received: an event that has its complete reply stops early. */
  function Received(s: State, which: nat, o: Oracle): State {
    var t := Receive(s, o, which != 2);
    var b, l := t.tx.books, t.tx.later;
    var native := l.pending && !b.many && t.tx.format == 2;
    if which != 2 && (l.active || which == 1 || native || (b.repeat && which != 1)) && !t.tx.rxInvalid && t.tx.complete then
      AbortActive(if native then WithLater(t, l.(pending := false, status := 7)) else t)
    else t
  }

  function StatusAfter(l: Later, reason: nat): Later {
    l.(status := if reason == 0 then 3 else 6)
  }

  /** One of several queued programs ended; the resources stay until all have. */
  function OneEnded(s: State, which: nat, reason: nat): State {
    var t := s.(tx := s.tx.(ended := MarkEnded(s.tx.ended, which),
                            later := if which == 1 then StatusAfter(s.tx.later, reason) else s.tx.later));
    if AllEnded(t.tx.books, t.tx.ended) then ToEnded(ClearAlarm(t)) else t
  }

  /** The only program ended. */
  function SingleEnded(s: State, reason: nat, o: Oracle): State {
    var t := ToEnded(RemoveActive(RestoreGlobals(ClearAlarm(s)), o));
    var u := if t.tx.later.active then WithLater(t, StatusAfter(t.tx.later, reason)) else t;
    if u.tx.later.pending && reason == 0 && u.tx.phase == ENDED && !u.tx.rxInvalid then QueueFollowup(u, o) else u
  }

  predicate EndReason(reason: nat) {
    reason == 0 || reason == 1 || reason == 4
  }

  predicate Unexpected(s: State, which: nat, context: nat, hs: int, reason: nat) {
    var (p, index) := Its(s.tx.books, which);
    context != p.context || hs != p.hs || !EntryIsOurs(s.rom.prog, index, p, false) ||
    (EarlierPending(s.tx.ended, which) && reason != 4)
  }

  function FrameDone(s: State, context: nat, hs: int, reason: nat, o: Oracle): State {
    var which, many := Which(s.tx.books, context), s.tx.books.many;
    if Unexpected(s, which, context, hs, reason) then WithPhase(s, FAULT)
    else if many && EndedOf(s.tx.ended, which) then (if EndReason(reason) then s else WithPhase(s, FAULT))
    else if which == 2 && reason == 3 then WithPhase(s, FAULT)
    else if reason == 2 then Received(s, which, o)
    else if !EndReason(reason) then s
    else
      var t := if reason != 4 then Receive(s, o, which != 2) else s;
      if many then OneEnded(t, which, reason) else SingleEnded(t, reason, o)
  }

  // --------------------------------------------------------------------------
  // Cancel and collect
  // --------------------------------------------------------------------------

  predicate EntryInOrder(prog: Programs, index: int, p: Program, ended: bool) {
    0 <= index < 16 && if prog.ring[index].used then EntryIsOurs(prog, index, p, false) else ended
  }

  predicate AllInOrder(b: Books, e: Ended, prog: Programs) {
    EntryInOrder(prog, b.first, b.program, e.first) && EntryInOrder(prog, b.second, b.reply, e.second) &&
    EntryInOrder(prog, b.third, b.stop, e.third)
  }

  function Cancel(s: State, o: Oracle): State {
    var t := WithLater(s, s.tx.later.(pending := false));
    var b := s.tx.books;
    if s.tx.phase == QUEUED then
      if o.status != 0 then t
      else
        var active := if s.rom.arb.active == Ours then NextActive(o) else s.rom.arb.active;
        WithPhase(t.(rom := s.rom.(arb := Arbiter(active, false))), CANCELLED)
    else if b.repeat && (s.tx.phase == ACTIVE || s.tx.phase == ABORTING) then
      if s.rom.arb.active == Ours && AllInOrder(b, s.tx.ended, s.rom.prog) then t else WithPhase(t, FAULT)
    else AbortActive(t)
  }

  function SignedClock(d: int): int {
    (d + 0x800_0000) % 0x1000_0000 - 0x800_0000
  }

  /** The stopper's own short window is over. */
  predicate StopIsDue(s: State, o: Oracle) {
    var b, e := s.tx.books, s.tx.ended;
    b.repeat && e.first && e.second && !e.third && !e.abortAsked && (s.tx.phase == ACTIVE || s.tx.phase == ABORTING) &&
    s.rom.arb.active == Ours && EntryIsOurs(s.rom.prog, b.third, b.stop, true) && o.executing &&
    SignedClock(o.hs - b.stop.hs) * 625 + o.hus - s.tx.stopHus >= 40
  }

  function StopDue(s: State, o: Oracle): State {
    if StopIsDue(s, o) then AbortActive(s.(tx := s.tx.(ended := s.tx.ended.(abortAsked := true)))) else s
  }

  predicate ForeignEntry(prog: Programs, index: int, p: Program) {
    Used(prog, index) && !EntryIsOurs(prog, index, p, false)
  }

  predicate SomeForeign(b: Books, rom: Rom) {
    ForeignEntry(rom.prog, b.first, b.program) || ForeignEntry(rom.prog, b.second, b.reply) ||
    (b.repeat && ForeignEntry(rom.prog, b.third, b.stop)) || rom.arb.active == Other
  }

  predicate SomeUsed(b: Books, prog: Programs) {
    Used(prog, b.first) || Used(prog, b.second) || (b.repeat && Used(prog, b.third))
  }

  /** After several programs: -1 over foreign events, 0 while an entry is in use, otherwise released. */
  function ReleaseSeveral(s: State, o: Oracle): (State, int) {
    if SomeForeign(s.tx.books, s.rom) then (WithPhase(s, FAULT), -1)
    else if SomeUsed(s.tx.books, s.rom.prog) then (s, 0)
    else (RemoveActive(RestoreGlobals(s), o), 1)
  }

  predicate Pending(s: State) {
    s.tx.phase == QUEUED || s.tx.phase == ACTIVE || s.tx.phase == ABORTING || s.tx.globals.taken || s.tx.alarmSet ||
    s.rom.arb.active == Ours || ProgramIsOurs(s.tx.books, s.rom.prog, false)
  }

  function Collect(s: State, o: Oracle): (State, int) {
    if s.tx.phase == FAULT || (s.tx.loan.lent && !SameOwners(s.tx, s.rom.owners)) then (s, -1)
    else
      var t := StopDue(s, o);
      var (u, code) := if AllEnded(t.tx.books, t.tx.ended) then ReleaseSeveral(t, o) else (t, 1);
      if code != 1 then (u, code)
      else if Pending(u) then (u, 0)
      else (ReleaseStorage(u).(tx := Blank), 1)
  }

  // --------------------------------------------------------------------------
  // Runs
  // --------------------------------------------------------------------------

  datatype Action =
    | DoSubmit(r: Request, o: Oracle)
    | DoCancel(o: Oracle)
    | DoCollect(o: Oracle)
    | ArbStart(o: Oracle)
    | ArbStop
    | ArbCancel
    | ArbOther(next: Owner)
    | AlarmFires
    | ProgramCallback(context: nat, hs: int, reason: nat, retired: set<int>, o: Oracle)
    | RingMoves(prog: Programs)
    | RegistersMove(regs: Registers)
    | CellsMove(cells: Cells)
    | OwnersMove(owners: Owners)

  /** The rest of the controller never makes an entry that carries the driver's callback. */
  predicate NoForgery(before: Ring, after: Ring) {
    forall i :: 0 <= i < 16 && after[i].used && after[i].ours ==> after[i] == before[i]
  }

  function Retire(ring: Ring, retired: set<int>): (after: Ring)
    ensures NoForgery(ring, after)
    ensures forall i :: 0 <= i < 16 && i in retired ==> !after[i].used
  {
    seq(16, i requires 0 <= i < 16 => if i in retired then ring[i].(used := false) else ring[i])
  }

  /** Others change what is theirs; the hardware may finish an abort. */
  function MovedRegisters(s: State, r: Registers): State {
    var g, now, calm := s.tx.globals, s.rom.regs, s.calmRegs;
    if g.taken then
      var timing, calmTiming := if g.timed then now.rxTiming else r.rxTiming, if g.timed then calm.rxTiming else r.rxTiming;
      s.(rom := s.rom.(regs := now.(radioRest := r.radioRest, testRest := r.testRest, abort := now.abort && r.abort, rxTiming := timing)),
         calmRegs := calm.(radioRest := r.radioRest, testRest := r.testRest, rxTiming := calmTiming))
    else s.(rom := s.rom.(regs := r), calmRegs := r)
  }

  /** While borrowed, the hardware may write the driver's cells; all others belong to their owners. */
  function MovedCells(s: State, c: Cells): State {
    var lent, b, k := s.tx.loan.lent, s.tx.books, s.calmCells;
    s.(rom := s.rom.(cells := c),
       calmCells := Cells(if lent then k.cs else c.cs, if lent && b.many then k.reply else c.reply,
                          if lent && b.repeat then k.stop else c.stop, if lent then k.descriptor else c.descriptor,
                          if lent && b.repeat then k.second else c.second))
  }

  function WithArbiter(s: State, active: Owner, linked: bool): State {
    s.(rom := s.rom.(arb := Arbiter(active, linked)))
  }

  function WithPrograms(s: State, prog: Programs): State {
    s.(rom := s.rom.(prog := prog))
  }

  function Step(s: State, a: Action): State {
    var arb := s.rom.arb;
    match a
    case DoSubmit(r, o) => Submit(s, r, o).0
    case DoCancel(o) => Cancel(s, o)
    case DoCollect(o) => Collect(s, o).0
    case ArbStart(o) => if arb.linked then Started(WithArbiter(s, Ours, true), o) else s
    case ArbStop => AbortActive(s)
    case ArbCancel => if arb.linked && arb.active != Ours then CancelledByRom(s) else s
    case ArbOther(next) => if next == Ours then s else WithArbiter(s, next, arb.linked && arb.active != Ours)
    case AlarmFires => if s.rom.alarm then Deadline(s) else s
    case ProgramCallback(context, hs, reason, retired, o) =>
      var t := FrameDone(s, context, hs, reason, o);
      WithPrograms(t, t.rom.prog.(ring := Retire(t.rom.prog.ring, retired)))
    case RingMoves(prog) => if NoForgery(s.rom.prog.ring, prog.ring) then WithPrograms(s, prog) else s
    case RegistersMove(regs) => MovedRegisters(s, regs)
    case CellsMove(cells) => MovedCells(s, cells)
    case OwnersMove(owners) => s.(rom := s.rom.(owners := owners))
  }

  function Run(s: State, actions: seq<Action>): State {
    if actions == [] then s else Step(Run(s, actions[..|actions| - 1]), actions[|actions| - 1])
  }

  /** Before the first event: nothing of ours anywhere. */
  predicate Fresh(s: State) {
    s.tx == Blank && !s.rom.arb.linked && s.rom.arb.active != Ours && !s.rom.alarm && s.rom.regs == s.calmRegs &&
    s.rom.cells == s.calmCells && s.rom.pool.held == {} && s.rom.pool.obtained == s.rom.pool.returned &&
    !s.rom.pool.corrupted && s.orphans == {} && NoneOurs(s.rom.prog.ring)
  }

  predicate NoneOurs(ring: Ring) {
    forall i :: 0 <= i < 16 ==> !(ring[i].used && ring[i].ours)
  }

  // --------------------------------------------------------------------------
  // What every step keeps
  // --------------------------------------------------------------------------

  /** What was saved, or what is there when nothing was, is what the cells would hold without the driver. */
  predicate CellsInv(loan: Loan, many: bool, all: bool, c: Cells, k: Cells) {
    var v := loan.saved;
    if loan.lent then
      v.cs == k.cs && v.descriptor == k.descriptor && (if many then v.reply == k.reply else c.reply == k.reply) &&
      (if all then v.stop == k.stop && v.second == k.second else c.stop == k.stop && c.second == k.second)
    else c == k
  }

  predicate RegistersInv(g: Globals, r: Registers, k: Registers) {
    if g.taken then
      r.radioRest == k.radioRest && r.testRest == k.testRest && g.enable == k.testEnable && g.bits == k.testBits && !k.abort &&
      (if g.timed then g.timing == k.rxTiming else r.rxTiming == k.rxTiming)
    else r == k && !g.timed
  }

  /** The payload buffer is held exactly while the storage is borrowed. */
  predicate PoolInv(loan: Loan, pool: Pool) {
    !pool.corrupted && pool.held == (if loan.lent then {loan.payload} else {}) &&
    pool.obtained == pool.returned + if loan.lent then 1 else 0
  }

  predicate Unstarted(tx: Tx) {
    !tx.globals.taken && !tx.alarmSet && tx.books.first == 255 && (tx.books.many ==> tx.books.second == 255) &&
    (tx.books.repeat ==> tx.books.third == 255) && !tx.ended.first && !tx.ended.second && !tx.ended.third && tx.loan.lent
  }

  predicate PhaseInv(tx: Tx, arb: Arbiter, alarm: bool) {
    (tx.phase == IDLE ==> tx == Blank && !arb.linked) && (tx.phase == QUEUED ==> Unstarted(tx)) &&
    (tx.phase == ACTIVE || tx.phase == ABORTING ==> tx.globals.taken) &&
    (AllEnded(tx.books, tx.ended) ==> tx.phase == ENDED || tx.phase == FAULT || tx.phase == REFUSED) &&
    (tx.phase == ENDED ==> !tx.alarmSet && if tx.books.many then AllEnded(tx.books, tx.ended) else !tx.globals.taken && !arb.linked) &&
    (tx.phase == CANCELLED ==> !arb.linked && !tx.alarmSet && !tx.globals.taken && tx.books.first == 255 && !AllEnded(tx.books, tx.ended) &&
                               (tx.books.many ==> tx.books.second == 255) && (tx.books.repeat ==> tx.books.third == 255)) &&
    (arb.active == Ours ==> arb.linked) && (arb.linked ==> arb.active == Ours || tx.phase == QUEUED || tx.phase == FAULT) &&
    alarm == tx.alarmSet
  }

  predicate InRing(index: int) {
    0 <= index < 16
  }

  predicate EndedInv(b: Books, e: Ended, l: Later, lent: bool) {
    (b.repeat ==> b.many) && (b.many ==> !l.pending && !l.active) && (l.pending || l.active ==> lent) &&
    (e.first ==> b.many && InRing(b.first)) && (e.second ==> b.many && InRing(b.second)) &&
    (e.third ==> b.repeat && InRing(b.third))
  }

  predicate Recorded(b: Books, e: Entry, i: int) {
    (i == b.first && Matches(e, b.program)) || (b.many && i == b.second && Matches(e, b.reply)) ||
    (b.repeat && i == b.third && Matches(e, b.stop))
  }

  /** Every entry that carries our callback is one the driver records, or an orphan. */
  predicate RingInv(b: Books, ring: Ring, orphans: set<int>) {
    forall i :: 0 <= i < 16 && ring[i].used && ring[i].ours ==> Recorded(b, ring[i], i) || i in orphans
  }

  predicate Inv(s: State) {
    CellsInv(s.tx.loan, s.tx.books.many, s.tx.books.repeat, s.rom.cells, s.calmCells) && PoolInv(s.tx.loan, s.rom.pool) &&
    RegistersInv(s.tx.globals, s.rom.regs, s.calmRegs) && PhaseInv(s.tx, s.rom.arb, s.rom.alarm) &&
    EndedInv(s.tx.books, s.tx.ended, s.tx.later, s.tx.loan.lent) && RingInv(s.tx.books, s.rom.prog.ring, s.orphans)
  }

  lemma AbortKeeps(s: State)
    requires Inv(s)
    ensures Inv(AbortActive(s))
  {
    AbortPhase(s);
    AbortRegisters(s);
    AbortShape(s);
    hide CellsInv, PoolInv, RingInv, AbortActive, RegistersInv, PhaseInv;
  }

  lemma AbortShape(s: State)
    ensures var t := AbortActive(s);
      t.calmCells == s.calmCells && t.orphans == s.orphans && t.rom == s.rom.(regs := t.rom.regs) &&
      t.tx.loan == s.tx.loan && t.tx.books == s.tx.books && t.tx.later == s.tx.later &&
      t.tx.ended == s.tx.ended.(abortAsked := t.tx.ended.abortAsked)
  {
    hide ProgramIsOurs, EntryIsOurs;
  }

  lemma AbortPhase(s: State)
    requires PhaseInv(s.tx, s.rom.arb, s.rom.alarm)
    ensures var t := AbortActive(s); PhaseInv(t.tx, t.rom.arb, t.rom.alarm)
  {
    hide ProgramIsOurs, EntryIsOurs;
  }

  lemma AbortRegisters(s: State)
    requires RegistersInv(s.tx.globals, s.rom.regs, s.calmRegs) && PhaseInv(s.tx, s.rom.arb, s.rom.alarm)
    ensures var t := AbortActive(s); RegistersInv(t.tx.globals, t.rom.regs, t.calmRegs)
  {
    hide ProgramIsOurs, EntryIsOurs, AllEnded;
  }

  lemma SubmitKeeps(s: State, r: Request, o: Oracle)
    requires Inv(s)
    ensures Inv(Submit(s, r, o).0)
  {
    hide GoodHeader, GoodFollowup, FirstFields, ReplyFields, StopFields, PutAll, Descriptor, LaterTime, StopTime, RegistersInv;
  }

  lemma RefuseKeeps(s: State, o: Oracle)
    requires Inv(s) && s.rom.arb.active == Ours
    ensures Inv(Refuse(s, o))
  {
    hide CellsInv, PoolInv, RingInv, RegistersInv;
  }

  lemma FaultKeeps(s: State)
    requires Inv(s)
    ensures Inv(WithPhase(s, FAULT))
  {
    hide CellsInv, PoolInv, RingInv, RegistersInv, EndedInv;
  }

  lemma NoFollowupKeeps(s: State)
    requires Inv(s)
    ensures Inv(WithLater(s, s.tx.later.(pending := false)))
  {
    hide CellsInv, PoolInv, RingInv, RegistersInv;
  }

  lemma CancelKeeps(s: State, o: Oracle)
    requires Inv(s)
    ensures Inv(Cancel(s, o))
  {
    var t := WithLater(s, s.tx.later.(pending := false));
    NoFollowupKeeps(s);
    hide CellsInv, PoolInv, RingInv, RegistersInv, AbortActive, AllInOrder, EndedInv;
    if s.tx.phase != QUEUED {
      AbortKeeps(t);
      FaultKeeps(t);
      hide PhaseInv, Inv;
    }
  }

  lemma AntennasKeep(tx: Tx, c: Cells, k: Cells, o: Oracle)
    requires tx.loan.lent && CellsInv(tx.loan, tx.books.many, tx.books.repeat, c, k) && (tx.books.repeat ==> tx.books.many)
    ensures CellsInv(tx.loan, tx.books.many, tx.books.repeat, Antennas(tx, c, o).0, k)
  {
    hide Put, GoodAntenna, FormatField, Antenna;
  }

  predicate PushingInv(u: Pushing) {
    RingInv(u.books, u.prog.ring, u.orphans) && (u.books.repeat ==> u.books.many)
  }

  lemma PushKeeps(u: Pushing, p: Program)
    requires PushingInv(u)
    requires var at := u.prog.producer; 0 <= at < 16 ==> Recorded(u.books, Entry(true, true, p.context, p.hs), at)
    ensures PushingInv(Push(u, p))
  {
  }

  /** Pushing keeps the books complete; it changes ring positions only, each from 255. */
  lemma PushAllKeeps(u: Pushing)
    requires PushingInv(u) && u.books.first == u.prog.producer
    requires (u.books.many ==> u.books.second == 255) && (u.books.repeat ==> u.books.third == 255)
    ensures var (v, good) := PushAll(u);
      PushingInv(v) && v.books == u.books.(second := v.books.second, third := v.books.third)
  {
    var v := Push(u, u.books.program);
    PushKeeps(u, u.books.program);
    MoveSecond(v, v.prog.producer);
    var v2 := v.(books := v.books.(second := v.prog.producer));
    if v.books.many {
      if v.prog.producer != v.books.first { PushKeeps(v2, v.books.reply); }
      var (w, replied) := PushReply(v);
      assert PushingInv(w);
      if w.books.repeat {
        var w2 := w.(books := w.books.(third := w.prog.producer));
        MoveThird(w, w.prog.producer);
        PushKeeps(w2, w.books.stop);
      }
    }
  }

  lemma MoveSecond(u: Pushing, at: int)
    requires PushingInv(u) && (u.books.many ==> !InRing(u.books.second))
    ensures PushingInv(u.(books := u.books.(second := at)))
  {
  }

  lemma MoveThird(u: Pushing, at: int)
    requires PushingInv(u) && (u.books.repeat ==> !InRing(u.books.third))
    ensures PushingInv(u.(books := u.books.(third := at)))
  {
  }

  predicate Ready(s: State) {
    s.tx.phase == QUEUED && s.rom.arb == Arbiter(Ours, true) && Quiet(s.rom.regs) && s.tx.books.first == s.rom.prog.producer &&
    (s.tx.books.many ==> s.tx.books.second == 255) && (s.tx.books.repeat ==> s.tx.books.third == 255) &&
    !s.tx.globals.taken && !s.tx.alarmSet && !s.tx.ended.first && !s.tx.ended.second && !s.tx.ended.third && !s.rom.alarm
  }

  /** All but the phase: true while a start is under way. */
  predicate Bodies(s: State) {
    CellsInv(s.tx.loan, s.tx.books.many, s.tx.books.repeat, s.rom.cells, s.calmCells) && PoolInv(s.tx.loan, s.rom.pool) &&
    RegistersInv(s.tx.globals, s.rom.regs, s.calmRegs) &&
    EndedInv(s.tx.books, s.tx.ended, s.tx.later, s.tx.loan.lent) && RingInv(s.tx.books, s.rom.prog.ring, s.orphans)
  }

  lemma ActivateKeeps(s: State)
    requires Bodies(s) && Ready(s)
    ensures Inv(Activate(s))
  {
    var u := Pushing(s.tx.books, s.rom.prog, s.orphans);
    PushAllKeeps(u);
    hide CellsInv, PoolInv, RingInv, PushAll, Timed;
  }

  lemma StartedKeeps(s: State, o: Oracle)
    requires Inv(s) && s.rom.arb == Arbiter(Ours, true)
    ensures Inv(Started(s, o))
  {
    hide RegistersInv, PoolInv, Antennas, Activate, Timed, SameOwners, RingInv, CellsInv;
    if !MayStart(s) || (Timed(s.tx) && s.rom.regs.rxTiming != TimingBase) {
      RefuseKeeps(s, o);
    } else {
      var t := s.(tx := s.tx.(books := s.tx.books.(first := s.rom.prog.producer)));
      FirstMoves(s.tx.books, s.rom.prog.ring, s.orphans, s.rom.prog.producer);
      if InRing(s.rom.prog.producer) {
        AntennasKeep(t.tx, t.rom.cells, t.calmCells, o);
        var (cells, good) := Antennas(t.tx, t.rom.cells, o);
        var u := t.(rom := t.rom.(cells := cells));
        assert Bodies(u) && Ready(u);
        if good {
          ActivateKeeps(u);
        }
      }
    }
  }

  lemma FirstMoves(b: Books, ring: Ring, orphans: set<int>, at: int)
    requires RingInv(b, ring, orphans) && b.first == 255
    ensures RingInv(b.(first := at), ring, orphans)
  {
  }

  lemma DeadlineKeeps(s: State)
    requires Inv(s)
    ensures Inv(Deadline(s))
  {
    var t := s.(tx := s.tx.(alarmSet := false), rom := s.rom.(alarm := false));
    hide CellsInv, PoolInv, RingInv, RegistersInv, EndedInv, AbortActive;
    if s.tx.phase == IDLE { assert t == s; }
    assert Inv(t);
    AbortKeeps(t);
  }

  lemma RomCancelKeeps(s: State)
    requires Inv(s) && s.rom.arb.linked && s.rom.arb.active != Ours
    ensures Inv(CancelledByRom(s))
  {
    hide CellsInv, PoolInv, RingInv, RegistersInv, EndedInv;
  }

  lemma ReceivedKeeps(s: State, which: nat, o: Oracle)
    requires Inv(s) && s.tx.phase != IDLE
    ensures Inv(Received(s, which, o))
  {
    var t := Receive(s, o, which != 2);
    hide CellsInv, PoolInv, RingInv, RegistersInv, AbortActive;
    assert Inv(t);
    AbortKeeps(t);
    var u := WithLater(t, t.tx.later.(pending := false, status := 7));
    assert Inv(u);
    AbortKeeps(u);
  }

  lemma ReceiveKeeps(s: State, o: Oracle, published: bool)
    requires Inv(s) && s.tx.phase != IDLE
    ensures Inv(Receive(s, o, published))
  {
    hide CellsInv, PoolInv, RingInv, RegistersInv, EndedInv;
  }

  lemma OneEndedKeeps(s: State, which: nat, reason: nat)
    requires Inv(s) && s.tx.phase != IDLE && s.tx.phase != QUEUED && s.tx.books.many
    requires InRing(Its(s.tx.books, which).1) && (which == 2 ==> s.tx.books.repeat)
    ensures Inv(OneEnded(s, which, reason))
  {
    hide CellsInv, PoolInv, RingInv, RegistersInv;
  }

  lemma ClearAlarmKeeps(s: State)
    requires Inv(s)
    ensures Inv(ClearAlarm(s)) && !ClearAlarm(s).tx.alarmSet
  {
    hide CellsInv, PoolInv, RingInv, RegistersInv, EndedInv;
  }

  function Ending(s: State, o: Oracle): State {
    ToEnded(RemoveActive(RestoreGlobals(s), o))
  }

  lemma EndingKeeps(s: State, o: Oracle)
    requires Inv(s) && s.tx.phase != IDLE && s.tx.phase != QUEUED && !s.tx.books.many && !s.tx.alarmSet
    ensures Inv(Ending(s, o)) && !Ending(s, o).tx.globals.taken && Ending(s, o).tx.alarmSet == s.tx.alarmSet
    ensures Ending(s, o).tx.books == s.tx.books && Ending(s, o).tx.later == s.tx.later
    ensures Ending(s, o).tx.phase == ENDED || Ending(s, o).tx.phase == FAULT
  {
    RestoreGlobalsRegisters(s);
    hide CellsInv, PoolInv, RingInv, RegistersInv, EndedInv, RestoreGlobals;
    var t := RestoreGlobals(s);
    var u := RemoveActive(t, o);
    assert u.rom.arb.active != Ours && u.tx == t.tx;
    assert PhaseInv(ToEnded(u).tx, u.rom.arb, u.rom.alarm);
    hide PhaseInv;
  }

  lemma RestoreGlobalsRegisters(s: State)
    requires RegistersInv(s.tx.globals, s.rom.regs, s.calmRegs)
    ensures var t := RestoreGlobals(s);
      RegistersInv(t.tx.globals, t.rom.regs, t.calmRegs) && !t.tx.globals.taken &&
      t == s.(rom := s.rom.(regs := t.rom.regs), tx := s.tx.(globals := t.tx.globals))
  {
  }

  lemma StatusKeeps(s: State, reason: nat)
    requires Inv(s) && s.tx.phase != IDLE
    ensures Inv(WithLater(s, StatusAfter(s.tx.later, reason)))
  {
    hide CellsInv, PoolInv, RingInv, RegistersInv;
  }

  lemma SingleEndedKeeps(s: State, reason: nat, o: Oracle)
    requires Inv(s) && s.tx.phase != IDLE && s.tx.phase != QUEUED && !s.tx.books.many
    ensures Inv(SingleEnded(s, reason, o))
  {
    var c := ClearAlarm(s);
    ClearAlarmKeeps(s);
    assert c.tx.phase == s.tx.phase && c.tx.books == s.tx.books;
    hide ClearAlarm, QueueFollowup;
    EndingKeeps(c, o);
    var t := Ending(c, o);
    assert t == ToEnded(RemoveActive(RestoreGlobals(c), o));
    hide Inv, ToEnded, RemoveActive, RestoreGlobals, Ending;
    StatusKeeps(t, reason);
    var u := if t.tx.later.active then WithLater(t, StatusAfter(t.tx.later, reason)) else t;
    if u.tx.later.pending && u.tx.phase == ENDED { FollowupKeeps(u, o); }
  }

  lemma FollowupKeeps(s: State, o: Oracle)
    requires Inv(s) && s.tx.later.pending && s.tx.phase == ENDED && !s.tx.globals.taken && !s.tx.alarmSet
    ensures Inv(QueueFollowup(s, o))
  {
    var t := QueueFollowup(s, o);
    if t.orphans == s.orphans && t.tx.books == s.tx.books {
      hide CellsInv, PoolInv, RingInv, RegistersInv, TooLate, PutAll, FollowupFields;
    } else {
      FollowupRing(s.tx.books, s.rom.prog.ring, s.orphans, s.tx.later.hs);
      hide PoolInv, RingInv, RegistersInv, TooLate, PutAll, FollowupFields;
      assert EndedInv(t.tx.books, t.tx.ended, t.tx.later, t.tx.loan.lent);
      assert PhaseInv(t.tx, t.rom.arb, t.rom.alarm);
      hide PhaseInv, EndedInv;
    }
  }

  lemma FollowupRing(b: Books, ring: Ring, orphans: set<int>, hs: int)
    requires RingInv(b, ring, orphans)
    ensures RingInv(b.(program := Program(0, hs), first := 255), ring, orphans + {b.first})
  {
  }

  lemma FrameDoneKeeps(s: State, context: nat, hs: int, reason: nat, o: Oracle)
    requires Inv(s)
    ensures Inv(FrameDone(s, context, hs, reason, o))
  {
    var which := Which(s.tx.books, context);
    FaultKeeps(s);
    if !Unexpected(s, which, context, hs, reason) {
      EntryMeansStarted(s, which);
      hide Inv, Unexpected, Receive, Received, OneEnded, SingleEnded, Which, Its;
      ReceivedKeeps(s, which, o);
      ReceiveKeeps(s, o, which != 2);
      var t := if reason != 4 then Receive(s, o, which != 2) else s;
      ReceiveBooks(s, o, which != 2);
      if s.tx.books.many { OneEndedKeeps(t, which, reason); } else { SingleEndedKeeps(t, reason, o); }
    }
  }

  lemma ReceiveBooks(s: State, o: Oracle, published: bool)
    ensures var t := Receive(s, o, published); t.tx.books == s.tx.books && t.tx.phase == s.tx.phase
  {
  }

  /** A callback for a recorded entry can only come once the event has started. */
  lemma EntryMeansStarted(s: State, which: nat)
    requires Inv(s) && var (p, index) := Its(s.tx.books, which); EntryIsOurs(s.rom.prog, index, p, false)
    requires which == 2 ==> s.tx.books.repeat
    requires which == 1 ==> s.tx.books.many
    ensures s.tx.phase != IDLE && s.tx.phase != QUEUED && InRing(Its(s.tx.books, which).1)
  {
    hide CellsInv, PoolInv, RingInv, RegistersInv, Matches;
  }

  lemma StopDueKeeps(s: State, o: Oracle)
    requires Inv(s)
    ensures Inv(StopDue(s, o))
  {
    if StopIsDue(s, o) {
      var t := s.(tx := s.tx.(ended := s.tx.ended.(abortAsked := true)));
      hide CellsInv, PoolInv, RingInv, RegistersInv, AbortActive, EntryIsOurs;
      assert Inv(t);
      AbortKeeps(t);
    }
  }

  lemma ReleaseSeveralKeeps(s: State, o: Oracle)
    requires Inv(s) && AllEnded(s.tx.books, s.tx.ended)
    ensures Inv(ReleaseSeveral(s, o).0)
  {
    FaultKeeps(s);
    RestoreGlobalsRegisters(s);
    hide CellsInv, PoolInv, RingInv, RegistersInv, EndedInv, RestoreGlobals, SomeForeign, SomeUsed;
  }

  /** Once the driver lets go, only orphans can still carry its callback, and all is as without it. */
  predicate Reclaimed(s: State) {
    s.tx == Blank && s.rom.cells == s.calmCells && s.rom.regs == s.calmRegs && s.rom.pool.held == {} &&
    s.rom.pool.obtained == s.rom.pool.returned && !s.rom.pool.corrupted && !s.rom.alarm && !s.rom.arb.linked &&
    s.rom.arb.active != Ours && OnlyOrphans(s.rom.prog.ring, s.orphans)
  }

  predicate OnlyOrphans(ring: Ring, orphans: set<int>) {
    forall i :: 0 <= i < 16 && ring[i].used && ring[i].ours ==> i in orphans
  }

  lemma ReclaimedIsInv(s: State)
    requires Reclaimed(s)
    ensures Inv(s)
  {
  }

  lemma LetGo(s: State)
    requires Inv(s) && !Pending(s) && s.tx.phase != FAULT
    ensures Reclaimed(ReleaseStorage(s).(tx := Blank))
  {
    NothingRecorded(s.tx.books, s.rom.prog, s.orphans);
    hide RingInv, ProgramIsOurs, OnlyOrphans, EndedInv;
  }

  lemma NothingRecorded(b: Books, prog: Programs, orphans: set<int>)
    requires RingInv(b, prog.ring, orphans) && !ProgramIsOurs(b, prog, false)
    ensures OnlyOrphans(prog.ring, orphans)
  {
  }

  lemma StopDueStays(s: State, o: Oracle)
    ensures var t := StopDue(s, o);
      t.rom.prog == s.rom.prog && t.orphans == s.orphans && (t.tx.phase == FAULT ==> s.tx.phase == FAULT)
  {
    hide EntryIsOurs;
  }

  lemma ReleaseSeveralStays(s: State, o: Oracle)
    ensures var (t, code) := ReleaseSeveral(s, o);
      t.rom.prog == s.rom.prog && t.orphans == s.orphans && (code == 1 ==> t.tx.phase == s.tx.phase)
  {
    hide SomeForeign, SomeUsed;
  }

  /**
   A successful collection: cells and register bits are as they would be without the driver, the buffer
   went back once, alarm and arbiter are released, and no ring entry but an orphan carries the callback.
   */
  lemma CollectReclaims(s: State, o: Oracle)
    requires Inv(s) && Collect(s, o).1 == 1
    ensures Reclaimed(Collect(s, o).0) && Collect(s, o).0.orphans == s.orphans
    ensures Collect(s, o).0.rom.prog == s.rom.prog
  {
    var t := StopDue(s, o);
    StopDueKeeps(s, o);
    StopDueStays(s, o);
    ReleaseSeveralStays(t, o);
    if AllEnded(t.tx.books, t.tx.ended) {
      ReleaseSeveralKeeps(t, o);
    }
    hide Inv, Pending, Reclaimed, StopDue, SameOwners, ReleaseSeveral;
    var (u, code) := if AllEnded(t.tx.books, t.tx.ended) then ReleaseSeveral(t, o) else (t, 1);
    LetGo(u);
    hide AllEnded;
    ReleaseStorageStays(u);
  }

  lemma ReleaseStorageStays(s: State)
    ensures ReleaseStorage(s).rom.prog == s.rom.prog && ReleaseStorage(s).orphans == s.orphans
  {
  }

  lemma CollectKeeps(s: State, o: Oracle)
    requires Inv(s)
    ensures Inv(Collect(s, o).0)
  {
    var t := StopDue(s, o);
    StopDueKeeps(s, o);
    if AllEnded(t.tx.books, t.tx.ended) {
      ReleaseSeveralKeeps(t, o);
    }
    hide Inv, Pending, Reclaimed, StopDue, SameOwners, ReleaseSeveral;
    if Collect(s, o).1 == 1 {
      CollectReclaims(s, o);
      ReclaimedIsInv(Collect(s, o).0);
    }
  }

  lemma RetireKeeps(b: Books, ring: Ring, retired: set<int>, orphans: set<int>)
    requires RingInv(b, ring, orphans)
    ensures RingInv(b, Retire(ring, retired), orphans)
  {
  }

  lemma RingMovesKeep(b: Books, ring: Ring, after: Ring, orphans: set<int>)
    requires RingInv(b, ring, orphans) && NoForgery(ring, after)
    ensures RingInv(b, after, orphans)
  {
  }

  lemma StepKeeps(s: State, a: Action)
    requires Inv(s)
    ensures Inv(Step(s, a))
  {
    var arb := s.rom.arb;
    match a
    case DoSubmit(r, o) => hide Inv, Submit; SubmitKeeps(s, r, o);
    case DoCancel(o) => hide Inv, Cancel; CancelKeeps(s, o);
    case DoCollect(o) => hide Inv, Collect; CollectKeeps(s, o);
    case ArbStart(o) =>
      hide Started, CellsInv, PoolInv, RegistersInv, RingInv, EndedInv;
      if arb.linked { StartedKeeps(WithArbiter(s, Ours, true), o); }
    case ArbStop => hide Inv, AbortActive; AbortKeeps(s);
    case ArbCancel =>
      hide Inv, CancelledByRom;
      if arb.linked && arb.active != Ours { RomCancelKeeps(s); }
    case ArbOther(next) => hide CellsInv, PoolInv, RegistersInv, RingInv, EndedInv;
    case AlarmFires => hide Inv, Deadline; DeadlineKeeps(s);
    case ProgramCallback(context, hs, reason, retired, o) =>
      hide FrameDone, CellsInv, PoolInv, RegistersInv, EndedInv, RingInv, PhaseInv, Retire;
      FrameDoneKeeps(s, context, hs, reason, o);
      var t := FrameDone(s, context, hs, reason, o);
      RetireKeeps(t.tx.books, t.rom.prog.ring, retired, t.orphans);
    case RingMoves(prog) =>
      hide CellsInv, PoolInv, RegistersInv, EndedInv, RingInv, NoForgery;
      if NoForgery(s.rom.prog.ring, prog.ring) { RingMovesKeep(s.tx.books, s.rom.prog.ring, prog.ring, s.orphans); }
    case RegistersMove(regs) => hide CellsInv, PoolInv, RingInv, EndedInv;
    case CellsMove(cells) => hide PoolInv, RingInv, EndedInv, RegistersInv;
    case OwnersMove(owners) => hide CellsInv, PoolInv, RingInv, EndedInv, RegistersInv;
  }

  lemma {:induction false} RunKeeps(s: State, actions: seq<Action>)
    requires Fresh(s)
    ensures Inv(Run(s, actions))
    decreases |actions|
  {
    if actions == [] {
      FreshIsInv(s);
    } else {
      hide Inv, Step, Fresh;
      RunKeeps(s, actions[..|actions| - 1]);
      StepKeeps(Run(s, actions[..|actions| - 1]), actions[|actions| - 1]);
    }
  }

  lemma FreshIsInv(s: State)
    requires Fresh(s)
    ensures Inv(s)
  {
  }

  // --------------------------------------------------------------------------
  // What a submission configures
  // --------------------------------------------------------------------------

  /** Fields of a control structure that the driver sets; the others hold the controller's calibration. */
  predicate Touched(i: int) {
    i == 1 || i == 2 || 6 <= i <= 9 || i == 11 || 13 <= i <= 21 || 34 <= i <= 39
  }

  predicate Shaped(c: Cells) {
    |c.cs| == 45 && |c.reply| == 45 && |c.stop| == 45
  }

  /** No control structure loses a field that is not set. */
  lemma CalibrationStays(c: Cells, r: Request, buffer: int, i: int)
    requires Shaped(c) && 0 <= i < 45 && !Touched(i)
    ensures var d := Configured(c, r, buffer); d.cs[i] == c.cs[i] && d.reply[i] == c.reply[i] && d.stop[i] == c.stop[i]
  {
    hide WindowField, Descriptor;
  }

  /** What a control structure tells the radio, read back from its fields. */
  datatype Structure = Structure(
    activity: int, sends: bool, txRate: int, rxRate: int, address: int, crcInit: int, channel: int, window: int,
    descriptor: int, usable: int, longest: int, clear: bool)

  function ReadStructure(c: seq<int>): Structure
    requires |c| == 45
  {
    Structure(c[1] - 0x800, c[2] / 0x100 % 16 == 1, c[2] % 4, c[2] / 4 % 4, c[6] + 0x1_0000 * c[7], c[8] + 0x1_0000 * c[9],
              c[11] - 0x8000, c[13], c[14], c[17] + 0x1_0000 * c[18] + 0x1_0000_0000 * c[19], c[20],
              c[15] == c[16] == c[21] == 0 && c[34..40] == [0, 0, 0, 0, 0, 0])
  }

  /** The numbers of a request are machine words. */
  predicate WordRequest(r: Request) {
    0 <= r.address < 0x1_0000_0000 && 0 <= r.optionByte < 0x100
  }

  const AllChannels := 0x1f_ffff_ffff

  /** Microseconds of a receive window, coded in units of two; the controller's own option when there is none. */
  predicate WindowIs(field: int, us: int, option: int) {
    if us == 0 then field == option else us <= 2 * field <= us + 1
  }

  lemma Halves(v: int)
    requires 0 <= v < 0x1_0000_0000
    ensures v % 0x1_0000 + 0x1_0000 * (v / 0x1_0000 % 0x1_0000) == v
  {
  }

  /** Address, checksum start, channel map and cleared fields, which all structures of one event share. */
  predicate Shared(c: seq<int>, r: Request) {
    |c| == 45 && c[6] == r.address % 0x1_0000 && c[7] == r.address / 0x1_0000 % 0x1_0000 &&
    c[8] == r.crcInit % 0x1_0000 && c[9] == r.crcInit / 0x1_0000 % 0x1_0000 &&
    c[15] == 0 && c[16] == 0 && c[17] == 0xffff && c[18] == 0xffff && c[19] == 0x1f && c[20] == 251 && c[21] == 0 &&
    c[34] == 0 && c[35] == 0 && c[36] == 0 && c[37] == 0 && c[38] == 0 && c[39] == 0
  }

  predicate Fields(c: seq<int>, r: Request, activity: int, control: int, channel: int, window: int, descriptor: int) {
    Shared(c, r) && c[1] == 0x800 + activity && c[2] == control && c[11] == 0x8000 + channel && c[13] == window &&
    c[14] == descriptor
  }

  lemma FieldsRead(c: seq<int>, r: Request, activity: int, control: int, channel: int, window: int, descriptor: int)
    requires Fields(c, r, activity, control, channel, window, descriptor) && WordRequest(r) && 0 <= r.crcInit <= 0xffffff
    ensures ReadStructure(c) ==
      Structure(activity, control / 0x100 % 16 == 1, control % 4, control / 4 % 4, r.address, r.crcInit, channel, window,
                descriptor, AllChannels, 251, true)
  {
    Halves(r.address);
    Halves(r.crcInit);
    assert c[34..40] == [0, 0, 0, 0, 0, 0];
  }

  function RateControl(r: Request, sends: bool): int {
    if sends then 0x1100 + 5 * (r.phy - 1) else 0x1000 + 4 * (r.phy - 1)
  }

  lemma FirstPut(c: seq<int>, r: Request)
    requires |c| == 45 && GoodRequest(r) && WordRequest(r)
    ensures Fields(PutAll(c, FirstFields(r)), r, 1, RateControl(r, r.receive == 0), r.channel,
                   if r.receive + r.txReceive != 0 then WindowField(r.receive + r.txReceive) else r.optionByte, FirstDescriptor)
  {
    hide GoodHeader, GoodFollowup, GoodRepeat, Shared;
    FirstKeys(r);
    SharedPut(c, r, FirstFields(r));
  }

  predicate GoodWindow(r: Request) {
    1 <= r.phy <= 2 && 0 <= r.followupChannel <= 39 && 1 <= r.window <= 1000 && r.receive == 0 && r.txReceive == 0
  }

  lemma WindowRead(us: int, option: int)
    requires 0 <= us
    ensures WindowIs(if us != 0 then WindowField(us) else option, us, option)
  {
  }

  lemma ReplyPut(c: seq<int>, r: Request)
    requires |c| == 45 && GoodWindow(r)
    ensures Fields(PutAll(c, ReplyFields(r)), r, 2, RateControl(r, r.repeat == 1), r.followupChannel, WindowField(r.window),
                   if r.repeat == 1 then SecondDescriptor else FirstDescriptor)
  {
    if r.repeat == 1 { RepeatPut(c, r); } else { ListenPut(c, r); }
  }

  lemma FirstKeys(r: Request)
    ensures forall i :: i in FirstFields(r) <==> Touched(i)
  {
  }

  lemma FirstValues(r: Request)
    ensures forall i :: i in FirstFields(r) <==> Touched(i)
    ensures var g := FirstFields(r);
      g[1] == 0x801 && g[2] == RateControl(r, r.receive == 0) && g[11] == 0x8000 + r.channel && g[14] == FirstDescriptor
    ensures var g := FirstFields(r);
      g[6] == r.address && g[7] == r.address / 0x1_0000 && g[8] == r.crcInit && g[9] == r.crcInit / 0x1_0000
    ensures var g := FirstFields(r);
      g[15] == 0 && g[16] == 0 && g[17] == 0xffff && g[18] == 0xffff && g[19] == 0x1f && g[20] == 251 && g[21] == 0
    ensures var g := FirstFields(r); g[34] == 0 && g[35] == 0 && g[36] == 0 && g[37] == 0 && g[38] == 0 && g[39] == 0
  {
    FirstKeys(r);
    FirstOwn(r);
    FirstAddress(r);
    FirstMap(r);
    FirstClear(r);
    hide FirstFields;
  }

  lemma FirstOwn(r: Request)
    ensures var g := FirstFields(r);
      {1, 2, 11, 14} <= g.Keys && g[1] == 0x801 && g[2] == RateControl(r, r.receive == 0) && g[11] == 0x8000 + r.channel && g[14] == FirstDescriptor
  {
  }

  lemma FirstAddress(r: Request)
    ensures var g := FirstFields(r);
      {6, 7, 8, 9} <= g.Keys && g[6] == r.address && g[7] == r.address / 0x1_0000 && g[8] == r.crcInit && g[9] == r.crcInit / 0x1_0000
  {
  }

  lemma FirstMap(r: Request)
    ensures var g := FirstFields(r); {15, 16, 17, 18, 19, 20, 21} <= g.Keys && g[15] == 0 && g[16] == 0
    ensures var g := FirstFields(r); g[17] == 0xffff && g[18] == 0xffff && g[19] == 0x1f && g[20] == 251 && g[21] == 0
  {
  }

  lemma FirstClear(r: Request)
    ensures var g := FirstFields(r);
      {34, 35, 36, 37, 38, 39} <= g.Keys && g[34] == 0 && g[35] == 0 && g[36] == 0 && g[37] == 0 && g[38] == 0 && g[39] == 0
  {
  }

  lemma RepeatPut(c: seq<int>, r: Request)
    requires |c| == 45 && GoodWindow(r) && r.repeat == 1
    ensures Fields(PutAll(c, ReplyFields(r)), r, 2, RateControl(r, true), r.followupChannel, WindowField(r.window), SecondDescriptor)
  {
    hide FirstFields, Shared;
    FirstValues(r);
    SharedPut(c, r, ReplyFields(r));
  }

  lemma ListenPut(c: seq<int>, r: Request)
    requires |c| == 45 && GoodWindow(r) && r.repeat != 1
    ensures Fields(PutAll(c, ReplyFields(r)), r, 2, RateControl(r, false), r.followupChannel, WindowField(r.window), FirstDescriptor)
  {
    hide FirstFields, Shared;
    FirstValues(r);
    SharedPut(c, r, ReplyFields(r));
  }

  /** Changes to the five fields of a program's own leave the shared ones to the first configuration. */
  lemma SharedPut(c: seq<int>, r: Request, f: map<int, int>)
    requires |c| == 45 && forall i :: 6 <= i <= 9 || 15 <= i <= 21 || 34 <= i <= 39 ==> i in f && f[i] == FirstFields(r)[i]
    ensures Shared(PutAll(c, f), r)
  {
    hide FirstFields;
    FirstValues(r);
  }

  lemma StopPut(c: seq<int>, r: Request)
    requires |c| == 45 && GoodRequest(r) && r.repeat == 1
    ensures Fields(PutAll(c, StopFields(r)), r, 3, RateControl(r, false), r.followupChannel, 10, 0)
  {
    hide FirstFields, Shared, GoodHeader;
    FirstValues(r);
    SharedPut(c, r, StopFields(r));
  }

  lemma RatesRead(r: Request, sends: bool)
    requires 1 <= r.phy <= 2
    ensures var c := RateControl(r, sends); (c / 0x100 % 16 == 1) == sends && c / 4 % 4 == r.phy - 1 && (sends ==> c % 4 == r.phy - 1)
  {
  }

  /** What all structures of an event tell. */
  predicate SharedTells(p: Structure, r: Request, activity: int, sends: bool, channel: int, descriptor: int) {
    p.activity == activity && p.sends == sends && p.rxRate == r.phy - 1 && (sends ==> p.txRate == r.phy - 1) &&
    p.address == r.address && p.crcInit == r.crcInit && p.channel == channel && p.descriptor == descriptor &&
    p.usable == AllChannels && p.longest == 251 && p.clear
  }

  /** The first program sends unless a reception was asked for, and listens for the one window of the request. */
  predicate FirstTells(p: Structure, r: Request) {
    SharedTells(p, r, 1, r.receive == 0, r.channel, FirstDescriptor) && WindowIs(p.window, r.receive + r.txReceive, r.optionByte)
  }

  /** The reply window is its own; for a repeat it sends the same payload first. */
  predicate ReplyTells(p: Structure, r: Request) {
    SharedTells(p, r, 2, r.repeat == 1, r.followupChannel, if r.repeat == 1 then SecondDescriptor else FirstDescriptor) &&
    WindowIs(p.window, r.window, 0)
  }

  /** The stopper listens for 20 microseconds, with nothing to send. */
  predicate StopTells(p: Structure, r: Request) {
    SharedTells(p, r, 3, false, r.followupChannel, 0) && WindowIs(p.window, 20, 0)
  }

  lemma FieldsTell(c: seq<int>, r: Request, activity: int, sends: bool, channel: int, window: int, descriptor: int)
    requires Fields(c, r, activity, RateControl(r, sends), channel, window, descriptor) && WordRequest(r)
    requires 0 <= r.crcInit <= 0xffffff && 1 <= r.phy <= 2
    ensures SharedTells(ReadStructure(c), r, activity, sends, channel, descriptor) && ReadStructure(c).window == window
  {
    hide Fields, RateControl, ReadStructure, WordRequest;
    FieldsRead(c, r, activity, RateControl(r, sends), channel, window, descriptor);
    RatesRead(r, sends);
  }

  lemma FirstReads(c: seq<int>, r: Request)
    requires |c| == 45 && GoodRequest(r) && WordRequest(r)
    ensures FirstTells(ReadStructure(PutAll(c, FirstFields(r))), r)
  {
    hide PutAll, FirstFields, GoodHeader, GoodFollowup, GoodRepeat, Fields, ReadStructure, WindowIs, WindowField, SharedTells;
    FirstPut(c, r);
    WindowRead(r.receive + r.txReceive, r.optionByte);
    var window := if r.receive + r.txReceive != 0 then WindowField(r.receive + r.txReceive) else r.optionByte;
    FieldsTell(PutAll(c, FirstFields(r)), r, 1, r.receive == 0, r.channel, window, FirstDescriptor);
  }

  lemma ReplyReads(c: seq<int>, r: Request)
    requires |c| == 45 && GoodRequest(r) && WordRequest(r) && r.prequeued == 1
    ensures ReplyTells(ReadStructure(PutAll(c, ReplyFields(r))), r)
  {
    assert GoodWindow(r) by { hide GoodHeader, GoodRepeat; }
    hide PutAll, ReplyFields, GoodHeader, GoodFollowup, GoodRepeat, Fields, ReadStructure, WindowIs, WindowField, SharedTells, GoodWindow;
    ReplyPut(c, r);
    WindowRead(r.window, 0);
    var descriptor := if r.repeat == 1 then SecondDescriptor else FirstDescriptor;
    assert r.window != 0 by { assert GoodFollowup(r) && GoodWindow(r); }
    FieldsTell(PutAll(c, ReplyFields(r)), r, 2, r.repeat == 1, r.followupChannel, WindowField(r.window), descriptor);
  }

  lemma StopReads(c: seq<int>, r: Request)
    requires |c| == 45 && GoodRequest(r) && WordRequest(r) && r.repeat == 1
    ensures StopTells(ReadStructure(PutAll(c, StopFields(r))), r)
  {
    StopPut(c, r);
    hide PutAll, StopFields, GoodHeader, GoodFollowup, Fields, ReadStructure, SharedTells;
    FieldsTell(PutAll(c, StopFields(r)), r, 3, false, r.followupChannel, 10, 0);
  }

  /** A transmit descriptor without successor names header, length and payload buffer. */
  predicate DescriptorTells(d: seq<int>, r: Request, buffer: int) {
    |d| == 7 && d[0] == 0 && d[1] % 256 == r.header && d[1] / 256 == r.length && d[2] == buffer
  }

  lemma DescriptorReads(r: Request, buffer: int)
    requires 0 <= r.header < 256
    ensures DescriptorTells(Descriptor(r, buffer), r, buffer)
  {
  }

  /** The structures and descriptors of an accepted request; what the event does not need is left alone. */
  predicate CellsTell(before: Cells, c: Cells, r: Request, buffer: int) {
    |c.cs| == 45 && |c.reply| == 45 && |c.stop| == 45 &&
    FirstTells(ReadStructure(c.cs), r) && DescriptorTells(c.descriptor, r, buffer) &&
    (if r.prequeued == 1 then ReplyTells(ReadStructure(c.reply), r) else c.reply == before.reply) &&
    (if r.repeat == 1 then StopTells(ReadStructure(c.stop), r) && DescriptorTells(c.second, r, buffer)
     else c.stop == before.stop && c.second == before.second)
  }

  lemma ConfiguredTells(c: Cells, r: Request, buffer: int)
    requires Shaped(c) && GoodRequest(r) && WordRequest(r)
    ensures CellsTell(c, Configured(c, r, buffer), r, buffer)
  {
    hide FirstFields, ReplyFields, StopFields, FirstTells, ReplyTells, StopTells, ReadStructure, Descriptor, DescriptorTells,
         GoodFollowup;
    assert 0 <= r.header < 256 && (r.repeat == 1 ==> r.prequeued == 1);
    FirstReads(c.cs, r);
    DescriptorReads(r, buffer);
    if r.prequeued == 1 { ReplyReads(c.reply, r); }
    if r.repeat == 1 { StopReads(c.stop, r); }
    hide GoodRequest;
  }

  /** An instant in half-microseconds on the 28-bit clock. */
  function Instant(t: (int, int)): int {
    t.0 * 625 + t.1
  }

  const ClockHus := 0x1000_0000 * 625

  /** The later program starts the requested delay after the first, the stopper 2975 microseconds after it. */
  lemma LaterStarts(r: Request)
    requires GoodRequest(r)
    ensures r.delay != 0 ==> Instant(LaterTime(r)) % ClockHus == (r.hs * 625 + r.hus + 2 * r.delay) % ClockHus
    ensures Instant(StopTime(r)) % ClockHus == (r.hs * 625 + r.hus + 2 * 2975) % ClockHus
  {
    hide GoodRepeat, GoodHeader;
    if r.delay != 0 { ClockCarries(r.hs, r.hus + 2 * r.delay); }
    ClockCarries(r.hs, r.hus + 5950);
  }

  lemma ClockCarries(hs: int, fine: int)
    requires 0 <= hs && 0 <= fine
    ensures (Clock(hs + fine / 625) * 625 + fine % 625) % ClockHus == (hs * 625 + fine) % ClockHus
  {
    var t := hs + fine / 625;
    var q := t / 0x1000_0000;
    assert Clock(t) == t - 0x1000_0000 * q;
    assert hs * 625 + fine == Clock(t) * 625 + fine % 625 + ClockHus * q;
    Turns(Clock(t) * 625 + fine % 625, q);
  }

  lemma Turns(x: int, q: int)
    ensures (x + ClockHus * q) % ClockHus == x % ClockHus
  {
  }

  /** The programs of an accepted request, told apart by their contexts, start as asked, on the clock. */
  predicate ProgramsTell(tx: Tx, r: Request) {
    var b, asked := tx.books, r.hs * 625 + r.hus;
    b.many == (r.prequeued == 1) && b.repeat == (r.repeat == 1) && b.program == Program(0, r.hs) &&
    (r.delay != 0 ==>
      Instant((tx.later.hs, tx.later.hus)) % ClockHus == (asked + 2 * r.delay) % ClockHus &&
      tx.later.channel == r.followupChannel && tx.later.window == r.window && tx.later.pending == (r.prequeued == 0)) &&
    (b.many ==> b.reply == Program(1, tx.later.hs)) &&
    (b.repeat ==> b.stop.context == 2 && Instant((b.stop.hs, tx.stopHus)) % ClockHus == (asked + 2 * 2975) % ClockHus)
  }

  /**
   An accepted submission, read back: every structure holds the request's address, checksum start, rate, channel and
   window, every descriptor its payload, every program its start, and the first starts in time.
   */
  lemma SubmittedReads(s: State, r: Request, o: Oracle)
    requires Shaped(s.rom.cells) && WordRequest(r) && Submit(s, r, o).1 == 0
    ensures var t := Submit(s, r, o).0;
      CellsTell(s.rom.cells, t.rom.cells, r, o.buffer) && ProgramsTell(t.tx, r) && t.tx.phy == r.phy &&
      t.tx.phase == QUEUED && t.rom.arb.linked &&
      var ahead := Clock(r.hs - o.hs); MinLead(o.delay) <= ahead <= 3200 && Clock(o.hs + ahead) == r.hs
  {
    hide CellsTell, Configured, GoodHeader, GoodFollowup, GoodRepeat, Instant, LaterTime, StopTime, Clock, ProgramsTell;
    ConfiguredTells(s.rom.cells, r, o.buffer);
    PreparedTells(s.rom, r, o.buffer);
    LeadEnds(o.hs, r.hs);
  }

  lemma PreparedTells(rom: Rom, r: Request, buffer: int)
    requires GoodRequest(r)
    ensures ProgramsTell(Prepared(rom, r, buffer), r)
  {
    LaterStarts(r);
    assert r.repeat == 1 ==> r.prequeued == 1;
    assert r.prequeued == 1 ==> r.delay != 0;
    hide GoodHeader, GoodFollowup, GoodRepeat, Instant, LaterTime, StopTime;
  }

  lemma LeadEnds(now: int, hs: int)
    requires 0 <= hs < 0x1000_0000
    ensures Clock(now + Clock(hs - now)) == hs
  {
    var q := (hs - now) / 0x1000_0000;
    assert now + Clock(hs - now) == hs - 0x1000_0000 * q;
    ClockTurns(hs, -q);
  }

  lemma ClockTurns(hs: int, q: int)
    ensures Clock(hs + 0x1000_0000 * q) == Clock(hs)
  {
  }

  /** A format field holds the format in six bits, and above them the two antennas. */
  predicate FormatTells(field: int, format: int, a: (int, int)) {
    field % 64 == format && field / 64 % 2 == a.1 && field / 128 == a.0 && GoodAntenna(a)
  }

  lemma FormatReads(format: int, a: (int, int))
    requires 0 <= format < 64 && GoodAntenna(a)
    ensures FormatTells(FormatField(format, a) % 0x1_0000, format, a)
  {
  }

  /** The programs stand in the ring one after the other, in the order they start. */
  predicate RingTells(b: Books, prog: Programs) {
    EntryIsOurs(prog, b.first, b.program, false) &&
    (b.many ==> b.second == (b.first + 1) % 16 && EntryIsOurs(prog, b.second, b.reply, false)) &&
    (b.repeat ==> b.third == (b.first + 2) % 16 && EntryIsOurs(prog, b.third, b.stop, false))
  }

  predicate FormatsTell(tx: Tx, c: Cells, o: Oracle)
    requires Shaped(c)
  {
    FormatTells(c.cs[0], tx.format, Antenna(o, 0)) &&
    (tx.books.many ==> FormatTells(c.reply[0], if tx.books.repeat then 2 else 29, Antenna(o, 1))) &&
    (tx.books.repeat ==> FormatTells(c.stop[0], 29, Antenna(o, 2)))
  }

  lemma AntennasTell(tx: Tx, c: Cells, o: Oracle)
    requires Shaped(c) && 0 <= tx.format < 64 && (tx.books.repeat ==> tx.books.many)
    ensures var (d, good) := Antennas(tx, c, o); Shaped(d) && (good ==> FormatsTell(tx, d, o))
  {
    hide FormatTells, FormatField, GoodAntenna;
    if GoodAntenna(Antenna(o, 0)) { FormatReads(tx.format, Antenna(o, 0)); }
    if GoodAntenna(Antenna(o, 1)) { FormatReads(2, Antenna(o, 1)); FormatReads(29, Antenna(o, 1)); }
    if GoodAntenna(Antenna(o, 2)) { FormatReads(29, Antenna(o, 2)); }
  }

  lemma PushedTells(u: Pushing)
    requires (u.books.repeat ==> u.books.many) && u.books.first == u.prog.producer && PushAll(u).1
    ensures RingTells(PushAll(u).0.books, PushAll(u).0.prog) && PushAll(u).0.books.first == u.books.first
  {
  }

  /**
   A start that succeeds: every queued program has its format and antennas and its place in the ring, test mode is off,
   and the transmit path is shifted from its known value exactly for formats and rates that need it.
   */
  lemma StartedReads(s: State, o: Oracle)
    requires s.tx.phase == QUEUED && Started(s, o).tx.phase == ACTIVE && Shaped(s.rom.cells) && 0 <= s.tx.format < 64
    requires s.tx.books.repeat ==> s.tx.books.many
    ensures var t := Started(s, o); var r := t.rom.regs;
      Shaped(t.rom.cells) && FormatsTell(s.tx, t.rom.cells, o) && RingTells(t.tx.books, t.rom.prog) &&
      !r.testEnable && !r.abort && r.testBits == 0 && t.tx.alarmSet && t.rom.alarm &&
      (if s.tx.format == 2 && s.tx.phy == 2 && (s.tx.books.many ==> s.tx.books.repeat) then
         s.rom.regs.rxTiming == 0x20407 && r.rxTiming == 0x20407 + 24
       else r.rxTiming == s.rom.regs.rxTiming) &&
      t.tx.later.status == (if s.tx.books.many then 1 else if s.tx.later.active then 2 else s.tx.later.status)
  {
    hide Activate, Antennas, FormatsTell, RingTells, Started, Quiet;
    StartedIs(s, o);
    AntennasTell(s.tx, s.rom.cells, o);
    var u := Entered(s, Antennas(s.tx, s.rom.cells, o).0);
    ActivateTells(u);
    QuietMeans(s.rom.regs);
  }

  lemma QuietMeans(r: Registers)
    requires Quiet(r)
    ensures !r.testEnable && !r.abort && r.testBits == 0
  {
  }

  /** With its ring position recorded and its formats written. */
  function Entered(s: State, cells: Cells): State {
    s.(tx := s.tx.(books := s.tx.books.(first := s.rom.prog.producer)), rom := s.rom.(cells := cells))
  }

  lemma StartedIs(s: State, o: Oracle)
    requires s.tx.phase == QUEUED && Started(s, o).tx.phase == ACTIVE
    ensures Quiet(s.rom.regs) && (Timed(s.tx) ==> s.rom.regs.rxTiming == TimingBase) && Antennas(s.tx, s.rom.cells, o).1
    ensures Started(s, o) == Activate(Entered(s, Antennas(s.tx, s.rom.cells, o).0))
  {
    var t := s.(tx := s.tx.(books := s.tx.books.(first := s.rom.prog.producer)));
    assert Antennas(t.tx, s.rom.cells, o) == Antennas(s.tx, s.rom.cells, o);
    hide Activate, Antennas, SameOwners, Quiet;
  }

  lemma ActivateTells(s: State)
    requires Activate(s).tx.phase == ACTIVE && s.tx.books.first == s.rom.prog.producer && (s.tx.books.repeat ==> s.tx.books.many)
    ensures var t := Activate(s); var r := t.rom.regs;
      t.rom.cells == s.rom.cells && RingTells(t.tx.books, t.rom.prog) &&
      !r.testEnable && r.abort == s.rom.regs.abort && r.testBits == 0 && t.tx.alarmSet && t.rom.alarm &&
      r.rxTiming == (if Timed(s.tx) then (s.rom.regs.rxTiming + 24) % 0x1_0000_0000 else s.rom.regs.rxTiming) &&
      t.tx.later.status == (if s.tx.books.many then 1 else if s.tx.later.active then 2 else s.tx.later.status)
  {
    var before := Pushing(s.tx.books, s.rom.prog, s.orphans);
    hide PushAll, RingTells, ReplyQueued;
    if PushAll(before).1 { PushedTells(before); PushedReplies(before); }
  }

  lemma PushedReplies(u: Pushing)
    requires PushAll(u).1
    ensures ReplyQueued(u) <==> u.books.many
  {
    hide ProgramIsOurs, PushStop;
  }

  predicate AntennasGood(b: Books, o: Oracle) {
    GoodAntenna(Antenna(o, 0)) && (b.many ==> GoodAntenna(Antenna(o, 1))) && (b.repeat ==> GoodAntenna(Antenna(o, 2)))
  }

  lemma AntennasIff(tx: Tx, c: Cells, o: Oracle)
    requires tx.books.repeat ==> tx.books.many
    ensures Antennas(tx, c, o).1 <==> AntennasGood(tx.books, o)
  {
    hide GoodAntenna, Antenna;
  }

  /** Into an empty ring all programs are pushed. */
  lemma PushSucceeds(u: Pushing)
    requires 0 <= u.prog.producer < 16 && u.prog.count == 0 && u.books.first == u.prog.producer && (u.books.repeat ==> u.books.many)
    ensures PushAll(u).1
  {
  }

  /**
   An event starts exactly with its slot and activities still its own, an empty ring, the radio out of test mode, the
   transmit path at its known value when it is to be shifted, and antennas that are understood.
   */
  lemma StartsIff(s: State, o: Oracle)
    requires s.tx.books.repeat ==> s.tx.books.many
    ensures Started(s, o).tx.phase == ACTIVE <==>
      s.tx.phase == QUEUED && s.rom.arb.active == Ours && SameOwners(s.tx, s.rom.owners) && s.rom.prog.count == 0 &&
      0 <= s.rom.prog.producer < 16 && !s.rom.regs.testEnable && !s.rom.regs.abort && s.rom.regs.testBits == 0 &&
      (s.tx.format == 2 && s.tx.phy == 2 && (s.tx.books.many ==> s.tx.books.repeat) ==> s.rom.regs.rxTiming == 0x20407) &&
      AntennasGood(s.tx.books, o)
  {
    var t := s.(tx := s.tx.(books := s.tx.books.(first := s.rom.prog.producer)));
    assert AntennasGood(t.tx.books, o) == AntennasGood(s.tx.books, o);
    hide PushAll, Antennas, AntennasGood, ReplyQueued, SameOwners;
    AntennasIff(t.tx, t.rom.cells, o);
    var before := Pushing(t.tx.books, s.rom.prog, s.orphans);
    if s.rom.prog.count == 0 && 0 <= s.rom.prog.producer < 16 { PushSucceeds(before); }
  }

  /** Microseconds on air of preamble, address, header, payload and checksum. */
  function Airtime(r: Request): int
    requires r.phy != 0
  {
    (r.phy + 4 + 2 + r.length + 3) * 8 / r.phy
  }

  /**
   The programs of an accepted request do not meet on air: a queued reply starts 300 microseconds or more after the
   packet's end, and the stopper 300 or more after the repetition's.
   */
  lemma ProgramsApart(r: Request)
    requires GoodRequest(r)
    ensures r.prequeued == 1 ==> Airtime(r) + 300 <= r.delay <= 3500
    ensures r.repeat == 1 ==> r.delay + Airtime(r) + 300 <= 2975
    ensures r.delay != 0 ==> r.receive == 0 && r.txReceive == 0 && 0 < r.window <= 1000 && r.delay >= 700
  {
    hide GoodHeader;
  }

  // --------------------------------------------------------------------------
  // What a program callback may tell
  // --------------------------------------------------------------------------

  /** The callback names one of the event's programs, with its start, whose entry is still in the ring. */
  predicate Names(b: Books, prog: Programs, p: Program, index: int, context: nat, hs: int) {
    context == p.context && hs == p.hs && EntryIsOurs(prog, index, p, false)
  }

  /**
   A callback that names no program of the event, or ends one normally before an earlier one has ended, is a fault that
   changes nothing else; one that repeats an end changes nothing.
   */
  lemma CallbackIsChecked(s: State, context: nat, hs: int, reason: nat, o: Oracle)
    requires s.tx.books.program.context == 0 && (s.tx.books.many ==> s.tx.books.reply.context == 1)
    requires s.tx.books.repeat ==> s.tx.books.many && s.tx.books.stop.context == 2
    ensures var t := FrameDone(s, context, hs, reason, o); var b, e, prog := s.tx.books, s.tx.ended, s.rom.prog;
      var first, reply, stop := Names(b, prog, b.program, b.first, context, hs), b.many && Names(b, prog, b.reply, b.second, context, hs),
                                b.repeat && Names(b, prog, b.stop, b.third, context, hs);
      (!(first || reply || stop) ==> t == WithPhase(s, FAULT)) &&
      (reply && !e.first && reason != 4 ==> t == WithPhase(s, FAULT)) &&
      (stop && !(e.first && e.second) && reason != 4 ==> t == WithPhase(s, FAULT)) &&
      (first && b.many && e.first && (reason == 0 || reason == 1 || reason == 4) ==> t == s) &&
      (reply && e.second && (reason == 4 || (e.first && (reason == 0 || reason == 1))) ==> t == s)
  {
    hide Received, SingleEnded, OneEnded, Receive, EntryIsOurs;
  }

  /**
   A callback with a reception adds its findings to the event's: invalid ones of every program, complete ones of all
   but the stopper.
   */
  lemma ReceptionIsNoted(s: State, context: nat, hs: int, reason: nat, o: Oracle)
    requires reason <= 2 && !Unexpected(s, Which(s.tx.books, context), context, hs, reason)
    requires !(s.tx.books.many && EndedOf(s.tx.ended, Which(s.tx.books, context)))
    ensures var t := FrameDone(s, context, hs, reason, o); var stopper := s.tx.books.repeat && context == s.tx.books.stop.context;
      (t.tx.rxInvalid <==> s.tx.rxInvalid || o.invalid) && (t.tx.complete <==> s.tx.complete || (!stopper && o.complete))
  {
    hide Unexpected, EndedOf;
    var which := Which(s.tx.books, context);
    var t := Receive(s, o, which != 2);
    EndFindings(t, which, reason, o);
    AbortFindings(s, which, o);
    hide Received, OneEnded, SingleEnded;
  }

  lemma EndFindings(t: State, which: nat, reason: nat, o: Oracle)
    ensures OneEnded(t, which, reason).tx.rxInvalid == t.tx.rxInvalid && OneEnded(t, which, reason).tx.complete == t.tx.complete
    ensures SingleEnded(t, reason, o).tx.rxInvalid == t.tx.rxInvalid && SingleEnded(t, reason, o).tx.complete == t.tx.complete
  {
    hide AllEnded;
    SingleFindings(t, reason, o);
    hide SingleEnded;
  }

  lemma QueueFindings(s: State, o: Oracle)
    ensures var t := QueueFollowup(s, o); t.tx.rxInvalid == s.tx.rxInvalid && t.tx.complete == s.tx.complete
  {
    hide PutAll, FollowupFields, TooLate;
  }

  lemma SingleFindings(t: State, reason: nat, o: Oracle)
    ensures SingleEnded(t, reason, o).tx.rxInvalid == t.tx.rxInvalid && SingleEnded(t, reason, o).tx.complete == t.tx.complete
  {
    hide QueueFollowup;
    forall s: State ensures var u := QueueFollowup(s, o); u.tx.rxInvalid == s.tx.rxInvalid && u.tx.complete == s.tx.complete {
      QueueFindings(s, o);
    }
  }

  lemma AbortFindings(s: State, which: nat, o: Oracle)
    ensures var t, u := Receive(s, o, which != 2), Received(s, which, o);
      u.tx.rxInvalid == t.tx.rxInvalid && u.tx.complete == t.tx.complete
  {
    hide ProgramIsOurs, EntryIsOurs;
  }

  /** The end of the reply's program, or of a later window, leaves what became of it. */
  lemma LaterOutcome(s: State, context: nat, hs: int, reason: nat, o: Oracle)
    requires reason == 0 || reason == 1 || reason == 4
    requires !Unexpected(s, Which(s.tx.books, context), context, hs, reason)
    requires !(s.tx.books.many && EndedOf(s.tx.ended, Which(s.tx.books, context)))
    requires if s.tx.books.many then context == s.tx.books.reply.context && !(s.tx.books.repeat && context == s.tx.books.stop.context)
             else s.tx.later.active && !s.tx.later.pending
    ensures FrameDone(s, context, hs, reason, o).tx.later.status == if reason == 0 then 3 else 6
  {
    hide Unexpected, EndedOf, AllEnded, QueueFollowup;
  }

  /** A complete valid reply stops an event early: in its own window or the queued reply's, but not in a stopper's. */
  lemma CompleteReplyStops(s: State, context: nat, hs: int, o: Oracle)
    requires s.tx.phase == ACTIVE && s.rom.arb.active == Ours && ProgramIsOurs(s.tx.books, s.rom.prog, true)
    requires s.tx.books.repeat ==> s.tx.books.many
    requires !Unexpected(s, Which(s.tx.books, context), context, hs, 2)
    requires !(s.tx.books.many && EndedOf(s.tx.ended, Which(s.tx.books, context)))
    ensures var t := FrameDone(s, context, hs, 2, o); var b, l := s.tx.books, s.tx.later;
      var reply, stopper := b.many && context == b.reply.context, b.repeat && context == b.stop.context;
      var heard := !s.tx.rxInvalid && !o.invalid && (s.tx.complete || o.complete);
      (t.tx.phase == (if heard && !stopper && (reply || b.repeat || l.active || (l.pending && !b.many && s.tx.format == 2)) then ABORTING else ACTIVE)) &&
      (t.tx.phase == ABORTING ==> t.rom.regs.abort && (b.many || l.active || !t.tx.later.pending))
  {
    hide Unexpected, EndedOf, ProgramIsOurs, EntryIsOurs, SingleEnded, OneEnded;
  }

  /** One of several programs ends: it and no other is marked, and the event ends with the last of them. */
  lemma EndIsMarked(s: State, context: nat, hs: int, reason: nat, o: Oracle)
    requires s.tx.books.many && (reason == 0 || reason == 1 || reason == 4) && (s.tx.phase == ACTIVE || s.tx.phase == ABORTING)
    requires !Unexpected(s, Which(s.tx.books, context), context, hs, reason)
    requires !EndedOf(s.tx.ended, Which(s.tx.books, context))
    ensures var t := FrameDone(s, context, hs, reason, o); var b, e, f := s.tx.books, s.tx.ended, t.tx.ended;
      var stop := b.repeat && context == b.stop.context; var reply := !stop && context == b.reply.context;
      (f.third <==> e.third || stop) && (f.second <==> e.second || reply) && (f.first <==> e.first || !(stop || reply)) &&
      var all := f.first && f.second && (b.repeat ==> f.third);
      t.tx.phase == (if all then ENDED else s.tx.phase) && (all ==> !t.tx.alarmSet)
  {
    hide Unexpected;
  }

  /**
   The stopper is aborted at a collection exactly once, while it alone of the event is left and executing, and from 20
   microseconds after its start on, where `late` is how many ticks of the clock have passed since.
   */
  lemma StopperIsAborted(s: State, o: Oracle, late: int)
    requires -0x800_0000 <= late < 0x800_0000 && o.hs == Clock(s.tx.books.stop.hs + late) && s.tx.phase == ACTIVE
    requires s.tx.books.repeat && s.tx.ended.first && s.tx.ended.second && !s.tx.ended.third
    requires 0 <= s.tx.books.stop.hs < 0x1000_0000
    ensures var t := StopDue(s, o); var b := s.tx.books;
      t.tx.phase == (if !s.tx.ended.abortAsked && s.rom.arb.active == Ours && EntryIsOurs(s.rom.prog, b.third, b.stop, true) && o.executing &&
                        late * 625 + o.hus - s.tx.stopHus >= 2 * 20 then ABORTING else ACTIVE) &&
      (t.tx.phase == ABORTING ==> t.rom.regs.abort && t.tx.ended.abortAsked)
  {
    SignedIs(s.tx.books.stop.hs, late);
    hide EntryIsOurs, Clock, SignedClock;
  }

  lemma SignedIs(hs: int, late: int)
    requires -0x800_0000 <= late < 0x800_0000
    ensures SignedClock(Clock(hs + late) - hs) == late
  {
    var q := (hs + late) / 0x1000_0000;
    assert Clock(hs + late) - hs + 0x800_0000 == late + 0x800_0000 + 0x1000_0000 * (-q);
    WholeClock(late + 0x800_0000, -q);
  }

  lemma WholeClock(x: int, q: int)
    requires 0 <= x < 0x1000_0000
    ensures (x + 0x1000_0000 * q) % 0x1000_0000 == x
  {
  }

  /**
   A cancel never leaves a later window wanted; a queued event is cancelled when the arbiter lets go of it, a started
   repeat goes on.
   */
  lemma CancelIs(s: State, o: Oracle)
    ensures var t := Cancel(s, o);
      (s.tx.phase != FAULT ==> !t.tx.later.pending) &&
      (s.tx.phase == QUEUED ==> t.tx.phase == (if o.status == 0 then CANCELLED else QUEUED) && (o.status == 0 ==> !t.rom.arb.linked && t.rom.arb.active != Ours)) &&
      (s.tx.books.repeat && s.tx.phase == ACTIVE ==>
        t.rom == s.rom && t.tx.phase == (if s.rom.arb.active == Ours && AllInOrder(s.tx.books, s.tx.ended, s.rom.prog) then ACTIVE else FAULT))
  {
    hide ProgramIsOurs, EntryIsOurs, AllInOrder;
  }

  /** Something of the event is still under way. */
  predicate UnderWay(s: State) {
    s.tx.phase == QUEUED || s.tx.phase == ACTIVE || s.tx.phase == ABORTING || s.tx.globals.taken || s.tx.alarmSet ||
    s.rom.arb.active == Ours || ProgramIsOurs(s.tx.books, s.rom.prog, false)
  }

  /** What a collection answers: of an event with one program, and of one whose several programs have all ended. */
  lemma CollectCodes(s: State, o: Oracle)
    requires s.tx.phase != FAULT && (s.tx.loan.lent ==> SameOwners(s.tx, s.rom.owners))
    ensures !s.tx.books.many && !s.tx.books.repeat ==> Collect(s, o).1 == if UnderWay(s) then 0 else 1
    ensures var b, e, prog := s.tx.books, s.tx.ended, s.rom.prog;
      b.many && e.first && e.second && (b.repeat ==> e.third) ==>
        if (Used(prog, b.first) && !EntryIsOurs(prog, b.first, b.program, false)) ||
           (Used(prog, b.second) && !EntryIsOurs(prog, b.second, b.reply, false)) ||
           (b.repeat && Used(prog, b.third) && !EntryIsOurs(prog, b.third, b.stop, false)) || s.rom.arb.active == Other
        then Collect(s, o) == (WithPhase(s, FAULT), -1)
        else if Used(prog, b.first) || Used(prog, b.second) || (b.repeat && Used(prog, b.third)) then Collect(s, o) == (s, 0)
        else Collect(s, o).1 == 1 || s.tx.phase == QUEUED || s.tx.phase == ACTIVE || s.tx.phase == ABORTING || s.tx.alarmSet || o.next == Ours
  {
    hide EntryIsOurs, SameOwners, ReleaseStorage;
    UsedIfOurs(s.rom.prog, s.tx.books.first, s.tx.books.program);
    UsedIfOurs(s.rom.prog, s.tx.books.second, s.tx.books.reply);
    UsedIfOurs(s.rom.prog, s.tx.books.third, s.tx.books.stop);
  }

  lemma UsedIfOurs(prog: Programs, index: int, p: Program)
    ensures EntryIsOurs(prog, index, p, false) ==> Used(prog, index)
  {
  }

  // --------------------------------------------------------------------------
  // The later window
  // --------------------------------------------------------------------------

  /** No later window is wanted any more, or it is the one of `e`. */
  predicate LaterOf(t: Tx, e: Tx) {
    (!t.later.pending && !t.later.active) ||
    (t.later.hs == e.later.hs && t.later.hus == e.later.hus && t.later.window == e.later.window &&
     t.later.channel == e.later.channel && t.phy == e.phy && t.books.many == e.books.many)
  }

  lemma AbortLater(s: State, e: Tx)
    requires LaterOf(s.tx, e)
    ensures LaterOf(AbortActive(s).tx, e)
  {
  }

  lemma QueueLater(s: State, o: Oracle, e: Tx)
    requires LaterOf(s.tx, e) && s.tx.later.pending
    ensures LaterOf(QueueFollowup(s, o).tx, e)
  {
    hide PutAll, FollowupFields, TooLate;
  }

  lemma SingleLater(s: State, reason: nat, o: Oracle, e: Tx)
    requires LaterOf(s.tx, e)
    ensures LaterOf(SingleEnded(s, reason, o).tx, e)
  {
    var t := ToEnded(RemoveActive(RestoreGlobals(ClearAlarm(s)), o));
    var u := if t.tx.later.active then WithLater(t, StatusAfter(t.tx.later, reason)) else t;
    assert LaterOf(u.tx, e);
    hide QueueFollowup;
    if u.tx.later.pending { QueueLater(u, o, e); }
  }

  lemma DoneLater(s: State, context: nat, hs: int, reason: nat, o: Oracle, e: Tx)
    requires LaterOf(s.tx, e)
    ensures LaterOf(FrameDone(s, context, hs, reason, o).tx, e)
  {
    var which := Which(s.tx.books, context);
    var t := if reason != 4 then Receive(s, o, which != 2) else s;
    hide Unexpected, SingleEnded, Received, Which, EndReason, EndedOf;
    assert t.tx.later == s.tx.later && t.tx.phy == s.tx.phy && t.tx.books == s.tx.books;
    SameLater(s.tx, t.tx, e);
    hide Receive;
    SingleLater(t, reason, o, e);
    OneLater(t, which, reason, e);
    ReceivedLater(s, which, o, e);
    SameLater(s.tx, WithPhase(s, FAULT).tx, e);
    hide OneEnded, LaterOf, WithPhase;
  }

  lemma OneLater(s: State, which: nat, reason: nat, e: Tx)
    requires LaterOf(s.tx, e)
    ensures LaterOf(OneEnded(s, which, reason).tx, e)
  {
    hide AllEnded;
  }

  lemma ReceivedLater(s: State, which: nat, o: Oracle, e: Tx)
    requires LaterOf(s.tx, e)
    ensures LaterOf(Received(s, which, o).tx, e)
  {
    var t := Receive(s, o, which != 2);
    AbortLater(t, e);
    AbortLater(WithLater(t, t.tx.later.(pending := false, status := 7)), e);
    hide AbortActive;
  }

  lemma StartLater(s: State, o: Oracle, e: Tx)
    requires LaterOf(s.tx, e)
    ensures LaterOf(Started(s, o).tx, e)
  {
    hide MayStart, Antennas, ReplyQueued, Quiet;
    forall u: Pushing ensures PushAll(u).0.books.many == u.books.many { PushMany(u); }
    hide PushAll;
  }

  lemma PushMany(u: Pushing)
    ensures PushAll(u).0.books.many == u.books.many
  {
  }

  lemma DueLater(s: State, o: Oracle, e: Tx)
    requires LaterOf(s.tx, e)
    ensures LaterOf(StopDue(s, o).tx, e)
  {
    hide StopIsDue, AbortActive;
    AbortLater(s.(tx := s.tx.(ended := s.tx.ended.(abortAsked := true))), e);
  }

  lemma CollectLater(s: State, o: Oracle, e: Tx)
    requires LaterOf(s.tx, e)
    ensures LaterOf(Collect(s, o).0.tx, e)
  {
    hide SomeForeign, SomeUsed, Pending, AllEnded, StopDue, SameOwners;
    DueLater(s, o, e);
    var t := StopDue(s, o);
    SameLater(t.tx, RemoveActive(RestoreGlobals(t), o).tx, e);
    SameLater(t.tx, WithPhase(t, FAULT).tx, e);
    hide RemoveActive, RestoreGlobals, WithPhase, ReleaseStorage;
  }

  lemma StepLater(s: State, a: Action, e: Tx)
    requires LaterOf(s.tx, e) && !a.DoSubmit?
    ensures LaterOf(Step(s, a).tx, e)
  {
    hide FrameDone, Started, Collect, AbortActive, NoForgery, Retire, LaterOf, Cancel;
    match a
    case DoCancel(o) => CancelLater(s, o, e);
    case DoCollect(o) => CollectLater(s, o, e);
    case ArbStart(o) =>
      assert LaterOf(WithArbiter(s, Ours, true).tx, e);
      StartLater(WithArbiter(s, Ours, true), o, e);
    case ArbStop => AbortLater(s, e);
    case AlarmFires =>
      var t := s.(tx := s.tx.(alarmSet := false), rom := s.rom.(alarm := false));
      SameLater(s.tx, t.tx, e);
      AbortLater(t, e);
    case ProgramCallback(context, hs, reason, retired, o) => DoneLater(s, context, hs, reason, o, e);
    case _ => SameLater(s.tx, Step(s, a).tx, e);
  }

  lemma SameLater(t: Tx, u: Tx, e: Tx)
    requires t.later == u.later && t.phy == u.phy && t.books == u.books
    ensures LaterOf(t, e) == LaterOf(u, e)
  {
  }

  lemma CancelLater(s: State, o: Oracle, e: Tx)
    requires LaterOf(s.tx, e)
    ensures LaterOf(Cancel(s, o).tx, e)
  {
    AbortLater(WithLater(s, s.tx.later.(pending := false)), e);
    hide AllInOrder, AbortActive;
  }

  lemma {:induction false} RunLater(s: State, actions: seq<Action>, e: Tx)
    requires LaterOf(s.tx, e) && forall a :: a in actions ==> !a.DoSubmit?
    ensures LaterOf(Run(s, actions).tx, e)
  {
    if actions != [] {
      hide LaterOf, Step;
      RunLater(s, actions[..|actions| - 1], e);
      StepLater(Run(s, actions[..|actions| - 1]), actions[|actions| - 1], e);
    }
  }

  /** The later window's fields replace rate, channel and window, and only those. */
  lemma FollowupReads(c: seq<int>, l: Later, phy: int)
    requires |c| == 45 && 1 <= phy <= 2 && 0 <= l.channel <= 39 && 1 <= l.window <= 1000
    ensures var d := PutAll(c, FollowupFields(l, phy)); var p := ReadStructure(d);
      |d| == 45 && p == ReadStructure(c).(sends := false, txRate := 0, rxRate := phy - 1, channel := l.channel,
                                          window := p.window, clear := p.clear) &&
      (ReadStructure(c).clear ==> p.clear) && WindowIs(p.window, l.window, 0)
  {
    var d := PutAll(c, FollowupFields(l, phy));
    assert d[2] == 0x1000 + 4 * (phy - 1) && d[11] == 0x8000 + l.channel && d[13] == WindowField(l.window);
    assert forall i :: 0 <= i < 45 && i != 2 && i != 11 && i != 13 && !(34 <= i <= 39) ==> d[i] == c[i];
    assert d[34..40] == [0, 0, 0, 0, 0, 0];
    hide PutAll, FollowupFields;
  }

  lemma FollowupTells(s: State, o: Oracle)
    requires !s.tx.later.active && QueueFollowup(s, o).tx.later.active && |s.rom.cells.cs| == 45
    requires 1 <= s.tx.phy <= 2 && 0 <= s.tx.later.channel <= 39 && 1 <= s.tx.later.window <= 1000
    ensures var t := QueueFollowup(s, o); WindowTells(s.rom.cells.cs, t.rom.cells.cs, t.tx, s.tx.later, s.tx.phy)
  {
    FollowupReads(s.rom.cells.cs, s.tx.later, s.tx.phy);
    hide PutAll, FollowupFields, ReadStructure, WindowIs;
  }

  /** The structure now listens, where and as long as asked, for the rest as before; the program is the only one. */
  predicate WindowTells(before: seq<int>, c: seq<int>, tx: Tx, asked: Later, phy: int)
    requires |before| == 45
  {
    |c| == 45 &&
    var p := ReadStructure(c);
    p == ReadStructure(before).(sends := false, txRate := 0, rxRate := phy - 1, channel := asked.channel,
                                window := p.window, clear := p.clear) &&
    (ReadStructure(before).clear ==> p.clear) && WindowIs(p.window, asked.window, 0) &&
    tx.books.program == Program(0, asked.hs) && tx.format == 29 && (tx.phase == QUEUED || tx.phase == ENDED)
  }

  /**
   The later window is queued exactly when the activity is still ours, nobody else has the arbiter or an entry in the ring, it
   lies at least one tick more than the programming delay and at most a second ahead, and the arbiter takes it; the status tells which.
   */
  lemma LaterQueuedIff(s: State, o: Oracle)
    requires s.tx.phase == ENDED && s.tx.later.pending
    ensures var t := QueueFollowup(s, o); var l := s.tx.later; var ahead := Clock(l.hs - o.hs);
      var own := s.rom.owners.first == s.tx.owners.first && s.rom.arb.active != Ours && s.rom.prog.count != 0;
      var free := s.rom.arb.active == Nobody && s.rom.prog.count <= 1;
      var reachable := 0 < o.delay <= 3200 && ahead <= 3200 && l.hus + 625 * ahead >= o.hus + 625 * o.delay + 625;
      o.delay >= 0 && 0 <= l.hus < 625 && 0 <= o.hus < 625 ==>
        (t.tx.phase == QUEUED <==> own && free && reachable && o.status == 0) && (t.tx.phase == QUEUED ==> t.tx.later.status == 1) &&
        (own && free && reachable && o.status != 0 ==> t.tx.later.status == 5) && (own && !free ==> t.tx.later.status == 5) &&
        (own && free && !reachable ==> t.tx.later.status == 4)
  {
    hide PutAll, FollowupFields, Clock;
  }

  lemma SingleTells(s: State, reason: nat, o: Oracle)
    requires !s.tx.later.active && SingleEnded(s, reason, o).tx.later.active && |s.rom.cells.cs| == 45
    requires 1 <= s.tx.phy <= 2 && 0 <= s.tx.later.channel <= 39 && 1 <= s.tx.later.window <= 1000
    ensures var t := SingleEnded(s, reason, o);
      WindowTells(s.rom.cells.cs, t.rom.cells.cs, t.tx, s.tx.later, s.tx.phy) && reason == 0 && s.tx.later.pending
  {
    hide QueueFollowup, WindowTells;
    var u := ToEnded(RemoveActive(RestoreGlobals(ClearAlarm(s)), o));
    assert u.tx.later == s.tx.later && u.tx.phy == s.tx.phy && u.rom.cells == s.rom.cells;
    if QueueFollowup(u, o).tx.later.active { FollowupTells(u, o); }
    hide ToEnded, RemoveActive, RestoreGlobals, ClearAlarm;
  }

  lemma DoneTells(s: State, context: nat, hs: int, reason: nat, o: Oracle)
    requires !s.tx.later.active && FrameDone(s, context, hs, reason, o).tx.later.active && |s.rom.cells.cs| == 45
    requires 1 <= s.tx.phy <= 2 && 0 <= s.tx.later.channel <= 39 && 1 <= s.tx.later.window <= 1000
    ensures var t := FrameDone(s, context, hs, reason, o);
      WindowTells(s.rom.cells.cs, t.rom.cells.cs, t.tx, s.tx.later, s.tx.phy) && reason == 0 && s.tx.later.pending
  {
    var which := Which(s.tx.books, context);
    hide Unexpected, Received, Which, EndReason, EndedOf, SingleEnded, WindowTells, OneEnded;
    var t := if reason != 4 then Receive(s, o, which != 2) else s;
    assert t.tx.later == s.tx.later && t.tx.phy == s.tx.phy && t.rom.cells == s.rom.cells;
    hide Receive;
    NotByOthers(s, which, reason, o);
    NotByOthers(t, which, reason, o);
    if SingleEnded(t, reason, o).tx.later.active { SingleTells(t, reason, o); }
  }

  lemma NotByOthers(s: State, which: nat, reason: nat, o: Oracle)
    requires !s.tx.later.active
    ensures !Received(s, which, o).tx.later.active && !OneEnded(s, which, reason).tx.later.active
  {
    hide AllEnded, EntryIsOurs, ProgramIsOurs;
  }

  lemma AcceptedTells(s: State, r: Request, o: Oracle)
    requires Submit(s, r, o).1 == 0 && r.delay != 0
    ensures var t := Submit(s, r, o).0;
      ProgramsTell(t.tx, r) && t.tx.phy == r.phy && 1 <= r.phy <= 2 && 0 <= r.followupChannel <= 39 && 1 <= r.window <= 1000
  {
    hide ProgramsTell, GoodHeader, GoodRepeat, Configured;
    PreparedTells(s.rom, r, o.buffer);
  }

  lemma StepTells(s: State, a: Action)
    requires a.ProgramCallback? && !s.tx.later.active && Step(s, a).tx.later.active && |s.rom.cells.cs| == 45
    requires s.tx.later.pending ==> 1 <= s.tx.phy <= 2 && 0 <= s.tx.later.channel <= 39 && 1 <= s.tx.later.window <= 1000
    ensures var t := Step(s, a);
      WindowTells(s.rom.cells.cs, t.rom.cells.cs, t.tx, s.tx.later, s.tx.phy) && a.reason == 0 && s.tx.later.pending
  {
    hide FrameDone, WindowTells, Retire;
    if !s.tx.later.pending { DonePends(s, a.context, a.hs, a.reason, a.o); } else { DoneTells(s, a.context, a.hs, a.reason, a.o); }
  }

  lemma DonePends(s: State, context: nat, hs: int, reason: nat, o: Oracle)
    requires !s.tx.later.active && FrameDone(s, context, hs, reason, o).tx.later.active
    ensures s.tx.later.pending
  {
    var which := Which(s.tx.books, context);
    hide Unexpected, Received, Which, EndReason, EndedOf, OneEnded, QueueFollowup;
    var t := if reason != 4 then Receive(s, o, which != 2) else s;
    assert t.tx.later == s.tx.later;
    hide Receive;
    NotByOthers(s, which, reason, o);
    NotByOthers(t, which, reason, o);
  }

  /**
   Over every run from an accepted ordinary submission: when the later window is queued, the structure listens on the
   channel, with the rate and for the window of that request, everything else as it was, and the program starts the
   requested delay after the first.
   */
  lemma LaterWindowReads(s: State, r: Request, o: Oracle, after: seq<Action>, last: Action)
    requires WordRequest(r) && Submit(s, r, o).1 == 0 && r.delay != 0 && (forall a :: a in after ==> !a.DoSubmit?)
    requires last.ProgramCallback?
    requires var u := Run(Submit(s, r, o).0, after);
      !u.tx.later.active && Step(u, last).tx.later.active && |u.rom.cells.cs| == 45
    ensures var u := Run(Submit(s, r, o).0, after); var v := Step(u, last); var l := u.tx.later;
      WindowTells(u.rom.cells.cs, v.rom.cells.cs, v.tx, l, r.phy) && l.channel == r.followupChannel && l.window == r.window &&
      Instant((l.hs, l.hus)) % ClockHus == (r.hs * 625 + r.hus + 2 * r.delay) % ClockHus && last.reason == 0
  {
    hide Submit, Run, Step, WindowTells, Instant, WordRequest, ProgramsTell;
    var t := Submit(s, r, o).0;
    var u := Run(t, after);
    AcceptedTells(s, r, o);
    assert LaterOf(t.tx, t.tx);
    RunLater(t, after, t.tx);
    if u.tx.later.pending { LaterAsked(t.tx, u.tx, r); }
    StepTells(u, last);
  }

  lemma LaterAsked(t: Tx, u: Tx, r: Request)
    requires ProgramsTell(t, r) && t.phy == r.phy && r.delay != 0 && LaterOf(u, t) && (u.later.pending || u.later.active)
    ensures var l := u.later;
      l.channel == r.followupChannel && l.window == r.window && u.phy == r.phy &&
      Instant((l.hs, l.hus)) % ClockHus == (r.hs * 625 + r.hus + 2 * r.delay) % ClockHus
  {
  }

  // --------------------------------------------------------------------------
  // What the runs promise
  // --------------------------------------------------------------------------

  /** In every run, a collection that reports success has given everything back. */
  lemma EveryCollectionReclaims(s: State, actions: seq<Action>, o: Oracle)
    requires Fresh(s) && Collect(Run(s, actions), o).1 == 1
    ensures Reclaimed(Collect(Run(s, actions), o).0)
  {
    hide Inv, Fresh, Run, Collect, Reclaimed;
    RunKeeps(s, actions);
    CollectReclaims(Run(s, actions), o);
  }

  /** A refused submission changes nothing; a conflicting one has given everything back. */
  lemma RefusalReclaims(s: State, r: Request, o: Oracle)
    requires Inv(s) && Submit(s, r, o).1 != 0
    ensures var (t, code) := Submit(s, r, o);
      if code != Conflict then t == s
      else Reclaimed(t) && t.rom.cells == s.rom.cells && t.rom.regs == s.rom.regs &&
           t.rom.pool.obtained == s.rom.pool.obtained + 1 && t.rom.pool.returned == s.rom.pool.returned + 1
  {
    hide GoodRequest, PutAll, Descriptor, FirstFields, ReplyFields, StopFields, LaterTime, StopTime;
  }

  /**
   A cancelled event can be collected at once, and an ended one as soon as its entries are retired, unless its reserved
   activities have changed or, after several programs, another event is running.
   */
  lemma EndedIsCollectable(s: State, o: Oracle)
    requires Inv(s) && s.tx.loan.lent && SameOwners(s.tx, s.rom.owners)
    requires s.tx.phase == CANCELLED || (s.tx.phase == ENDED && NoneOurs(s.rom.prog.ring))
    requires s.tx.books.many && s.tx.phase == ENDED ==> !SomeUsed(s.tx.books, s.rom.prog) && s.rom.arb.active != Other
    ensures Collect(s, o).1 == 1
  {
    NoneMeansNot(s.tx.books, s.rom.prog);
    hide CellsInv, PoolInv, RegistersInv, RingInv, SameOwners, NoneOurs;
    assert StopDue(s, o) == s;
    if s.tx.phase == CANCELLED {
      assert s.rom.arb.active != Ours || s.rom.arb.linked;
    }
  }

  lemma NoneMeansNot(b: Books, prog: Programs)
    ensures NoneOurs(prog.ring) ==> !ProgramIsOurs(b, prog, false)
    ensures !SomeUsed(b, prog) ==> !ForeignEntry(prog, b.first, b.program) && !ForeignEntry(prog, b.second, b.reply)
    ensures !SomeUsed(b, prog) && b.repeat ==> !ForeignEntry(prog, b.third, b.stop)
  {
  }

  predicate CurrentIsOurs(rom: Rom) {
    var c := rom.prog.consumer;
    rom.arb.active == Ours && InRing(c) && rom.prog.ring[c].used && rom.prog.ring[c].ours
  }

  lemma AbortIsOwn(s: State)
    ensures AbortActive(s).rom.regs.abort && !s.rom.regs.abort ==> CurrentIsOurs(s.rom)
  {
  }

  lemma FrameDoneAbort(s: State, context: nat, hs: int, reason: nat, o: Oracle)
    ensures FrameDone(s, context, hs, reason, o).rom.regs.abort && !s.rom.regs.abort ==> CurrentIsOurs(s.rom)
  {
    var which := Which(s.tx.books, context);
    var t := Receive(s, o, which != 2);
    AbortIsOwn(t);
    AbortIsOwn(WithLater(t, t.tx.later.(pending := false, status := 7)));
    hide AbortActive, CurrentIsOurs, QueueFollowup, Which, Unexpected;
    QueueFollowupRegs(s, o);
    var e := if reason != 4 then t else s;
    EndRegs(e, which, reason, o);
    hide OneEnded, SingleEnded;
  }

  lemma QueueFollowupRegs(s: State, o: Oracle)
    ensures QueueFollowup(s, o).rom.regs == s.rom.regs
  {
    hide TooLate, PutAll, FollowupFields;
  }

  lemma EndRegs(s: State, which: nat, reason: nat, o: Oracle)
    ensures OneEnded(s, which, reason).rom.regs == s.rom.regs
    ensures SingleEnded(s, reason, o).rom.regs.abort ==> s.rom.regs.abort
  {
    hide QueueFollowup;
    var t := ToEnded(RemoveActive(RestoreGlobals(ClearAlarm(s)), o));
    var u := if t.tx.later.active then WithLater(t, StatusAfter(t.tx.later, reason)) else t;
    QueueFollowupRegs(u, o);
  }

  /**
   At its deadline, when the arbiter takes the slot back, or when it is cancelled without a stopper, a running event
   whose program is current is told to abort; one whose program is not is left alone as a fault.
   */
  lemma RunningIsAborted(s: State, a: Action)
    requires (s.tx.phase == ACTIVE || s.tx.phase == ABORTING) && s.rom.arb.active == Ours
    requires a.ArbStop? || (a.AlarmFires? && s.rom.alarm) || (a.DoCancel? && !s.tx.books.repeat)
    ensures var t := Step(s, a); var current := ProgramIsOurs(s.tx.books, s.rom.prog, true);
      if current then t.tx.phase == ABORTING && t.rom.regs.abort && !t.rom.regs.testEnable
      else t.tx.phase == FAULT && t.rom.regs == s.rom.regs
  {
    hide EntryIsOurs, ProgramIsOurs;
  }

  /** The abort bit is only ever raised while the arbiter's slot and the current ring entry are ours. */
  lemma AbortOnlyOwn(s: State, a: Action)
    requires !a.RegistersMove? && Step(s, a).rom.regs.abort && !s.rom.regs.abort
    ensures CurrentIsOurs(s.rom)
  {
    hide CurrentIsOurs;
    match a
    case DoSubmit(r, o) => hide GoodRequest, Prepared, Configured, Restored;
    case DoCancel(o) =>
      hide AbortActive, AllInOrder;
      AbortIsOwn(WithLater(s, s.tx.later.(pending := false)));
    case DoCollect(o) => CollectAbort(s, o); hide Collect;
    case ArbStart(o) =>
      hide Started;
      if s.rom.arb.linked { StartedRegs(WithArbiter(s, Ours, true), o); }
    case ArbStop => hide AbortActive; AbortIsOwn(s);
    case ArbCancel =>
    case ArbOther(next) =>
    case AlarmFires =>
      hide AbortActive;
      AlarmAbort(s);
    case ProgramCallback(context, hs, reason, retired, o) =>
      hide FrameDone, Retire;
      FrameDoneAbort(s, context, hs, reason, o);
    case RingMoves(prog) => hide NoForgery;
    case CellsMove(cells) =>
    case OwnersMove(owners) =>
  }

  lemma AlarmAbort(s: State)
    ensures Deadline(s).rom.regs.abort && !s.rom.regs.abort ==> CurrentIsOurs(s.rom)
  {
    AbortIsOwn(s.(tx := s.tx.(alarmSet := false), rom := s.rom.(alarm := false)));
    hide AbortActive;
  }

  lemma StartedRegs(s: State, o: Oracle)
    ensures Started(s, o).rom.regs.abort ==> s.rom.regs.abort
  {
    hide Antennas, PushAll, Timed, Quiet, SameOwners;
  }

  lemma CollectAbort(s: State, o: Oracle)
    ensures Collect(s, o).0.rom.regs.abort && !s.rom.regs.abort ==> CurrentIsOurs(s.rom)
  {
    hide CurrentIsOurs, AbortActive;
    var d := s.(tx := s.tx.(ended := s.tx.ended.(abortAsked := true)));
    AbortIsOwn(d);
    CurrentSame(d, s);
    var t := StopDue(s, o);
    hide StopIsDue;
    assert t.rom.regs.abort && !s.rom.regs.abort ==> CurrentIsOurs(s.rom);
    hide StopDue;
    ReleaseSeveralRegs(t, o);
    hide ReleaseSeveral, Pending, SameOwners;
  }

  lemma CurrentSame(a: State, b: State)
    requires a.rom == b.rom
    ensures CurrentIsOurs(a.rom) == CurrentIsOurs(b.rom)
  {
  }

  lemma ReleaseSeveralRegs(s: State, o: Oracle)
    ensures ReleaseSeveral(s, o).0.rom.regs.abort ==> s.rom.regs.abort
  {
    hide SomeForeign, SomeUsed;
  }

  // --------------------------------------------------------------------------
  // Retirement of the first program before its later window
  // --------------------------------------------------------------------------

  /** The ROM retires a finished program's entry when its callback returns. */
  predicate Prompt(s: State, a: Action) {
    a.ProgramCallback? && EndReason(a.reason) ==>
      forall i :: 0 <= i < 16 && Matches(s.rom.prog.ring[i], Program(a.context, a.hs)) ==> i in a.retired
  }

  predicate AllPrompt(s: State, actions: seq<Action>) {
    actions == [] ||
    (AllPrompt(s, actions[..|actions| - 1]) && Prompt(Run(s, actions[..|actions| - 1]), actions[|actions| - 1]))
  }

  predicate OrphansGone(ring: Ring, orphans: set<int>) {
    forall i :: 0 <= i < 16 && i in orphans ==> !(ring[i].used && ring[i].ours)
  }

  /** What a collection leaves behind is exactly the orphans that are not retired. */
  lemma CollectionIsCleanIff(s: State, o: Oracle)
    requires Inv(s) && Collect(s, o).1 == 1
    ensures NoneOurs(Collect(s, o).0.rom.prog.ring) <==> OrphansGone(s.rom.prog.ring, s.orphans)
  {
    hide Inv, Collect;
    CollectReclaims(s, o);
  }

  lemma PushGone(u: Pushing, p: Program)
    requires OrphansGone(u.prog.ring, u.orphans)
    ensures var v := Push(u, p); OrphansGone(v.prog.ring, v.orphans)
  {
  }

  lemma PushAllGone(u: Pushing)
    requires OrphansGone(u.prog.ring, u.orphans)
    ensures var v := PushAll(u).0; OrphansGone(v.prog.ring, v.orphans)
  {
    var v := Push(u, u.books.program);
    PushGone(u, u.books.program);
    var v2 := v.(books := v.books.(second := v.prog.producer));
    PushGone(v2, v.books.reply);
    var w := PushReply(v).0;
    assert OrphansGone(w.prog.ring, w.orphans);
    PushGone(w.(books := w.books.(third := w.prog.producer)), w.books.stop);
    hide OrphansGone, Push;
  }

  lemma StartedGone(s: State, o: Oracle)
    requires OrphansGone(s.rom.prog.ring, s.orphans)
    ensures var t := Started(s, o); OrphansGone(t.rom.prog.ring, t.orphans)
  {
    PushAllGone(Pushing(s.tx.books.(first := s.rom.prog.producer), s.rom.prog, s.orphans));
    hide OrphansGone, Antennas, PushAll, Timed, Quiet, SameOwners;
  }

  /** Only the queued later window makes an orphan: the entry whose callback is running. */
  lemma FrameDoneOrphans(s: State, context: nat, hs: int, reason: nat, o: Oracle)
    requires s.tx.books.repeat ==> s.tx.books.many
    ensures var t := FrameDone(s, context, hs, reason, o); var b := s.tx.books;
      t.rom.prog == s.rom.prog &&
      (t.orphans == s.orphans ||
       (t.orphans == s.orphans + {b.first} && EndReason(reason) && InRing(b.first) &&
        Matches(s.rom.prog.ring[b.first], Program(context, hs))))
  {
    var which := Which(s.tx.books, context);
    hide AbortActive, QueueFollowup, OneEnded;
    AbortOrphans(Receive(s, o, which != 2));
    AbortOrphans(WithLater(Receive(s, o, which != 2), Receive(s, o, which != 2).tx.later.(pending := false, status := 7)));
    var t := if reason != 4 then Receive(s, o, which != 2) else s;
    OneEndedOrphans(t, which, reason);
    SingleEndedOrphans(t, reason, o);
    hide SingleEnded, EarlierPending;
  }

  lemma AbortOrphans(s: State)
    ensures AbortActive(s).orphans == s.orphans && AbortActive(s).rom.prog == s.rom.prog
  {
    hide ProgramIsOurs, EntryIsOurs;
  }

  lemma OneEndedOrphans(s: State, which: nat, reason: nat)
    ensures OneEnded(s, which, reason).orphans == s.orphans && OneEnded(s, which, reason).rom.prog == s.rom.prog
  {
  }

  lemma SingleEndedOrphans(s: State, reason: nat, o: Oracle)
    ensures var t := SingleEnded(s, reason, o);
      t.rom.prog == s.rom.prog && (t.orphans == s.orphans || t.orphans == s.orphans + {s.tx.books.first})
  {
    hide QueueFollowup;
    var t := ToEnded(RemoveActive(RestoreGlobals(ClearAlarm(s)), o));
    var u := if t.tx.later.active then WithLater(t, StatusAfter(t.tx.later, reason)) else t;
    FollowupOrphans(u, o);
  }

  lemma FollowupOrphans(s: State, o: Oracle)
    ensures var t := QueueFollowup(s, o);
      t.rom.prog == s.rom.prog && (t.orphans == s.orphans || t.orphans == s.orphans + {s.tx.books.first})
  {
    hide TooLate, PutAll, FollowupFields;
  }

  lemma RepeatIsMany(s: State)
    requires Inv(s)
    ensures s.tx.books.repeat ==> s.tx.books.many
  {
  }

  lemma StepGone(s: State, a: Action)
    requires Inv(s) && OrphansGone(s.rom.prog.ring, s.orphans) && Prompt(s, a)
    ensures var t := Step(s, a); OrphansGone(t.rom.prog.ring, t.orphans)
  {
    hide Inv;
    match a
    case DoSubmit(r, o) => hide OrphansGone, GoodRequest, Prepared, Configured, Restored;
    case DoCancel(o) =>
      hide OrphansGone, AbortActive, AllInOrder;
      AbortOrphans(WithLater(s, s.tx.later.(pending := false)));
    case DoCollect(o) =>
      hide OrphansGone, StopDue, ReleaseSeveral, SameOwners, Pending;
      StopDueStays(s, o);
      ReleaseSeveralStays(StopDue(s, o), o);
    case ArbStart(o) =>
      hide Started, OrphansGone;
      StartedGone(WithArbiter(s, Ours, true), o);
    case ArbStop => hide OrphansGone, AbortActive; AbortOrphans(s);
    case ArbCancel => hide OrphansGone;
    case ArbOther(next) => hide OrphansGone;
    case AlarmFires =>
      hide OrphansGone, AbortActive;
      AbortOrphans(s.(tx := s.tx.(alarmSet := false), rom := s.rom.(alarm := false)));
    case ProgramCallback(context, hs, reason, retired, o) =>
      RepeatIsMany(s);
      FrameDoneOrphans(s, context, hs, reason, o);
      hide FrameDone, Matches;
    case RingMoves(prog) =>
    case RegistersMove(regs) => hide OrphansGone;
    case CellsMove(cells) => hide OrphansGone;
    case OwnersMove(owners) => hide OrphansGone;
  }

  lemma {:induction false} RunGone(s: State, actions: seq<Action>)
    requires Fresh(s) && AllPrompt(s, actions)
    ensures var t := Run(s, actions); OrphansGone(t.rom.prog.ring, t.orphans)
    decreases |actions|
  {
    if actions == [] {
      hide NoneOurs;
    } else {
      hide Fresh, Step, OrphansGone, Prompt, Inv;
      RunKeeps(s, actions[..|actions| - 1]);
      RunGone(s, actions[..|actions| - 1]);
      StepGone(Run(s, actions[..|actions| - 1]), actions[|actions| - 1]);
    }
  }

  /** With a ROM that retires entries when their callback returns, a collection leaves no entry of ours. */
  lemma PromptCollectionIsClean(s: State, actions: seq<Action>, o: Oracle)
    requires Fresh(s) && AllPrompt(s, actions) && Collect(Run(s, actions), o).1 == 1
    ensures NoneOurs(Collect(Run(s, actions), o).0.rom.prog.ring)
  {
    hide Inv, Fresh, Run, Collect, AllPrompt, NoneOurs, OrphansGone;
    RunKeeps(s, actions);
    RunGone(s, actions);
    CollectionIsCleanIff(Run(s, actions), o);
  }

  // --------------------------------------------------------------------------
  // One ordinary event, from its start to its collection
  // --------------------------------------------------------------------------

  /** Before any start the ring holds nothing of ours, and no later window has been queued. */
  predicate Untouched(s: State) {
    NoneOurs(s.rom.prog.ring) && !s.tx.later.active
  }

  lemma BeforeStartKeeps(s: State, a: Action)
    requires Untouched(s) && !a.ArbStart?
    ensures Untouched(Step(s, a))
  {
    match a
    case DoSubmit(r, o) => hide NoneOurs, GoodRequest, Configured, Restored, LaterTime, StopTime;
    case DoCancel(o) =>
      hide NoneOurs, AbortActive, AllInOrder;
      AbortShape(WithLater(s, s.tx.later.(pending := false)));
    case DoCollect(o) =>
      hide NoneOurs;
      CollectBooks(s, o);
      hide Collect;
    case ArbStop => hide NoneOurs, AbortActive; AbortShape(s);
    case ArbCancel => hide NoneOurs;
    case ArbOther(next) => hide NoneOurs;
    case AlarmFires =>
      hide NoneOurs, AbortActive;
      AbortShape(s.(tx := s.tx.(alarmSet := false), rom := s.rom.(alarm := false)));
    case ProgramCallback(context, hs, reason, retired, o) =>
      assert Unexpected(s, Which(s.tx.books, context), context, hs, reason);
    case RingMoves(prog) =>
    case RegistersMove(regs) => hide NoneOurs;
    case CellsMove(cells) => hide NoneOurs;
    case OwnersMove(owners) => hide NoneOurs;
  }

  lemma CollectBooks(s: State, o: Oracle)
    ensures var t := Collect(s, o).0;
      t.rom.prog == s.rom.prog &&
      (t.tx == Blank || (t.tx.books == s.tx.books && t.tx.later == s.tx.later && t.tx.loan.lent == s.tx.loan.lent))
  {
    hide StopIsDue, SomeForeign, SomeUsed, SameOwners, Pending, AllEnded;
    var d := s.(tx := s.tx.(ended := s.tx.ended.(abortAsked := true)));
    AbortShape(d);
    hide AbortActive;
    var t := StopDue(s, o);
    assert t.rom.prog == s.rom.prog && t.tx.books == s.tx.books && t.tx.later == s.tx.later && t.tx.loan == s.tx.loan;
    hide StopDue;
    ReleaseSeveralBooks(t, o);
    hide ReleaseSeveral;
    ReleaseStorageStays(t);
    ReleaseStorageStays(ReleaseSeveral(t, o).0);
    hide ReleaseStorage;
  }

  lemma ReleaseSeveralBooks(s: State, o: Oracle)
    ensures var t := ReleaseSeveral(s, o).0;
      t.rom.prog == s.rom.prog && t.tx.books == s.tx.books && t.tx.later == s.tx.later && t.tx.loan == s.tx.loan
  {
    hide SomeForeign, SomeUsed;
  }

  lemma {:induction false} BeforeStart(f: State, before: seq<Action>)
    requires Fresh(f) && forall a :: a in before ==> !a.ArbStart?
    ensures Untouched(Run(f, before))
    decreases |before|
  {
    if before != [] {
      hide Untouched, Step, Fresh;
      assert before[|before| - 1] in before;
      BeforeStart(f, before[..|before| - 1]);
      BeforeStartKeeps(Run(f, before[..|before| - 1]), before[|before| - 1]);
    }
  }

  /** An ordinary event whose first program was recorded at `i`: until its later window is queued it still is. */
  predicate EventBooks(tx: Tx, i: int, p: Program) {
    !tx.books.many && !tx.books.repeat && InRing(i) && (tx.later.active ==> !tx.later.pending) &&
    (!tx.later.active ==> tx.books.first == i && tx.books.program == p)
  }

  /** Entries of ours are recorded, or the first program's that the later window made the driver forget. */
  predicate EventRing(b: Books, active: bool, ring: Ring, i: int, p: Program) {
    forall k :: 0 <= k < 16 && ring[k].used && ring[k].ours ==>
      Recorded(b, ring[k], k) || (active && k == i && Matches(ring[k], p))
  }

  predicate EventInv(s: State, i: int, p: Program) {
    s.tx.loan.lent ==> EventBooks(s.tx, i, p) && EventRing(s.tx.books, s.tx.later.active, s.rom.prog.ring, i, p)
  }

  lemma PushForgets(b: Books, prog: Programs, orphans: set<int>, i: int, p: Program)
    requires !b.many && !b.repeat && b.first == prog.producer && InRing(b.first) && EventRing(b, true, prog.ring, i, p)
    ensures var u := PushAll(Pushing(b, prog, orphans)).0; u.books == b && EventRing(b, true, u.prog.ring, i, p)
  {
  }

  /** The later window's start records it beside the forgotten first entry. */
  lemma StartEvent(s: State, o: Oracle, i: int, p: Program)
    requires Inv(s) && EventInv(s, i, p) && s.tx.loan.lent && s.rom.arb == Arbiter(Ours, true)
    ensures EventInv(Started(s, o), i, p)
  {
    hide CellsInv, PoolInv, RegistersInv, EndedInv, RingInv, EventRing, Antennas, PushAll, Timed, Quiet, SameOwners;
    if MayStart(s) && InRing(s.rom.prog.producer) {
      assert s.tx.later.active by { assert s.tx.books.first == 255; }
      var b := s.tx.books.(first := s.rom.prog.producer);
      FirstUnrecorded(s.tx.books, s.rom.prog.ring, i, p, s.rom.prog.producer);
      PushForgets(b, s.rom.prog, s.orphans, i, p);
    } else if MayStart(s) {
      FirstUnrecorded(s.tx.books, s.rom.prog.ring, i, p, s.rom.prog.producer);
    }
  }

  lemma FirstUnrecorded(b: Books, ring: Ring, i: int, p: Program, at: int)
    requires !b.many && !b.repeat && b.first == 255 && EventRing(b, true, ring, i, p)
    ensures EventRing(b.(first := at), true, ring, i, p)
  {
  }

  /** A callback of a single program either leaves the books or queues the later window. */
  predicate BooksMove(s: Tx, t: Tx) {
    t.loan == s.loan && (t.later.pending ==> s.later.pending) &&
    ((t.books == s.books && t.later.active == s.later.active) ||
     (s.later.pending && t.later.active && !t.later.pending && t.books == s.books.(program := Program(0, s.later.hs), first := 255)))
  }

  lemma FollowupBooks(s: State, o: Oracle)
    requires s.tx.later.pending
    ensures BooksMove(s.tx, QueueFollowup(s, o).tx) && QueueFollowup(s, o).rom.prog == s.rom.prog
  {
    hide TooLate, PutAll, FollowupFields;
  }

  lemma SingleBooks(s: State, reason: nat, o: Oracle)
    ensures BooksMove(s.tx, SingleEnded(s, reason, o).tx) && SingleEnded(s, reason, o).rom.prog == s.rom.prog
  {
    hide QueueFollowup;
    var t := ToEnded(RemoveActive(RestoreGlobals(ClearAlarm(s)), o));
    var u := if t.tx.later.active then WithLater(t, StatusAfter(t.tx.later, reason)) else t;
    assert u.tx.books == s.tx.books && u.tx.loan == s.tx.loan && u.rom.prog == s.rom.prog &&
      u.tx.later == s.tx.later.(status := u.tx.later.status);
    if u.tx.later.pending { FollowupBooks(u, o); }
  }

  lemma ReceivedBooks(s: State, which: nat, o: Oracle)
    ensures BooksMove(s.tx, Received(s, which, o).tx) && Received(s, which, o).rom.prog == s.rom.prog
  {
    var t := Receive(s, o, which != 2);
    AbortShape(t);
    AbortShape(WithLater(t, t.tx.later.(pending := false, status := 7)));
    hide AbortActive;
  }

  lemma FrameDoneBooks(s: State, context: nat, hs: int, reason: nat, o: Oracle)
    requires !s.tx.books.many && !s.tx.books.repeat
    ensures var t := FrameDone(s, context, hs, reason, o); BooksMove(s.tx, t.tx) && t.rom.prog == s.rom.prog
  {
    var which := Which(s.tx.books, context);
    ReceivedBooks(s, which, o);
    var t := if reason != 4 then Receive(s, o, which != 2) else s;
    assert t.tx.books == s.tx.books && t.tx.later == s.tx.later && t.tx.loan == s.tx.loan && t.rom.prog == s.rom.prog;
    SingleBooks(t, reason, o);
    hide Received, SingleEnded, Unexpected, Receive;
  }

  lemma MoveKeepsEvent(s: Tx, t: Tx, ring: Ring, i: int, p: Program)
    requires BooksMove(s, t) && EventBooks(s, i, p) && EventRing(s.books, s.later.active, ring, i, p)
    ensures EventBooks(t, i, p) && EventRing(t.books, t.later.active, ring, i, p)
  {
  }

  lemma RingShrinks(b: Books, active: bool, ring: Ring, after: Ring, i: int, p: Program)
    requires EventRing(b, active, ring, i, p) && NoForgery(ring, after)
    ensures EventRing(b, active, after, i, p)
  {
  }

  lemma EventKeeps(s: State, a: Action, i: int, p: Program)
    requires Inv(s) && EventInv(s, i, p) && !a.DoSubmit?
    ensures EventInv(Step(s, a), i, p)
  {
    if s.tx.loan.lent { EventKeepsLent(s, a, i, p); } else { NotLentStays(s, a); }
    hide EventBooks, EventRing, Step, Inv;
  }

  lemma NotLentStays(s: State, a: Action)
    requires Inv(s) && !s.tx.loan.lent && !a.DoSubmit?
    ensures !Step(s, a).tx.loan.lent
  {
    hide CellsInv, PoolInv, RegistersInv, RingInv;
    match a
    case DoCancel(o) =>
      hide AbortActive, AllInOrder;
      AbortShape(WithLater(s, s.tx.later.(pending := false)));
    case DoCollect(o) => CollectBooks(s, o); hide Collect;
    case ArbStart(o) => hide Antennas, PushAll, Timed, Quiet, SameOwners;
    case ArbStop => hide AbortActive; AbortShape(s);
    case ArbCancel =>
    case ArbOther(next) =>
    case AlarmFires =>
      hide AbortActive;
      AbortShape(s.(tx := s.tx.(alarmSet := false), rom := s.rom.(alarm := false)));
    case ProgramCallback(context, hs, reason, retired, o) =>
      FrameDoneLoan(s, context, hs, reason, o);
      hide FrameDone, Retire;
    case RingMoves(prog) => hide NoForgery;
    case RegistersMove(regs) =>
    case CellsMove(cells) =>
    case OwnersMove(owners) =>
  }

  lemma FrameDoneLoan(s: State, context: nat, hs: int, reason: nat, o: Oracle)
    ensures FrameDone(s, context, hs, reason, o).tx.loan == s.tx.loan
  {
    var which := Which(s.tx.books, context);
    ReceivedBooks(s, which, o);
    var t := if reason != 4 then Receive(s, o, which != 2) else s;
    SingleBooks(t, reason, o);
    hide Received, SingleEnded, Unexpected, Which;
  }

  lemma EventKeepsLent(s: State, a: Action, i: int, p: Program)
    requires Inv(s) && EventInv(s, i, p) && !a.DoSubmit? && s.tx.loan.lent
    ensures EventInv(Step(s, a), i, p)
  {
    hide EventRing;
    match a
    case DoCancel(o) =>
      hide Inv, AbortActive, AllInOrder;
      AbortShape(WithLater(s, s.tx.later.(pending := false)));
    case DoCollect(o) => hide Inv; CollectBooks(s, o); hide Collect;
    case ArbStart(o) =>
      if s.rom.arb.linked {
        assert Inv(WithArbiter(s, Ours, true)) by { hide CellsInv, PoolInv, RegistersInv, RingInv, EndedInv; }
        hide Started, Inv;
        StartEvent(WithArbiter(s, Ours, true), o, i, p);
      }
    case ArbStop => hide Inv, AbortActive; AbortShape(s);
    case ArbCancel => hide Inv;
    case ArbOther(next) => hide Inv;
    case AlarmFires =>
      hide Inv, AbortActive;
      AbortShape(s.(tx := s.tx.(alarmSet := false), rom := s.rom.(alarm := false)));
    case ProgramCallback(context, hs, reason, retired, o) =>
      FrameDoneBooks(s, context, hs, reason, o);
      var t := FrameDone(s, context, hs, reason, o);
      MoveKeepsEvent(s.tx, t.tx, s.rom.prog.ring, i, p);
      RingShrinks(t.tx.books, t.tx.later.active, t.rom.prog.ring, Retire(t.rom.prog.ring, retired), i, p);
      hide Inv, FrameDone, EventBooks, BooksMove, NoForgery, Retire;
    case RingMoves(prog) =>
      hide Inv, NoForgery, EventBooks;
      if NoForgery(s.rom.prog.ring, prog.ring) {
        RingShrinks(s.tx.books, s.tx.later.active, s.rom.prog.ring, prog.ring, i, p);
      }
    case RegistersMove(regs) => hide Inv;
    case CellsMove(cells) => hide Inv;
    case OwnersMove(owners) => hide Inv;
  }

  lemma {:induction false} EventRunKeeps(t: State, after: seq<Action>, i: int, p: Program)
    requires Inv(t) && EventInv(t, i, p) && forall a :: a in after ==> !a.DoSubmit?
    ensures Inv(Run(t, after)) && EventInv(Run(t, after), i, p)
    decreases |after|
  {
    if after != [] {
      hide Inv, EventInv, Step;
      assert after[|after| - 1] in after;
      EventRunKeeps(t, after[..|after| - 1], i, p);
      StepKeeps(Run(t, after[..|after| - 1]), after[|after| - 1]);
      EventKeeps(Run(t, after[..|after| - 1]), after[|after| - 1], i, p);
    }
  }

  /** The start of an ordinary event puts its program, and nothing else of ours, into the ring. */
  lemma StartBegins(s: State, o: Oracle)
    requires Inv(s) && Untouched(s) && s.tx.phase == QUEUED && !s.tx.books.many && s.rom.arb.linked
    requires Step(s, ArbStart(o)).tx.phase == ACTIVE
    ensures var t := Step(s, ArbStart(o)); EventInv(t, t.tx.books.first, t.tx.books.program)
  {
    hide CellsInv, PoolInv, RegistersInv, RingInv, Antennas, Timed, Quiet, SameOwners, PushAll;
    var w := WithArbiter(s, Ours, true);
    var b := s.tx.books.(first := s.rom.prog.producer);
    PushOne(b, s.rom.prog, s.orphans);
  }

  lemma PushOne(b: Books, prog: Programs, orphans: set<int>)
    requires !b.many && !b.repeat && NoneOurs(prog.ring) && b.first == prog.producer
    ensures var u := PushAll(Pushing(b, prog, orphans)).0; u.books == b && EventRing(b, false, u.prog.ring, b.first, b.program)
  {
  }

  /**
   One ordinary event from a fresh controller: `before` its only start nothing was started, `after` it nothing more is
   submitted. A successful collection then leaves no entry of ours exactly when the later window was never queued, or the
   entry at the position recorded for the first program is no longer that program's.
   */
  lemma EventIsCleanIff(f: State, before: seq<Action>, start: Oracle, after: seq<Action>, o: Oracle)
    requires Fresh(f) && (forall a :: a in before ==> !a.ArbStart?) && (forall a :: a in after ==> !a.DoSubmit?)
    requires var s := Run(f, before); s.tx.phase == QUEUED && !s.tx.books.many && Step(s, ArbStart(start)).tx.phase == ACTIVE
    requires var u := Run(Step(Run(f, before), ArbStart(start)), after); u.tx.loan.lent && Collect(u, o).1 == 1
    ensures var t := Step(Run(f, before), ArbStart(start)); var u := Run(t, after);
      NoneOurs(Collect(u, o).0.rom.prog.ring) <==>
        !u.tx.later.active || !EntryIsOurs(u.rom.prog, t.tx.books.first, t.tx.books.program, false)
  {
    var s := Run(f, before);
    RunKeeps(f, before);
    BeforeStart(f, before);
    var t := Step(s, ArbStart(start));
    assert s.rom.arb.linked;
    hide Run, Fresh;
    StartBegins(s, start);
    StepKeeps(s, ArbStart(start));
    hide Step, Inv, EventInv, Collect;
    var i, p := t.tx.books.first, t.tx.books.program;
    EventRunKeeps(t, after, i, p);
    var u := Run(t, after);
    CollectBooks(u, o);
    CollectSawNone(u, o);
    LeftIff(u, i, p);
  }

  lemma CollectSawNone(s: State, o: Oracle)
    requires Collect(s, o).1 == 1 && !s.tx.books.many && !s.tx.books.repeat
    ensures !ProgramIsOurs(s.tx.books, s.rom.prog, false)
  {
    hide SameOwners, ProgramIsOurs;
  }

  lemma LeftIff(u: State, i: int, p: Program)
    requires EventInv(u, i, p) && u.tx.loan.lent && !ProgramIsOurs(u.tx.books, u.rom.prog, false)
    ensures NoneOurs(u.rom.prog.ring) <==> !u.tx.later.active || !EntryIsOurs(u.rom.prog, i, p, false)
  {
  }

  // A run in which the ROM has not retired the first entry when its later window is refused.

  function EmptyRing(): Ring {
    seq(16, i => Entry(false, false, 0, 0))
  }

  const QuietRegisters := Registers(false, false, 0, 0, 0, TimingBase)
  const FreshRom := Rom(Arbiter(Nobody, false), Programs(EmptyRing(), 0, 0, 0), false, QuietRegisters, NoCells,
                        Owners(1, 2, 3), Pool({}, 0, 0, false))
  const FreshState := State(Blank, FreshRom, NoCells, QuietRegisters, {})
  const LateRequest := Request(100, 0, 0, 0, 10, 0, 0, 1, 0, 0, 2350, 300, 1, 0, 0, 0)
  const SubmitFinds := Oracle(0, Nobody, 5, [], 50, 0, 6, false, false, false)
  const StartFinds := Oracle(0, Nobody, 0, [(0, 0)], 100, 0, 6, false, false, false)
  const QueueFinds := Oracle(0, Nobody, 0, [], 103, 0, 2, false, false, false)
  const EndFinds := Oracle(1, Nobody, 0, [], 103, 0, 2, false, false, false)
  const Collecting := Oracle(0, Nobody, 0, [], 104, 0, 6, false, false, false)

  lemma SubmitOne()
    ensures var s := Step(FreshState, DoSubmit(LateRequest, SubmitFinds));
      s.tx.phase == QUEUED && s.tx.books == Books(false, false, Program(0, 100), NoProgram, NoProgram, 255, 255, 255) &&
      s.tx.format == 2 && s.tx.phy == 1 && s.tx.owners.first == 1 && s.tx.loan.lent && !s.tx.rxInvalid &&
      s.tx.later == Later(true, false, 107, 325, 300, 1, 0) && s.tx.globals == NoGlobals && !s.tx.alarmSet &&
      s.tx.ended == NoneEnded && s.rom.prog == FreshRom.prog && s.rom.regs == QuietRegisters &&
      s.rom.arb == Arbiter(Nobody, true) && s.rom.owners == FreshRom.owners && s.rom.alarm == false
  {
    hide Configured, Saved;
    assert GoodRequest(LateRequest);
    assert LaterTime(LateRequest) == (107, 325);
  }

  lemma StartOne(s: State)
    requires s.tx.phase == QUEUED && s.tx.books == Books(false, false, Program(0, 100), NoProgram, NoProgram, 255, 255, 255)
    requires s.tx.format == 2 && s.tx.phy == 1 && s.tx.owners.first == 1 && s.tx.loan.lent && !s.tx.rxInvalid
    requires s.tx.later == Later(true, false, 107, 325, 300, 1, 0) && s.rom.prog == FreshRom.prog
    requires s.rom.regs == QuietRegisters && s.rom.arb == Arbiter(Nobody, true) && s.rom.owners == FreshRom.owners
    requires s.tx.ended == NoneEnded
    ensures var t := Step(s, ArbStart(StartFinds));
      t.tx.phase == ACTIVE && t.tx.books == s.tx.books.(first := 0) && t.tx.format == 2 && t.tx.owners == s.tx.owners &&
      t.tx.later == s.tx.later && t.tx.loan == s.tx.loan && t.tx.ended == NoneEnded && !t.tx.rxInvalid &&
      t.rom.prog.ring == EmptyRing()[0 := Entry(true, true, 0, 100)] && t.rom.prog.count == 1 &&
      t.rom.arb == Arbiter(Ours, true) && t.rom.owners == s.rom.owners
  {
    hide Put, FormatField;
    var u := WithArbiter(s, Ours, true);
    assert MayStart(u) && !Timed(u.tx);
    assert Antennas(u.tx.(books := u.tx.books.(first := 0)), u.rom.cells, StartFinds).1;
    hide Antennas, Quiet, Timed;
    var p := Pushing(s.tx.books.(first := 0), FreshRom.prog, s.orphans);
    assert PushAll(p).1 && PushAll(p).0.prog.ring == EmptyRing()[0 := Entry(true, true, 0, 100)];
    assert PushAll(p).0.books == p.books && PushAll(p).0.prog.count == 1;
    hide PushAll;
  }

  predicate AtEnd(s: State) {
    s.tx.phase == ACTIVE && s.tx.books == Books(false, false, Program(0, 100), NoProgram, NoProgram, 0, 255, 255) &&
    s.tx.format == 2 && s.tx.later == Later(true, false, 107, 325, 300, 1, 0) && !s.tx.rxInvalid &&
    s.tx.ended == NoneEnded && s.tx.owners.first == 1 && s.rom.owners.first == 1 &&
    s.rom.prog.ring == EmptyRing()[0 := Entry(true, true, 0, 100)] && s.rom.prog.count == 1 && s.rom.arb == Arbiter(Ours, true)
  }

  /** The callback's end of the only program: its later window is inserted, or refused. */
  lemma SingleOne(s: State, o: Oracle)
    requires AtEnd(s) && (o == EndFinds || o == QueueFinds)
    ensures var t := SingleEnded(s, 0, o); var queued := o.status == 0;
      t.tx.phase == (if queued then QUEUED else ENDED) && t.rom.arb == Arbiter(Nobody, queued) &&
      t.tx.books == s.tx.books.(program := Program(0, 107), first := 255) && !t.tx.globals.taken &&
      !t.tx.alarmSet && t.rom.prog == s.rom.prog && t.rom.owners == s.rom.owners && t.tx.owners == s.tx.owners
  {
    hide PutAll, FollowupFields;
    var u := ToEnded(RemoveActive(RestoreGlobals(ClearAlarm(s)), o));
    assert u.tx.phase == ENDED && u.rom.arb == Arbiter(Nobody, false) && u.tx.later == s.tx.later && !u.tx.globals.taken &&
      !u.tx.alarmSet && u.rom.prog == s.rom.prog && u.rom.owners == s.rom.owners && u.tx.owners == s.tx.owners &&
      u.tx.books == s.tx.books && !u.tx.rxInvalid;
    hide ToEnded, RemoveActive, RestoreGlobals, ClearAlarm;
    assert !TooLate(s.tx.later.(pending := false), o);
    hide TooLate;
    assert SingleEnded(s, 0, o) == QueueFollowup(u, o);
  }

  lemma EndOne(s: State, retired: set<int>, o: Oracle)
    requires AtEnd(s) && (o == EndFinds || o == QueueFinds)
    ensures var t := Step(s, ProgramCallback(0, 100, 0, retired, o)); var queued := o.status == 0;
      t.tx.phase == (if queued then QUEUED else ENDED) && t.rom.arb == Arbiter(Nobody, queued) &&
      t.tx.books.first == 255 && !t.tx.books.many && !t.tx.books.repeat && !t.tx.globals.taken &&
      !t.tx.alarmSet && t.rom.prog.ring == Retire(s.rom.prog.ring, retired) &&
      t.rom.owners == s.rom.owners && t.tx.owners == s.tx.owners
  {
    var r := Receive(s, o, true);
    assert AtEnd(r);
    SingleOne(r, o);
    assert !Unexpected(s, 0, 0, 100, 0);
    hide Unexpected, SingleEnded, Receive, Retire;
    var t := FrameDone(s, 0, 100, 0, o);
    assert t == SingleEnded(r, 0, o);
  }

  lemma RunOne(s: State, a: Action)
    ensures Run(s, [a]) == Step(s, a)
  {
    hide Step;
    assert [a][..0] == [];
  }

  lemma RunNext(s: State, before: seq<Action>, a: Action)
    ensures Run(s, before + [a]) == Step(Run(s, before), a)
  {
    hide Step;
    assert (before + [a])[..|before|] == before;
  }

  /**
   A sent event can be reported as cancelled: its first program has completed and is retired, its later window waits for
   its slot, and the arbiter drops that. Only the frame's instant then tells that it must not be sent again.
   */
  lemma SentCanBeCancelled()
    ensures var sent := [DoSubmit(LateRequest, SubmitFinds), ArbStart(StartFinds)] + [ProgramCallback(0, 100, 0, {0}, QueueFinds)];
      var s := Run(FreshState, sent + [ArbCancel]);
      Fresh(FreshState) && s.tx.phase == CANCELLED && Collect(s, Collecting).1 == 1
  {
    var a, b, c := DoSubmit(LateRequest, SubmitFinds), ArbStart(StartFinds), ProgramCallback(0, 100, 0, {0}, QueueFinds);
    hide Step, Run, Retire;
    var s1 := Step(FreshState, a);
    var s2 := Step(s1, b);
    var s3 := Step(s2, c);
    var s4 := Step(s3, ArbCancel);
    RunOne(FreshState, a);
    RunNext(FreshState, [a], b);
    assert [a] + [b] == [a, b];
    RunNext(FreshState, [a, b], c);
    RunNext(FreshState, [a, b] + [c], ArbCancel);
    SubmitOne();
    StartOne(s1);
    EndOne(s2, {0}, QueueFinds);
    DropOne(s3);
    assert SameOwners(s4.tx, s4.rom.owners);
    assert StopDue(s4, Collecting) == s4;
    hide SameOwners, StopDue;
    assert !Pending(s4);
    hide Pending, ReleaseStorage;
  }

  lemma DropOne(s: State)
    requires s.tx.phase == QUEUED && s.rom.arb == Arbiter(Nobody, true)
    ensures Step(s, ArbCancel) == CancelledByRom(s)
  {
  }

  /** Without prompt retirement a collection can report success while the ring still holds an entry of ours. */
  lemma LateRetirementLeavesEntry()
    ensures var actions := [DoSubmit(LateRequest, SubmitFinds), ArbStart(StartFinds), ProgramCallback(0, 100, 0, {}, EndFinds)];
      var s := Run(FreshState, actions);
      Fresh(FreshState) && Collect(s, Collecting).1 == 1 && !NoneOurs(Collect(s, Collecting).0.rom.prog.ring)
  {
    var a, b, c := DoSubmit(LateRequest, SubmitFinds), ArbStart(StartFinds), ProgramCallback(0, 100, 0, {}, EndFinds);
    hide Step;
    var s1 := Step(FreshState, a);
    var s2 := Step(s1, b);
    var s3 := Step(s2, c);
    SubmitOne();
    StartOne(s1);
    EndOne(s2, {}, EndFinds);
    assert Retire(s2.rom.prog.ring, {}) == s2.rom.prog.ring;
    assert [a, b, c][..2] == [a, b] && [a, b][..1] == [a] && [a][..0] == [];
    assert Run(FreshState, [a, b, c]) == s3 by {
      assert Run(FreshState, [a]) == Step(Run(FreshState, []), a);
      assert Run(FreshState, [a, b]) == Step(Run(FreshState, [a]), b);
    }
    assert SameOwners(s3.tx, s3.rom.owners);
    assert StopDue(s3, Collecting) == s3;
    assert s3.rom.prog.ring[0] == Entry(true, true, 0, 100);
    hide SameOwners, StopDue, Run;
    assert !Pending(s3);
    hide Pending;
    ReleaseStorageStays(s3);
    hide ReleaseStorage;
  }
}
