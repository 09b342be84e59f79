/**
 The radio driver as it is written (radio_tx.c): one record, updated in place by calls and by the
 controller's callbacks. Every method is proved to make exactly the step of module RadioTx.
 */
module RadioDriver {
  import opened Words
  import opened R = RadioTx

  class Transmitter {
    var phase: Phase
    var alarmSet: bool
    var loan: Loan
    var globals: Globals
    var owners: Owners
    var books: Books
    var ended: Ended
    var later: Later
    var format: int
    var phy: int
    var stopHus: int
    var rxInvalid: bool
    var complete: bool
    var rom: Rom
    ghost var calmCells: Cells
    ghost var calmRegs: Registers
    ghost var orphans: set<int>

    function Record(): Tx
      reads this
    {
      Tx(phase, alarmSet, loan, globals, owners, books, ended, later, format, phy, stopHus, rxInvalid, complete)
    }

    ghost function Value(): State
      reads this
    {
      State(Record(), rom, calmCells, calmRegs, orphans)
    }

    constructor (s: State)
      requires s.tx == Blank
      ensures Value() == s
    {
      phase, alarmSet, loan, globals, owners, books := IDLE, false, NoLoan, NoGlobals, Owners(0, 0, 0), NoBooks;
      ended, later, format, phy, stopHus, rxInvalid, complete := NoneEnded, NoLater, 0, 0, 0, false, false;
      rom, calmCells, calmRegs, orphans := s.rom, s.calmCells, s.calmRegs, s.orphans;
    }

    method Clear()
      modifies this
      ensures Value() == old(Value()).(tx := Blank)
    {
      Store(Blank);
    }

    /** Overwrite the whole record. */
    method Store(tx: Tx)
      modifies this
      ensures Value() == old(Value()).(tx := tx)
    {
      StoreSmall(tx);
      phase, alarmSet, loan, globals, owners, books := tx.phase, tx.alarmSet, tx.loan, tx.globals, tx.owners, tx.books;
    }

    method StoreSmall(tx: Tx)
      modifies this`ended, this`later, this`format, this`phy, this`stopHus, this`rxInvalid, this`complete
      ensures ended == tx.ended && later == tx.later && format == tx.format && phy == tx.phy && stopHus == tx.stopHus
      ensures rxInvalid == tx.rxInvalid && complete == tx.complete
    {
      ended, later, format, phy, stopHus := tx.ended, tx.later, tx.format, tx.phy, tx.stopHus;
      rxInvalid, complete := tx.rxInvalid, tx.complete;
    }

    method TxReleaseStorage()
      modifies this
      ensures Value() == ReleaseStorage(old(Value()))
    {
      if !loan.lent { return; }
      var cells := rom.cells.(cs := loan.saved.cs);
      if books.many { cells := cells.(reply := loan.saved.reply); }
      if books.repeat { cells := cells.(stop := loan.saved.stop); }
      cells := cells.(descriptor := loan.saved.descriptor);
      if books.repeat { cells := cells.(second := loan.saved.second); }
      rom := rom.(cells := cells, pool := Freed(rom.pool, loan.payload));
      loan := loan.(lent := false);
    }

    method TxRestoreGlobals()
      modifies this
      ensures Value() == RestoreGlobals(old(Value()))
    {
      if !globals.taken { return; }
      var regs := rom.regs;
      if globals.timed {
        regs := regs.(rxTiming := globals.timing);
        globals := globals.(timed := false);
      }
      regs := regs.(testBits := globals.bits);
      regs := regs.(testEnable := globals.enable, abort := false);
      rom := rom.(regs := regs);
      globals := globals.(taken := false);
    }

    method ArbRemove(o: Oracle)
      modifies this
      ensures Value() == RemoveActive(old(Value()), o)
    {
      if rom.arb.active == Ours { rom := rom.(arb := Arbiter(NextActive(o), false)); }
    }

    method AlarmClear()
      modifies this
      ensures Value() == ClearAlarm(old(Value()))
    {
      if alarmSet {
        rom := rom.(alarm := false);
        alarmSet := false;
      }
    }

    method TxAbortActive()
      modifies this
      ensures Value() == AbortActive(old(Value()))
    {
      hide ProgramIsOurs, EntryIsOurs;
      if phase != ACTIVE && phase != ABORTING { return; }
      if !(rom.arb.active == Ours && ProgramIsOurs(books, rom.prog, true)) {
        phase := FAULT;
        return;
      }
      if books.repeat && EntryIsOurs(rom.prog, books.third, books.stop, true) { ended := ended.(abortAsked := true); }
      rom := rom.(regs := rom.regs.(testEnable := false, abort := true));
      phase := ABORTING;
    }

    method TxDeadline()
      modifies this
      ensures Value() == Deadline(old(Value()))
    {
      hide AbortActive;
      alarmSet := false;
      rom := rom.(alarm := false);
      TxAbortActive();
    }

    method TxStopped()
      modifies this
      ensures Value() == AbortActive(old(Value()))
    {
      TxAbortActive();
    }

    method TxCancelled()
      modifies this
      ensures Value() == CancelledByRom(old(Value()))
    {
      rom := rom.(arb := rom.arb.(linked := false));
      phase := if phase != QUEUED then FAULT else CANCELLED;
    }

    method TxSubmit(r: Request, o: Oracle) returns (code: int)
      modifies this
      ensures (Value(), code) == Submit(old(Value()), r, o)
    {
      hide GoodRequest, OwnersPresent, Configured, Prepared, ReleaseStorage, Clock, MinLead;
      if !GoodRequest(r) { return Invalid; }
      if phase != IDLE { return Busy; }
      if !OwnersPresent(rom.owners, r) { return Busy; }
      var ahead := Clock(r.hs - o.hs);
      if ahead < MinLead(o.delay) || ahead > 3200 { return Expired; }
      if o.buffer == 0 { return NoMemory; }
      ghost var before := Value();
      TakeStorage(r, o.buffer);
      if o.status != 0 {
        TxReleaseStorage();
        Clear();
        return Conflict;
      }
      rom := rom.(arb := rom.arb.(linked := true));
      return 0;
    }

    method TakeStorage(r: Request, buffer: int)
      modifies this
      ensures Value() == Borrow(old(Value()), r, buffer)
    {
      hide LaterTime, StopTime, PutAll, FirstFields, ReplyFields, StopFields, Descriptor, Prepared;
      var before := rom;
      rom := rom.(pool := rom.pool.(held := rom.pool.held + {buffer}, obtained := rom.pool.obtained + 1));
      Store(Prepared(before, r, buffer));
      var cells := rom.cells.(cs := PutAll(rom.cells.cs, FirstFields(r)), descriptor := Descriptor(r, buffer));
      if books.many { cells := cells.(reply := PutAll(cells.reply, ReplyFields(r))); }
      if books.repeat { cells := cells.(stop := PutAll(cells.stop, StopFields(r)), second := cells.descriptor); }
      PreparedFlags(before, r, buffer);
      assert cells == Configured(before.cells, r, buffer);
      hide Configured;
      rom := rom.(cells := cells);
    }

    method TxStarted(o: Oracle)
      modifies this
      ensures Value() == Started(old(Value()), o)
    {
      hide Quiet, SameOwners, Timed, Antennas, Activate, RemoveActive;
      var quiet := Quiet(rom.regs);
      if phase != QUEUED || rom.arb.active != Ours || !SameOwners(Record(), rom.owners) || rom.prog.count != 0 || !quiet ||
         (Timed(Record()) && rom.regs.rxTiming != TimingBase) {
        ArbRemove(o);
        phase := REFUSED;
        return;
      }
      books := books.(first := rom.prog.producer);
      if books.first < 0 || books.first >= 16 {
        ArbRemove(o);
        phase := FAULT;
        return;
      }
      var (cells, good) := Antennas(Record(), rom.cells, o);
      rom := rom.(cells := cells);
      if !good {
        ArbRemove(o);
        phase := REFUSED;
        return;
      }
      TxActivate();
    }

    method TxActivate()
      modifies this
      ensures Value() == Activate(old(Value()))
    {
      hide PushAll, TakeGlobals, ReplyQueued;
      TxTakeGlobals();
      var pushed, replied := TxPush();
      later := LaterOnStart(later, replied);
      alarmSet := pushed;
      phase := if pushed then ACTIVE else FAULT;
      if pushed { rom := rom.(alarm := true); }
    }

    method TxTakeGlobals()
      modifies this
      ensures Value() == TakeGlobals(old(Value()))
    {
      hide Timed;
      var timed := Timed(Record());
      globals := Globals(true, timed, rom.regs.testEnable, rom.regs.testBits, globals.timing);
      if timed {
        globals := globals.(timing := rom.regs.rxTiming);
        rom := rom.(regs := rom.regs.(rxTiming := (rom.regs.rxTiming + TimingShift) % 0x1_0000_0000));
      }
      rom := rom.(regs := rom.regs.(testEnable := false, testBits := 0));
    }

    method TxPush() returns (pushed: bool, replied: bool)
      modifies this
      ensures var (u, good) := PushAll(Pushing(old(books), old(rom.prog), old(orphans)));
        pushed == good && replied == ReplyQueued(Pushing(old(books), old(rom.prog), old(orphans))) &&
        Value() == State(old(Record()).(books := u.books), old(rom).(prog := u.prog), old(calmCells), old(calmRegs), u.orphans)
    {
      hide EntryIsOurs, ProgramIsOurs, Push;
      replied := false;
      ghost var u := Pushing(books, rom.prog, orphans);
      ghost var v := Push(u, books.program);
      PushBooks(u, books.program);
      RingPush(books.program);
      if !ProgramIsOurs(books, rom.prog, false) { return false, replied; }
      if books.many {
        books := books.(second := rom.prog.producer);
        if books.second < 0 || books.second >= 16 || books.second == books.first || rom.prog.count != 1 { return false, replied; }
        PushBooks(v.(books := books), books.reply);
        RingPush(books.reply);
        if !EntryIsOurs(rom.prog, books.second, books.reply, false) { return false, replied; }
        replied := true;
      }
      ghost var w := Pushing(books, rom.prog, orphans);
      assert (w, true) == PushReply(v);
      if books.repeat {
        books := books.(third := rom.prog.producer);
        if books.third < 0 || books.third >= 16 || books.third == books.first || books.third == books.second ||
           rom.prog.count != 2 { return false, replied; }
        PushBooks(w.(books := books), books.stop);
        RingPush(books.stop);
        if !EntryIsOurs(rom.prog, books.third, books.stop, false) { return false, replied; }
      }
      return true, replied;
    }

    method RingPush(p: Program)
      modifies this
      ensures var u := Push(Pushing(old(books), old(rom.prog), old(orphans)), p);
        Value() == old(Value()).(rom := old(rom).(prog := u.prog), orphans := u.orphans)
    {
      var prog := rom.prog;
      var at := prog.producer;
      if 0 <= at < 16 {
        rom := rom.(prog := prog.(ring := prog.ring[at := Entry(true, true, p.context, p.hs)], producer := (at + 1) % 16,
                                  count := prog.count + 1));
        orphans := orphans - {at};
      }
    }

    method TxReceive(o: Oracle, published: bool)
      modifies this
      ensures Value() == Receive(old(Value()), o, published)
    {
      if o.invalid { rxInvalid := true; }
      if published && o.complete { complete := true; }
    }

    method TxQueueFollowup(o: Oracle)
      modifies this
      ensures Value() == QueueFollowup(old(Value()), o)
    {
      hide TooLate, PutAll, FollowupFields;
      var l := later.(pending := false);
      if rom.owners.first != owners.first || rom.arb.active == Ours || rom.prog.count == 0 {
        later, phase := l, FAULT;
      } else if rom.arb.active != Nobody || rom.prog.count > 1 {
        later := l.(status := 5);
      } else if TooLate(l, o) {
        later := l.(status := 4);
      } else {
        TxLater(l, o);
      }
    }

    method TxLater(l: Later, o: Oracle)
      requires rom.arb.active == Nobody && l == later.(pending := false)
      modifies this`format, this`orphans, this`books, this`phase, this`later, this`rom
      ensures var queued := o.status == 0; var s := old(Value());
        Value() == State(
          s.tx.(format := 29, books := s.tx.books.(program := Program(0, l.hs), first := 255),
                phase := if queued then QUEUED else ENDED, later := l.(active := true, status := if queued then 1 else 5)),
          s.rom.(cells := s.rom.cells.(cs := PutAll(s.rom.cells.cs, FollowupFields(s.tx.later, s.tx.phy))),
                 arb := s.rom.arb.(linked := s.rom.arb.linked || queued)),
          s.calmCells, s.calmRegs, s.orphans + {s.tx.books.first})
    {
      hide PutAll, FollowupFields;
      var cells := rom.cells.(cs := PutAll(rom.cells.cs, FollowupFields(later, phy)));
      format := 29;
      orphans := orphans + {books.first};
      books := books.(program := Program(0, l.hs), first := 255);
      rom := rom.(cells := cells);
      Requeue(l, o.status == 0);
    }

    /** Insert the later window; a conflict leaves the event ended. */
    method Requeue(l: Later, inserted: bool)
      modifies this`phase, this`later, this`rom
      ensures Value() == old(Value()).(
        tx := old(Record()).(phase := if inserted then QUEUED else ENDED,
                             later := l.(active := true, status := if inserted then 1 else 5)),
        rom := old(rom).(arb := old(rom).arb.(linked := old(rom).arb.linked || inserted)))
    {
      phase := QUEUED;
      later := l.(active := true);
      if !inserted {
        later := later.(status := 5);
        phase := ENDED;
      } else {
        later := later.(status := 1);
        rom := rom.(arb := rom.arb.(linked := true));
      }
    }

    method TxFrameDone(context: nat, hs: int, reason: nat, o: Oracle)
      modifies this
      ensures Value() == FrameDone(old(Value()), context, hs, reason, o)
    {
      hide EntryIsOurs, Received, Receive, SingleEnded, OneEnded;
      var which := Which(books, context);
      var (p, index) := Its(books, which);
      if context != p.context || hs != p.hs || !EntryIsOurs(rom.prog, index, p, false) ||
         (EarlierPending(ended, which) && reason != 4) {
        phase := FAULT;
        return;
      }
      if books.many && EndedOf(ended, which) {
        if !EndReason(reason) { phase := FAULT; }
        return;
      }
      if which == 2 && reason == 3 {
        phase := FAULT;
        return;
      }
      if reason == 2 {
        TxReceived(which, o);
        return;
      }
      if !EndReason(reason) { return; }
      ghost var many := books.many;
      if reason != 4 {
        TxReceive(o, which != 2);
        ReceiveBooks(old(Value()), o, which != 2);
      }
      if books.many { TxOneEnded(which, reason); } else { TxSingleEnded(reason, o); }
    }

    method TxReceived(which: nat, o: Oracle)
      modifies this
      ensures Value() == Received(old(Value()), which, o)
    {
      hide AbortActive, Receive;
      TxReceive(o, which != 2);
      if which == 2 { return; }
      var native := later.pending && !books.many && format == 2;
      var first := books.repeat && which != 1;
      if (later.active || which == 1 || native || first) && !rxInvalid && complete {
        if native { later := later.(pending := false, status := 7); }
        TxAbortActive();
      }
    }

    method TxOneEnded(which: nat, reason: nat)
      modifies this
      ensures Value() == OneEnded(old(Value()), which, reason)
    {
      if which == 2 {
        ended := ended.(third := true);
      } else if which == 1 {
        ended := ended.(second := true);
        later := later.(status := if reason == 0 then 3 else 6);
      } else {
        ended := ended.(first := true);
      }
      if !AllEnded(books, ended) { return; }
      AlarmClear();
      if phase != FAULT { phase := ENDED; }
    }

    method TxSingleEnded(reason: nat, o: Oracle)
      modifies this
      ensures Value() == SingleEnded(old(Value()), reason, o)
    {
      hide QueueFollowup, RestoreGlobals, ClearAlarm, RemoveActive;
      AlarmClear();
      TxRestoreGlobals();
      ArbRemove(o);
      if phase != FAULT { phase := ENDED; }
      if later.active { later := later.(status := if reason == 0 then 3 else 6); }
      if later.pending && reason == 0 && phase == ENDED && !rxInvalid { TxQueueFollowup(o); }
    }

    method TxCancel(o: Oracle)
      modifies this
      ensures Value() == Cancel(old(Value()), o)
    {
      hide AbortActive, AllInOrder;
      later := later.(pending := false);
      if phase == QUEUED {
        if o.status == 0 {
          rom := rom.(arb := Arbiter(if rom.arb.active == Ours then NextActive(o) else rom.arb.active, false));
          phase := CANCELLED;
        }
      } else if books.repeat && (phase == ACTIVE || phase == ABORTING) {
        var valid := rom.arb.active == Ours && AllInOrder(books, ended, rom.prog);
        if !valid { phase := FAULT; }
      } else {
        TxAbortActive();
      }
    }

    method TxCollect(o: Oracle) returns (code: int)
      modifies this
      ensures (Value(), code) == Collect(old(Value()), o)
    {
      hide SameOwners, StopDue, ReleaseSeveral, Pending, AllEnded, ReleaseStorage;
      if phase == FAULT || (loan.lent && !SameOwners(Record(), rom.owners)) { return -1; }
      TxStopDue(o);
      if AllEnded(books, ended) {
        code := TxReleaseSeveral(o);
        if code != 1 { return; }
      }
      var pending := TxPending();
      if pending { return 0; }
      TxReleaseStorage();
      Clear();
      return 1;
    }

    method TxPending() returns (pending: bool)
      ensures pending == Pending(Value())
    {
      hide ProgramIsOurs;
      pending := phase == QUEUED || phase == ACTIVE || phase == ABORTING || globals.taken || alarmSet ||
        rom.arb.active == Ours || ProgramIsOurs(books, rom.prog, false);
    }

    method TxStopDue(o: Oracle)
      modifies this
      ensures Value() == StopDue(old(Value()), o)
    {
      hide AbortActive, EntryIsOurs;
      if books.repeat && ended.first && ended.second && !ended.third && !ended.abortAsked &&
         (phase == ACTIVE || phase == ABORTING) && rom.arb.active == Ours &&
         EntryIsOurs(rom.prog, books.third, books.stop, true) && o.executing {
        if SignedClock(o.hs - books.stop.hs) * 625 + o.hus - stopHus >= 40 {
          ended := ended.(abortAsked := true);
          TxAbortActive();
        }
      }
    }

    method TxReleaseSeveral(o: Oracle) returns (code: int)
      modifies this
      ensures (Value(), code) == ReleaseSeveral(old(Value()), o)
    {
      hide SomeForeign, SomeUsed, RestoreGlobals, RemoveActive;
      if SomeForeign(books, rom) {
        phase := FAULT;
        return -1;
      }
      if SomeUsed(books, rom.prog) { return 0; }
      TxRestoreGlobals();
      ArbRemove(o);
      return 1;
    }
  }

  lemma PushBooks(u: Pushing, p: Program)
    ensures Push(u, p).books == u.books
  {
  }

  lemma PreparedFlags(rom: Rom, r: Request, buffer: int)
    ensures var b := Prepared(rom, r, buffer).books; b.many == (r.prequeued == 1) && b.repeat == (r.repeat == 1)
  {
    hide LaterTime, StopTime;
  }
}
