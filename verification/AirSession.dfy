/**
 The Air session plan and its clock grid (air_session.c), the second-stream join
 (raw_llcp.c) and the slot check of received packets (air_feedback.c).
 Clock values are a 28-bit count of 312.5-microsecond ticks plus 0..624 half-microseconds.
 */
module AirSession {
  import opened Words

  const CLOCK := 0x1000_0000
  const CONNECTION_TICKS := 96   // one 30 ms connection interval
  const FRAME_HUS := 10000       // one 5 ms Air frame, in half-microseconds
  const FRAME_TICKS := 16
  const E2_BYTES := 68

  type Hs = h: int | 0 <= h < 0x1000_0000
  type Hus = h: int | 0 <= h < 625

  datatype Anchor = Anchor(hs: Word, interval: Word, hus: Half, counter: Half)
  datatype Seed = Seed(aa: Word, counter: Word, map5: seq<Byte>, receive: Byte, iv: seq<Byte>, key: seq<Byte>)
  datatype Plan = Plan(startHs: Hs, startHus: Hus, instant: Half, counter: Word, aa: Word, offset: Word, e2: seq<Byte>)

  datatype PlanResult = Built(plan: Plan) | BadArgument | BadInstant

  const PARAMETERS: seq<Byte> := [
    0xe0, 0x01, 0x01, 0x02, 0x01, 0x02, 0x02, 0x5f, 0x10, 0x28, 0x00, 0x88, 0x13, 0x00, 0x88, 0x13, 0x00, 0x5f, 0x00,
    0x28, 0x00, 0x03, 0x02, 0x8c, 0x05, 0x00, 0x11, 0x01, 0x01, 0x04, 0x00, 0xd0, 0x07, 0x00, 0xa0, 0x0f, 0x00]

  ghost predicate SeedShape(s: Seed) {
    |s.map5| == 5 && |s.iv| == 8 && |s.key| == 16
  }

  /** Proposal bytes 0..36 for stream 1, or for stream 2 with its three changed fields. */
  function ExpectedProposal(stream: Byte): seq<Byte> {
    if stream == 2 then PARAMETERS[2 := 2][9 := 0][19 := 0][26 := 1] else PARAMETERS
  }

  function Bytes16(v: int): (b: seq<Byte>)
    ensures |b| == 2
  {
    [v % 256, v / 256 % 256]
  }

  function Bytes24(v: int): (b: seq<Byte>)
    ensures |b| == 3
  {
    Bytes16(v) + [v / 0x1_0000 % 256]
  }

  function Bytes32(v: int): (b: seq<Byte>)
    ensures |b| == 4
  {
    Bytes16(v) + Bytes16(v / 0x1_0000)
  }

  function MapBit(map5: seq<Byte>, i: nat): Bit
    requires |map5| == 5 && i < 40
  {
    map5[i / 8] / [1, 2, 4, 8, 16, 32, 64, 128][i % 8] % 2
  }

  function Weight(k: nat): nat {
    if k == 0 then 1 else 2 * Weight(k - 1)
  }

  /** The bit of the map's byte, counted from the least significant one. */
  lemma MapBitIs(map5: seq<Byte>, i: nat)
    requires |map5| == 5 && i < 40
    ensures Weight(i % 8) > 0 && MapBit(map5, i) == map5[i / 8] / Weight(i % 8) % 2
  {
    assert Weight(3) == 8;
    assert Weight(7) == 128;
  }

  function UsedBelow(map5: seq<Byte>, n: nat): (c: nat)
    requires |map5| == 5 && n <= 37
    ensures c <= n
  {
    if n == 0 then 0 else UsedBelow(map5, n - 1) + MapBit(map5, n - 1)
  }

  method CountUsed(map5: seq<Byte>) returns (used: nat)
    requires |map5| == 5
    ensures used == UsedBelow(map5, 37)
  {
    used := 0;
    for i := 0 to 37
      invariant used == UsedBelow(map5, i)
    {
      used := used + MapBit(map5, i);
    }
  }

  function Instant(proposal: seq<Byte>): Half
    requires |proposal| == 39
  {
    var low: int, high: int := proposal[37], proposal[38];
    low + 256 * high
  }

  function Ahead(proposal: seq<Byte>, a: Anchor): Half
    requires |proposal| == 39
  {
    (Instant(proposal) - a.counter) % 0x1_0000
  }

  predicate ArgumentsOk(proposal: seq<Byte>, reply: seq<Byte>, a: Anchor, s: Seed, offset: Word)
    requires |proposal| == 39 && |reply| == 9 && |s.map5| == 5
  {
    && proposal[..37] == ExpectedProposal(proposal[2]) && reply[0] == 0xe1 && reply[1..] == proposal[31..]
    && a.hs < CLOCK && a.hus < 625 && a.interval == CONNECTION_TICKS && s.receive <= 1 && s.aa != 0
    && s.map5[4] < 32 && 2000 <= offset <= 4000 && !(proposal[2] == 2 && s.receive != 0)
    && UsedBelow(s.map5, 37) >= 2
  }

  /** The E2 message that publishes the plan: address, group timing, instant and channel map ... */
  function E2Head(proposal: seq<Byte>, s: Seed, offset: Word): seq<Byte>
    requires |proposal| == 39
  {
    [0xe2] + Bytes32(s.aa) + Bytes24(offset) + Bytes24(4260) + Bytes24(4260) + [0] + Bytes16(Instant(proposal))
    + [1] + [s.receive] + s.map5
  }

  /** ... then event counter, the group's reply offsets, initialisation vector and key. */
  function E2Tail(proposal: seq<Byte>, s: Seed): seq<Byte>
    requires |proposal| == 39
  {
    Bytes32(s.counter) + Bytes32(1026)
    + Bytes32(1026 + (if proposal[2] == 2 || s.receive != 0 then 302 else 142))
    + Bytes32(0xffff_ffff) + Bytes32(0xffff_ffff) + s.iv + s.key
  }

  /** The message repeats the proposal's instant as it came, and the seed's map, vector and key. */
  lemma E2Copies(proposal: seq<Byte>, s: Seed, offset: Word)
    requires |proposal| == 39 && SeedShape(s)
    ensures var e := E2(proposal, s, offset);
      |e| == E2_BYTES && e[15..17] == proposal[37..39] && e[19..24] == s.map5 && e[44..52] == s.iv && e[52..68] == s.key
  {
    InstantBytes(proposal);
    HeadCopies(proposal, s, offset);
    TailCopies(proposal, s);
    hide E2Head, E2Tail;
    var h, t := E2Head(proposal, s, offset), E2Tail(proposal, s);
    assert (h + t)[15..17] == h[15..17] && (h + t)[19..24] == h[19..24];
    assert (h + t)[44..52] == t[20..28];
    assert (h + t)[52..68] == t[28..44];
  }

  lemma InstantBytes(proposal: seq<Byte>)
    requires |proposal| == 39
    ensures Bytes16(Instant(proposal)) == proposal[37..39]
  {
    var low: int, high: int := proposal[37], proposal[38];
    assert (low + 256 * high) % 256 == low && (low + 256 * high) / 256 == high;
  }

  lemma HeadCopies(proposal: seq<Byte>, s: Seed, offset: Word)
    requires |proposal| == 39 && SeedShape(s)
    ensures var h := E2Head(proposal, s, offset); |h| == 24 && h[15..17] == Bytes16(Instant(proposal)) && h[19..24] == s.map5
  {
    hide Instant;
    var h := E2Head(proposal, s, offset);
    assert h[15] == Bytes16(Instant(proposal))[0] && h[16] == Bytes16(Instant(proposal))[1];
  }

  lemma TailCopies(proposal: seq<Byte>, s: Seed)
    requires |proposal| == 39 && SeedShape(s)
    ensures var t := E2Tail(proposal, s); |t| == 44 && t[20..28] == s.iv && t[28..44] == s.key
  {
    var t := E2Tail(proposal, s);
    var front := Bytes32(s.counter) + Bytes32(1026) + Bytes32(1026 + (if proposal[2] == 2 || s.receive != 0 then 302 else 142)) +
                 Bytes32(0xffff_ffff) + Bytes32(0xffff_ffff);
    assert |front| == 20;
    hide Bytes32;
    assert t == front + s.iv + s.key;
  }

  function E2(proposal: seq<Byte>, s: Seed, offset: Word): seq<Byte>
    requires |proposal| == 39
  {
    E2Head(proposal, s, offset) + E2Tail(proposal, s)
  }

  function PlanOf(proposal: seq<Byte>, a: Anchor, s: Seed, offset: Word): Plan
    requires |proposal| == 39 && a.hus < 625
  {
    var fine := a.hus + 2 * offset;
    Plan((a.hs + Ahead(proposal, a) * a.interval + fine / 625) % CLOCK, fine % 625, Instant(proposal),
         s.counter, s.aa, offset, E2(proposal, s, offset))
  }

  function PlanBuild(proposal: seq<Byte>, reply: seq<Byte>, a: Anchor, s: Seed, offset: Word): PlanResult
    requires |proposal| == 39 && |reply| == 9 && |s.map5| == 5
  {
    if !ArgumentsOk(proposal, reply, a, s, offset) then BadArgument
    else if Ahead(proposal, a) < 2 || Ahead(proposal, a) > 32 then BadInstant
    else Built(PlanOf(proposal, a, s, offset))
  }

  method Put(p: array<Byte>, at: nat, bytes: seq<Byte>) returns (next: nat)
    requires at + |bytes| <= p.Length
    modifies p
    ensures next == at + |bytes|
    ensures forall i :: 0 <= i < at ==> p[i] == old(p[i])
    ensures forall from :: 0 <= from <= at ==> p[from..next] == old(p[from..at]) + bytes
  {
    forall i | 0 <= i < |bytes| { p[at + i] := bytes[i]; }
    next := at + |bytes|;
  }

  method BuildPlan(proposal: seq<Byte>, reply: seq<Byte>, a: Anchor, s: Seed, offset: Word) returns (r: PlanResult)
    requires |proposal| == 39 && |reply| == 9 && SeedShape(s)
    ensures r == PlanBuild(proposal, reply, a, s, offset)
  {
    var expected := PARAMETERS;
    if proposal[2] == 2 {
      expected := expected[2 := 2][9 := 0][19 := 0][26 := 1];
    }
    if proposal[..37] != expected || reply[0] != 0xe1 || reply[1..] != proposal[31..] || a.hs >= CLOCK ||
       a.hus > 624 || a.interval != 96 || s.receive > 1 || s.aa == 0 || s.map5[4] >= 32 || offset < 2000 ||
       offset > 4000 || (proposal[2] == 2 && s.receive != 0)
    {
      return BadArgument;
    }
    var used := CountUsed(s.map5);
    if used < 2 { return BadArgument; }
    var instant := Instant(proposal);
    var ahead := (instant - a.counter) % 0x1_0000;
    if ahead < 2 || ahead > 32 { return BadInstant; }
    var fine := a.hus + offset * 2;
    var startHs := (a.hs + ahead * a.interval + fine / 625) % CLOCK;
    var e2 := WriteE2(proposal, s, offset);
    return Built(Plan(startHs, fine % 625, instant, s.counter, s.aa, offset, e2));
  }

  method WriteE2(proposal: seq<Byte>, s: Seed, offset: Word) returns (e2: seq<Byte>)
    requires |proposal| == 39 && SeedShape(s)
    ensures e2 == E2(proposal, s, offset)
  {
    var p := new Byte[E2_BYTES](_ => 0);
    WriteHead(p, proposal, s, offset);
    WriteTail(p, proposal, s);
    assert p[..] == p[..24] + p[24..];
    e2 := p[..];
  }

  method WriteHead(p: array<Byte>, proposal: seq<Byte>, s: Seed, offset: Word)
    requires |proposal| == 39 && SeedShape(s) && p.Length == E2_BYTES
    modifies p
    ensures p[..24] == E2Head(proposal, s, offset)
  {
    hide Bytes16, Bytes24, Bytes32, Instant;
    p[0] := 0xe2;
    assert p[0..1] == [0xe2];
    var n := Put(p, 1, Bytes32(s.aa));
    n := Put(p, n, Bytes24(offset));
    n := Put(p, n, Bytes24(4260));
    n := Put(p, n, Bytes24(4260));
    n := Put(p, n, [0]);
    n := Put(p, n, Bytes16(Instant(proposal)));
    n := Put(p, n, [1]);
    n := Put(p, n, [s.receive]);
    n := Put(p, n, s.map5);
    assert p[..24] == p[0..24];
  }

  method WriteTail(p: array<Byte>, proposal: seq<Byte>, s: Seed)
    requires |proposal| == 39 && SeedShape(s) && p.Length == E2_BYTES
    modifies p
    ensures p[..24] == old(p[..24]) && p[24..] == E2Tail(proposal, s)
  {
    hide Bytes16, Bytes24, Bytes32, Instant;
    var n := Put(p, 24, Bytes32(s.counter));
    n := Put(p, n, Bytes32(1026));
    n := Put(p, n, Bytes32(1026 + (if proposal[2] == 2 || s.receive != 0 then 302 else 142)));
    n := Put(p, n, Bytes32(0xffff_ffff));
    n := Put(p, n, Bytes32(0xffff_ffff));
    n := Put(p, n, s.iv);
    n := Put(p, n, s.key);
    assert p[24..] == p[24..68];
  }

  /** Start of a subevent of an Air frame; the clock is never accumulated. */
  function SessionTime(p: Plan, frame: nat, subevent: nat): (Hs, Hus) {
    var fine := p.startHus + frame * FRAME_HUS + subevent * 2840;
    ((p.startHs + fine / 625) % CLOCK, fine % 625)
  }

  // --------------------------------------------------------------------------
  // Plans from different anchors of one connection
  // --------------------------------------------------------------------------

  /** `b` is the anchor `k` connection events after `a`, by clock and by counter. */
  predicate EventsLater(a: Anchor, b: Anchor, k: int) {
    && b.hus == a.hus
    && b.hs % CLOCK == (a.hs + CONNECTION_TICKS * k) % CLOCK
    && b.counter == (a.counter + k) % 0x1_0000
  }

  lemma AheadShifts(proposal: seq<Byte>, a: Anchor, b: Anchor, k: int)
    requires |proposal| == 39 && Ahead(proposal, a) <= 32 && Ahead(proposal, b) <= 32 && -30 <= k <= 30
    ensures b.counter == (a.counter + k) % 0x1_0000 <==> Ahead(proposal, a) - Ahead(proposal, b) == k
  {
    hide Instant;
    var n: int, before: int, after: int := Instant(proposal), Ahead(proposal, a), Ahead(proposal, b);
    CounterBack(n, b.counter);
    CounterShift(n, a.counter, k);
    hide Ahead;
    if b.counter == (a.counter + k) % 0x1_0000 {
      assert after == (before - k) % 0x1_0000 by { assert after == (n - b.counter) % 0x1_0000; }
      SmallShift(before - k);
    }
  }

  lemma SmallShift(x: int)
    requires -30 <= x <= 62 && x % 0x1_0000 <= 32
    ensures x % 0x1_0000 == x
  {
  }

  lemma CounterBack(n: int, c: Half)
    ensures c == (n - (n - c) % 0x1_0000) % 0x1_0000
  {
    var q := (n - c) / 0x1_0000;
    assert n - (n - c) % 0x1_0000 == c + 0x1_0000 * q;
  }

  lemma CounterShift(n: int, c: Half, k: int)
    ensures (n - (c + k) % 0x1_0000) % 0x1_0000 == ((n - c) % 0x1_0000 - k) % 0x1_0000
    ensures (n - ((n - c) % 0x1_0000 - k)) % 0x1_0000 == (c + k) % 0x1_0000
  {
    var q := (n - c) / 0x1_0000;
    assert n - ((n - c) % 0x1_0000 - k) == (c + k) + 0x1_0000 * q;
    var p := (c + k) / 0x1_0000;
    assert n - (c + k) % 0x1_0000 == ((n - c) % 0x1_0000 - k) + 0x1_0000 * (q + p);
  }

  lemma ClockCancel(x: int, y: int, c: int)
    ensures (x + c) % CLOCK == (y + c) % CLOCK <==> x % CLOCK == y % CLOCK
  {
    assert ((x + c) - (y + c)) == x - y;
  }

  /** Two plans built from the same proposal, seed and offset are the same plan exactly when one
      anchor is some whole number of connection events after the other. */
  lemma SamePlanIffSameGrid(proposal: seq<Byte>, reply: seq<Byte>, a: Anchor, b: Anchor, s: Seed, offset: Word)
    requires |proposal| == 39 && |reply| == 9 && SeedShape(s)
    requires PlanBuild(proposal, reply, a, s, offset).Built? && PlanBuild(proposal, reply, b, s, offset).Built?
    ensures PlanBuild(proposal, reply, a, s, offset) == PlanBuild(proposal, reply, b, s, offset) <==>
            exists k :: -30 <= k <= 30 && EventsLater(a, b, k)
  {
    hide ExpectedProposal, UsedBelow, E2;
    var m: int, n: int := Ahead(proposal, a), Ahead(proposal, b);
    var (p, q) := (PlanOf(proposal, a, s, offset), PlanOf(proposal, b, s, offset));
    if p == q {
      assert (a.hus + 2 * offset) % 625 == (b.hus + 2 * offset) % 625;
      assert a.hus == b.hus;
      ClockCancel(a.hs + 96 * m, b.hs + 96 * n, (a.hus + 2 * offset) / 625);
      ClockCancel(b.hs, a.hs + 96 * (m - n), 96 * n);
      AheadShifts(proposal, a, b, m - n);
      assert EventsLater(a, b, m - n);
    }
    if k :| -30 <= k <= 30 && EventsLater(a, b, k) {
      AheadShifts(proposal, a, b, k);
      ClockCancel(b.hs, a.hs + 96 * k, 96 * n);
      ClockCancel(a.hs + 96 * m, b.hs + 96 * n, (a.hus + 2 * offset) / 625);
    }
  }

  // --------------------------------------------------------------------------
  // The second stream
  // --------------------------------------------------------------------------

  /** Distance in half-microseconds that the join computes between two starts. */
  function StartDelta(first: Plan, second: Plan): int {
    (second.startHs - first.startHs) % CLOCK * 625 + second.startHus - first.startHus
  }

  predicate JoinAccepts(first: Plan, second: Plan) {
    0 < StartDelta(first, second) <= 4000000 && StartDelta(first, second) % FRAME_HUS == 0
  }

  /** The frame index of stream 2 on stream 1's timeline, as added to the event counter. */
  function JoinFrame(first: Plan, second: Plan): int {
    StartDelta(first, second) / FRAME_HUS
  }

  lemma FrameStart(p: Plan, frame: nat)
    ensures SessionTime(p, frame, 0) == ((p.startHs + FRAME_TICKS * frame) % CLOCK, p.startHus)
  {
    var fine := p.startHus + frame * FRAME_HUS;
    assert fine == p.startHus + 625 * (FRAME_TICKS * frame);
  }

  /** A join that is accepted starts stream 2 exactly at a frame of stream 1. */
  lemma JoinIsOnTimeline(first: Plan, second: Plan)
    requires JoinAccepts(first, second)
    ensures var n := JoinFrame(first, second);
      1 <= n <= 400 && SessionTime(first, n, 0) == (second.startHs, second.startHus)
  {
    var coarse := (second.startHs - first.startHs) % CLOCK;
    var n := JoinFrame(first, second);
    assert StartDelta(first, second) == FRAME_HUS * n;
    assert coarse * 625 + second.startHus - first.startHus == 625 * (16 * n);
    assert second.startHus == first.startHus && coarse == 16 * n;
    FrameStart(first, n);
    assert (first.startHs + coarse) % CLOCK == second.startHs % CLOCK;
  }

  /** Ticks from one start to another when the anchors lie on one grid. */
  lemma StartsApart(proposal1: seq<Byte>, proposal2: seq<Byte>, a: Anchor, b: Anchor, k: int,
                    s1: Seed, s2: Seed, offset: Word, events: int)
    requires |proposal1| == 39 && |proposal2| == 39 && a.hus < 625 && b.hus < 625
    requires a.interval == CONNECTION_TICKS && b.interval == CONNECTION_TICKS && EventsLater(a, b, k)
    requires events == k + Ahead(proposal2, b) - Ahead(proposal1, a)
    ensures var (first, second) := (PlanOf(proposal1, a, s1, offset), PlanOf(proposal2, b, s2, offset));
      && second.startHus == first.startHus
      && (second.startHs - first.startHs) % CLOCK == (CONNECTION_TICKS * events) % CLOCK
  {
    hide E2;
    var m: int, n: int := Ahead(proposal1, a), Ahead(proposal2, b);
    hide Ahead;
    var c := (a.hus + 2 * offset) / 625;
    var x, y := a.hs + 96 * m + c, b.hs + 96 * n + c;
    ClockCancel(b.hs, a.hs + 96 * k, 96 * n + c);
    assert y % CLOCK == (x + 96 * events) % CLOCK;
    ClockDifference(x, y, 96 * events);
  }

  lemma ClockDifference(x: int, y: int, d: int)
    requires y % CLOCK == (x + d) % CLOCK
    ensures (y % CLOCK - x % CLOCK) % CLOCK == d % CLOCK
  {
  }

  /** With both anchors on one grid, stream 2 joins exactly when the connection events between the
      starts, on the clock, are positive and within the two-second horizon. It is then six frames for
      each of those events, less the clock's turns: a multiple of six frames unless the clock turned a
      number of times that is not a multiple of three. Between anchors less than eight hours apart it
      joins exactly for 1 to 66 events. */
  lemma JoinOnGrid(proposal1: seq<Byte>, proposal2: seq<Byte>, a: Anchor, b: Anchor, k: int,
                   s1: Seed, s2: Seed, offset: Word)
    requires |proposal1| == 39 && |proposal2| == 39 && a.hus < 625 && b.hus < 625
    requires a.interval == CONNECTION_TICKS && b.interval == CONNECTION_TICKS && EventsLater(a, b, k)
    ensures var (first, second) := (PlanOf(proposal1, a, s1, offset), PlanOf(proposal2, b, s2, offset));
      var events := k + Ahead(proposal2, b) - Ahead(proposal1, a);
      var turns := CONNECTION_TICKS * events / CLOCK;
      && (JoinAccepts(first, second) <==> 0 < (CONNECTION_TICKS * events) % CLOCK <= 6400)
      && JoinFrame(first, second) == 6 * events - 0x100_0000 * turns
      && (JoinFrame(first, second) % 6 == 0 <==> turns % 3 == 0)
      && (-1000000 <= events <= 1000000 ==>
            (JoinAccepts(first, second) <==> 0 < events <= 66) && (JoinAccepts(first, second) ==> turns == 0))
  {
    var events := k + Ahead(proposal2, b) - Ahead(proposal1, a);
    StartsApart(proposal1, proposal2, a, b, k, s1, s2, offset, events);
    hide PlanOf, Ahead;
    WholeEvents(events);
  }

  lemma WholeEvents(events: int)
    ensures var ticks := (CONNECTION_TICKS * events) % CLOCK; var turns := CONNECTION_TICKS * events / CLOCK;
      && (0 < ticks * 625 <= 4000000 && ticks * 625 % FRAME_HUS == 0 <==> 0 < ticks <= 6400)
      && ticks * 625 / FRAME_HUS == 6 * events - 0x100_0000 * turns
      && ((6 * events - 0x100_0000 * turns) % 6 == 0 <==> turns % 3 == 0)
      && (-1000000 <= events <= 1000000 ==> (0 < ticks <= 6400 <==> 0 < events <= 66) && (0 < events <= 66 ==> turns == 0))
  {
    var ticks := (CONNECTION_TICKS * events) % CLOCK;
    var turns := CONNECTION_TICKS * events / CLOCK;
    var frames := 6 * events - 0x100_0000 * turns;
    assert ticks == 16 * frames;
    TicksAreFrames(frames);
    SixFrames(events, turns);
  }

  lemma TicksAreFrames(frames: int)
    ensures 16 * frames * 625 == FRAME_HUS * frames && (16 * frames * 625) % FRAME_HUS == 0 && 16 * frames * 625 / FRAME_HUS == frames
  {
  }

  /** 2^24 is four modulo six. */
  lemma SixFrames(events: int, turns: int)
    ensures (6 * events - 0x100_0000 * turns) % 6 == 0 <==> turns % 3 == 0
  {
    var q := turns / 3;
    var r := turns % 3;
    assert 6 * events - 0x100_0000 * turns == 6 * (events - 0x80_0000 * q - 2796203 * r) + 2 * r;
  }

  // --------------------------------------------------------------------------
  // The slot check
  // --------------------------------------------------------------------------

  /** Whether a received packet's clock falls in the 5 ms slot of the frame. */
  predicate SlotAccepts(p: Plan, frame: nat, hs: Hs, hus: Hus) {
    var (expectedHs, expectedHus) := SessionTime(p, frame, 0);
    var coarse := (hs - expectedHs) % CLOCK;
    var elapsed := coarse * 625 + hus - expectedHus;
    coarse < CLOCK / 2 && 0 <= elapsed < FRAME_HUS
  }

  /** The slot that contains a clock value, counted from the plan's start over one clock period. */
  function SlotOf(p: Plan, hs: Hs, hus: Hus): (slot: nat)
    ensures slot < 0x100_0000
  {
    ((hs - p.startHs) * 625 + hus - p.startHus) % (CLOCK * 625) / FRAME_HUS
  }

  lemma CoarseFromFrame(p: Plan, frame: nat, hs: Hs)
    ensures (hs - SessionTime(p, frame, 0).0) % CLOCK == (hs - p.startHs - FRAME_TICKS * frame) % CLOCK
  {
    FrameStart(p, frame);
    var x := p.startHs + FRAME_TICKS * frame;
    assert (hs - x % CLOCK) % CLOCK == (hs - x) % CLOCK;
  }

  lemma FrameModPeriod(d: int, frame: nat)
    ensures (d - FRAME_TICKS * frame) % CLOCK == (d - FRAME_TICKS * (frame % 0x100_0000)) % CLOCK
  {
    var q, r := frame / 0x100_0000, frame % 0x100_0000;
    assert FRAME_TICKS * frame == FRAME_TICKS * r + CLOCK * q;
    assert (d - FRAME_TICKS * frame) == (d - FRAME_TICKS * r) + CLOCK * (-q);
    assert ((d - FRAME_TICKS * r) + CLOCK * (-q)) % CLOCK == (d - FRAME_TICKS * r) % CLOCK;
  }

  /** Slots of one period: `d` ticks and a fine difference `f` lie in slot `frame`. */
  lemma SlotArithmetic(d: int, f: int, frame: nat)
    requires 0 <= d < CLOCK && -625 < f < 625 && frame < 0x100_0000
    ensures var coarse := (d - FRAME_TICKS * frame) % CLOCK;
      (coarse < CLOCK / 2 && 0 <= coarse * 625 + f < FRAME_HUS) <==>
      (d * 625 + f) % (CLOCK * 625) / FRAME_HUS == frame
  {
    var t := (d * 625 + f) % (CLOCK * 625);
    assert t == if d * 625 + f < 0 then d * 625 + f + CLOCK * 625 else d * 625 + f;
    var x := d - FRAME_TICKS * frame;
    var coarse := x % CLOCK;
    assert coarse == if x < 0 then x + CLOCK else x;
  }

  lemma SlotFromStart(p: Plan, hs: Hs, hus: Hus)
    ensures SlotOf(p, hs, hus) == ((hs - p.startHs) % CLOCK * 625 + hus - p.startHus) % (CLOCK * 625) / FRAME_HUS
  {
    var d := (hs - p.startHs) % CLOCK;
    var q := (hs - p.startHs) / CLOCK;
    assert hs - p.startHs == CLOCK * q + d;
    var y := d * 625 + hus - p.startHus;
    assert (hs - p.startHs) * 625 + hus - p.startHus == y + (CLOCK * 625) * q;
  }

  lemma CoarseFromSlot(p: Plan, frame: nat, hs: Hs)
    ensures (hs - SessionTime(p, frame, 0).0) % CLOCK ==
            ((hs - p.startHs) % CLOCK - FRAME_TICKS * (frame % 0x100_0000)) % CLOCK
  {
    var x := hs - p.startHs;
    CoarseFromFrame(p, frame, hs);
    hide SessionTime;
    FrameModPeriod(x, frame);
    var z := FRAME_TICKS * (frame % 0x100_0000);
    assert (x - z) % CLOCK == (x % CLOCK - z) % CLOCK;
  }

  /** Every clock value is accepted for exactly one frame index modulo 2^24. */
  lemma SlotIsUnique(p: Plan, frame: nat, hs: Hs, hus: Hus)
    ensures SlotAccepts(p, frame, hs, hus) <==> frame % 0x100_0000 == SlotOf(p, hs, hus)
  {
    FrameStart(p, frame);
    CoarseFromSlot(p, frame, hs);
    SlotFromStart(p, hs, hus);
    hide SessionTime, SlotOf;
    SlotArithmetic((hs - p.startHs) % CLOCK, hus - p.startHus, frame % 0x100_0000);
  }
}
