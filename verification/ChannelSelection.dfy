/**
 Channel selection algorithm #2 with subevents (tone_packet.c; Bluetooth Core Vol 6 Part B
 section 4.5.8.3): used channels only, spaced subevents, and an even spread over all counters.
 */
module ChannelSelection {
  import opened Words
  import S = AirSession

  const M := 0x1_0000

  // --------------------------------------------------------------------------
  // Sixteen-bit words as bits, least significant first
  // --------------------------------------------------------------------------

  function Value(bits: seq<bool>): (v: nat) {
    if bits == [] then 0 else (if bits[0] then 1 else 0) + 2 * Value(bits[1..])
  }

  function Bits(v: nat, n: nat): (bits: seq<bool>)
    ensures |bits| == n
    decreases n
  {
    if n == 0 then [] else [v % 2 == 1] + Bits(v / 2, n - 1)
  }

  function Power2(n: nat): nat {
    if n == 0 then 1 else 2 * Power2(n - 1)
  }

  lemma {:induction false} ValueBelow(bits: seq<bool>)
    ensures Value(bits) < Power2(|bits|)
  {
    if bits != [] { ValueBelow(bits[1..]); }
  }

  lemma {:induction false} BitsOfValue(bits: seq<bool>)
    ensures Bits(Value(bits), |bits|) == bits
  {
    if bits != [] {
      BitsOfValue(bits[1..]);
      assert bits == [bits[0]] + bits[1..];
    }
  }

  lemma {:induction false} ValueOfBits(v: nat, n: nat)
    requires v < Power2(n)
    ensures Value(Bits(v, n)) == v
    decreases n
  {
    if n > 0 { ValueOfBits(v / 2, n - 1); }
  }

  lemma Sixteen()
    ensures Power2(16) == M
  {
    assert Power2(4) == 16;
    assert Power2(8) == 256;
    assert Power2(12) == 4096;
  }

  function Word16(bits: seq<bool>): (h: Half)
    requires |bits| == 16
  {
    ValueBelow(bits);
    Sixteen();
    Value(bits)
  }

  lemma WordRoundTrip(h: Half, bits: seq<bool>)
    requires |bits| == 16
    ensures Word16(Bits(h, 16)) == h && Bits(Word16(bits), 16) == bits
  {
    Sixteen();
    hide Power2, Bits, Value;
    ValueOfBits(h, 16);
    BitsOfValue(bits);
  }

  function XorBits(a: seq<bool>, b: seq<bool>): (c: seq<bool>)
    requires |a| == |b|
    ensures |c| == |a|
  {
    seq(|a|, i requires 0 <= i < |a| => a[i] != b[i])
  }

  function Xor(a: Half, b: Half): Half {
    Word16(XorBits(Bits(a, 16), Bits(b, 16)))
  }

  lemma XorTwice(a: Half, b: Half)
    ensures Xor(Xor(a, b), b) == a
  {
    hide Bits, Word16;
    var x := XorBits(Bits(a, 16), Bits(b, 16));
    WordRoundTrip(a, x);
    assert XorBits(x, Bits(b, 16)) == Bits(a, 16);
  }

  // --------------------------------------------------------------------------
  // The pseudo-random number of an event
  // --------------------------------------------------------------------------

  /** Exchange each bit with the one `d` places from it, in groups of `2 * d`. */
  function Exchange(b: seq<bool>, d: nat): (c: seq<bool>)
    requires |b| == 16 && (d == 1 || d == 2 || d == 4)
    ensures |c| == 16
  {
    seq(16, i requires 0 <= i < 16 => if i % (2 * d) < d then b[i + d] else b[i - d])
  }

  /** Exchange neighbours, then pairs, then nibbles: the bits of each byte reversed. */
  function PermuteBits(b: seq<bool>): (c: seq<bool>)
    requires |b| == 16
    ensures |c| == 16
  {
    Exchange(Exchange(Exchange(b, 1), 2), 4)
  }

  function Permute(x: Half): Half {
    Word16(PermuteBits(Bits(x, 16)))
  }

  function Partner(i: int, d: int): int
    requires d > 0
  {
    if i % (2 * d) < d then i + d else i - d
  }

  lemma ExchangeAt(b: seq<bool>, d: nat, i: nat)
    requires |b| == 16 && (d == 1 || d == 2 || d == 4) && i < 16
    ensures 0 <= Partner(i, d) < 16 && Exchange(b, d)[i] == b[Partner(i, d)]
  {
  }

  lemma Partners(i: nat)
    requires i < 16
    ensures Partner(Partner(Partner(i, 4), 2), 1) == i / 8 * 8 + 7 - i % 8
  {
  }

  lemma PermuteAt(b: seq<bool>, i: nat)
    requires |b| == 16 && i < 16
    ensures PermuteBits(b)[i] == b[i / 8 * 8 + 7 - i % 8]
  {
    hide Exchange, Partner;
    ExchangeAt(Exchange(Exchange(b, 1), 2), 4, i);
    ExchangeAt(Exchange(b, 1), 2, Partner(i, 4));
    ExchangeAt(b, 1, Partner(Partner(i, 4), 2));
    Partners(i);
  }

  lemma PermuteTwice(x: Half)
    ensures Permute(Permute(x)) == x
  {
    hide Bits, Word16, PermuteBits;
    var b := Bits(x, 16);
    var p := PermuteBits(b);
    var q := PermuteBits(p);
    WordRoundTrip(x, p);
    forall i | 0 <= i < 16 ensures q[i] == b[i] {
      PermuteAt(p, i);
      PermuteAt(b, i / 8 * 8 + 7 - i % 8);
    }
    assert q == b;
  }

  function Round(prn: Half, id: Half): Half {
    (17 * Permute(prn) + id) % M
  }

  function ThreeRounds(prn: Half, id: Half): Half {
    Round(Round(Round(prn, id), id), id)
  }

  function EventPrn(counter: Half, id: Half): Half {
    Xor(ThreeRounds(Xor(counter, id), id), id)
  }

  /** 17 * 61681 is one modulo 2^16. */
  function UndoRound(y: Half, id: Half): Half {
    Permute((61681 * (y - id)) % M)
  }

  function CounterOf(prn: Half, id: Half): Half {
    Xor(UndoRound(UndoRound(UndoRound(Xor(prn, id), id), id), id), id)
  }

  lemma ModIs(x: int, y: int, k: int)
    requires x == y + M * k && 0 <= y < M
    ensures x % M == y
  {
  }

  lemma MultiplyBack(p: Half, id: Half)
    ensures (61681 * ((17 * p + id) % M - id)) % M == p
  {
    var x := 17 * p + id;
    var q := x / M;
    var y := x % M;
    assert y == x - M * q;
    ModIs(61681 * (y - id), p, 16 * p - 61681 * q);
  }

  lemma MultiplyForth(y: Half, id: Half)
    ensures (17 * ((61681 * (y - id)) % M) + id) % M == y
  {
    var x := 61681 * (y - id);
    var q := x / M;
    var z := x % M;
    assert z == x - M * q;
    ModIs(17 * z + id, y, 16 * (y - id) - 17 * q);
  }

  lemma RoundInverts(x: Half, id: Half)
    ensures UndoRound(Round(x, id), id) == x && Round(UndoRound(x, id), id) == x
  {
    hide Permute;
    MultiplyBack(Permute(x), id);
    PermuteTwice(x);
    MultiplyForth(x, id);
    PermuteTwice((61681 * (x - id)) % M);
  }

  /** For a fixed identifier, event counters and event numbers correspond one to one. */
  lemma EventPrnBijective(c: Half, id: Half)
    ensures CounterOf(EventPrn(c, id), id) == c && EventPrn(CounterOf(c, id), id) == c
  {
    hide Round, UndoRound, Xor;
    XorTwice(c, id);
    var x0 := Xor(c, id);
    var x1 := Round(x0, id);
    var x2 := Round(x1, id);
    var x3 := Round(x2, id);
    XorTwice(x3, id);
    RoundInverts(x2, id);
    RoundInverts(x1, id);
    RoundInverts(x0, id);
    var y1 := UndoRound(x0, id);
    var y2 := UndoRound(y1, id);
    var y3 := UndoRound(y2, id);
    XorTwice(y3, id);
    RoundInverts(y1, id);
    RoundInverts(y2, id);
  }

  // --------------------------------------------------------------------------
  // Channels
  // --------------------------------------------------------------------------

  /** The used channels below `n`, in increasing order. */
  function UsedList(map5: seq<Byte>, n: nat): (u: seq<nat>)
    requires |map5| == 5 && n <= 37
    ensures |u| <= n
    ensures forall c :: c in u <==> 0 <= c < n && S.MapBit(map5, c) == 1
    ensures forall i, j :: 0 <= i < j < |u| ==> u[i] < u[j]
  {
    if n == 0 then []
    else
      var u := UsedList(map5, n - 1);
      assert forall i :: 0 <= i < |u| ==> u[i] in u;
      if S.MapBit(map5, n - 1) == 1 then u + [n - 1] else u
  }

  function Max(a: int, b: int): int { if a > b then a else b }
  function Min(a: int, b: int): int { if a < b then a else b }

  /** Least circular distance between consecutive subevents among `used` channels. */
  function Distance(used: nat): (d: int)
    requires 2 <= used <= 37
    ensures d >= 1 && 2 * d <= used
  {
    Max(1, Max(Min(3, used - 5), Min(11, (used - 10) / 2)))
  }

  function Position(list: seq<nat>, c: nat): (i: nat)
    ensures i <= |list| && (c in list ==> i < |list| && list[i] == c)
    ensures forall j :: 0 <= j < i ==> list[j] != c
  {
    if list == [] || list[0] == c then 0 else 1 + Position(list[1..], c)
  }

  /** Channel index of the event itself. */
  function FirstIndex(list: seq<nat>, prn: int): (i: int)
    requires 2 <= |list| && 0 <= prn < M
    ensures 0 <= i < |list|
    ensures prn % 37 in list ==> list[i] == prn % 37
  {
    if prn % 37 in list then Position(list, prn % 37)
    else
      ScaledBelow(|list|, prn);
      |list| * prn / M
  }

  lemma {:induction false} ProductBelow(n: nat, x: int)
    requires 0 <= x < M
    ensures 0 <= n * x <= n * (M - 1)
  {
    if n > 0 {
      ProductBelow(n - 1, x);
      assert n * x == (n - 1) * x + x;
    }
  }

  lemma ScaledBelow(n: nat, x: int)
    requires 0 <= x < M && n > 0
    ensures 0 <= n * x / M < n
  {
    ProductBelow(n, x);
    var p := n * x;
    assert p <= n * (M - 1);
  }

  /** Index of the next subevent. */
  function NextIndex(index: int, used: nat, x: int): (i: int)
    requires 2 <= used <= 37 && 0 <= x < M
    ensures 0 <= i < used
  {
    var d := Distance(used);
    (index + d + (used + 1 - 2 * d) * x / M) % used
  }

  /** Generator state and channel index after `subevent` steps. */
  function SubeventState(list: seq<nat>, prn: Half, id: Half, subevent: nat): (r: (Half, int))
    requires 2 <= |list| <= 37
    ensures 0 <= r.1 < |list|
  {
    if subevent == 0 then (prn, FirstIndex(list, Xor(prn, id)))
    else
      var (earlier, index) := SubeventState(list, prn, id, subevent - 1);
      var now := Round(earlier, id);
      (now, NextIndex(index, |list|, Xor(now, id)))
  }

  function Identifier(aa: Word): Half {
    Xor(aa / M, aa % M)
  }

  function ChannelIndex(aa: Word, counter: Half, list: seq<nat>, subevent: nat): (i: int)
    requires 2 <= |list| <= 37
    ensures 0 <= i < |list|
  {
    var id := Identifier(aa);
    SubeventState(list, ThreeRounds(Xor(counter, id), id), id, subevent).1
  }

  function Channel(aa: Word, counter: Half, map5: seq<Byte>, subevent: nat): Option<nat>
    requires |map5| == 5
  {
    var list := UsedList(map5, 37);
    if map5[4] >= 32 || subevent > 3 || |list| < 2 then None
    else Some(list[ChannelIndex(aa, counter, list, subevent)])
  }

  /** One generator step. */
  lemma SubeventStep(list: seq<nat>, prn: Half, id: Half, s: nat)
    requires 2 <= |list| <= 37
    ensures var (earlier, index) := SubeventState(list, prn, id, s);
      SubeventState(list, prn, id, s + 1) ==
        (Round(earlier, id), NextIndex(index, |list|, Xor(Round(earlier, id), id)))
  {
    hide Round, Xor, NextIndex, FirstIndex;
  }

  lemma SubeventStart(list: seq<nat>, prn: Half, id: Half)
    requires 2 <= |list| <= 37
    ensures SubeventState(list, prn, id, 0) == (prn, FirstIndex(list, Xor(prn, id)))
  {
  }

  method ListUsed(map5: seq<Byte>) returns (channels: seq<nat>)
    requires |map5| == 5
    ensures channels == UsedList(map5, 37)
  {
    hide S.MapBit;
    channels := [];
    for i := 0 to 37
      invariant channels == UsedList(map5, i)
    {
      if S.MapBit(map5, i) == 1 { channels := channels + [i]; }
    }
  }

  method SelectChannel(aa: Word, counter: Half, map5: seq<Byte>, subevent: nat) returns (channel: Option<nat>)
    requires |map5| == 5
    ensures channel == Channel(aa, counter, map5, subevent)
  {
    hide UsedList, Round, Xor, Identifier, FirstIndex, NextIndex, SubeventState;
    if map5[4] >= 32 || subevent > 3 { return None; }
    var channels := ListUsed(map5);
    var used := |channels|;
    if used < 2 { return None; }
    var id := Identifier(aa);
    var prn := Xor(counter, id);
    prn := Round(prn, id);
    prn := Round(prn, id);
    prn := Round(prn, id);
    ghost var first := prn;
    assert first == ThreeRounds(Xor(counter, id), id);
    var index := FindFirst(channels, Xor(prn, id), map5);
    SubeventStart(channels, first, id);
    hide ThreeRounds;
    var s := 0;
    while s < subevent
      invariant 0 <= s <= subevent && 0 <= index < used && (prn, index) == SubeventState(channels, first, id, s)
    {
      SubeventStep(channels, first, id, s);
      prn := Round(prn, id);
      index := Advance(index, used, Xor(prn, id));
      s := s + 1;
    }
    return Some(channels[index]);
  }

  method FindFirst(channels: seq<nat>, prn: int, map5: seq<Byte>) returns (index: int)
    requires |map5| == 5 && channels == UsedList(map5, 37) && 2 <= |channels| && 0 <= prn < M
    ensures index == FirstIndex(channels, prn)
  {
    hide S.MapBit, Position;
    var unmapped := prn % 37;
    if S.MapBit(map5, unmapped) == 1 {
      index := 0;
      while channels[index] != unmapped
        invariant 0 <= index <= Position(channels, unmapped) < |channels|
      {
        index := index + 1;
      }
    } else {
      index := |channels| * prn / M;
    }
  }

  method Advance(index: int, used: nat, x: int) returns (next: int)
    requires 2 <= used <= 37 && 0 <= x < M
    ensures next == NextIndex(index, used, x)
  {
    var distance := 1;
    var a := if used > 5 then used - 5 else 0;
    var b := if used > 10 then (used - 10) / 2 else 0;
    if a > 3 { a := 3; }
    if b > 11 { b := 11; }
    if a > distance { distance := a; }
    if b > distance { distance := b; }
    assert distance == Distance(used);
    var width := used + 1 - 2 * distance;
    next := (index + distance + width * x / M) % used;
  }

  /** Every result is a used channel. */
  lemma ResultIsUsed(aa: Word, counter: Half, map5: seq<Byte>, subevent: nat)
    requires |map5| == 5
    ensures var c := Channel(aa, counter, map5, subevent);
      c.Some? ==> c.value < 37 && S.MapBit(map5, c.value) == 1
  {
    var list := UsedList(map5, 37);
    if Channel(aa, counter, map5, subevent).Some? {
      assert list[ChannelIndex(aa, counter, list, subevent)] in list;
    }
  }

  function Circular(i: int, j: int, used: nat): int
    requires used > 0
  {
    Min((i - j) % used, (j - i) % used)
  }

  lemma ModSmall(x: int, n: int)
    requires 0 < n && x < n && 0 <= x + n
    ensures x % n == if x < 0 then x + n else x
  {
    if x < 0 { assert x == (-1) * n + (x + n); }
  }

  lemma StepIsFar(index: int, used: nat, d: int, step: int)
    requires 0 < d <= step <= used - d && 0 <= index < used
    ensures Circular(index, (index + step) % used, used) >= d
  {
    var j := (index + step) % used;
    if index + step < used {
      ModSmall(index + step, used);
      ModSmall(index - j, used);
      ModSmall(j - index, used);
    } else {
      var k := index + step - used;
      OneTurn(index + step, used);
      ModSmall(index - k, used);
      ModSmall(k - index, used);
    }
  }

  lemma OneTurn(x: int, n: int)
    requires 0 < n <= x < 2 * n
    ensures x % n == x - n
  {
    var q := x / n;
    assert x == n * q + x % n;
    assert q == 1;
  }

  lemma NextIsFar(index: int, used: nat, x: int)
    requires 2 <= used <= 37 && 0 <= x < M && 0 <= index < used
    ensures Circular(index, NextIndex(index, used, x), used) >= Distance(used)
  {
    var d := Distance(used);
    hide Distance;
    var width := used + 1 - 2 * d;
    ScaledBelow(width, x);
    StepIsFar(index, used, d, d + width * x / M);
  }

  /** Consecutive subevents are at least the distance apart, counted around the used channels. */
  lemma SubeventsSpread(aa: Word, counter: Half, list: seq<nat>, subevent: nat)
    requires 2 <= |list| <= 37
    ensures Circular(ChannelIndex(aa, counter, list, subevent), ChannelIndex(aa, counter, list, subevent + 1), |list|)
            >= Distance(|list|)
  {
    hide Xor, Round, ThreeRounds, Identifier, FirstIndex, SubeventState, NextIndex, Circular, Distance;
    var id := Identifier(aa);
    var prn := ThreeRounds(Xor(counter, id), id);
    var (earlier, index) := SubeventState(list, prn, id, subevent);
    SubeventStep(list, prn, id, subevent);
    NextIsFar(index, |list|, Xor(Round(earlier, id), id));
  }

  lemma ModIsUnique(x: int, n: int, q: int, r: int)
    requires n > 0 && x == n * q + r && 0 <= r < n
    ensures x % n == r && x / n == q
  {
    var d := x / n - q;
    assert x % n - r == -(n * d);
  }

  /** Every index at least the distance away is the next one for some pseudo-random number. */
  lemma NextCovers(index: int, used: nat, next: int) returns (x: int)
    requires 2 <= used <= 37 && 0 <= index < used && 0 <= next < used && Circular(index, next, used) >= Distance(used)
    ensures 0 <= x < M && NextIndex(index, used, x) == next
  {
    hide Distance;
    var d := Distance(used);
    var width := used + 1 - 2 * d;
    var step := (next - index) % used;
    Opposite(next - index, used);
    assert index - next == -(next - index);
    var k := step - d;
    assert 0 <= k < width;
    x := (M * k + width - 1) / width;
    ScaleReaches(width, k, x);
    StepLands(index, next, used);
  }

  lemma StepLands(index: int, next: int, used: nat)
    requires used > 0 && 0 <= next < used
    ensures (index + (next - index) % used) % used == next
  {
    var q := (next - index) / used;
    ModIsUnique(index + (next - index) % used, used, -q, next);
  }

  lemma Opposite(x: int, n: int)
    requires n > 0
    ensures x % n == 0 || (-x) % n == n - x % n
  {
    var q, r := x / n, x % n;
    if r != 0 { ModIsUnique(-x, n, -q - 1, n - r); }
  }

  lemma ScaleReaches(width: int, k: int, x: int)
    requires 0 <= k < width <= 37 && x == (M * k + width - 1) / width
    ensures 0 <= x < M && width * x / M == k
  {
    var a := M * k + width - 1;
    var r := a % width;
    assert a == width * x + r && 0 <= r < width;
    var p := width * x;
    assert p == M * k + (width - 1 - r);
    ModIsUnique(p, M, k, p - M * k);
    if x >= M {
      Times(width, M, x);
      assert false;
    }
  }

  lemma Times(n: int, a: int, b: int)
    requires 0 <= n && a <= b
    ensures n * a <= n * b
  {
  }

  /** The least distance by the number of used channels. */
  lemma DistanceIs(used: nat)
    requires 2 <= used <= 37
    ensures Distance(used) ==
      if used <= 6 then 1 else if used == 7 then 2 else if used < 18 then 3 else if used < 32 then used / 2 - 5 else 11
  {
  }

  lemma {:induction false} PositionOf(list: seq<nat>, i: nat)
    requires i < |list| && forall j, k :: 0 <= j < k < |list| ==> list[j] < list[k]
    ensures Position(list, list[i]) == i
  {
    assert list[i] in list;
  }

  /** How far apart two channels are, counted around the used ones. */
  function Apart(map5: seq<Byte>, c: nat, d: nat): int
    requires |map5| == 5 && |UsedList(map5, 37)| >= 2
  {
    var list := UsedList(map5, 37);
    Circular(Position(list, c), Position(list, d), |list|)
  }

  /** Two channels are found, at least the distance apart. */
  predicate FarApart(map5: seq<Byte>, a: Option<nat>, b: Option<nat>)
    requires |map5| == 5
  {
    var used := |UsedList(map5, 37)|;
    used >= 2 && a.Some? && b.Some? && Apart(map5, a.value, b.value) >= Distance(used)
  }

  lemma ListSpread(aa: Word, counter: Half, list: seq<nat>, subevent: nat)
    requires 2 <= |list| <= 37 && forall j, k :: 0 <= j < k < |list| ==> list[j] < list[k]
    ensures var here, there := list[ChannelIndex(aa, counter, list, subevent)], list[ChannelIndex(aa, counter, list, subevent + 1)];
      Circular(Position(list, here), Position(list, there), |list|) >= Distance(|list|)
  {
    hide ChannelIndex, Distance, Circular;
    SubeventsSpread(aa, counter, list, subevent);
    PositionOf(list, ChannelIndex(aa, counter, list, subevent));
    PositionOf(list, ChannelIndex(aa, counter, list, subevent + 1));
  }

  /** The channels of consecutive subevents are at least the distance apart. */
  lemma ChannelsSpread(aa: Word, counter: Half, map5: seq<Byte>, subevent: nat)
    requires |map5| == 5 && Channel(aa, counter, map5, subevent).Some? && subevent < 3
    ensures FarApart(map5, Channel(aa, counter, map5, subevent), Channel(aa, counter, map5, subevent + 1))
  {
    hide ChannelIndex, Distance, Circular, S.MapBit, Position;
    ListSpread(aa, counter, UsedList(map5, 37), subevent);
  }

  // --------------------------------------------------------------------------
  // Even spread
  // --------------------------------------------------------------------------

  /** The event number for any counter, and its inverse, as integers. */
  function PrnOf(counter: int, id: Half): (p: int)
    ensures 0 <= p < M
  {
    EventPrn(counter % M, id)
  }

  function CounterFor(prn: int, id: Half): (c: int)
    ensures 0 <= c < M
  {
    CounterOf(prn % M, id)
  }

  lemma PrnInverse(c: int, id: Half)
    ensures PrnOf(CounterFor(c, id), id) == c % M
    ensures CounterFor(PrnOf(c, id), id) == c % M
  {
    hide EventPrn, CounterOf;
    EventPrnBijective(c % M, id);
  }

  /** With every channel in use, the channel of an event is its number modulo 37. */
  lemma FullMapChannel(aa: Word, counter: Half, list: seq<nat>)
    requires |list| == 37 && (forall i :: 0 <= i < 37 ==> list[i] == i)
    ensures list[ChannelIndex(aa, counter, list, 0)] == PrnOf(counter, Identifier(aa)) % 37
  {
    hide Xor, Identifier, ThreeRounds, FirstIndex, SubeventState;
    var id := Identifier(aa);
    var first := ThreeRounds(Xor(counter, id), id);
    SubeventStart(list, first, id);
    var prn := Xor(first, id);
    assert counter % M == counter;
    assert list[prn % 37] == prn % 37;
  }

  /**
   The channel of an event under any map: its number modulo 37 when that is used, otherwise the used channel at
   the number's share of the list.
   */
  lemma EventChannel(aa: Word, counter: Half, map5: seq<Byte>)
    requires |map5| == 5 && Channel(aa, counter, map5, 0).Some?
    ensures var n, list, c := PrnOf(counter, Identifier(aa)), UsedList(map5, 37), Channel(aa, counter, map5, 0).value;
      if S.MapBit(map5, n % 37) == 1 then c == n % 37
      else var i := Position(list, c); M * i <= |list| * n < M * (i + 1)
  {
    hide ChannelIndex, S.MapBit, PrnOf, Position;
    var list := UsedList(map5, 37);
    IndexChannel(aa, counter, list);
    hide UsedList;
  }

  lemma IndexChannel(aa: Word, counter: Half, list: seq<nat>)
    requires 2 <= |list| <= 37 && forall j, k :: 0 <= j < k < |list| ==> list[j] < list[k]
    ensures var n, c := PrnOf(counter, Identifier(aa)), list[ChannelIndex(aa, counter, list, 0)];
      if n % 37 in list then c == n % 37 else var i := Position(list, c); M * i <= |list| * n < M * (i + 1)
  {
    hide ChannelIndex, PrnOf;
    EventIndex(aa, counter, list);
    PositionOf(list, ChannelIndex(aa, counter, list, 0));
    hide Position;
  }

  lemma EventIndex(aa: Word, counter: Half, list: seq<nat>)
    requires 2 <= |list| <= 37
    ensures var n, i := PrnOf(counter, Identifier(aa)), ChannelIndex(aa, counter, list, 0);
      if n % 37 in list then list[i] == n % 37 else M * i <= |list| * n < M * (i + 1)
  {
    hide Xor, Identifier, ThreeRounds, SubeventState;
    var id := Identifier(aa);
    var first := ThreeRounds(Xor(counter, id), id);
    SubeventStart(list, first, id);
    assert counter % M == counter;
  }

  lemma {:induction false} ImageSize(s: set<int>, h: int -> int)
    requires forall x, y :: x in s && y in s && h(x) == h(y) ==> x == y
    ensures |set x | x in s :: h(x)| == |s|
    decreases |s|
  {
    var image := set x | x in s :: h(x);
    if a :| a in s {
      var rest := s - {a};
      ImageSize(rest, h);
      var smaller := set x | x in rest :: h(x);
      assert h(a) !in smaller;
      assert image == smaller + {h(a)};
    } else {
      assert forall a :: a !in s;
      assert s == {};
      assert image == {};
    }
  }

  function Range(n: nat): (r: set<int>)
    ensures |r| == n
    ensures forall j :: j in r <==> 0 <= j < n
  {
    if n == 0 then {} else Range(n - 1) + {n - 1}
  }

  /** Event numbers of one channel. */
  function Numbers(c: nat): set<int> {
    set p: int | 0 <= p < M && p % 37 == c
  }

  lemma NumbersSize(c: nat)
    requires c < 37
    ensures |Numbers(c)| == if c < 9 then 1772 else 1771
  {
    var n := if c < 9 then 1772 else 1771;
    hide Range;
    var range := Range(n);
    var h := (j: int) => 37 * j + c;
    ImageSize(range, h);
    var image := set j | j in range :: h(j);
    forall p | p in Numbers(c) ensures p in image {
      assert p == h(p / 37) && p / 37 in range;
    }
    forall p | p in image ensures p in Numbers(c) {
      var j :| j in range && p == h(j);
      assert p % 37 == c;
    }
    assert image == Numbers(c);
  }

  /** Counters from `start` on, over one full cycle, whose event uses channel `c` under a full map. */
  function CountersOn(c: nat, start: int, id: Half): set<int> {
    set k: int | start <= k < start + M && PrnOf(k, id) % 37 == c
  }

  /** Any 65536 consecutive event counters use each of the 37 channels 1771 or 1772 times. */
  lemma EvenSpread(c: nat, start: int, id: Half)
    requires c < 37
    ensures |CountersOn(c, start, id)| == if c < 9 then 1772 else 1771
  {
    hide PrnOf, CounterFor;
    var numbers := Numbers(c);
    var h := (p: int) => start + (CounterFor(p, id) - start) % M;
    forall p | 0 <= p < M ensures h(p) % M == CounterFor(p, id) && PrnOf(h(p), id) == p {
      CounterInWindow(CounterFor(p, id), start);
      PrnInverse(p, id);
      PrnPeriodic(h(p), CounterFor(p, id), id);
    }
    ImageSize(numbers, h);
    var image := set p | p in numbers :: h(p);
    forall k | k in CountersOn(c, start, id) ensures k in image {
      var p := PrnOf(k, id);
      PrnInverse(k, id);
      CounterInWindow(k % M, start);
      WindowUnique(k, h(p), start);
      assert p in numbers && h(p) == k;
    }
    forall k | k in image ensures k in CountersOn(c, start, id) {
      var p :| p in numbers && k == h(p);
    }
    assert image == CountersOn(c, start, id);
    NumbersSize(c);
  }

  /** Every one of the 37 channels is used. */
  predicate FullMap(map5: seq<Byte>)
    requires |map5| == 5
  {
    map5[4] < 32 && forall i :: 0 <= i < 37 ==> S.MapBit(map5, i) == 1
  }

  lemma {:induction false} FullList(map5: seq<Byte>, n: nat)
    requires |map5| == 5 && FullMap(map5) && n <= 37
    ensures |UsedList(map5, n)| == n && forall i :: 0 <= i < n ==> UsedList(map5, n)[i] == i
    decreases n
  {
    hide S.MapBit;
    if n > 0 { FullList(map5, n - 1); }
  }

  /** Counters from `start` on, over one full cycle, for which the first subevent selects channel `c`. */
  function SelectedOn(aa: Word, map5: seq<Byte>, c: nat, start: int): set<int>
    requires |map5| == 5
  {
    set k: int | start <= k < start + M && Channel(aa, k % M, map5, 0) == Some(c)
  }

  lemma ChannelIsNumber(aa: Word, map5: seq<Byte>, counter: Half)
    requires |map5| == 5 && FullMap(map5)
    ensures Channel(aa, counter, map5, 0) == Some(PrnOf(counter, Identifier(aa)) % 37)
  {
    FullList(map5, 37);
    assert map5[4] < 32;
    hide UsedList, FullMap, ChannelIndex, PrnOf, Identifier;
    FullMapChannel(aa, counter, UsedList(map5, 37));
  }

  lemma SelectedIsNumber(aa: Word, map5: seq<Byte>, k: int, c: nat)
    requires |map5| == 5 && FullMap(map5)
    ensures Channel(aa, k % M, map5, 0) == Some(c) <==> PrnOf(k, Identifier(aa)) % 37 == c
  {
    hide Channel, FullMap, PrnOf, Identifier;
    var counter: Half := k % M;
    ChannelIsNumber(aa, map5, counter);
    PrnPeriodic(k, counter, Identifier(aa));
  }

  /**
   With a full map, any 65536 consecutive event counters select channels 0 to 8 exactly 1772 times and
   the others exactly 1771 times, for every access address.
   */
  lemma FullMapSpread(aa: Word, map5: seq<Byte>, c: nat, start: int)
    requires |map5| == 5 && FullMap(map5) && c < 37
    ensures |SelectedOn(aa, map5, c, start)| == if c < 9 then 1772 else 1771
  {
    hide Channel, PrnOf, Identifier, FullMap;
    forall k: int | start <= k < start + M
      ensures k in SelectedOn(aa, map5, c, start) <==> k in CountersOn(c, start, Identifier(aa))
    {
      SelectedIsNumber(aa, map5, k, c);
    }
    assert SelectedOn(aa, map5, c, start) == CountersOn(c, start, Identifier(aa));
    EvenSpread(c, start, Identifier(aa));
  }

  lemma PrnPeriodic(a: int, b: int, id: Half)
    requires a % M == b % M
    ensures PrnOf(a, id) == PrnOf(b, id)
  {
    hide EventPrn;
  }

  lemma CounterInWindow(c: int, start: int)
    requires 0 <= c < M
    ensures (start + (c - start) % M) % M == c
  {
    var q := (c - start) / M;
    assert start + (c - start) % M == c + M * (-q);
  }

  lemma WindowUnique(a: int, b: int, start: int)
    requires start <= a < start + M && start <= b < start + M && a % M == b % M
    ensures a == b
  {
  }

  // --------------------------------------------------------------------------
  // Sample data
  // --------------------------------------------------------------------------

  /** The bit of weight `w`. */
  predicate At(v: nat, w: nat)
    requires w > 0
  {
    v / w % 2 == 1
  }

  lemma HalvedTwice(v: nat, w: nat)
    requires w > 0
    ensures v / 2 / w == v / (2 * w)
  {
    var q := v / 2 / w;
    var r := v / 2 - w * q;
    assert v == 2 * (w * q + r) + v % 2;
    assert v == 2 * w * q + (2 * r + v % 2);
    ModIsUnique(v, 2 * w, q, 2 * r + v % 2);
  }

  lemma {:induction false} BitsAt(v: nat, n: nat, i: nat)
    requires i < n
    ensures Power2(i) > 0 && Bits(v, n)[i] == At(v, Power2(i))
    decreases n
  {
    if i > 0 {
      BitsAt(v / 2, n - 1, i - 1);
      HalvedTwice(v, Power2(i - 1));
    }
  }

  lemma Weights()
    ensures Power2(0) == 1 && Power2(1) == 2 && Power2(2) == 4 && Power2(3) == 8 && Power2(4) == 16 && Power2(5) == 32
    ensures Power2(6) == 64 && Power2(7) == 128 && Power2(8) == 256 && Power2(9) == 512 && Power2(10) == 1024
    ensures Power2(11) == 2048 && Power2(12) == 4096 && Power2(13) == 8192 && Power2(14) == 16384 && Power2(15) == 32768
  {
    assert Power2(5) == 2 * Power2(4) && Power2(10) == 2 * Power2(9);
  }

  /** `c` differs from `a` exactly where `b` has a one. */
  predicate Differs(a: Half, b: Half, c: Half) {
    At(c, 1) == (At(a, 1) != At(b, 1)) && At(c, 2) == (At(a, 2) != At(b, 2)) &&
    At(c, 4) == (At(a, 4) != At(b, 4)) && At(c, 8) == (At(a, 8) != At(b, 8)) &&
    At(c, 16) == (At(a, 16) != At(b, 16)) && At(c, 32) == (At(a, 32) != At(b, 32)) &&
    At(c, 64) == (At(a, 64) != At(b, 64)) && At(c, 128) == (At(a, 128) != At(b, 128)) &&
    At(c, 256) == (At(a, 256) != At(b, 256)) && At(c, 512) == (At(a, 512) != At(b, 512)) &&
    At(c, 1024) == (At(a, 1024) != At(b, 1024)) && At(c, 2048) == (At(a, 2048) != At(b, 2048)) &&
    At(c, 4096) == (At(a, 4096) != At(b, 4096)) && At(c, 8192) == (At(a, 8192) != At(b, 8192)) &&
    At(c, 16384) == (At(a, 16384) != At(b, 16384)) && At(c, 32768) == (At(a, 32768) != At(b, 32768))
  }

  /** Each byte of `y` is that of `x` with its bits reversed. */
  predicate Reverses(x: Half, y: Half) {
    At(y, 1) == At(x, 128) && At(y, 2) == At(x, 64) && At(y, 4) == At(x, 32) && At(y, 8) == At(x, 16) &&
    At(y, 16) == At(x, 8) && At(y, 32) == At(x, 4) && At(y, 64) == At(x, 2) && At(y, 128) == At(x, 1) &&
    At(y, 256) == At(x, 32768) && At(y, 512) == At(x, 16384) && At(y, 1024) == At(x, 8192) && At(y, 2048) == At(x, 4096) &&
    At(y, 4096) == At(x, 2048) && At(y, 8192) == At(x, 1024) && At(y, 16384) == At(x, 512) && At(y, 32768) == At(x, 256)
  }

  lemma XorIs(a: Half, b: Half, c: Half)
    requires Differs(a, b, c)
    ensures Xor(a, b) == c
  {
    Weights();
    hide Bits, Power2;
    forall i | 0 <= i < 16 ensures Bits(c, 16)[i] == XorBits(Bits(a, 16), Bits(b, 16))[i] {
      BitsAt(a, 16, i);
      BitsAt(b, 16, i);
      BitsAt(c, 16, i);
    }
    assert Bits(c, 16) == XorBits(Bits(a, 16), Bits(b, 16));
    WordRoundTrip(c, Bits(c, 16));
  }

  /** The permutation reverses the bits of each byte. */
  lemma PermuteIs(x: Half, y: Half)
    requires Reverses(x, y)
    ensures Permute(x) == y
  {
    Weights();
    hide Bits, Power2, PermuteBits;
    var b := Bits(x, 16);
    forall i | 0 <= i < 16 ensures Bits(y, 16)[i] == PermuteBits(b)[i] {
      PermuteAt(b, i);
      BitsAt(y, 16, i);
      BitsAt(x, 16, i / 8 * 8 + 7 - i % 8);
    }
    assert Bits(y, 16) == PermuteBits(b);
    WordRoundTrip(y, b);
  }

  lemma RoundIs(x: Half, id: Half, y: Half, p: Half)
    requires Reverses(x, p) && y == (17 * p + id) % M
    ensures Round(x, id) == y
  {
    hide Permute, Reverses;
    PermuteIs(x, p);
  }

  const SampleAddress: Word := 0x8e89bed6
  const SampleIdentifier: Half := 0x305f

  lemma SampleIdentity()
    ensures Identifier(SampleAddress) == SampleIdentifier && Xor(1, SampleIdentifier) == 12382
  {
    hide Xor;
    XorIs(36489, 48854, 12383);
    XorIs(1, 12383, 12382);
  }

  lemma SampleRounds()
    ensures Round(12382, SampleIdentifier) == 1145 && Round(1145, SampleIdentifier) == 23261 && Round(23261, SampleIdentifier) == 14026
  {
    hide Round;
    RoundIs(12382, SampleIdentifier, 1145, 3194);
    RoundIs(1145, SampleIdentifier, 23261, 8350);
    RoundIs(23261, SampleIdentifier, 14026, 23227);
  }

  lemma SampleSubevents()
    ensures Round(14026, SampleIdentifier) == 25058 && Round(25058, SampleIdentifier) == 6934
  {
    hide Round;
    RoundIs(14026, SampleIdentifier, 25058, 27731);
    RoundIs(25058, SampleIdentifier, 6934, 34375);
  }

  lemma SampleNumber0()
    ensures Xor(14026, SampleIdentifier) == 1685
  {
    hide Xor;
    XorIs(14026, 12383, 1685);
  }

  lemma SampleNumber1()
    ensures Xor(25058, SampleIdentifier) == 20925
  {
    hide Xor;
    XorIs(25058, 12383, 20925);
  }

  lemma SampleNumber2()
    ensures Xor(6934, SampleIdentifier) == 11081
  {
    hide Xor;
    XorIs(6934, 12383, 11081);
  }

  lemma SampleNumbers()
    ensures Xor(14026, SampleIdentifier) == 1685 && Xor(25058, SampleIdentifier) == 20925 && Xor(6934, SampleIdentifier) == 11081
  {
    hide Xor;
    SampleNumber0();
    SampleNumber1();
    SampleNumber2();
  }

  /**
   The standard's sample data for this address, counter 1 and a full map: event number 1685 and channel 20, then channels
   36 and 12 in its first two further subevents.
   */
  lemma SampleData(map5: seq<Byte>)
    requires |map5| == 5 && FullMap(map5)
    ensures EventPrn(1, SampleIdentifier) == 1685
    ensures Channel(SampleAddress, 1, map5, 0) == Some(20) && Channel(SampleAddress, 1, map5, 1) == Some(36) &&
            Channel(SampleAddress, 1, map5, 2) == Some(12)
  {
    hide Round, Xor, SubeventState, S.MapBit, UsedList, Identifier, FirstIndex;
    SampleIdentity();
    SampleRounds();
    SampleSubevents();
    SampleNumbers();
    var list := UsedList(map5, 37);
    FullList(map5, 37);
    assert map5[4] < 32;
    assert list[20] == 20;
    SubeventStart(list, 14026, SampleIdentifier);
    SubeventStep(list, 14026, SampleIdentifier, 0);
    SubeventStep(list, 14026, SampleIdentifier, 1);
  }
}
