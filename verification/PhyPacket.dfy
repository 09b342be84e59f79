/**
 Uncoded packets on air (phy_packet.c; Bluetooth Core Vol 6 Part B sections 3.1.1 and 3.2):
 the CRC-24 register, data whitening, the packet builder, and the packet that is carried inside
 another packet's payload (radio_tx.c, `ull_radio_pdu_submit`).
 */
module PhyPacket {
  import opened Words

  const Limit := 255
  const Ticks := 0x1000_0000 * 625

  // --------------------------------------------------------------------------
  // Bytes and their bits in the order they are sent
  // --------------------------------------------------------------------------

  function Weight(j: nat): bv8
    requires j < 8
  {
    match j
    case 0 => 1 case 1 => 2 case 2 => 4 case 3 => 8
    case 4 => 16 case 5 => 32 case 6 => 64 case 7 => 128
  }

  function ByteBits(b: bv8): (bits: seq<bool>)
    ensures |bits| == 8
    ensures forall j :: 0 <= j < 8 ==> bits[j] == BitAt(b, j)
  {
    [b & 1 != 0, b & 2 != 0, b & 4 != 0, b & 8 != 0, b & 16 != 0, b & 32 != 0, b & 64 != 0, b & 128 != 0]
  }

  function Bits(bytes: seq<bv8>): (bits: seq<bool>)
    ensures |bits| == 8 * |bytes|
  {
    if bytes == [] then [] else ByteBits(bytes[0]) + Bits(bytes[1..])
  }

  lemma BitsCons(b: bv8, rest: seq<bv8>)
    ensures Bits([b] + rest) == ByteBits(b) + Bits(rest)
  {
    hide ByteBits;
    assert ([b] + rest)[0] == b && ([b] + rest)[1..] == rest;
  }

  lemma BitsNone()
    ensures Bits([]) == []
  {
  }

  lemma {:induction false} BitsAppend(a: seq<bv8>, b: seq<bv8>)
    ensures Bits(a + b) == Bits(a) + Bits(b)
    decreases |a|
  {
    hide Bits, ByteBits;
    BitsNone();
    if a == [] {
      assert a + b == b;
    } else {
      var head, tail := a[0], a[1..];
      assert a == [head] + tail && a + b == [head] + (tail + b);
      BitsAppend(tail, b);
      BitsCons(head, tail);
      BitsCons(head, tail + b);
    }
  }

  lemma BitsOne(b: bv8)
    ensures Bits([b]) == ByteBits(b)
  {
    hide ByteBits;
    assert Bits([b]) == ByteBits(b) + Bits([]);
  }

  lemma FlipOther(b: bv8, w: bv8, v: bv8)
    requires w & v == 0
    ensures (b ^ w) & v == b & v
  {
  }

  lemma FlipSame(b: bv8, n: nat)
    requires n < 8
    ensures ((b ^ Weight(n)) & Weight(n) != 0) == (b & Weight(n) == 0)
  {
    match n
    case 0 => case 1 => case 2 => case 3 => case 4 => case 5 => case 6 => case 7 =>
  }

  lemma WeightsApart(n: nat, j: nat)
    requires n < 8 && j < 8 && n != j
    ensures Weight(n) & Weight(j) == 0
  {
  }

  function BitAt(b: bv8, j: nat): bool
    requires j < 8
  {
    b & Weight(j) != 0
  }

  lemma FlipAt(b: bv8, n: nat, j: nat)
    requires n < 8 && j < 8
    ensures BitAt(b ^ Weight(n), j) == (BitAt(b, j) != (j == n))
  {
    hide Weight;
    if j == n {
      FlipSame(b, n);
    } else {
      WeightsApart(n, j);
      FlipOther(b, Weight(n), Weight(j));
    }
  }

  function Flipped(b: bv8, n: nat): bv8
    requires n < 8
  {
    b ^ Weight(n)
  }

  // --------------------------------------------------------------------------
  // Whitening
  // --------------------------------------------------------------------------

  function Next(lfsr: bv8): bv8 {
    (if lfsr & 1 != 0 then lfsr ^ 0x88 else lfsr) >> 1
  }

  function After(lfsr: bv8, n: nat): bv8 {
    if n == 0 then lfsr else Next(After(lfsr, n - 1))
  }

  function Out(lfsr: bv8): bool {
    lfsr & 1 != 0
  }

  /** The bits of `bits` combined with the whitening sequence that starts in state `lfsr`. */
  function Whiten(bits: seq<bool>, lfsr: bv8): (w: seq<bool>)
    ensures |w| == |bits|
    ensures forall i :: 0 <= i < |bits| ==> w[i] == (bits[i] != Out(After(lfsr, i)))
  {
    seq(|bits|, i requires 0 <= i < |bits| => bits[i] != Out(After(lfsr, i)))
  }

  function Seed(channel: bv8): bv8 {
    channel | 0x40
  }

  lemma {:induction false} AfterSum(lfsr: bv8, m: nat, n: nat)
    ensures After(After(lfsr, m), n) == After(lfsr, m + n)
    decreases n
  {
    hide Next;
    if n > 0 { AfterSum(lfsr, m, n - 1); }
  }

  lemma WhitenAppend(a: seq<bool>, b: seq<bool>, lfsr: bv8)
    ensures Whiten(a + b, lfsr) == Whiten(a, lfsr) + Whiten(b, After(lfsr, |a|))
  {
    hide After, Out, Whiten;
    var l, r := Whiten(a + b, lfsr), Whiten(a, lfsr) + Whiten(b, After(lfsr, |a|));
    forall i | 0 <= i < |a + b| ensures l[i] == r[i] {
      if i >= |a| {
        assert (a + b)[i] == b[i - |a|];
        AfterSum(lfsr, |a|, i - |a|);
        assert |a| + (i - |a|) == i;
      }
    }
  }

  /** Whitening is its own inverse. */
  lemma WhitenTwice(bits: seq<bool>, lfsr: bv8)
    ensures Whiten(Whiten(bits, lfsr), lfsr) == bits
  {
    hide After, Out;
  }

  /** The whitening sequence by its own recurrence, w[n] = w[n-7] + w[n-3]: x^7 + x^4 + 1. */
  function Sequence(channel: bv8, n: nat): bool {
    if n < 3 then ByteBits(channel)[n]
    else if n < 6 then ByteBits(channel)[n] != Sequence(channel, n - 3)
    else if n == 6 then true != Sequence(channel, 3)
    else Sequence(channel, n - 7) != Sequence(channel, n - 3)
  }

  lemma StateBits(l: bv8)
    requires l < 128
    ensures var b, c := ByteBits(l), ByteBits(Next(l));
      Next(l) < 128 && Out(l) == b[0] &&
      c[0] == b[1] && c[1] == b[2] && c[2] == (b[3] != b[0]) && c[3] == b[4] && c[4] == b[5] && c[5] == b[6] && c[6] == b[0]
  {
  }

  predicate Describes(l: bv8, w0: bool, w1: bool, w2: bool, w3: bool, w4: bool, w5: bool, w6: bool) {
    var b := ByteBits(l);
    l < 128 && b[0] == w0 && b[1] == w1 && b[2] == w2 && b[3] == (w3 != w0) && b[4] == (w4 != w1) &&
    b[5] == (w5 != w2) && b[6] == (w6 != w3)
  }

  predicate InState(channel: bv8, n: nat) {
    var w := k requires k >= 0 => Sequence(channel, n + k);
    Describes(After(Seed(channel), n), w(0), w(1), w(2), w(3), w(4), w(5), w(6))
  }

  lemma ShiftOne(channel: bv8, n: nat)
    requires channel < 64 && InState(channel, n)
    ensures InState(channel, n + 1)
  {
    StateBits(After(Seed(channel), n));
    assert Sequence(channel, n + 7) == (Sequence(channel, n) != Sequence(channel, n + 4));
    hide ByteBits, Next, Sequence, Seed;
  }

  lemma FirstState(channel: bv8)
    requires channel < 64
    ensures InState(channel, 0)
  {
    assert After(Seed(channel), 0) == Seed(channel);
    SeedBits(channel);
    hide ByteBits, Seed, After;
  }

  lemma {:induction false} ShiftState(channel: bv8, n: nat)
    requires channel < 64
    ensures InState(channel, n)
    decreases n
  {
    hide InState;
    if n == 0 {
      FirstState(channel);
    } else {
      ShiftState(channel, n - 1);
      ShiftOne(channel, n - 1);
    }
  }

  lemma SeedBits(channel: bv8)
    requires channel < 64
    ensures Seed(channel) < 128 && ByteBits(Seed(channel))[6] == true
    ensures forall j :: 0 <= j < 6 ==> ByteBits(Seed(channel))[j] == ByteBits(channel)[j]
  {
  }

  /** The shift register produces the recurrence's sequence. */
  lemma RegisterFollowsRecurrence(channel: bv8, n: nat)
    requires channel < 64
    ensures Out(After(Seed(channel), n)) == Sequence(channel, n)
  {
    ShiftState(channel, n);
    hide ByteBits, Sequence, Seed;
    StateBits(After(Seed(channel), n));
  }

  /** One byte with its first `n` bits whitened. */
  function Mixed(b: bv8, lfsr: bv8, n: nat): bv8
    requires n <= 8
  {
    if n == 0 then b
    else
      var p := Mixed(b, lfsr, n - 1);
      if Out(After(lfsr, n - 1)) then Flipped(p, n - 1) else p
  }

  lemma {:induction false} MixedAt(b: bv8, lfsr: bv8, n: nat, j: nat)
    requires n <= 8 && j < 8
    ensures BitAt(Mixed(b, lfsr, n), j) == (BitAt(b, j) != (j < n && Out(After(lfsr, j))))
    decreases n
  {
    hide Out, After, BitAt, Weight;
    if n > 0 {
      MixedAt(b, lfsr, n - 1, j);
      FlipAt(Mixed(b, lfsr, n - 1), n - 1, j);
    }
  }

  lemma MixedByte(b: bv8, lfsr: bv8)
    ensures ByteBits(Mixed(b, lfsr, 8)) == Whiten(ByteBits(b), lfsr)
  {
    hide Mixed, Out, After, BitAt, ByteBits;
    var l, r := ByteBits(Mixed(b, lfsr, 8)), Whiten(ByteBits(b), lfsr);
    forall j | 0 <= j < 8 ensures l[j] == r[j] {
      MixedAt(b, lfsr, 8, j);
    }
  }

  /** `bytes` whitened by a register that starts in state `lfsr`. */
  function WhitenedBytes(bytes: seq<bv8>, lfsr: bv8): (w: seq<bv8>)
    ensures |w| == |bytes|
    ensures forall i :: 0 <= i < |bytes| ==> w[i] == Mixed(bytes[i], After(lfsr, 8 * i), 8)
  {
    seq(|bytes|, i requires 0 <= i < |bytes| => Mixed(bytes[i], After(lfsr, 8 * i), 8))
  }

  lemma WhitenedCons(head: bv8, tail: seq<bv8>, lfsr: bv8)
    ensures WhitenedBytes([head] + tail, lfsr) == [Mixed(head, lfsr, 8)] + WhitenedBytes(tail, After(lfsr, 8))
  {
    hide Mixed, After, WhitenedBytes;
    AfterNone(lfsr);
    var all := [head] + tail;
    var l, w := WhitenedBytes(all, lfsr), WhitenedBytes(tail, After(lfsr, 8));
    forall i | 0 < i < |all| ensures l[i] == w[i - 1] {
      AfterSum(lfsr, 8, 8 * (i - 1));
      assert all[i] == tail[i - 1];
      assert l[i] == Mixed(all[i], After(lfsr, 8 * i), 8);
    }
    assert l[0] == Mixed(all[0], After(lfsr, 8 * 0), 8);
    assert l == [Mixed(head, lfsr, 8)] + w;
  }

  lemma {:induction false} WhitenedBits(bytes: seq<bv8>, lfsr: bv8)
    ensures Bits(WhitenedBytes(bytes, lfsr)) == Whiten(Bits(bytes), lfsr)
  {
    hide Mixed, After, ByteBits, Out, Whiten, WhitenedBytes;
    if bytes != [] {
      var head, tail := bytes[0], bytes[1..];
      assert bytes == [head] + tail;
      WhitenedBits(tail, After(lfsr, 8));
      WhitenedCons(head, tail, lfsr);
      MixedByte(head, lfsr);
      WhitenAppend(ByteBits(head), Bits(tail), lfsr);
    }
  }

  lemma AfterNone(lfsr: bv8)
    ensures After(lfsr, 0) == lfsr
  {
  }

  lemma AfterOne(lfsr: bv8, n: nat)
    ensures After(lfsr, n + 1) == Next(After(lfsr, n))
  {
    hide Next;
  }

  method WhitenByte(byte: bv8, lfsr: bv8) returns (whitened: bv8, state: bv8)
    ensures whitened == Mixed(byte, lfsr, 8) && state == After(lfsr, 8)
  {
    hide Out, After, Next, Weight;
    whitened, state := byte, lfsr;
    AfterNone(lfsr);
    for bit := 0 to 8
      invariant whitened == Mixed(byte, lfsr, bit) && state == After(lfsr, bit)
    {
      AfterOne(lfsr, bit);
      whitened, state := WhitenBit(whitened, state, Weight(bit));
    }
  }

  method WhitenBit(byte: bv8, lfsr: bv8, weight: bv8) returns (whitened: bv8, state: bv8)
    ensures whitened == if Out(lfsr) then byte ^ weight else byte
    ensures state == Next(lfsr)
  {
    whitened, state := byte, lfsr;
    if state & 1 != 0 {
      whitened := whitened ^ weight;
      state := state ^ 0x88;
    }
    state := state >> 1;
  }

  /** Whiten the bytes that follow a two-byte header; refuse without any change. */
  method OuterWhitening(bytes: array<bv8>, length: nat, channel: bv8) returns (ok: bool)
    requires length <= bytes.Length
    modifies bytes
    ensures ok <==> length <= Limit && channel <= 39
    ensures !ok ==> bytes[..] == old(bytes[..])
    ensures ok ==> bytes[..length] == WhitenedBytes(old(bytes[..length]), After(Seed(channel), 16))
    ensures bytes[length..] == old(bytes[length..])
  {
    if length > Limit || channel > 39 { return false; }
    ghost var seed := Seed(channel);
    var lfsr := channel | 0x40;
    hide Mixed, After, Seed;
    AfterNone(seed);
    var i := 0;
    while i < length + 2
      invariant 0 <= i <= length + 2
      invariant lfsr == After(seed, 8 * i)
      invariant forall k :: 0 <= k < i - 2 ==> bytes[k] == Mixed(old(bytes[k]), After(seed, 16 + 8 * k), 8)
      invariant forall k :: 0 <= k < bytes.Length && k >= i - 2 ==> bytes[k] == old(bytes[k])
    {
      AfterSum(seed, 8 * i, 8);
      var x := if i >= 2 then bytes[i - 2] else 0;
      x, lfsr := WhitenByte(x, lfsr);
      if i >= 2 { bytes[i - 2] := x; }
      i := i + 1;
    }
    forall k | 0 <= k < length
      ensures bytes[k] == WhitenedBytes(old(bytes[..length]), After(seed, 16))[k]
    {
      AfterSum(seed, 16, 8 * k);
    }
    return true;
  }

  // --------------------------------------------------------------------------
  // The CRC register, position 23 first
  // --------------------------------------------------------------------------

  type Register = r: seq<bool> | |r| == 24 witness seq(24, i => false)

  const Zero: Register := seq(24, i => false)

  /** Positions that receive the feedback: x^10 + x^9 + x^6 + x^4 + x^3 + x + 1. */
  predicate Tap(i: nat) {
    i == 13 || i == 14 || i == 17 || i == 19 || i == 20 || i == 22 || i == 23
  }

  function Step(r: Register, b: bool): Register {
    var feedback := r[0] != b;
    seq(24, i requires 0 <= i < 24 => (i < 23 && r[i + 1]) != (feedback && Tap(i)))
  }

  function Run(r: Register, bits: seq<bool>): Register
    decreases |bits|
  {
    if bits == [] then r else Run(Step(r, bits[0]), bits[1..])
  }

  lemma {:induction false} RunAppend(r: Register, a: seq<bool>, b: seq<bool>)
    ensures Run(r, a + b) == Run(Run(r, a), b)
    decreases |a|
  {
    hide Step;
    if a == [] {
      assert a + b == b;
    } else {
      assert (a + b)[1..] == a[1..] + b && (a + b)[0] == a[0];
      RunAppend(Step(r, a[0]), a[1..], b);
    }
  }

  /** At most 24 bits combined into the register's leading positions. */
  function Combine(r: Register, bits: seq<bool>): Register
    requires |bits| <= 24
  {
    seq(24, i requires 0 <= i < 24 => r[i] != (i < |bits| && bits[i]))
  }

  function Zeros(r: Register, n: nat): Register
    decreases n
  {
    if n == 0 then r else Zeros(Step(r, false), n - 1)
  }

  lemma CombineStep(r: Register, bits: seq<bool>)
    requires 0 < |bits| <= 24
    ensures Combine(Step(r, bits[0]), bits[1..]) == Step(Combine(r, bits), false)
  {
    hide Tap;
  }

  /** Feeding at most 24 bits equals feeding as many zeros to the register combined with them. */
  lemma {:induction false} RunIsZeros(r: Register, bits: seq<bool>)
    requires |bits| <= 24
    ensures Run(r, bits) == Zeros(Combine(r, bits), |bits|)
    decreases |bits|
  {
    if bits == [] {
      assert Combine(r, bits) == r;
    } else {
      hide Step, Combine;
      RunIsZeros(Step(r, bits[0]), bits[1..]);
      CombineStep(r, bits);
    }
  }

  lemma StepInjective(r: Register, s: Register, b: bool)
    requires r != s
    ensures Step(r, b) != Step(s, b)
  {
    if Step(r, b) == Step(s, b) {
      assert Tap(23);
      assert Step(r, b)[23] == (r[0] != b) && Step(s, b)[23] == (s[0] != b);
      forall i | 0 <= i < 24 ensures r[i] == s[i] {
        if i > 0 {
          assert Step(r, b)[i - 1] == Step(s, b)[i - 1];
        }
      }
    }
  }

  lemma {:induction false} RunInjective(r: Register, s: Register, bits: seq<bool>)
    requires r != s
    ensures Run(r, bits) != Run(s, bits)
    decreases |bits|
  {
    hide Step;
    if bits != [] {
      StepInjective(r, s, bits[0]);
      RunInjective(Step(r, bits[0]), Step(s, bits[0]), bits[1..]);
    }
  }

  lemma {:induction false} ZerosInjective(r: Register, s: Register, n: nat)
    requires r != s
    ensures Zeros(r, n) != Zeros(s, n)
    decreases n
  {
    hide Step;
    if n > 0 {
      StepInjective(r, s, false);
      ZerosInjective(Step(r, false), Step(s, false), n - 1);
    }
  }

  lemma {:induction false} ZeroStays(n: nat)
    ensures Zeros(Zero, n) == Zero
    decreases n
  {
    if n > 0 {
      assert Step(Zero, false) == Zero;
      hide Step;
      ZeroStays(n - 1);
    }
  }

  /** Exactly the register itself, sent from position 23 down, brings the register to zero. */
  lemma ResidueIsZero(r: Register, bits: seq<bool>)
    requires |bits| == 24
    ensures Run(r, bits) == Zero <==> bits == r
  {
    hide Run, Zeros;
    RunIsZeros(r, bits);
    var c := Combine(r, bits);
    ZeroStays(24);
    if c == Zero {
      forall i | 0 <= i < 24 ensures bits[i] == r[i] {
        assert !c[i];
      }
    } else {
      ZerosInjective(c, Zero, 24);
      var i :| 0 <= i < 24 && c[i] != Zero[i];
      assert bits[i] != r[i];
    }
  }

  /** `b` is `a` with an error burst of at most 24 bits. */
  ghost predicate Burst(a: seq<bool>, b: seq<bool>) {
    |a| == |b| && a != b &&
    exists from: nat, to: nat ::
      from <= to <= |a| && to - from <= 24 && a[..from] == b[..from] && a[to..] == b[to..]
  }

  /** A burst of at most 24 bits always changes the final register. */
  lemma BurstChangesRegister(r: Register, a: seq<bool>, b: seq<bool>)
    requires Burst(a, b)
    ensures Run(r, a) != Run(r, b)
  {
    hide Run, Zeros, Combine;
    var from: nat, to: nat :|
      from <= to <= |a| && to - from <= 24 && a[..from] == b[..from] && a[to..] == b[to..];
    var x, y := a[from..to], b[from..to];
    assert a == a[..from] + x + a[to..];
    assert b == a[..from] + y + a[to..];
    var middle := Run(r, a[..from]);
    RunAppend(r, a[..from], x);
    RunAppend(r, a[..from] + x, a[to..]);
    RunAppend(r, a[..from], y);
    RunAppend(r, a[..from] + y, a[to..]);
    RunIsZeros(middle, x);
    RunIsZeros(middle, y);
    CombineInjective(middle, x, y);
    ZerosInjective(Combine(middle, x), Combine(middle, y), to - from);
    RunInjective(Run(middle, x), Run(middle, y), a[to..]);
  }

  lemma CombineInjective(r: Register, x: seq<bool>, y: seq<bool>)
    requires |x| == |y| <= 24 && x != y
    ensures Combine(r, x) != Combine(r, y)
  {
    var i :| 0 <= i < |x| && x[i] != y[i];
    assert Combine(r, x)[i] != Combine(r, y)[i];
  }

  /** Whether the generator polynomial has the power `e` (section 3.1.1 of Bluetooth Core Vol 6 Part B). */
  predicate Generator(e: int) {
    e in {24, 10, 9, 6, 4, 3, 1, 0}
  }

  function Zeroes(n: nat): (z: seq<bool>)
    ensures |z| == n
  {
    seq(n, i => false)
  }

  function Sum(a: seq<bool>, b: seq<bool>): (c: seq<bool>)
    requires |a| == |b|
    ensures |c| == |a|
  {
    seq(|a|, i requires 0 <= i < |a| => a[i] != b[i])
  }

  /** The generator, or nothing, from the top of `n` + 24 coefficients down. */
  function Term(q: bool, n: nat): (t: seq<bool>)
    ensures |t| == n + 24
  {
    seq(n + 24, i => q && i <= 24 && Generator(24 - i))
  }

  /** The product of `q` and the generator, modulo two; coefficients from the highest power down. */
  function Product(q: seq<bool>): (p: seq<bool>)
    ensures |p| == |q| + 24
    decreases |q|
  {
    if q == [] then Zeroes(24)
    else Sum(Term(q[0], |q|), [false] + Product(q[1..]))
  }

  /** The bits followed by 24 zeros, with the initial register added to the first 24 coefficients. */
  function Dividend(r: Register, bits: seq<bool>): (d: seq<bool>)
    ensures |d| == |bits| + 24
  {
    Sum(bits + Zeroes(24), r + Zeroes(|bits|))
  }

  function Quotient(r: Register, bits: seq<bool>): (q: seq<bool>)
    ensures |q| == |bits|
    decreases |bits|
  {
    if bits == [] then [] else [r[0] != bits[0]] + Quotient(Step(r, bits[0]), bits[1..])
  }

  lemma DivideOnce(r: Register, bits: seq<bool>)
    requires bits != []
    ensures Dividend(r, bits) == Sum(Term(r[0] != bits[0], |bits|), [false] + Dividend(Step(r, bits[0]), bits[1..]))
  {
    var n := |bits|;
    var f := r[0] != bits[0];
    var d, e := Dividend(r, bits), Dividend(Step(r, bits[0]), bits[1..]);
    var g := Term(f, n);
    forall k | 0 <= k < n + 24 ensures d[k] == Sum(g, [false] + e)[k] {
      if k > 0 && k <= 24 { assert Tap(k - 1) == Generator(24 - k); }
    }
  }

  lemma SumRegroups(a: seq<bool>, b: seq<bool>, c: seq<bool>)
    requires |a| == |b| == |c|
    ensures Sum(a, Sum(b, c)) == Sum(Sum(a, b), c)
  {
  }

  /** The register is the remainder of the bits, and the initial register above them, divided by the generator. */
  lemma {:induction false} RegisterIsRemainder(r: Register, bits: seq<bool>)
    ensures Dividend(r, bits) == Sum(Product(Quotient(r, bits)), Zeroes(|bits|) + Run(r, bits))
    decreases |bits|
  {
    if bits == [] {
      assert Dividend(r, bits) == r && Zeroes(0) + Run(r, bits) == r;
      assert Sum(Zeroes(24), r) == r;
    } else {
      hide Step, Dividend, Zeroes, Term, Sum;
      var n := |bits|;
      var next, rest := Step(r, bits[0]), bits[1..];
      RegisterIsRemainder(next, rest);
      DivideOnce(r, bits);
      var q, p, z := Quotient(r, bits), Product(Quotient(next, rest)), Zeroes(n - 1) + Run(next, rest);
      assert q[1..] == Quotient(next, rest) && q[0] == (r[0] != bits[0]);
      ShiftedSum(p, z);
      ZeroesMore(n - 1);
      assert [false] + z == Zeroes(n) + Run(r, bits);
      SumRegroups(Term(q[0], n), [false] + p, [false] + z);
    }
  }

  lemma ShiftedSum(a: seq<bool>, b: seq<bool>)
    requires |a| == |b|
    ensures [false] + Sum(a, b) == Sum([false] + a, [false] + b)
  {
  }

  lemma ZeroesMore(n: nat)
    ensures [false] + Zeroes(n) == Zeroes(n + 1)
  {
  }

  // --------------------------------------------------------------------------
  // The register in a machine word
  // --------------------------------------------------------------------------

  function Shifted(crc: bv32): bv32 {
    (crc << 1) & 0xffffff
  }

  function Has(x: bv32, w: bv32): bool {
    x & w != 0
  }

  function WordStep(crc: bv32, b: bool): bv32 {
    if Has(crc, 0x800000) != b then Shifted(crc) ^ 0x65b else Shifted(crc)
  }

  /** The weight of register position 23 - i. */
  function Place(i: nat): bv32
    requires i < 24
  {
    match i
    case 0 => 0x800000 case 1 => 0x400000 case 2 => 0x200000 case 3 => 0x100000
    case 4 => 0x80000 case 5 => 0x40000 case 6 => 0x20000 case 7 => 0x10000
    case 8 => 0x8000 case 9 => 0x4000 case 10 => 0x2000 case 11 => 0x1000
    case 12 => 0x800 case 13 => 0x400 case 14 => 0x200 case 15 => 0x100
    case 16 => 0x80 case 17 => 0x40 case 18 => 0x20 case 19 => 0x10
    case 20 => 8 case 21 => 4 case 22 => 2 case 23 => 1
  }

  function RegisterOf(crc: bv32): Register {
    seq(24, i requires 0 <= i < 24 => Has(crc, Place(i)))
  }

  lemma XorHas(x: bv32, i: nat)
    requires i < 24
    ensures Has(x ^ 0x65b, Place(i)) == (Has(x, Place(i)) != Tap(i))
  {
    match i
    case 0 => case 1 => case 2 => case 3 => case 4 => case 5 => case 6 => case 7 =>
    case 8 => case 9 => case 10 => case 11 => case 12 => case 13 => case 14 => case 15 =>
    case 16 => case 17 => case 18 => case 19 => case 20 => case 21 => case 22 => case 23 =>
  }

  lemma ShiftHas(x: bv32, i: nat)
    requires i < 24
    ensures Has(Shifted(x), Place(i)) == (i < 23 && Has(x, Place(i + 1)))
  {
    match i
    case 0 => case 1 => case 2 => case 3 => case 4 => case 5 => case 6 => case 7 =>
    case 8 => case 9 => case 10 => case 11 => case 12 => case 13 => case 14 => case 15 =>
    case 16 => case 17 => case 18 => case 19 => case 20 => case 21 => case 22 => case 23 =>
  }

  lemma WordStepAt(crc: bv32, b: bool, i: nat)
    requires i < 24
    ensures Has(WordStep(crc, b), Place(i)) == ((i < 23 && Has(crc, Place(i + 1))) != (Has(crc, Place(0)) != b && Tap(i)))
  {
    assert Place(0) == 0x800000;
    hide Has, Shifted, Tap, Place;
    XorHas(Shifted(crc), i);
    ShiftHas(crc, i);
  }

  lemma WordStepFollows(crc: bv32, b: bool)
    ensures RegisterOf(WordStep(crc, b)) == Step(RegisterOf(crc), b)
  {
    hide Has, WordStep, Tap, Place;
    var l, r := RegisterOf(WordStep(crc, b)), Step(RegisterOf(crc), b);
    forall i | 0 <= i < 24 ensures l[i] == r[i] {
      WordStepAt(crc, b, i);
    }
  }

  function Reverse8(x: bv8): bv8 {
    var a := (x >> 4) | (x << 4);
    var b := ((a & 0xcc) >> 2) | ((a & 0x33) << 2);
    ((b & 0xaa) >> 1) | ((b & 0x55) << 1)
  }

  lemma ReverseAt(x: bv8, j: nat)
    requires j < 8
    ensures BitAt(Reverse8(x), j) == BitAt(x, 7 - j)
  {
    match j
    case 0 => case 1 => case 2 => case 3 => case 4 => case 5 => case 6 => case 7 =>
  }

  function Top(crc: bv32): bv8 { LowByte(crc >> 16) }
  function Middle(crc: bv32): bv8 { LowByte(crc >> 8) }
  function Bottom(crc: bv32): bv8 { LowByte(crc) }

  /** A word truncated to its low eight bits. */
  function LowByte(x: bv32): bv8 {
    Pick(x, 0x80, 0x80) | Pick(x, 0x40, 0x40) | Pick(x, 0x20, 0x20) | Pick(x, 0x10, 0x10) |
    Pick(x, 8, 8) | Pick(x, 4, 4) | Pick(x, 2, 2) | Pick(x, 1, 1)
  }

  function Pick(x: bv32, w: bv32, b: bv8): bv8 {
    if Has(x, w) then b else 0
  }

  /** The three bytes that carry the register. */
  function CrcBytes(crc: bv32): seq<bv8> {
    [Reverse8(Top(crc)), Reverse8(Middle(crc)), Reverse8(Bottom(crc))]
  }

  lemma LowByteBits(x: bv32)
    ensures (LowByte(x) & 0x1 != 0) == Has(x, 0x1)
    ensures (LowByte(x) & 0x2 != 0) == Has(x, 0x2)
    ensures (LowByte(x) & 0x4 != 0) == Has(x, 0x4)
    ensures (LowByte(x) & 0x8 != 0) == Has(x, 0x8)
    ensures (LowByte(x) & 0x10 != 0) == Has(x, 0x10)
    ensures (LowByte(x) & 0x20 != 0) == Has(x, 0x20)
    ensures (LowByte(x) & 0x40 != 0) == Has(x, 0x40)
    ensures (LowByte(x) & 0x80 != 0) == Has(x, 0x80)
  {
    hide Has;
  }

  lemma ShiftedBits(x: bv32)
    ensures Has(x >> 16, 0x1) == Has(x, 0x10000) && Has(x >> 8, 0x1) == Has(x, 0x100)
    ensures Has(x >> 16, 0x2) == Has(x, 0x20000) && Has(x >> 8, 0x2) == Has(x, 0x200)
    ensures Has(x >> 16, 0x4) == Has(x, 0x40000) && Has(x >> 8, 0x4) == Has(x, 0x400)
    ensures Has(x >> 16, 0x8) == Has(x, 0x80000) && Has(x >> 8, 0x8) == Has(x, 0x800)
    ensures Has(x >> 16, 0x10) == Has(x, 0x100000) && Has(x >> 8, 0x10) == Has(x, 0x1000)
    ensures Has(x >> 16, 0x20) == Has(x, 0x200000) && Has(x >> 8, 0x20) == Has(x, 0x2000)
    ensures Has(x >> 16, 0x40) == Has(x, 0x400000) && Has(x >> 8, 0x40) == Has(x, 0x4000)
    ensures Has(x >> 16, 0x80) == Has(x, 0x800000) && Has(x >> 8, 0x80) == Has(x, 0x8000)
  {
  }

  lemma LowByteAt(x: bv32, j: nat)
    requires j < 8
    ensures BitAt(LowByte(x), 7 - j) == Has(x, Place(16 + j))
  {
    LowByteBits(x);
    hide Has, LowByte;
    if j < 4 { assert j == 0 || j == 1 || j == 2 || j == 3; } else { assert j == 4 || j == 5 || j == 6 || j == 7; }
  }

  lemma ShiftedDown(x: bv32, j: nat)
    requires j < 8
    ensures Has(x >> 16, Place(16 + j)) == Has(x, Place(j))
    ensures Has(x >> 8, Place(16 + j)) == Has(x, Place(8 + j))
  {
    ShiftedBits(x);
    hide Has;
    if j < 4 { assert j == 0 || j == 1 || j == 2 || j == 3; } else { assert j == 4 || j == 5 || j == 6 || j == 7; }
  }

  lemma CrcBytesAt(crc: bv32, j: nat)
    requires j < 8
    ensures ByteBits(Reverse8(Top(crc)))[j] == RegisterOf(crc)[j]
    ensures ByteBits(Reverse8(Middle(crc)))[j] == RegisterOf(crc)[8 + j]
    ensures ByteBits(Reverse8(Bottom(crc)))[j] == RegisterOf(crc)[16 + j]
  {
    hide ByteBits, LowByte, Reverse8, Has, Place, BitAt;
    ReverseAt(Top(crc), j);
    ReverseAt(Middle(crc), j);
    ReverseAt(Bottom(crc), j);
    LowByteAt(crc >> 16, j);
    LowByteAt(crc >> 8, j);
    LowByteAt(crc, j);
    ShiftedDown(crc, j);
  }

  lemma CrcBytesAreRegister(crc: bv32)
    ensures Bits(CrcBytes(crc)) == RegisterOf(crc)
  {
    hide ByteBits, Top, Middle, Bottom, Reverse8, RegisterOf;
    var a, b, c := Reverse8(Top(crc)), Reverse8(Middle(crc)), Reverse8(Bottom(crc));
    assert CrcBytes(crc) == [a] + [b] + [c];
    hide Bits;
    BitsAppend([a] + [b], [c]);
    BitsAppend([a], [b]);
    BitsOne(a);
    BitsOne(b);
    BitsOne(c);
    forall j | 0 <= j < 8
      ensures ByteBits(a)[j] == RegisterOf(crc)[j]
      ensures ByteBits(b)[j] == RegisterOf(crc)[8 + j]
      ensures ByteBits(c)[j] == RegisterOf(crc)[16 + j]
    {
      CrcBytesAt(crc, j);
    }
    var l, r := ByteBits(a) + ByteBits(b) + ByteBits(c), RegisterOf(crc);
    forall i | 0 <= i < 24 ensures l[i] == r[i] {
      var j := if i < 8 then i else if i < 16 then i - 8 else i - 16;
      assert ByteBits(a)[j] == r[j] && ByteBits(b)[j] == r[8 + j] && ByteBits(c)[j] == r[16 + j];
    }
  }

  // --------------------------------------------------------------------------
  // The packet
  // --------------------------------------------------------------------------

  /** What follows the access address on air: the PDU and its check, whitened. */
  function AirBody(init: Register, channel: bv8, pdu: seq<bool>): seq<bool> {
    Whiten(pdu + Run(init, pdu), Seed(channel))
  }

  function Preamble(aa: bv32, phy: nat): (p: seq<bv8>)
    ensures |p| == phy
  {
    seq(phy, i => if Has(aa, 1) then 0x55 else 0xaa)
  }

  function AddressBytes(aa: bv32): (a: seq<bv8>)
    ensures |a| == 4
  {
    [LowByte(aa), LowByte(aa >> 8), LowByte(aa >> 16), LowByte(aa >> 24)]
  }

  function AirPacket(phy: nat, aa: bv32, crcInit: bv32, channel: bv8, pdu: seq<bv8>): seq<bool> {
    Bits(Preamble(aa, phy) + AddressBytes(aa)) + AirBody(RegisterOf(crcInit), channel, Bits(pdu))
  }

  /** The register of a receiver that removes the whitening and checks PDU and CRC. */
  function Received(init: Register, channel: bv8, air: seq<bool>): Register {
    Run(init, Whiten(air, Seed(channel)))
  }

  /** The receiver gets the PDU back and ends with a zero register. */
  lemma ReceiverAccepts(init: Register, channel: bv8, pdu: seq<bool>)
    ensures var air := AirBody(init, channel, pdu);
      Received(init, channel, air) == Zero && Whiten(air, Seed(channel))[..|pdu|] == pdu
  {
    hide Whiten, Run, Seed;
    var check := Run(init, pdu);
    WhitenTwice(pdu + check, Seed(channel));
    RunAppend(init, pdu, check);
    ResidueIsZero(check, check);
  }

  /** A receiver rejects whatever differs from a sent packet by a burst of at most 24 bits. */
  lemma ReceiverRejectsBurst(init: Register, channel: bv8, pdu: seq<bool>, heard: seq<bool>)
    requires Burst(AirBody(init, channel, pdu), heard)
    ensures Received(init, channel, heard) != Zero
  {
    hide Run, Seed, After, Out, AirBody;
    var air := AirBody(init, channel, pdu);
    ReceiverAccepts(init, channel, pdu);
    var a, b := Whiten(air, Seed(channel)), Whiten(heard, Seed(channel));
    var from: nat, to: nat :|
      from <= to <= |air| && to - from <= 24 && air[..from] == heard[..from] && air[to..] == heard[to..];
    forall i | 0 <= i < |air| ensures air[i] == heard[i] <==> a[i] == b[i] {
    }
    assert a[..from] == b[..from] by {
      forall i | 0 <= i < from ensures a[i] == b[i] {
        assert air[..from][i] == heard[..from][i];
      }
    }
    assert a[to..] == b[to..] by {
      forall i | to <= i < |air| ensures a[i] == b[i] {
        assert air[to..][i - to] == heard[to..][i - to];
      }
    }
    var i :| 0 <= i < |air| && air[i] != heard[i];
    assert a[i] != b[i];
    BurstChangesRegister(init, a, b);
  }

  method CrcByte(crc: bv32, byte: bv8) returns (next: bv32)
    ensures RegisterOf(next) == Run(RegisterOf(crc), ByteBits(byte))
  {
    hide Step, RegisterOf, ByteBits, WordStep;
    next := crc;
    assert ByteBits(byte)[..0] == [];
    for bit := 0 to 8
      invariant RegisterOf(next) == Run(RegisterOf(crc), ByteBits(byte)[..bit])
    {
      var b := byte & Weight(bit) != 0;
      assert b == BitAt(byte, bit) == ByteBits(byte)[bit];
      assert ByteBits(byte)[..bit + 1] == ByteBits(byte)[..bit] + [b];
      RunAppend(RegisterOf(crc), ByteBits(byte)[..bit], [b]);
      RunOne(RegisterOf(next), b);
      WordStepFollows(next, b);
      next := WordStep(next, b);
    }
    assert ByteBits(byte)[..8] == ByteBits(byte);
  }

  lemma RunOne(r: Register, b: bool)
    ensures Run(r, [b]) == Step(r, b)
  {
    hide Step;
    assert Run(r, [b]) == Run(Step(r, b), []);
  }

  method CrcOf(init: bv32, pdu: seq<bv8>) returns (crc: bv32)
    ensures RegisterOf(crc) == Run(RegisterOf(init), Bits(pdu))
  {
    hide RegisterOf, ByteBits, Run, Bits;
    crc := init;
    RunNone(RegisterOf(init));
    assert pdu[..0] == [];
    for i := 0 to |pdu|
      invariant RegisterOf(crc) == Run(RegisterOf(init), Bits(pdu[..i]))
    {
      assert pdu[..i + 1] == pdu[..i] + [pdu[i]];
      BitsAppend(pdu[..i], [pdu[i]]);
      BitsOne(pdu[i]);
      RunAppend(RegisterOf(init), Bits(pdu[..i]), ByteBits(pdu[i]));
      crc := CrcByte(crc, pdu[i]);
    }
    assert pdu[..|pdu|] == pdu;
  }

  lemma RunNone(r: Register)
    ensures Run(r, Bits([])) == r
  {
  }

  method WhitenFrom(packet: array<bv8>, start: nat, channel: bv8)
    requires start <= packet.Length
    modifies packet
    ensures packet[..] == old(packet[..start]) + WhitenedBytes(old(packet[start..]), Seed(channel))
  {
    hide Mixed, After, Seed;
    var lfsr := channel | 0x40;
    ghost var seed, body := Seed(channel), packet[start..];
    assert lfsr == seed by { SeedIs(channel); }
    AfterNone(seed);
    var i := start;
    while i < packet.Length
      invariant start <= i <= packet.Length
      invariant lfsr == After(seed, 8 * (i - start))
      invariant forall k :: 0 <= k < start ==> packet[k] == old(packet[k])
      invariant forall k :: start <= k < i ==> packet[k] == WhitenedBytes(body, seed)[k - start]
      invariant forall k :: i <= k < packet.Length ==> packet[k] == old(packet[k])
    {
      AfterSum(seed, 8 * (i - start), 8);
      packet[i], lfsr := WhitenByte(packet[i], lfsr);
      i := i + 1;
    }
  }

  method CopyOut(packet: array<bv8>, out: array<bv8>)
    requires packet.Length <= out.Length && packet != out
    modifies out
    ensures out[..packet.Length] == packet[..] && out[packet.Length..] == old(out[packet.Length..])
  {
    for k := 0 to packet.Length
      invariant forall j :: 0 <= j < k ==> out[j] == packet[j]
      invariant forall j :: k <= j < out.Length ==> out[j] == old(out[j])
    {
      out[k] := packet[k];
    }
  }

  predicate Buildable(crcInit: bv32, channel: bv8, phy: nat, length: nat) {
    1 <= phy <= 2 && channel <= 39 && crcInit <= 0xffffff && 2 <= length <= Limit - 7 - phy
  }

  /**
   Build the packet privately, then copy it out: the PDU may lie in the output buffer,
   and a refusal changes nothing.
   */
  method PacketBuild(out: array<bv8>, capacity: nat, aa: bv32, crcInit: bv32, channel: bv8, phy: nat,
                     pdu: array<bv8>, length: nat) returns (written: Option<nat>)
    requires capacity <= out.Length && length <= pdu.Length
    modifies out
    ensures written.Some? <==> Buildable(crcInit, channel, phy, length) && phy + 7 + length <= capacity
    ensures written.None? ==> out[..] == old(out[..])
    ensures written.Some? ==>
      written.value == phy + 7 + length && out[written.value..] == old(out[written.value..]) &&
      Bits(out[..written.value]) == AirPacket(phy, aa, crcInit, channel, old(pdu[..length]))
  {
    hide Buildable, Bits, WhitenedBytes, Seed, AirPacket;
    var good := IsBuildable(crcInit, channel, phy, length);
    if !good || capacity < phy + 7 + length { return None; }
    ghost var content := pdu[..length];
    var front, body := Compose(aa, crcInit, channel, phy, pdu[..length]);
    var total := |front| + |body|;
    assert total == phy + 7 + length;
    PrivateBuild(front, body, channel, out);
    assert Bits(out[..total]) == AirPacket(phy, aa, crcInit, channel, content);
    return Some(total);
  }

  /** Preamble and address, and the PDU with its check, before whitening. */
  method Compose(aa: bv32, crcInit: bv32, channel: bv8, phy: nat, pdu: seq<bv8>) returns (front: seq<bv8>, body: seq<bv8>)
    ensures |front| == phy + 4 && |body| == |pdu| + 3
    ensures Bits(front + WhitenedBytes(body, Seed(channel))) == AirPacket(phy, aa, crcInit, channel, pdu)
  {
    hide Preamble, AddressBytes, CrcBytes, Bits, Run, WhitenedBytes, Seed, AirBody, RegisterOf;
    var crc := CrcOf(crcInit, pdu);
    CrcBytesLength(crc);
    front := Preamble(aa, phy) + AddressBytes(aa);
    body := pdu + CrcBytes(crc);
    BodyBits(crcInit, crc, channel, pdu);
    BitsAppend(front, WhitenedBytes(body, Seed(channel)));
  }

  method IsBuildable(crcInit: bv32, channel: bv8, phy: nat, length: nat) returns (good: bool)
    ensures good == Buildable(crcInit, channel, phy, length)
  {
    if phy < 1 || phy > 2 || channel > 39 || crcInit > 0xffffff || length < 2 || length > Limit - 7 - phy { return false; }
    return true;
  }

  /** Put the packet together in a private buffer, whiten all after its front, and copy it out. */
  method PrivateBuild(front: seq<bv8>, body: seq<bv8>, channel: bv8, out: array<bv8>)
    requires |front| + |body| <= out.Length
    modifies out
    ensures out[..|front| + |body|] == front + WhitenedBytes(body, Seed(channel))
    ensures out[|front| + |body|..] == old(out[|front| + |body|..])
  {
    hide WhitenedBytes, Seed;
    var bytes := front + body;
    var packet := new bv8[|bytes|](i requires 0 <= i < |bytes| => bytes[i]);
    assert packet[..] == bytes;
    assert packet[..|front|] == front && packet[|front|..] == body;
    WhitenFrom(packet, |front|, channel);
    CopyOut(packet, out);
  }

  lemma CrcBytesLength(crc: bv32)
    ensures |CrcBytes(crc)| == 3
  {
  }

  lemma SeedIs(channel: bv8)
    ensures channel | 0x40 == Seed(channel)
  {
  }

  lemma BodyBits(crcInit: bv32, crc: bv32, channel: bv8, pdu: seq<bv8>)
    requires RegisterOf(crc) == Run(RegisterOf(crcInit), Bits(pdu))
    ensures Bits(WhitenedBytes(pdu + CrcBytes(crc), Seed(channel))) == AirBody(RegisterOf(crcInit), channel, Bits(pdu))
  {
    hide Bits, CrcBytes, RegisterOf, Run, Seed, Whiten, WhitenedBytes;
    WhitenedBits(pdu + CrcBytes(crc), Seed(channel));
    BitsAppend(pdu, CrcBytes(crc));
    CrcBytesAreRegister(crc);
  }

  // --------------------------------------------------------------------------
  // A packet inside another packet's payload
  // --------------------------------------------------------------------------

  /** What the radio's own whitening puts on air for a header and payload. */
  function HardwareAir(header: seq<bv8>, payload: seq<bv8>, channel: bv8): seq<bool> {
    Whiten(Bits(header + payload), Seed(channel))
  }

  /** After the two header bytes the hardware sends exactly the packet that was whitened beforehand. */
  lemma InnerPacketOnAir(header: seq<bv8>, packet: seq<bv8>, channel: bv8)
    requires |header| == 2
    ensures HardwareAir(header, WhitenedBytes(packet, After(Seed(channel), 16)), channel)[16..] == Bits(packet)
  {
    hide Bits, Seed, Whiten, WhitenedBytes, After;
    var seed := Seed(channel);
    var middle := After(seed, 16);
    var payload := WhitenedBytes(packet, middle);
    BitsAppend(header, payload);
    WhitenAppend(Bits(header), Bits(payload), seed);
    WhitenedBits(packet, middle);
    WhitenTwice(Bits(packet), middle);
  }

  /** Half-microseconds on air of the outer preamble, access address and header. */
  function Lead(phy: int): int {
    if phy == 1 then 8 * (1 + 4 + 2) * 2 else 8 * (2 + 4 + 2)
  }

  function DtmStart(hs: int, hus: int, phy: int): (start: Option<(int, int)>)
    ensures start.Some? <==> 0 <= hs < 0x1000_0000 && 0 <= hus <= 624 && 1 <= phy <= 2
    ensures start.Some? ==> 0 <= start.value.0 < 0x1000_0000 && 0 <= start.value.1 <= 624
    ensures start.Some? ==> (start.value.0 * 625 + start.value.1 + Lead(phy)) % Ticks == hs * 625 + hus
  {
    if !(0 <= hs < 0x1000_0000) || !(0 <= hus <= 624) || phy < 1 || phy > 2 then None
    else
      var early := hus - (if phy == 1 then 112 else 64);
      if early >= 0 then Some((hs, early)) else Some(((hs - 1) % 0x1000_0000, early + 625))
  }

  /**
   Wrap an inner packet: the payload is such that the hardware's whitening puts the inner packet
   on air unchanged, and starts early by what precedes it.
   */
  method EmbedPdu(hs: int, hus: int, aa: bv32, crcInit: bv32, channel: bv8, phy: nat, pdu: array<bv8>, length: nat,
                  header: seq<bv8>) returns (outer: Option<(int, int, seq<bv8>)>)
    requires length <= pdu.Length && |header| == 2
    ensures outer.Some? <==> Buildable(crcInit, channel, phy, length) && DtmStart(hs, hus, phy).Some?
    ensures outer.Some? ==>
      HardwareAir(header, outer.value.2, channel)[16..] == AirPacket(phy, aa, crcInit, channel, pdu[..length]) &&
      Some((outer.value.0, outer.value.1)) == DtmStart(hs, hus, phy)
  {
    hide AirPacket, DtmStart, WhitenedBytes, HardwareAir, After, Seed, Bits;
    var bytes := new bv8[Limit](i => 0);
    var written := PacketBuild(bytes, Limit, aa, crcInit, channel, phy, pdu, length);
    if written.None? { return None; }
    ghost var inner := bytes[..written.value];
    var start := DtmStart(hs, hus, phy);
    if start.None? { return None; }
    var ok := OuterWhitening(bytes, written.value, channel);
    InnerPacketOnAir(header, inner, channel);
    return Some((start.value.0, start.value.1, bytes[..written.value]));
  }
}
