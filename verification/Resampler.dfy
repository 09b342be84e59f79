/**
 The 48-to-96 kHz interpolator (resample_2x.c) in exact arithmetic. Samples are 16-bit integers; the filter's
 binary32 taps are exact multiples of 2^-30 and are written here as those multiples.
 */
module Resampler {
  import opened Words

  const Unit: int := 0x4000_0000   // 2^30
  const HalfUnit: int := 0x2000_0000

  type Sample = x: int | -32768 <= x < 32768

  const Taps: seq<int> := [
    0, 88431, -395923, 1022689, -2123947, 3915416, -6679042, 10774408, -16666938, 24996356, -36740348, 53622020,
    -79244184, 122972232, -219363344, 680693120]

  /** The 32 taps of the even phase: symmetric. */
  function Tap(k: int): int {
    if 0 <= k < 16 then Taps[k] else if 16 <= k < 32 then Taps[31 - k] else 0
  }

  /** The input stream, silent before its start. */
  function At(past: seq<Sample>, i: int): Sample {
    if 0 <= i < |past| then past[i] else 0
  }

  /** The sample `k` before sample `n`. */
  function Back(past: seq<Sample>, n: int, k: int): Sample {
    At(past, n - k)
  }

  /** Direct convolution: taps lo <= k < hi against the samples behind n. */
  function Convolution(past: seq<Sample>, n: int, lo: int, hi: int): int
    decreases hi - lo
  {
    if lo >= hi then 0 else Convolution(past, n, lo, hi - 1) + Tap(hi - 1) * Back(past, n, hi - 1)
  }

  /** Round half away from zero, then clip. */
  function Rounded(s: int): int {
    if s >= 0 then (s + HalfUnit) / Unit else -((-s + HalfUnit) / Unit)
  }

  function Clipped(r: int): (y: Sample) {
    if r > 32767 then 32767 else if r < -32768 then -32768 else r
  }

  predicate Clips(r: int) {
    r > 32767 || r < -32768
  }

  /** The two outputs after the newest sample of `past`: the filtered one and the delayed one. */
  function EvenSum(past: seq<Sample>): int {
    Convolution(past, |past| - 1, 0, 32)
  }

  function Outputs(past: seq<Sample>): seq<Sample> {
    [Clipped(Rounded(EvenSum(past))), Back(past, |past| - 1, 15)]
  }

  /** All outputs for `input` that follows `past`, and how many of them were clipped. */
  function Resampled(past: seq<Sample>, input: seq<Sample>): (out: seq<Sample>)
    ensures |out| == 2 * |input|
    decreases |input|
  {
    if input == [] then []
    else Resampled(past, input[..|input| - 1]) + Outputs(past + input)
  }

  function ClipOf(past: seq<Sample>): nat {
    if Clips(Rounded(EvenSum(past))) then 1 else 0
  }

  /**
   The filtered output is the nearest sample to the exact sum, halves away from zero; the sum is clipped, and counted as such, exactly
   when that nearest value is beyond the range of a sample.
   */
  lemma RoundsToNearest(past: seq<Sample>)
    ensures var s, y := EvenSum(past), Outputs(past)[0];
      if s >= 32767 * Unit + HalfUnit then y == 32767 && ClipOf(past) == 1
      else if s <= -32768 * Unit - HalfUnit then y == -32768 && ClipOf(past) == 1
      else ClipOf(past) == 0 && (if s >= 0 then -HalfUnit <= s - Unit * y < HalfUnit else -HalfUnit < s - Unit * y <= HalfUnit)
  {
    hide EvenSum;
    RoundedIs(EvenSum(past));
    hide Rounded;
  }

  lemma RoundedIs(s: int)
    ensures var r := Rounded(s); if s >= 0 then -HalfUnit <= s - Unit * r < HalfUnit else -HalfUnit < s - Unit * r <= HalfUnit
  {
  }

  function ClipCount(past: seq<Sample>, input: seq<Sample>): nat
    decreases |input|
  {
    if input == [] then 0
    else ClipCount(past, input[..|input| - 1]) + ClipOf(past + input)
  }

  // --------------------------------------------------------------------------
  // What the stream promises
  // --------------------------------------------------------------------------

  /** Chunks do not matter: two in a row give what their concatenation gives. */
  lemma {:induction false} ChunksJoin(past: seq<Sample>, a: seq<Sample>, b: seq<Sample>)
    ensures Resampled(past, a + b) == Resampled(past, a) + Resampled(past + a, b)
    ensures ClipCount(past, a + b) == ClipCount(past, a) + ClipCount(past + a, b)
    decreases |b|
  {
    hide Outputs, EvenSum;
    if b == [] {
      assert a + b == a;
    } else {
      var c := b[..|b| - 1];
      assert (a + b)[..|a + b| - 1] == a + c;
      assert past + (a + b) == past + a + b;
      ChunksJoin(past, a, c);
    }
  }

  /** Output 2n is the 32-tap convolution at sample n; output 2n+1 is the sample fifteen before it. */
  lemma {:induction false} OutputAt(input: seq<Sample>, n: nat)
    requires n < |input|
    ensures Resampled([], input)[2 * n] == Clipped(Rounded(Convolution(input, n, 0, 32)))
    ensures Resampled([], input)[2 * n + 1] == At(input, n - 15)
    decreases |input|
  {
    hide Rounded, Clipped;
    var before := input[..|input| - 1];
    if n < |input| - 1 {
      OutputAt(before, n);
      SameHistory(before, input, n, 32);
    } else {
      assert [] + input == input;
    }
  }

  /** Convolution looks back only. */
  lemma {:induction false} SameHistory(a: seq<Sample>, b: seq<Sample>, n: int, hi: nat)
    requires |a| <= |b| && b[..|a|] == a && n < |a|
    ensures Convolution(a, n, 0, hi) == Convolution(b, n, 0, hi)
    decreases hi
  {
    hide Tap;
    if hi > 0 {
      SameHistory(a, b, n, hi - 1);
      assert Back(a, n, hi - 1) == Back(b, n, hi - 1);
    }
  }

  // --------------------------------------------------------------------------
  // The folded sum
  // --------------------------------------------------------------------------

  /** Pairs of samples that share a tap, as the loop adds them. */
  function Folded(past: seq<Sample>, n: int, m: nat): int {
    if m == 0 then 0 else Folded(past, n, m - 1) + Tap(m) * (Back(past, n, m) + Back(past, n, 31 - m))
  }

  lemma {:induction false} ConvolutionFirst(past: seq<Sample>, n: int, lo: int, hi: int)
    requires lo < hi
    ensures Convolution(past, n, lo, hi) == Tap(lo) * Back(past, n, lo) + Convolution(past, n, lo + 1, hi)
    decreases hi - lo
  {
    hide Tap, Back;
    if lo + 1 < hi { ConvolutionFirst(past, n, lo, hi - 1); }
  }

  lemma {:induction false} ConvolutionJoins(past: seq<Sample>, n: int, lo: int, mid: int, hi: int)
    requires lo <= mid <= hi
    ensures Convolution(past, n, lo, hi) == Convolution(past, n, lo, mid) + Convolution(past, n, mid, hi)
    decreases hi - mid
  {
    hide Tap, Back;
    if mid < hi { ConvolutionJoins(past, n, lo, mid, hi - 1); }
  }

  lemma Distribute(t: int, a: int, b: int)
    ensures t * (a + b) == t * a + t * b
  {
  }

  lemma {:induction false} FoldedIsOuter(past: seq<Sample>, n: int, m: nat)
    requires m <= 15
    ensures Folded(past, n, m) == Convolution(past, n, 1, m + 1) + Convolution(past, n, 31 - m, 31)
    decreases m
  {
    if m > 0 {
      FoldedIsOuter(past, n, m - 1);
      assert Tap(m) == Tap(31 - m);
      hide Tap, Back;
      ConvolutionFirst(past, n, 31 - m, 31);
      Distribute(Tap(m), Back(past, n, m), Back(past, n, 31 - m));
    }
  }

  lemma OuterTaps(a: int, b: int)
    ensures Tap(0) * a == 0 && Tap(31) * b == 0
  {
  }

  lemma LastTap(past: seq<Sample>, n: int)
    ensures Convolution(past, n, 0, 32) == Convolution(past, n, 0, 31) + Tap(31) * Back(past, n, 31)
  {
  }

  /** The fifteen folded products are the whole convolution; the outermost taps are zero. */
  lemma FoldedIsConvolution(past: seq<Sample>, n: int)
    ensures Folded(past, n, 15) == Convolution(past, n, 0, 32)
  {
    LastTap(past, n);
    OuterTaps(Back(past, n, 0), Back(past, n, 31));
    hide Tap, Back, Folded, Convolution;
    FoldedIsOuter(past, n, 15);
    ConvolutionJoins(past, n, 1, 16, 31);
    ConvolutionFirst(past, n, 0, 31);
  }

  function Magnitude(t: int): nat {
    if t < 0 then -t else t
  }

  function TapSum(m: nat): nat {
    if m == 0 then 0 else TapSum(m - 1) + Magnitude(Tap(m))
  }

  lemma {:induction false} Scaled(c: nat, a: int, b: int)
    requires a <= b
    ensures c * a <= c * b
  {
    if c > 0 {
      Scaled(c - 1, a, b);
      assert c * a == (c - 1) * a + a && c * b == (c - 1) * b + b;
    }
  }

  lemma ProductBound(t: int, p: int)
    requires -65536 <= p <= 65536
    ensures -65536 * Magnitude(t) <= t * p <= 65536 * Magnitude(t)
  {
    Scaled(Magnitude(t), p, 65536);
    Scaled(Magnitude(t), -65536, p);
    assert t * p == if t < 0 then -(Magnitude(t) * p) else Magnitude(t) * p;
  }

  lemma {:induction false} FoldedBound(past: seq<Sample>, n: int, m: nat)
    ensures -65536 * TapSum(m) <= Folded(past, n, m) <= 65536 * TapSum(m)
  {
    hide Tap, Magnitude;
    if m > 0 {
      FoldedBound(past, n, m - 1);
      ProductBound(Tap(m), Back(past, n, m) + Back(past, n, 31 - m));
    }
  }

  lemma TapSumIs()
    ensures TapSum(15) == 1259298398
  {
    assert TapSum(5) == 88431 + 395923 + 1022689 + 2123947 + 3915416;
    assert TapSum(10) == TapSum(5) + 6679042 + 10774408 + 16666938 + 24996356 + 36740348;
    assert TapSum(15) == TapSum(10) + 53622020 + 79244184 + 122972232 + 219363344 + 680693120;
  }

  /** For every input history and at every point of the loop the accumulator stays below 77000. */
  lemma AccumulatorBound(past: seq<Sample>, n: int, m: nat)
    requires m <= 15
    ensures -77000 * Unit < Folded(past, n, m) < 77000 * Unit
  {
    TapSumIs();
    TapSumGrows(m, 15);
    hide TapSum, Folded;
    FoldedBound(past, n, m);
  }

  lemma {:induction false} TapSumGrows(m: nat, k: nat)
    requires m <= k
    ensures TapSum(m) <= TapSum(k)
    decreases k
  {
    hide Tap, Magnitude;
    if m < k { TapSumGrows(m, k - 1); }
  }

  // --------------------------------------------------------------------------
  // A steady input
  // --------------------------------------------------------------------------

  function Gain(hi: nat): int {
    if hi == 0 then 0 else Gain(hi - 1) + Tap(hi - 1)
  }

  lemma {:induction false} SteadySum(past: seq<Sample>, n: int, x: Sample, hi: nat)
    requires forall k :: 0 <= k < hi ==> Back(past, n, k) == x
    ensures Convolution(past, n, 0, hi) == Gain(hi) * x
    decreases hi
  {
    hide Tap, Back;
    if hi > 0 {
      SteadySum(past, n, x, hi - 1);
      assert Convolution(past, n, 0, hi) == Convolution(past, n, 0, hi - 1) + Tap(hi - 1) * Back(past, n, hi - 1);
      assert Back(past, n, hi - 1) == x;
      hide Convolution;
      Distribute(x, Gain(hi - 1), Tap(hi - 1));
      assert Gain(hi) == Gain(hi - 1) + Tap(hi - 1);
    }
  }

  lemma GainIs()
    ensures Gain(32) == Unit + 68
  {
    assert Gain(4) == 715197;
    assert Gain(8) == 6602032;
    assert Gain(12) == 31813122;
    assert Gain(16) == 536870946;
    assert Gain(20) == 1041928770;
    assert Gain(24) == 1067139860;
    assert Gain(28) == 1073026695;
    assert Gain(32) == 1073741892;
  }

  /** After 32 equal samples both outputs are that sample: the rounding hides the taps' excess gain of 68 * 2^-30. */
  lemma SteadyIsKept(past: seq<Sample>, x: Sample)
    requires |past| >= 32 && forall i :: |past| - 32 <= i < |past| ==> past[i] == x
    ensures Outputs(past) == [x, x]
  {
    var n := |past| - 1;
    forall k | 0 <= k < 32 ensures Back(past, n, k) == x {
      assert past[n - k] == x;
    }
    SteadySum(past, n, x, 32);
    GainIs();
    hide Gain, Convolution, Rounded, Back;
    RoundsBack(x);
  }

  lemma RoundsBack(x: Sample)
    ensures Rounded((Unit + 68) * x) == x
  {
    var y: int := if x >= 0 then x else 0 - x;
    Quotient(y, 68 * y + HalfUnit);
    assert (Unit + 68) * y + HalfUnit == Unit * y + (68 * y + HalfUnit);
  }

  lemma Quotient(q: int, r: int)
    requires 0 <= r < Unit
    ensures (Unit * q + r) / Unit == q
  {
  }

  // --------------------------------------------------------------------------
  // The mirrored ring
  // --------------------------------------------------------------------------

  /** Thirty-two samples, each kept twice, so that every window is contiguous. */
  ghost predicate Holds(h: seq<int>, newest: nat, past: seq<Sample>) {
    |h| == 64 && newest < 32 &&
    (forall i :: 0 <= i < 32 ==> h[i] == h[i + 32]) &&
    (forall d :: 0 <= d < 32 ==> Cell(h, newest, d) == Back(past, |past| - 1, d))
  }

  /** The cell that holds the sample `d` before the newest. */
  function Cell(h: seq<int>, newest: nat, d: nat): int
    requires |h| == 64 && newest < 32 && d < 32
  {
    h[newest + 32 - d]
  }

  function Next(newest: nat): nat {
    (newest + 1) % 32
  }

  lemma StoreHolds(h: seq<int>, newest: nat, past: seq<Sample>, x: Sample)
    requires Holds(h, newest, past)
    ensures Holds(h[Next(newest) := x][Next(newest) + 32 := x], Next(newest), past + [x])
  {
    var next := Next(newest);
    var g := h[next := x][next + 32 := x];
    var more := past + [x];
    forall d | 0 <= d < 32 ensures Cell(g, next, d) == Back(more, |more| - 1, d) {
      if d > 0 {
        assert Cell(h, newest, d - 1) == Back(past, |past| - 1, d - 1);
        assert Back(past, |past| - 1, d - 1) == Back(more, |more| - 1, d);
        if next == 0 { assert h[32 - d] == h[32 - d + 32]; }
      }
    }
  }

  class Interpolator {
    const left: array<int>
    const right: array<int>
    var newest: nat
    var clips: nat
    ghost var pastLeft: seq<Sample>
    ghost var pastRight: seq<Sample>

    ghost predicate Valid()
      reads this, left, right
    {
      left != right && Holds(left[..], newest, pastLeft) && Holds(right[..], newest, pastRight)
    }

    constructor ()
      ensures Valid() && fresh(left) && fresh(right) && clips == 0 && pastLeft == [] && pastRight == []
    {
      left, right := new int[64](i => 0), new int[64](i => 0);
      newest, clips, pastLeft, pastRight := 0, 0, [], [];
      new;
      assert forall d :: 0 <= d < 32 ==> Cell(left[..], 0, d) == 0 && Cell(right[..], 0, d) == 0;
    }

    /** The filter over the window that ends at `at + 32`. */
    method Filter(history: array<int>, at: nat, ghost all: seq<Sample>) returns (sum: int)
      requires Holds(history[..], at, all)
      ensures sum == EvenSum(all)
    {
      hide Tap, Convolution, Back;
      ghost var n, h := |all| - 1, history[..];
      var window := at + 32;
      var early, late := window - 1, window - 30;
      sum := 0;
      for k := 1 to 16
        invariant early == window - k && late == window - (31 - k)
        invariant sum == Folded(all, n, k - 1)
      {
        assert Cell(h, at, k) == Back(all, n, k) && Cell(h, at, 31 - k) == Back(all, n, 31 - k);
        var pair := history[early] + history[late];
        sum := sum + Tap(k) * pair;
        early, late := early - 1, late + 1;
      }
      FoldedIsConvolution(all, n);
    }

    /** One sample of one channel: store it twice, filter, round and clip. */
    method Channel(history: array<int>, at: nat, x: Sample, ghost past: seq<Sample>) returns (even: Sample, odd: Sample, clipped: bool)
      requires at < 32 && Holds(history[..], (at + 31) % 32, past)
      modifies history
      ensures Holds(history[..], at, past + [x]) && [even, odd] == Outputs(past + [x])
      ensures clipped <==> Clips(Rounded(EvenSum(past + [x])))
    {
      hide Rounded, Clipped, EvenSum;
      ghost var was := history[..];
      ghost var all := past + [x];
      StoreHolds(was, (at + 31) % 32, past, x);
      history[at] := x;
      history[at + 32] := x;
      assert history[..] == was[at := x][at + 32 := x];
      var sum := Filter(history, at, all);
      var r := Rounded(sum);
      clipped := Clips(r);
      even := Clipped(r);
      assert Cell(history[..], at, 15) == Back(all, |all| - 1, 15);
      hide Holds, Back;
      odd := history[at + 32 - 15];
    }

    /** One frame: a sample of each channel. */
    method Frame(x: Sample, y: Sample) returns (l: seq<Sample>, r: seq<Sample>)
      requires Valid()
      modifies this, left, right
      ensures Valid() && pastLeft == old(pastLeft) + [x] && pastRight == old(pastRight) + [y]
      ensures l == Outputs(pastLeft) && r == Outputs(pastRight)
      ensures clips == old(clips) + ClipOf(pastLeft) + ClipOf(pastRight)
    {
      hide Outputs, EvenSum, Holds, Rounded;
      HoldsSmall(left[..], newest, pastLeft);
      var at := Next(newest);
      assert (at + 31) % 32 == newest;
      var even, odd, clipped := Channel(left, at, x, pastLeft);
      l := [even, odd];
      if clipped { clips := clips + 1; }
      even, odd, clipped := Channel(right, at, y, pastRight);
      r := [even, odd];
      if clipped { clips := clips + 1; }
      pastLeft, pastRight := pastLeft + [x], pastRight + [y];
      newest := at;
    }

    /** A chunk of any size; no input means silence. */
    method Process(input: Option<seq<Sample>>, frames: nat, outLeft: array<int>, outRight: array<int>)
      requires Valid() && (input.Some? ==> |input.value| == 2 * frames)
      requires outLeft.Length >= 2 * frames && outRight.Length >= 2 * frames
      requires outLeft != outRight && {outLeft, outRight} !! {left, right}
      modifies this, left, right, outLeft, outRight
      ensures Valid()
      ensures var l, r := Lane(input, frames, 0), Lane(input, frames, 1);
        pastLeft == old(pastLeft) + l && pastRight == old(pastRight) + r &&
        outLeft[..2 * frames] == Resampled(old(pastLeft), l) && outRight[..2 * frames] == Resampled(old(pastRight), r) &&
        clips == old(clips) + ClipCount(old(pastLeft), l) + ClipCount(old(pastRight), r)
    {
      hide Outputs, Valid, ClipOf, Resampled, ClipCount;
      ghost var l, r := Lane(input, frames, 0), Lane(input, frames, 1);
      ghost var a, b := pastLeft, pastRight;
      NothingYet(a);
      NothingYet(b);
      assert l[..0] == [] && r[..0] == [];
      for n := 0 to frames
        invariant Valid()
        invariant pastLeft == a + l[..n] && pastRight == b + r[..n]
        invariant outLeft[..2 * n] == Resampled(a, l[..n])
        invariant outRight[..2 * n] == Resampled(b, r[..n])
        invariant clips == old(clips) + ClipCount(a, l[..n]) + ClipCount(b, r[..n])
      {
        var x := if input.Some? then input.value[2 * n] else 0;
        var y := if input.Some? then input.value[2 * n + 1] else 0;
        assert l[..n + 1] == l[..n] + [x] && r[..n + 1] == r[..n] + [y];
        OneMore(a, l[..n], x);
        OneMore(b, r[..n], y);
        ghost var doneLeft, doneRight := outLeft[..2 * n], outRight[..2 * n];
        var p, q := Frame(x, y);
        assert |p| == 2 && |q| == 2 by { TwoOutputs(pastLeft); TwoOutputs(pastRight); }
        assert outLeft[..2 * n] == doneLeft && outRight[..2 * n] == doneRight;
        outLeft[2 * n], outLeft[2 * n + 1] := p[0], p[1];
        outRight[2 * n], outRight[2 * n + 1] := q[0], q[1];
        assert outLeft[..2 * (n + 1)] == doneLeft + p;
        assert outRight[..2 * (n + 1)] == doneRight + q;
      }
      assert l[..frames] == l && r[..frames] == r;
    }
  }

  lemma HoldsSmall(h: seq<int>, newest: nat, past: seq<Sample>)
    requires Holds(h, newest, past)
    ensures newest < 32
  {
  }

  lemma TwoOutputs(past: seq<Sample>)
    ensures |Outputs(past)| == 2
  {
  }

  lemma NothingYet(past: seq<Sample>)
    ensures Resampled(past, []) == [] && ClipCount(past, []) == 0
  {
  }

  lemma OneMore(past: seq<Sample>, s: seq<Sample>, x: Sample)
    ensures Resampled(past, s + [x]) == Resampled(past, s) + Outputs(past + s + [x])
    ensures ClipCount(past, s + [x]) == ClipCount(past, s) + ClipOf(past + s + [x])
  {
    assert (s + [x])[..|s + [x]| - 1] == s;
    assert past + (s + [x]) == past + s + [x];
    hide Outputs, ClipOf;
  }

  /** One channel of interleaved input. */
  function Lane(input: Option<seq<Sample>>, frames: nat, channel: nat): (s: seq<Sample>)
    requires channel < 2 && (input.Some? ==> |input.value| == 2 * frames)
    ensures |s| == frames
  {
    seq(frames, i requires 0 <= i < frames => if input.Some? then input.value[2 * i + channel] else 0)
  }
}
