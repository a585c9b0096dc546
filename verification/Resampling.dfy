/**
  Overlap-save rational resampling.

  A rate up/down resamples a signal by the FIR filter h (centred at 0, on the upsampled grid):
  output sample j of x is the sum over n of h(j * down - n * up) * x[n], and the signal is
  silent outside its samples.  The streaming resampler keeps one block of past and one block of
  future context around every block that it converts.
 */
module Resampling {
  import opened Prelude

  datatype Rate = Rate(up: nat, down: nat) {
    predicate Valid() {
      1 <= up <= down
    }

    /** Raw samples per block; a multiple of down, so that blocks fall on the output grid. */
    function Block(): nat {
      10 * down
    }

    /** Output samples per block. */
    function Hop(): nat {
      10 * up
    }

    /** Blocks that are final once n raw samples have arrived: every whole block but the last. */
    function Blocks(n: nat): nat
      requires Valid()
    {
      if n < 2 * Block() then 0 else n / Block() - 1
    }
  }

  /** 44100 Hz to 16000 Hz, blocks of 4410 -> 1600 samples. */
  const MODEL_RATE := Rate(160, 441)

  /** 44100 Hz to 24000 Hz, blocks of 1470 -> 800 samples. */
  const GRE_RATE := Rate(80, 147)

  type Filter = int -> real

  /** The filter has 20 * down + 1 taps. */
  ghost predicate Supported(h: Filter, r: Rate) {
    forall k :: k < -10 * r.down || 10 * r.down < k ==> h(k) == 0.0
  }

  function Term(h: Filter, r: Rate, x: seq<real>, j: int, n: nat): real
    requires n < |x|
  {
    h(j * r.down - n * r.up) * x[n]
  }

  function Conv(h: Filter, r: Rate, x: seq<real>, j: int, lo: nat, hi: nat): real
    requires lo <= hi <= |x|
    decreases hi - lo
  {
    if lo == hi then 0.0 else Conv(h, r, x, j, lo, hi - 1) + Term(h, r, x, j, hi - 1)
  }

  /** Output sample j of one continuous conversion of x. */
  function Sample(h: Filter, r: Rate, x: seq<real>, j: int): real {
    Conv(h, r, x, j, 0, |x|)
  }

  function OutputLength(r: Rate, n: nat): nat
    requires r.Valid()
  {
    (n * r.up + r.down - 1) / r.down
  }

  /** scipy.signal.resample_poly(x, up, down) with its default zero padding. */
  function ResamplePoly(h: Filter, r: Rate, x: seq<real>): seq<real>
    requires r.Valid()
  {
    seq(OutputLength(r, |x|), j => Sample(h, r, x, j))
  }

  /** The first k blocks of output of one continuous conversion of x. */
  function FinalBlocks(h: Filter, r: Rate, x: seq<real>, k: nat): seq<real> {
    seq(k * r.Hop(), j => Sample(h, r, x, j))
  }

  /** What a stream fed with x must have emitted so far. */
  function Finalized(h: Filter, r: Rate, x: seq<real>): seq<real>
    requires r.Valid()
  {
    FinalBlocks(h, r, x, r.Blocks(|x|))
  }

  function Silence(n: nat): seq<real> {
    seq(n, _ => 0.0)
  }

  /** x delayed by one block, so that the first block has (silent) history as well. */
  function Delayed(r: Rate, x: seq<real>): seq<real> {
    Silence(r.Block()) + x
  }

  // ----- sums -----

  lemma {:induction false} ConvSplit(h: Filter, r: Rate, x: seq<real>, j: int, lo: nat, mid: nat, hi: nat)
    requires lo <= mid <= hi <= |x|
    ensures Conv(h, r, x, j, lo, hi) == Conv(h, r, x, j, lo, mid) + Conv(h, r, x, j, mid, hi)
    decreases hi - mid
  {
    if mid < hi {
      ConvSplit(h, r, x, j, lo, mid, hi - 1);
    }
  }

  lemma {:induction false} ConvZero(h: Filter, r: Rate, x: seq<real>, j: int, lo: nat, hi: nat)
    requires lo <= hi <= |x|
    requires forall n :: lo <= n < hi ==> Term(h, r, x, j, n) == 0.0
    ensures Conv(h, r, x, j, lo, hi) == 0.0
    decreases hi - lo
  {
    if lo < hi {
      ConvZero(h, r, x, j, lo, hi - 1);
    }
  }

  lemma {:induction false} ConvShift(h: Filter, r: Rate, x: seq<real>, j: int, lo: nat,
                                     y: seq<real>, i: int, len: nat)
    requires lo + len <= |x| && len <= |y|
    requires forall n :: 0 <= n < len ==> Term(h, r, x, j, lo + n) == Term(h, r, y, i, n)
    ensures Conv(h, r, x, j, lo, lo + len) == Conv(h, r, y, i, 0, len)
    decreases len
  {
    if len > 0 {
      ConvShift(h, r, x, j, lo, y, i, len - 1);
    }
  }

  // ----- the sample grid -----

  /** k blocks of input and k hops of output cover the same time. */
  lemma Grid(r: Rate, k: int, i: int, n: int)
    ensures (k * r.Hop() + i) * r.down - (k * r.Block() + n) * r.up == i * r.down - n * r.up
  {
    var p := r.up * r.down;
    assert k * r.Hop() * r.down == 10 * (k * p);
    assert k * r.Block() * r.up == 10 * (k * p);
  }

  /** A tap that reaches outside the three blocks around block 1 is beyond the filter's support. */
  lemma OutOfReach(r: Rate, i: int, n: int)
    requires r.Valid()
    requires 0 <= i < r.Hop()
    requires n < 0 || 3 * r.Block() <= n
    ensures (r.Hop() + i) * r.down - n * r.up < -10 * r.down || 10 * r.down < (r.Hop() + i) * r.down - n * r.up
  {
    Grid(r, 1, i, r.Block() + n);
    if n < 0 {
      MulMono(r.Hop(), r.Hop() + i, r.down);
      MulMono(10, r.Hop(), r.down);
      MulMono(n, -1, r.up);
    } else {
      MulMono(3 * r.Block(), n, r.up);
      MulMono(r.Hop() + i, 2 * r.Hop() - 1, r.down);
      MulMono(1, r.up, r.down);
      assert (2 * r.Hop() - 1) * r.down - 3 * r.Block() * r.up == 0 - r.down - 10 * (r.up * r.down);
    }
  }

  /** Delaying by one block delays the output by one hop. */
  lemma DelayedSample(h: Filter, r: Rate, x: seq<real>, j: int)
    ensures Sample(h, r, Delayed(r, x), r.Hop() + j) == Sample(h, r, x, j)
  {
    var z, b := Delayed(r, x), r.Block();
    ConvSplit(h, r, z, r.Hop() + j, 0, b, |z|);
    ConvZero(h, r, z, r.Hop() + j, 0, b);
    forall n | 0 <= n < |x|
      ensures Term(h, r, z, r.Hop() + j, b + n) == Term(h, r, x, j, n)
    {
      Grid(r, 1, j, n);
    }
    ConvShift(h, r, z, r.Hop() + j, b, x, j, |x|);
  }

  /** Window k of z reads tap n of z where z's own output, k hops later, reads tap lo + n. */
  lemma WindowTerm(h: Filter, r: Rate, z: seq<real>, k: nat, lo: nat, i: nat, n: nat)
    requires r.Valid() && lo == k * r.Block() && lo + 3 * r.Block() <= |z| && n < 3 * r.Block()
    ensures Term(h, r, z, k * r.Hop() + i, lo + n) == Term(h, r, z[lo..lo + 3 * r.Block()], i, n)
  {
    Grid(r, k, i, n);
  }

  lemma SilentTerm(h: Filter, r: Rate, z: seq<real>, k: nat, lo: nat, i: nat, m: nat)
    requires r.Valid() && Supported(h, r) && lo == k * r.Block() && i < r.Hop()
    requires m < |z| && (m < lo || lo + 3 * r.Block() <= m)
    ensures Term(h, r, z, k * r.Hop() + (r.Hop() + i), m) == 0.0
  {
    OutOfReach(r, i, m - lo);
    Grid(r, k, r.Hop() + i, m - lo);
  }

  /** The middle hop of three converted blocks is what the continuous conversion yields there. */
  lemma WindowSample(h: Filter, r: Rate, z: seq<real>, k: nat, lo: nat, i: nat)
    requires r.Valid() && Supported(h, r)
    requires lo == k * r.Block() && lo + 3 * r.Block() <= |z| && i < r.Hop()
    ensures Sample(h, r, z[lo..lo + 3 * r.Block()], r.Hop() + i)
         == Sample(h, r, z, k * r.Hop() + (r.Hop() + i))
  {
    var hi := lo + 3 * r.Block();
    var w, j, i' := z[lo..hi], k * r.Hop() + (r.Hop() + i), r.Hop() + i;
    forall n | 0 <= n < hi - lo
      ensures Term(h, r, z, j, lo + n) == Term(h, r, w, i', n)
    {
      WindowTerm(h, r, z, k, lo, i', n);
    }
    forall m | 0 <= m < |z| && (m < lo || hi <= m)
      ensures Term(h, r, z, j, m) == 0.0
    {
      SilentTerm(h, r, z, k, lo, i, m);
    }
    ConvZero(h, r, z, j, 0, lo);
    ConvZero(h, r, z, j, hi, |z|);
    ConvShift(h, r, z, j, lo, w, i', hi - lo);
    ConvSplit(h, r, z, j, 0, lo, |z|);
    ConvSplit(h, r, z, j, lo, hi, |z|);
  }

  // ----- the stream -----

  /** A whole number of blocks converts to exactly as many hops. */
  lemma OutputLengthOfBlocks(r: Rate, k: nat)
    requires r.Valid()
    ensures OutputLength(r, k * r.Block()) == k * r.Hop()
  {
    Grid(r, k, 0, 0);
    DivFloor(k * r.Block() * r.up + r.down - 1, k * r.Hop(), r.down);
  }

  /** The blocks that are final are a prefix of the continuous output. */
  lemma FinalBlocksArePrefix(h: Filter, r: Rate, x: seq<real>, k: nat)
    requires r.Valid() && k * r.Block() <= |x|
    ensures FinalBlocks(h, r, x, k) <= ResamplePoly(h, r, x)
  {
    MulMono(k * r.Block(), |x|, r.up);
    OutputLengthOfBlocks(r, k);
    DivMono(k * r.Block() * r.up + r.down - 1, |x| * r.up + r.down - 1, r.down);
  }

  /** One converted block extends the final output by exactly one hop. */
  lemma NextBlock(h: Filter, r: Rate, x: seq<real>, k: nat, primed: seq<real>)
    requires r.Valid() && Supported(h, r)
    requires k * r.Block() + 2 * r.Block() <= |x|
    requires primed == Delayed(r, x)[k * r.Block()..k * r.Block() + 3 * r.Block()]
    ensures OutputLength(r, |primed|) == 3 * r.Hop()
    ensures FinalBlocks(h, r, x, k + 1)
         == FinalBlocks(h, r, x, k) + ResamplePoly(h, r, primed)[r.Hop()..2 * r.Hop()]
  {
    var hop := r.Hop();
    OutputLengthOfBlocks(r, 3);
    var converted := ResamplePoly(h, r, primed)[hop..2 * hop];
    assert (k + 1) * hop == k * hop + hop;
    forall i | 0 <= i < |converted|
      ensures converted[i] == Sample(h, r, x, k * hop + i)
    {
      WindowSample(h, r, Delayed(r, x), k, k * r.Block(), i);
      DelayedSample(h, r, x, k * hop + i);
    }
  }

  /** Samples that arrive after the lookahead never change what is already final. */
  lemma FinalBlocksStable(h: Filter, r: Rate, x: seq<real>, y: seq<real>, k: nat)
    requires r.Valid() && Supported(h, r)
    requires k * r.Block() + r.Block() <= |x|
    ensures FinalBlocks(h, r, x + y, k) == FinalBlocks(h, r, x, k)
  {
    forall j | 0 <= j < k * r.Hop()
      ensures Sample(h, r, x + y, j) == Sample(h, r, x, j)
    {
      FinalSampleStable(h, r, x, y, k, j);
    }
  }

  lemma FinalSampleStable(h: Filter, r: Rate, x: seq<real>, y: seq<real>, k: nat, j: nat)
    requires r.Valid() && Supported(h, r)
    requires k * r.Block() + r.Block() <= |x| && j < k * r.Hop()
    ensures Sample(h, r, x + y, j) == Sample(h, r, x, j)
  {
    var z := x + y;
    forall n | |x| <= n < |z|
      ensures Term(h, r, z, j, n) == 0.0
    {
      LateTap(r, k, j, n);
    }
    ConvSplit(h, r, z, j, 0, |x|, |z|);
    ConvZero(h, r, z, j, |x|, |z|);
    ConvShift(h, r, z, j, 0, x, j, |x|);
  }

  lemma LateTap(r: Rate, k: nat, j: nat, n: nat)
    requires r.Valid() && j < k * r.Hop() && k * r.Block() + r.Block() <= n
    ensures j * r.down - n * r.up < -10 * r.down
  {
    Grid(r, k, 0, 0);
    MulMono(j, k * r.Hop() - 1, r.down);
    MulMono(k * r.Block() + r.Block(), n, r.up);
    MulMono(1, r.up, 10 * r.down);
    assert (k * r.Block() + r.Block()) * r.up == k * r.Block() * r.up + 10 * r.down * r.up;
  }

  lemma BlocksBound(r: Rate, n: nat)
    requires r.Valid()
    ensures r.Blocks(n) > 0 ==> r.Blocks(n) * r.Block() + r.Block() <= n
    ensures n < r.Blocks(n) * r.Block() + 2 * r.Block()
  {
    assert n == n / r.Block() * r.Block() + n % r.Block();
  }

  lemma BlocksUnique(r: Rate, n: nat, k: nat)
    requires r.Valid() && n < k * r.Block() + 2 * r.Block()
    requires k > 0 ==> k * r.Block() + r.Block() <= n
    ensures k == r.Blocks(n)
  {
    if k == 0 {
    } else {
      MulMono(1, k, r.Block());
      DivFloor(n, k + 1, r.Block());
    }
  }

  lemma BlocksMonotone(r: Rate, m: nat, n: nat)
    requires r.Valid() && m <= n
    ensures r.Blocks(m) <= r.Blocks(n)
  {
    DivMono(m, n, r.Block());
    if 2 * r.Block() <= n {
      DivMono(2 * r.Block(), n, r.Block());
    }
  }

  /** The buffers of a stream that was fed x and has emitted k blocks. */
  ghost predicate Aligned(r: Rate, x: seq<real>, k: nat, history: seq<real>, pending: seq<real>) {
    && |history| == r.Block()
    && (k == 0 || k * r.Block() + r.Block() <= |x|)
    && k * r.Block() <= |x|
    && history + pending == Delayed(r, x)[k * r.Block()..]
  }

  lemma AlignedExtends(r: Rate, x: seq<real>, k: nat, history: seq<real>, pending: seq<real>, y: seq<real>)
    requires Aligned(r, x, k, history, pending)
    ensures Aligned(r, x + y, k, history, pending + y)
  {
    assert history + (pending + y) == history + pending + y;
    assert Delayed(r, x + y) == Delayed(r, x) + y;
  }

  lemma AlignedStep(h: Filter, r: Rate, x: seq<real>, k: nat, history: seq<real>, pending: seq<real>)
    requires r.Valid() && Supported(h, r) && Aligned(r, x, k, history, pending) && |pending| >= 2 * r.Block()
    ensures Aligned(r, x, k + 1, pending[..r.Block()], pending[r.Block()..])
    ensures OutputLength(r, 3 * r.Block()) == 3 * r.Hop()
    ensures FinalBlocks(h, r, x, k + 1) == FinalBlocks(h, r, x, k)
         + ResamplePoly(h, r, history + pending[..2 * r.Block()])[r.Hop()..2 * r.Hop()]
  {
    var lo, z := k * r.Block(), Delayed(r, x);
    assert (k + 1) * r.Block() == lo + r.Block();
    assert |pending| == |x| - lo;
    assert history + pending[..2 * r.Block()] == (history + pending)[..3 * r.Block()] == z[lo..lo + 3 * r.Block()];
    NextBlock(h, r, x, k, history + pending[..2 * r.Block()]);
    assert pending[..r.Block()] + pending[r.Block()..] == pending == (history + pending)[r.Block()..]
        == z[lo + r.Block()..];
  }

  lemma AlignedDone(r: Rate, x: seq<real>, k: nat, history: seq<real>, pending: seq<real>)
    requires r.Valid() && Aligned(r, x, k, history, pending) && |pending| < 2 * r.Block()
    ensures k == r.Blocks(|x|)
  {
    assert |Delayed(r, x)[k * r.Block()..]| == r.Block() + |x| - k * r.Block();
    BlocksUnique(r, |x|, k);
  }

  /**
    StreamingResampler: pending holds the raw samples that are not final yet, history the block
    before them.
   */
  class StreamingResampler {
    const h: Filter
    const rate: Rate
    var pending: seq<real>
    var history: seq<real>
    /** Everything pushed since construction. */
    ghost var fed: seq<real>

    ghost predicate Valid()
      reads this
    {
      && rate.Valid() && Supported(h, rate)
      && Aligned(rate, fed, rate.Blocks(|fed|), history, pending)
    }

    constructor (h: Filter, rate: Rate)
      requires rate.Valid() && Supported(h, rate)
      ensures Valid() && fed == [] && this.h == h && this.rate == rate
    {
      this.h, this.rate := h, rate;
      pending, history, fed := [], Silence(rate.Block()), [];
    }

    /** Appends samples and returns the output that became final. */
    method Push(samples: seq<real>) returns (output: seq<real>)
      requires Valid()
      modifies this
      ensures Valid()
      ensures fed == old(fed) + samples
      ensures Finalized(h, rate, fed) == Finalized(h, rate, old(fed)) + output
      ensures |pending| < 2 * rate.Block()
    {
      ghost var x, k := fed + samples, rate.Blocks(|fed|);
      ghost var before := Finalized(h, rate, fed);
      AlignedExtends(rate, fed, k, history, pending, samples);
      if k > 0 {
        FinalBlocksStable(h, rate, fed, samples, k);
      }
      fed := x;
      pending := pending + samples;
      output := [];
      while |pending| >= 2 * rate.Block()
        invariant fed == x && Aligned(rate, x, k, history, pending)
        invariant before + output == FinalBlocks(h, rate, x, k)
        decreases |pending|
      {
        AlignedStep(h, rate, x, k, history, pending);
        var block := pending[..rate.Block()];
        var primed := history + pending[..2 * rate.Block()];
        var converted := ResamplePoly(h, rate, primed);
        output := output + converted[rate.Hop()..2 * rate.Hop()];
        history := block;
        pending := pending[rate.Block()..];
        k := k + 1;
      }
      AlignedDone(rate, x, k, history, pending);
    }
  }

  /**
    However a recording is cut into chunks, the stream yields the same samples as one continuous
    conversion of the whole recording, up to the last whole block, which waits for its lookahead.
   */
  method ResampleChunks(h: Filter, rate: Rate, chunks: seq<seq<real>>) returns (output: seq<real>)
    requires rate.Valid() && Supported(h, rate)
    ensures var n := |Flatten(chunks)|;
      && rate.Blocks(n) * rate.Hop() <= OutputLength(rate, n)
      && output == ResamplePoly(h, rate, Flatten(chunks))[..rate.Blocks(n) * rate.Hop()]
  {
    var resampler := new StreamingResampler(h, rate);
    output := [];
    for i := 0 to |chunks|
      invariant fresh(resampler) && resampler.Valid() && resampler.h == h && resampler.rate == rate
      invariant resampler.fed == Flatten(chunks[..i])
      invariant output == Finalized(h, rate, resampler.fed)
    {
      var more := resampler.Push(chunks[i]);
      output := output + more;
      assert chunks[..i + 1] == chunks[..i] + [chunks[i]];
      FlattenSnoc(chunks[..i], chunks[i]);
    }
    assert chunks[..|chunks|] == chunks;
    BlocksBound(rate, |Flatten(chunks)|);
    FinalBlocksArePrefix(h, rate, Flatten(chunks), rate.Blocks(|Flatten(chunks)|));
  }

  /** The two rates in use, in the units of their callers. */
  lemma RatesInUse(n: nat)
    ensures MODEL_RATE.Valid() && MODEL_RATE.Block() == 4410 && MODEL_RATE.Hop() == 1600
    ensures MODEL_RATE.Blocks(n) == if n / 4410 < 1 then 0 else n / 4410 - 1
    ensures GRE_RATE.Valid() && GRE_RATE.Block() == 1470 && GRE_RATE.Hop() == 800
    ensures GRE_RATE.Blocks(n) == if n / 1470 < 1 then 0 else n / 1470 - 1
  {
  }
}
