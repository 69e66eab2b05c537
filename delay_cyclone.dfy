/** The delay~ object of src/delay_cyclone_bak.c: a circular buffer of `maxsize + 1`
    live samples (plus guard slots), written one sample per step and read `delsize`
    samples behind the write head, with a linear cross-fade between the previous and
    the new delay when the delay changes. */
module DelayCyclone {
  import opened Modular
  import opened DelayRing

  /** DELAY_DEFMAXSIZE: the size of the in-object default buffer. */
  const DEFMAXSIZE: int := 512
  /** DELAY_GUARD */
  const GUARD: int := 4

  /** Number of samples a buffer for `maxsize` holds, and that delay_clear zeroes. */
  function Slots(maxsize: int): int
  {
    maxsize + 2 * GUARD - 1
  }

  function Min(a: int, b: int): int
  {
    if a <= b then a else b
  }

  function Max(a: int, b: int): int
  {
    if a <= b then b else a
  }

  /** C's conversion `(int)f` of a float: truncation toward zero. */
  function Trunc(f: real): (n: int)
    ensures f >= 0.0 ==> 0 <= n && n as real <= f < n as real + 1.0
    ensures f < 0.0 ==> n <= 0 && n as real - 1.0 < f <= n as real
  {
    if f >= 0.0 then f.Floor else -((-f).Floor)
  }

  /** 2^-63 and 2^65: below the first, the two top bits of a float's exponent field are
      both 0; from the second up, both are 1. */
  const TINY: real := 1.0 / 9223372036854775808.0
  const HUGE: real := 36893488147419103232.0

  /** PD_BIGORSMALL: the two top exponent bits of the sample are equal, that is, its
      magnitude is below 2^-63 or at least 2^65; zero counts as small. Ordinary samples,
      up to full scale and well below it, are kept. */
  predicate BigOrSmall(f: real): (b: bool)
    ensures f == 0.0 ==> b
    ensures -1.0 <= f <= 1.0 && (f <= -0.0001 || 0.0001 <= f) ==> !b
  {
    var m := if f < 0.0 then -f else f;
    m < TINY || m >= HUGE
  }

  /** `if (PD_BIGORSMALL(f)) f = 0.0f`: what the object stores for an input sample. */
  function Sanitize(f: real): (g: real)
    ensures g == f || g == 0.0
    ensures !BigOrSmall(f) ==> g == f
    ensures !BigOrSmall(g) || g == 0.0
  {
    if BigOrSmall(f) then 0.0 else f
  }

  function Sanitized(xs: seq<real>): (ys: seq<real>)
    ensures |ys| == |xs|
    ensures forall j :: 0 <= j < |xs| ==> ys[j] == Sanitize(xs[j])
  {
    seq(|xs|, j requires 0 <= j < |xs| => Sanitize(xs[j]))
  }

  /** delay_maxsize's `f < 1 ? 1 : (int)f`: the largest whole number of samples not
      above `f`, and at least 1. */
  function RequestedMaxsize(f: real): (m: int)
    ensures m >= 1
    ensures m > 1 ==> m as real <= f
    ensures f < m as real + 1.0
    ensures f >= 1.0 ==> m as real <= f
  {
    if f < 1.0 then 1 else Trunc(f)
  }

  /** delay_delay's `f > 0 ? (int)f : 0`, lowered to `maxsize`: the whole number of
      samples in `f`, kept within [0, maxsize]. */
  function ClampDelay(f: real, maxsize: int): (d: int)
    requires maxsize >= 0
    ensures 0 <= d <= maxsize
    ensures d == 0 || d as real <= f
    ensures d < maxsize ==> f < d as real + 1.0
  {
    var d := if f > 0.0 then Trunc(f) else 0;
    if d > maxsize then maxsize else d
  }

  /** The three properties of ClampDelay determine its result. */
  lemma ClampDelayUnique(f: real, maxsize: int, d: int)
    requires maxsize >= 0
    requires 0 <= d <= maxsize
    requires d == 0 || d as real <= f
    requires d < maxsize ==> f < d as real + 1.0
    ensures d == ClampDelay(f, maxsize)
  {
  }

  /** `(int)(x_ramplength * x_sr * 0.001)`: the ramp length in whole samples. */
  function RampSamples(ramplength: real, sr: int): (r: int)
    requires ramplength >= 0.0 && sr >= 0
    ensures r >= 0
    ensures r as real <= ramplength * sr as real * 0.001 < r as real + 1.0
  {
    Trunc(ramplength * sr as real * 0.001)
  }

  /** `1.0 / x_remain`, the per-sample gain step of the cross-fade. At `remain == 0` the
      C value is infinite; it is never read then, and 0 stands for it here. */
  function RampIncrement(remain: int): (inc: real)
    requires remain >= 0
    ensures remain > 0 ==> inc * remain as real == 1.0
  {
    if remain == 0 then 0.0 else 1.0 / remain as real
  }

  /** delay_perform's `*in2 != x->x_delsize && !x->x_remain`: a new delay is taken from
      the second inlet only when it differs and no ramp is pending. */
  predicate TakesNewDelay(f: real, delsize: int, remain: int)
  {
    f != delsize as real && remain == 0
  }

  /** Line 108 compares the raw inlet with the truncated and clamped delay: once the
      inlet's delay has been taken, it is taken again at the next block with no ramp
      pending exactly when the inlet is not a whole number of samples in [0, maxsize]. */
  lemma RetakesDelay(f: real, maxsize: int)
    requires maxsize >= 0
    ensures TakesNewDelay(f, ClampDelay(f, maxsize), 0)
        <==> !(0.0 <= f <= maxsize as real && Trunc(f) as real == f)
  {
    if 0.0 < f <= maxsize as real && Trunc(f) as real == f {
      assert ClampDelay(f, maxsize) == Trunc(f);
    }
  }

  /** What delay_maxsize leaves: the sizes, and the number of samples of the buffer held. */
  datatype Sizing = Sizing(maxsize: int, maxsofar: int, slots: int)

  /** delay_maxsize as written (lines 44-67), holding a buffer of `held` samples. On an
      allocation failure the buffer falls back to the 519-sample default, but line 67
      overwrites the fallback size with the requested one. */
  function ResizeAsWritten(f: real, maxsofar: int, held: int, allocOk: bool): (s: Sizing)
    ensures s.maxsize == RequestedMaxsize(f)
    ensures s.maxsofar == Max(maxsofar, s.maxsize)
  {
    var m := RequestedMaxsize(f);
    if m > maxsofar then
      Sizing(m, m, if allocOk then Slots(m) else Slots(DEFMAXSIZE))
    else
      Sizing(m, maxsofar, held)
  }

  /** Growing past the default size when the allocation fails: the size kept is the
      requested one, and delay_clear then zeroes 1007 samples of a 519-sample buffer. */
  lemma AsWrittenClearOverruns()
    ensures var s := ResizeAsWritten(1000.0, DEFMAXSIZE, Slots(DEFMAXSIZE), false);
            s.maxsize == 1000 && s.slots == 519 && Slots(s.maxsize) == 1007
  {
  }

  /** delay_maxsize with the fallback size kept: the object then holds the default
      buffer, of size and largest size DEFMAXSIZE. The buffer always covers the
      samples delay_clear zeroes. */
  function Resize(f: real, maxsofar: int, allocOk: bool): (s: Sizing)
    requires maxsofar >= DEFMAXSIZE
    ensures DEFMAXSIZE <= s.maxsofar && 1 <= s.maxsize <= s.maxsofar
    ensures s.slots == Slots(s.maxsofar) && Slots(s.maxsize) <= s.slots
    ensures allocOk || RequestedMaxsize(f) <= maxsofar ==>
              s.maxsize == RequestedMaxsize(f) && s.maxsofar == Max(maxsofar, s.maxsize)
    ensures !allocOk && RequestedMaxsize(f) > maxsofar ==>
              s == Sizing(DEFMAXSIZE, DEFMAXSIZE, Slots(DEFMAXSIZE))
  {
    var m := RequestedMaxsize(f);
    if m <= maxsofar then Sizing(m, maxsofar, Slots(maxsofar))
    else if allocOk then Sizing(m, m, Slots(m))
    else Sizing(DEFMAXSIZE, DEFMAXSIZE, Slots(DEFMAXSIZE))
  }

  /** The corrected and the written resizing agree whenever no allocation fails. */
  lemma ResizeAgreesWithSource(f: real, maxsofar: int, allocOk: bool)
    requires maxsofar >= DEFMAXSIZE
    requires allocOk || RequestedMaxsize(f) <= maxsofar
    ensures Resize(f, maxsofar, allocOk) == ResizeAsWritten(f, maxsofar, Slots(maxsofar), allocOk)
  {
  }

  /** The ramp state a block starts with: samples remaining, gain step, current and
      previous gain (x_remain, x_rampinc, x_rampvals[0], x_rampvals[1]). */
  datatype Ramp = Ramp(remain: int, inc: real, curr: real, prev: real)

  /** A ramp gain after `k` steps of `inc` from `g0`, one step per sample. */
  function Stepped(g0: real, inc: real, k: nat): real
  {
    if k == 0 then g0 else Stepped(g0, inc, k - 1) + inc
  }

  /** The gain moves linearly with the number of steps. */
  lemma {:induction false} SteppedIsLinear(g0: real, inc: real, k: nat)
    ensures Stepped(g0, inc, k) == g0 + k as real * inc
  {
    if k > 0 {
      SteppedIsLinear(g0, inc, k - 1);
      var m := (k - 1) as real;
      assert k as real * inc == (m + 1.0) * inc == m * inc + inc;
    }
  }

  /** Opposite steps keep the sum of two gains: the cross-fade never changes the
      total gain. */
  lemma {:induction false} SteppedSum(c0: real, p0: real, inc: real, k: nat)
    ensures Stepped(c0, inc, k) + Stepped(p0, -inc, k) == c0 + p0
  {
    if k > 0 {
      SteppedSum(c0, p0, inc, k - 1);
    }
  }

  /** A ramp of `n > 0` samples stepped `n` times from the gains (0, 1) that delay_delay
      sets ends at (1, 0): only the new delay is heard. */
  lemma RampReachesTarget(n: int)
    requires n > 0
    ensures Stepped(0.0, RampIncrement(n), n) == 1.0
    ensures Stepped(1.0, -RampIncrement(n), n) == 0.0
  {
    var inc := RampIncrement(n);
    SteppedIsLinear(0.0, inc, n);
    SteppedIsLinear(1.0, -inc, n);
    assert n as real * -inc == -(n as real * inc);
  }

  /** Two taps weighted by their gains. */
  function Mix(x: real, gx: real, y: real, gy: real): real
  {
    x * gx + y * gy
  }

  /** The taps at delay `d` for samples `0..k-1` of the block `ys`. */
  function DelayedTaps(h: seq<real>, ys: seq<real>, d: int, k: int): (t: seq<real>)
    requires 0 <= d < |h| && 0 <= k <= |ys|
    ensures |t| == k
  {
    seq(k, j requires 0 <= j < k => Tap(h, ys, d, j))
  }

  /** Outputs `0..k-1` are the taps at delay `d`. */
  ghost predicate Delayed(out: seq<real>, h: seq<real>, ys: seq<real>, d: int, k: int)
  {
    0 <= d < |h| && 0 <= k <= |ys| && k <= |out| && out[..k] == DelayedTaps(h, ys, d, k)
  }

  /** The cross-faded taps at delays `pd` and `d` for the whole block `ys`. */
  function FadedTaps(h: seq<real>, ys: seq<real>, pd: int, d: int, curr: real, prev: real,
                     inc: real): (t: seq<real>)
    requires 0 <= pd < |h| && 0 <= d < |h|
    ensures |t| == |ys|
  {
    seq(|ys|, j requires 0 <= j < |ys| =>
      Mix(Tap(h, ys, pd, j), Stepped(prev, -inc, j + 1), Tap(h, ys, d, j), Stepped(curr, inc, j + 1)))
  }

  /** Outputs `0..k-1` cross-fade the taps at delays `pd` and `d`; before output `j` the
      previous gain has dropped and the current gain risen by `j + 1` steps `inc`. */
  ghost predicate Crossfaded(out: seq<real>, h: seq<real>, ys: seq<real>, pd: int, d: int,
                             curr: real, prev: real, inc: real, k: int)
  {
    0 <= pd < |h| && 0 <= d < |h| && 0 <= k <= |ys| && k <= |out| &&
    out[..k] == FadedTaps(h, ys, pd, d, curr, prev, inc)[..k]
  }

  /** The history, the output block and the ramp state after one block. */
  datatype Block = Block(history: seq<real>, out: seq<real>, ramp: Ramp)

  /** delay_perform on values: the block the ramp state `r` runs with the delays `pd`
      and `d` on history `h`, sanitized input `ys` and prior output block `os`. */
  function PerformBlock(r: Ramp, pd: int, d: int, h: seq<real>, ys: seq<real>, os: seq<real>): (b: Block)
    requires 0 <= d < |h| && |os| == |ys| && r.remain >= 0
    requires r.remain > 0 ==> 0 <= pd < |h|
  {
    var n := |ys|;
    if r.remain == 0 then
      Block(Slide(h, ys), DelayedTaps(h, ys, d, n), r)
    else if r.remain > n then
      Block(Slide(h, ys), FadedTaps(h, ys, pd, d, r.curr, r.prev, r.inc),
            Ramp(r.remain - n, r.inc, Stepped(r.curr, r.inc, n), Stepped(r.prev, -r.inc, n)))
    else
      Block(Slide(h, ys[..r.remain]), DelayedTaps(h, ys, d, r.remain) + os[r.remain..],
            Ramp(0, r.inc, r.curr, r.prev))
  }

  /** Between blocks, a ramp of `len` samples as delay_delay starts it has taken one gain
      step for each sample cross-faded: the gains are `(len - remain) / len` and
      `remain / len`. A block that keeps the ramp running keeps this so. A block that
      ends the ramp takes no step, since line 123 tests `nleft > nblock` strictly and a
      ramp of exactly one block also takes the tail branch: the gains it leaves are
      those it started with, the current one below 1. So delay_perform never reaches
      the (1, 0) of RampReachesTarget, and a ramp no longer than a block does not
      cross-fade at all. */
  lemma RampStopsShort(len: int, r: Ramp, pd: int, d: int, h: seq<real>, ys: seq<real>,
                       os: seq<real>)
    requires 0 < r.remain <= len && r.inc == RampIncrement(len)
    requires r.curr == (len - r.remain) as real / len as real
    requires r.prev == r.remain as real / len as real
    requires 0 <= pd < |h| && 0 <= d < |h| && |os| == |ys|
    ensures var s := PerformBlock(r, pd, d, h, ys, os).ramp;
            0 <= s.remain <= r.remain && s.inc == r.inc &&
            (s.remain > 0 ==> s.curr == (len - s.remain) as real / len as real &&
                              s.prev == s.remain as real / len as real) &&
            (s.remain == 0 ==> s.curr == r.curr < 1.0 && s.prev == r.prev > 0.0)
  {
    var n := |ys|;
    if r.remain > n {
      var L := len as real;
      SteppedIsLinear(r.curr, r.inc, n);
      SteppedIsLinear(r.prev, -r.inc, n);
      assert n as real * r.inc == n as real / L;
      assert (len - r.remain) as real / L + n as real / L == (len - (r.remain - n)) as real / L;
      assert r.remain as real / L + n as real * -r.inc == (r.remain - n) as real / L;
    } else {
      assert (len - r.remain) as real < len as real;
    }
  }

  /** With no ramp pending, two blocks in a row leave the history, the outputs and the
      ramp state of the two blocks processed as one: the delay line does not depend on
      where the host's blocks begin. */
  lemma SteadyBlocksCompose(r: Ramp, pd: int, d: int, h: seq<real>, ys1: seq<real>, os1: seq<real>,
                            ys2: seq<real>, os2: seq<real>)
    requires r.remain == 0 && 0 <= d < |h| && |os1| == |ys1| && |os2| == |ys2|
    ensures var b1 := PerformBlock(r, pd, d, h, ys1, os1);
            var b2 := PerformBlock(b1.ramp, pd, d, b1.history, ys2, os2);
            Block(b2.history, b1.out + b2.out, b2.ramp) == PerformBlock(r, pd, d, h, ys1 + ys2, os1 + os2)
  {
    var b1 := PerformBlock(r, pd, d, h, ys1, os1);
    var b2 := PerformBlock(b1.ramp, pd, d, b1.history, ys2, os2);
    var b := PerformBlock(r, pd, d, h, ys1 + ys2, os1 + os2);
    SlideCompose(h, ys1, ys2);
    forall j | 0 <= j < |ys1|
      ensures b1.out[j] == b.out[j]
    {
      assert (h + ys1)[|h| + j - d] == (h + (ys1 + ys2))[|h| + j - d];
    }
    forall j | 0 <= j < |ys2|
      ensures b2.out[j] == b.out[|ys1| + j]
    {
      TapCompose(h, ys1, ys2, d, j);
    }
    assert b1.out + b2.out == b.out;
  }

  /** After a clear and the samples `past`, a block with no ramp pending outputs the
      stream `past + ys` delayed by `d` samples, with 0 before the stream began, and its
      history is that of the cleared ring after `past + ys`. */
  lemma SteadyBlockDelaysStream(r: Ramp, pd: int, d: int, n: nat, past: seq<real>, ys: seq<real>,
                                os: seq<real>)
    requires r.remain == 0 && 0 <= d < n && |os| == |ys|
    ensures var b := PerformBlock(r, pd, d, Slide(Zeros(n), past), ys, os);
            b.history == Slide(Zeros(n), past + ys) && b.ramp == r &&
            forall j :: 0 <= j < |ys| ==>
              b.out[j] == if |past| + j >= d then (past + ys)[|past| + j - d] else 0.0
  {
    SlideCompose(Zeros(n), past, ys);
    forall j | 0 <= j < |ys|
      ensures Tap(Slide(Zeros(n), past), ys, d, j)
           == if |past| + j >= d then (past + ys)[|past| + j - d] else 0.0
    {
      DelayedStream(n, past, ys, d, j);
    }
  }

  /** A ramp of 10 samples, as delay_delay starts it, over blocks of 4: the first two
      blocks cross-fade and leave the gains at (0.8, 0.2); the third block ends the
      ramp after its first 2 samples, so the gains never reach the (1, 0) of
      RampReachesTarget. Only those 2 samples enter the history, and outputs 2 and 3
      of the third block keep their prior values. */
  lemma RampEndsShortOfTarget(pd: int, d: int, h: seq<real>, ys1: seq<real>, ys2: seq<real>,
                              ys3: seq<real>, os1: seq<real>, os2: seq<real>, os3: seq<real>)
    requires 0 <= pd < |h| && 0 <= d < |h|
    requires |ys1| == 4 && |ys2| == 4 && |ys3| == 4 && |os1| == 4 && |os2| == 4 && |os3| == 4
    ensures var b1 := PerformBlock(Ramp(10, RampIncrement(10), 0.0, 1.0), pd, d, h, ys1, os1);
            var b2 := PerformBlock(b1.ramp, pd, d, b1.history, ys2, os2);
            var b3 := PerformBlock(b2.ramp, pd, d, b2.history, ys3, os3);
            b2.ramp == Ramp(2, 0.1, 0.8, 0.2) && b3.ramp == Ramp(0, 0.1, 0.8, 0.2) &&
            b3.history == Slide(h, ys1 + ys2 + ys3[..2]) && b3.out[2..] == os3[2..]
  {
    SteppedIsLinear(0.0, 0.1, 4);
    SteppedIsLinear(1.0, -0.1, 4);
    SteppedIsLinear(0.4, 0.1, 4);
    SteppedIsLinear(0.6, -0.1, 4);
    SlideCompose(h, ys1, ys2);
    SlideCompose(h, ys1 + ys2, ys3[..2]);
  }

  /** What a perform loop leaves: the buffer, the output block, the head and the two
      ramp gains. */
  datatype Run = Run(ring: seq<real>, out: seq<real>, head: int, curr: real, prev: real)

  /** The loops of lines 139-155 and 170-179 on values, from sample `i` to sample `k`
      of the block `xs`: each sample is sanitized and written at the head `w`, then
      output `i` is read `d` samples behind the head (d = 0: the sample just written). */
  function WriteReadRun(bs: seq<real>, os: seq<real>, xs: seq<real>, w: int, d: int, last: int,
                        i: int, k: int): (r: Run)
    requires 0 <= w <= last < |bs| && 0 <= d <= last && 0 <= i <= k <= |xs| && |os| == |xs|
    ensures |r.ring| == |bs| && |r.out| == |os| && 0 <= r.head <= last
    decreases k - i
  {
    if i == k then Run(bs, os, w, 0.0, 0.0)
    else
      var bs' := bs[w := Sanitize(xs[i])];
      WriteReadRun(bs', os[i := bs'[ReadIndex(w, d, last)]], xs, Next(w, last), d, last, i + 1, k)
  }

  /** The loop of lines 156-168 on values: output `i` is read `d` samples behind the
      head before the sanitized sample is written there. */
  function ReadWriteRun(bs: seq<real>, os: seq<real>, xs: seq<real>, w: int, d: int, last: int,
                        i: int, k: int): (r: Run)
    requires 0 <= w <= last < |bs| && 0 <= d <= last && 0 <= i <= k <= |xs| && |os| == |xs|
    ensures |r.ring| == |bs| && |r.out| == |os| && 0 <= r.head <= last
    decreases k - i
  {
    if i == k then Run(bs, os, w, 0.0, 0.0)
    else
      ReadWriteRun(bs[w := Sanitize(xs[i])], os[i := bs[ReadIndex(w, d, last)]], xs,
                   Next(w, last), d, last, i + 1, k)
  }

  /** The loop of lines 114-138 on values: each sample is written at the head, both
      gains take one step, and output `i` mixes the taps at `pd` and `d` with them. */
  function CrossfadeRun(bs: seq<real>, os: seq<real>, xs: seq<real>, w: int, pd: int, d: int,
                        curr: real, prev: real, inc: real, last: int, i: int, k: int): (r: Run)
    requires 0 <= w <= last < |bs| && 0 <= pd <= last && 0 <= d <= last
    requires 0 <= i <= k <= |xs| && |os| == |xs|
    ensures |r.ring| == |bs| && |r.out| == |os| && 0 <= r.head <= last
    decreases k - i
  {
    if i == k then Run(bs, os, w, curr, prev)
    else
      var c, p := curr + inc, prev - inc;
      var bs' := bs[w := Sanitize(xs[i])];
      CrossfadeRun(bs', os[i := Mix(bs'[ReadIndex(w, pd, last)], p, bs'[ReadIndex(w, d, last)], c)],
                   xs, Next(w, last), pd, d, c, p, inc, last, i + 1, k)
  }

  /** From a ring holding history `h` followed by samples `0..i-1`, the write-then-read
      run outputs the taps at delay `d` of samples `0..k-1`, leaves the rest of the
      output and the guard slots alone, and ends with the ring holding `h` slid by
      `k` samples and the head `k` places on. */
  lemma {:induction false} WriteReadRunTaps(bs: seq<real>, os: seq<real>, xs: seq<real>, w0: int,
                                            w: int, d: int, last: int, i: int, k: int, h: seq<real>)
    requires 0 <= w0 <= last && 0 <= w <= last < |bs| && 0 <= d <= last
    requires 0 <= i <= k <= |xs| && |os| == |xs| && |h| == last + 1
    requires w == (w0 + i) % (last + 1)
    requires RingHistory(bs, w, last + 1) == Slide(h, Sanitized(xs)[..i])
    requires Delayed(os, h, Sanitized(xs), d, i)
    ensures var r := WriteReadRun(bs, os, xs, w, d, last, i, k);
            r.head == (w0 + k) % (last + 1) &&
            RingHistory(r.ring, r.head, last + 1) == Slide(h, Sanitized(xs)[..k]) &&
            Delayed(r.out, h, Sanitized(xs), d, k) &&
            r.out[k..] == os[k..] && r.ring[last + 1..] == bs[last + 1..]
    decreases k - i
  {
    if i < k {
      var ys := Sanitized(xs);
      WriteThenReadStep(bs, w, last + 1, h, ys, i, d);
      NextAdvance(w0, i, last);
      var bs' := bs[w := Sanitize(xs[i])];
      WriteReadRunTaps(bs', os[i := bs'[ReadIndex(w, d, last)]], xs, w0, Next(w, last), d, last,
                       i + 1, k, h);
    }
  }

  /** The read-then-write run at a delay of at least one sample: the same outputs,
      history and head as WriteReadRunTaps states, reading before writing. */
  lemma {:induction false} ReadWriteRunTaps(bs: seq<real>, os: seq<real>, xs: seq<real>, w0: int,
                                            w: int, d: int, last: int, i: int, k: int, h: seq<real>)
    requires 0 <= w0 <= last && 0 <= w <= last < |bs| && 1 <= d <= last
    requires 0 <= i <= k <= |xs| && |os| == |xs| && |h| == last + 1
    requires w == (w0 + i) % (last + 1)
    requires RingHistory(bs, w, last + 1) == Slide(h, Sanitized(xs)[..i])
    requires Delayed(os, h, Sanitized(xs), d, i)
    ensures var r := ReadWriteRun(bs, os, xs, w, d, last, i, k);
            r.head == (w0 + k) % (last + 1) &&
            RingHistory(r.ring, r.head, last + 1) == Slide(h, Sanitized(xs)[..k]) &&
            Delayed(r.out, h, Sanitized(xs), d, k) &&
            r.out[k..] == os[k..] && r.ring[last + 1..] == bs[last + 1..]
    decreases k - i
  {
    if i < k {
      var ys := Sanitized(xs);
      ReadThenWriteStep(bs, w, last + 1, h, ys, i, d);
      NextAdvance(w0, i, last);
      ReadWriteRunTaps(bs[w := Sanitize(xs[i])], os[i := bs[ReadIndex(w, d, last)]], xs, w0,
                       Next(w, last), d, last, i + 1, k, h);
    }
  }

  /** The cross-fade run: output `j` mixes the taps at `pd` and `d` with the gains after
      `j + 1` steps, the gains end `k` steps on, and ring and head move as in
      WriteReadRunTaps. */
  lemma {:induction false} CrossfadeRunTaps(bs: seq<real>, os: seq<real>, xs: seq<real>, w0: int,
                                            w: int, pd: int, d: int, curr0: real, prev0: real,
                                            curr: real, prev: real, inc: real, last: int,
                                            i: int, k: int, h: seq<real>)
    requires 0 <= w0 <= last && 0 <= w <= last < |bs| && 0 <= pd <= last && 0 <= d <= last
    requires 0 <= i <= k <= |xs| && |os| == |xs| && |h| == last + 1
    requires w == (w0 + i) % (last + 1)
    requires curr == Stepped(curr0, inc, i) && prev == Stepped(prev0, -inc, i)
    requires RingHistory(bs, w, last + 1) == Slide(h, Sanitized(xs)[..i])
    requires Crossfaded(os, h, Sanitized(xs), pd, d, curr0, prev0, inc, i)
    ensures var r := CrossfadeRun(bs, os, xs, w, pd, d, curr, prev, inc, last, i, k);
            r.head == (w0 + k) % (last + 1) &&
            r.curr == Stepped(curr0, inc, k) && r.prev == Stepped(prev0, -inc, k) &&
            RingHistory(r.ring, r.head, last + 1) == Slide(h, Sanitized(xs)[..k]) &&
            Crossfaded(r.out, h, Sanitized(xs), pd, d, curr0, prev0, inc, k) &&
            r.ring[last + 1..] == bs[last + 1..]
    decreases k - i
  {
    if i < k {
      CrossfadeStep(bs, os, xs, w, pd, d, curr0, prev0, curr, prev, inc, last, i, h);
      NextAdvance(w0, i, last);
      var c, p := curr + inc, prev - inc;
      var bs' := bs[w := Sanitize(xs[i])];
      var os' := os[i := Mix(bs'[ReadIndex(w, pd, last)], p, bs'[ReadIndex(w, d, last)], c)];
      assert CrossfadeRun(bs, os, xs, w, pd, d, curr, prev, inc, last, i, k)
          == CrossfadeRun(bs', os', xs, Next(w, last), pd, d, c, p, inc, last, i + 1, k);
      CrossfadeRunTaps(bs', os', xs, w0, Next(w, last), pd, d, curr0, prev0, c, p, inc, last,
                       i + 1, k, h);
    } else {
      assert CrossfadeRun(bs, os, xs, w, pd, d, curr, prev, inc, last, i, k) == Run(bs, os, w, curr, prev);
    }
  }

  /** One step of the cross-fade run: output `i` is the mix of the two taps with the
      gains one step on, and the history takes in sample `i`. */
  lemma CrossfadeStep(bs: seq<real>, os: seq<real>, xs: seq<real>, w: int, pd: int, d: int,
                      curr0: real, prev0: real, curr: real, prev: real, inc: real, last: int,
                      i: int, h: seq<real>)
    requires 0 <= w <= last < |bs| && 0 <= pd <= last && 0 <= d <= last
    requires 0 <= i < |xs| && |os| == |xs| && |h| == last + 1
    requires curr == Stepped(curr0, inc, i) && prev == Stepped(prev0, -inc, i)
    requires RingHistory(bs, w, last + 1) == Slide(h, Sanitized(xs)[..i])
    requires Crossfaded(os, h, Sanitized(xs), pd, d, curr0, prev0, inc, i)
    ensures var bs' := bs[w := Sanitize(xs[i])];
            var c, p := curr + inc, prev - inc;
            c == Stepped(curr0, inc, i + 1) && p == Stepped(prev0, -inc, i + 1) &&
            RingHistory(bs', Next(w, last), last + 1) == Slide(h, Sanitized(xs)[..i + 1]) &&
            Crossfaded(os[i := Mix(bs'[ReadIndex(w, pd, last)], p, bs'[ReadIndex(w, d, last)], c)],
                       h, Sanitized(xs), pd, d, curr0, prev0, inc, i + 1) &&
            bs'[last + 1..] == bs[last + 1..]
  {
    var ys := Sanitized(xs);
    WriteThenReadStep(bs, w, last + 1, h, ys, i, pd);
    WriteThenReadStep(bs, w, last + 1, h, ys, i, d);
  }

  /** delay_perform, lines 114-138 and 153-155, on the ring `b[0..last]` with head `w0`:
      a ramp at least as long as the block. Returns the new head and gains. */
  method RampLoop(b: array<real>, last: int, w0: int, pd: int, d: int, incr: real,
                  curr0: real, prev0: real, in1: array<real>, out: array<real>)
    returns (wp: int, curr: real, prev: real)
    requires 0 <= w0 <= last < b.Length && 0 <= pd <= last && 0 <= d <= last
    requires in1.Length == out.Length && b != in1 && b != out
    modifies b, out
    ensures var h, ys := RingHistory(old(b[..]), w0, last + 1), Sanitized(old(in1[..]));
            0 <= wp <= last && RingHistory(b[..], wp, last + 1) == Slide(h, ys) &&
            out[..] == FadedTaps(h, ys, pd, d, curr0, prev0, incr)
    ensures curr == Stepped(curr0, incr, out.Length) && prev == Stepped(prev0, -incr, out.Length) &&
            b[last + 1..] == old(b[..])[last + 1..]
  {
    var n := out.Length;
    ghost var xs := in1[..];
    ghost var h, ys := RingHistory(b[..], w0, last + 1), Sanitized(xs);
    ModUnique(w0, last + 1, 0, w0);
    assert Slide(h, ys[..0]) == h;
    ghost var r0 := CrossfadeRun(b[..], out[..], xs, w0, pd, d, curr0, prev0, incr, last, 0, n);
    wp, curr, prev := w0, curr0, prev0;
    var prevrp := ReadIndex(wp, pd, last);
    var currrp := ReadIndex(wp, d, last);
    var i := 0;
    while i < n
      invariant 0 <= i <= n && 0 <= wp <= last
      invariant prevrp == ReadIndex(wp, pd, last) && currrp == ReadIndex(wp, d, last)
      invariant forall j :: i <= j < n ==> in1[j] == xs[j]
      invariant CrossfadeRun(b[..], out[..], xs, wp, pd, d, curr, prev, incr, last, i, n) == r0
    {
      ghost var bs := b[..];
      ghost var os := out[..];
      var f := Sanitize(in1[i]);
      curr := curr + incr;
      prev := prev - incr;
      b[wp] := f;
      assert b[..] == bs[wp := f];
      out[i] := Mix(b[prevrp], prev, b[currrp], curr);
      assert out[..] == os[i := Mix(b[prevrp], prev, b[currrp], curr)];
      NextKeepsDistance(wp, pd, last);
      NextKeepsDistance(wp, d, last);
      prevrp := Next(prevrp, last);
      currrp := Next(currrp, last);
      wp := Next(wp, last);
      i := i + 1;
    }
    CrossfadeRunTaps(old(b[..]), old(out[..]), xs, w0, w0, pd, d, curr0, prev0, curr0, prev0, incr,
                     last, 0, n, h);
    assert ys[..n] == ys;
    assert out[..] == out[..out.Length];
  }

  /** delay_perform, lines 139-155 (with `d` the delay and `k` the samples left of the
      ramp) and lines 170-179 (with `d = 0` and `k` the block length) on the ring
      `b[0..last]` with head `w0`. Returns the new head. */
  method WriteReadLoop(b: array<real>, last: int, w0: int, d: int, k: int,
                       in1: array<real>, out: array<real>) returns (wp: int)
    requires 0 <= w0 <= last < b.Length && 0 <= d <= last
    requires in1.Length == out.Length && 0 <= k <= out.Length && b != in1 && b != out
    modifies b, out
    ensures var h, ys := RingHistory(old(b[..]), w0, last + 1), Sanitized(old(in1[..]));
            0 <= wp <= last && RingHistory(b[..], wp, last + 1) == Slide(h, ys[..k]) &&
            out[..] == DelayedTaps(h, ys, d, k) + old(out[..])[k..]
    ensures b[last + 1..] == old(b[..])[last + 1..]
  {
    ghost var xs := in1[..];
    ghost var h, ys := RingHistory(b[..], w0, last + 1), Sanitized(xs);
    ModUnique(w0, last + 1, 0, w0);
    assert Slide(h, ys[..0]) == h;
    ghost var r0 := WriteReadRun(b[..], out[..], xs, w0, d, last, 0, k);
    wp := w0;
    var rp := ReadIndex(wp, d, last);
    var nleft := k;
    var i := 0;
    while nleft > 0
      invariant 0 <= i <= k && nleft == k - i && 0 <= wp <= last
      invariant rp == ReadIndex(wp, d, last)
      invariant forall j :: i <= j < out.Length ==> in1[j] == xs[j]
      invariant WriteReadRun(b[..], out[..], xs, wp, d, last, i, k) == r0
    {
      ghost var bs := b[..];
      ghost var os := out[..];
      nleft := nleft - 1;
      var f := Sanitize(in1[i]);
      b[wp] := f;
      assert b[..] == bs[wp := f];
      out[i] := b[rp];
      assert out[..] == os[i := b[rp]];
      NextKeepsDistance(wp, d, last);
      rp := Next(rp, last);
      wp := Next(wp, last);
      i := i + 1;
    }
    WriteReadRunTaps(old(b[..]), old(out[..]), xs, w0, w0, d, last, 0, k, h);
    assert out[..] == out[..k] + out[k..];
  }

  /** delay_perform, lines 156-168, on the ring `b[0..last]` with head `w0`: no ramp and a
      positive delay. Returns the new head. */
  method ReadWriteLoop(b: array<real>, last: int, w0: int, d: int, in1: array<real>, out: array<real>)
    returns (wp: int)
    requires 0 <= w0 <= last < b.Length && 1 <= d <= last
    requires in1.Length == out.Length && b != in1 && b != out
    modifies b, out
    ensures var h, ys := RingHistory(old(b[..]), w0, last + 1), Sanitized(old(in1[..]));
            0 <= wp <= last && RingHistory(b[..], wp, last + 1) == Slide(h, ys) &&
            out[..] == DelayedTaps(h, ys, d, out.Length)
    ensures b[last + 1..] == old(b[..])[last + 1..]
  {
    var n := out.Length;
    ghost var xs := in1[..];
    ghost var h, ys := RingHistory(b[..], w0, last + 1), Sanitized(xs);
    ModUnique(w0, last + 1, 0, w0);
    assert Slide(h, ys[..0]) == h;
    ghost var r0 := ReadWriteRun(b[..], out[..], xs, w0, d, last, 0, n);
    wp := w0;
    var rp := ReadIndex(wp, d, last);
    var i := 0;
    while i < n
      invariant 0 <= i <= n && 0 <= wp <= last
      invariant rp == ReadIndex(wp, d, last)
      invariant forall j :: i <= j < n ==> in1[j] == xs[j]
      invariant ReadWriteRun(b[..], out[..], xs, wp, d, last, i, n) == r0
    {
      ghost var bs := b[..];
      ghost var os := out[..];
      var f := Sanitize(in1[i]);
      out[i] := b[rp];
      assert out[..] == os[i := bs[rp]];
      b[wp] := f;
      assert b[..] == bs[wp := f];
      NextKeepsDistance(wp, d, last);
      rp := Next(rp, last);
      wp := Next(wp, last);
      i := i + 1;
    }
    ReadWriteRunTaps(old(b[..]), old(out[..]), xs, w0, w0, d, last, 0, n, h);
    assert ys[..n] == ys;
    assert out[..] == out[..n];
  }

  /** delay_perform after the ramp check, lines 112-181, on the ring `b[0..last]` with
      head `w0`: one of the four loops runs, chosen by the samples left of the ramp `r`
      and the delay `d`. Returns the new head and ramp state. */
  method RunBlock(b: array<real>, last: int, w0: int, pd: int, d: int, r: Ramp,
                  in1: array<real>, out: array<real>) returns (wp: int, s: Ramp)
    requires 0 <= w0 <= last < b.Length && 0 <= d <= last && r.remain >= 0
    requires r.remain > 0 ==> 0 <= pd <= last
    requires in1.Length == out.Length && b != in1 && b != out
    modifies b, out
    ensures 0 <= wp <= last && 0 <= s.remain <= r.remain && s.inc == r.inc
    ensures s.remain > 0 ==> s.curr + s.prev == r.curr + r.prev
    ensures Block(RingHistory(b[..], wp, last + 1), out[..], s)
         == PerformBlock(r, pd, d, RingHistory(old(b[..]), w0, last + 1), Sanitized(old(in1[..])),
                         old(out[..]))
    ensures b[last + 1..] == old(b[..])[last + 1..]
  {
    var n := out.Length;
    if r.remain > 0 {
      if r.remain > n {
        SteppedSum(r.curr, r.prev, r.inc, n);
        var curr, prev;
        wp, curr, prev := RampLoop(b, last, w0, pd, d, r.inc, r.curr, r.prev, in1, out);
        s := Ramp(r.remain - n, r.inc, curr, prev);
      } else {
        wp := WriteReadLoop(b, last, w0, d, r.remain, in1, out);
        s := Ramp(0, r.inc, r.curr, r.prev);
      }
    } else if d != 0 {
      wp := ReadWriteLoop(b, last, w0, d, in1, out);
      s := r;
    } else {
      ghost var ys := Sanitized(in1[..]);
      assert ys[..n] == ys;
      wp := WriteReadLoop(b, last, w0, 0, n, in1, out);
      s := r;
    }
  }

  /** The t_delay object. Indices stand for the C pointers: `whead` for x_whead - x_buf,
      `bufend` for x_bufend - x_buf; `currramp` and `prevramp` are x_rampvals[0] and [1]. */
  class Delay {
    var bufini: array<real>
    var buf: array<real>
    var bufend: int
    var whead: int
    var sr: int
    var maxsize: int
    var maxsofar: int
    var delsize: int
    var prevdelsize: int
    var ramplength: real
    var rampinc: real
    var currramp: real
    var prevramp: real
    var remain: int

    /** The sizes and parameters: the buffer holds Slots(maxsofar) samples, so every
        delay_clear and every ring index stays inside it. */
    ghost predicate Sized()
      reads this
    {
      bufini.Length == Slots(DEFMAXSIZE) &&
      buf.Length == Slots(maxsofar) &&
      DEFMAXSIZE <= maxsofar &&
      (maxsofar == DEFMAXSIZE ==> buf == bufini) &&
      1 <= maxsize <= maxsofar &&
      0 <= delsize <= maxsize &&
      0 <= prevdelsize &&
      0 <= sr && 0.0 <= ramplength && 0 <= remain
    }

    /** The object invariant: the head is on the ring 0..maxsize, whose end marker is
        maxsize, and a pending ramp reads inside the ring with gains summing to 1. */
    ghost predicate Valid()
      reads this
    {
      Sized() &&
      0 <= whead <= maxsize && bufend == maxsize &&
      (remain > 0 ==> prevdelsize <= maxsize && currramp + prevramp == 1.0)
    }

    /** The ramp state delay_perform runs its block with, given the first sample `f` of
        the second inlet. */
    function PendingRamp(f: real): (r: Ramp)
      reads this
      requires Valid()
      ensures r.remain >= 0
      ensures !TakesNewDelay(f, delsize, remain) ==> r == Ramp(remain, rampinc, currramp, prevramp)
      ensures TakesNewDelay(f, delsize, remain) ==>
                r.curr == 0.0 && r.prev == 1.0 && (r.remain > 0 ==> r.inc * r.remain as real == 1.0)
    {
      if TakesNewDelay(f, delsize, remain) then
        var n := RampSamples(ramplength, sr);
        Ramp(n, RampIncrement(n), 0.0, 1.0)
      else
        Ramp(remain, rampinc, currramp, prevramp)
    }

    /** delay_new. Pd hands over the object zero-filled; the size argument `f1` and the
        delay argument `f2` are then applied. `allocOk` is the outcome of the buffer
        allocation delay_maxsize may make. */
    constructor (f1: real, f2: real, allocOk: bool)
      ensures Valid() && fresh(bufini)
      ensures var local := if f1 > 0.0 then Trunc(f1) else DEFMAXSIZE;
              var s := Resize(local as real, DEFMAXSIZE, allocOk);
              maxsize == s.maxsize && maxsofar == s.maxsofar &&
              delsize == Min(ClampDelay(f2, local), maxsize)
      ensures whead == 0 && remain == 0 && prevdelsize == 0 && sr == 0 && ramplength == 0.0
      ensures rampinc == 0.0 && currramp == 0.0 && prevramp == 0.0
      ensures RingHistory(buf[..], whead, maxsize + 1) == Zeros(maxsize + 1)
    {
      bufini := new real[Slots(DEFMAXSIZE)];
      buf := bufini;
      whead := 0;
      bufend := 0;
      sr := 0;
      maxsofar := DEFMAXSIZE;
      maxsize := DEFMAXSIZE;
      delsize := 0;
      prevdelsize := 0;
      ramplength := 0.0;
      rampinc := 0.0;
      currramp := 0.0;
      prevramp := 0.0;
      remain := 0;
      new;
      var local := if f1 > 0.0 then Trunc(f1) else DEFMAXSIZE;
      Maxsize(local as real, allocOk);
      InitDelay(f2, local);
    }

    /** delay_new, lines 203-205: the delay argument, cut to the requested size
        `local`, and to the size actually held should the allocation have failed. */
    method InitDelay(f: real, local: int)
      requires Valid() && local >= 0
      modifies this`delsize
      ensures Valid()
      ensures delsize == Min(ClampDelay(f, local), maxsize)
      ensures RingHistory(buf[..], whead, maxsize + 1) == old(RingHistory(buf[..], whead, maxsize + 1))
    {
      ghost var ring := buf[..];
      delsize := if f > 0.0 then Trunc(f) else 0;
      if delsize > local {
        delsize := local;
      }
      // A no-op unless the allocation failed and left maxsize below `local`.
      if delsize > maxsize {
        delsize := maxsize;
      }
      assert buf[..] == ring;
    }

    /** delay_clear: zero the first maxsize + 2*GUARD - 1 samples. */
    method Clear()
      requires Sized()
      modifies buf
      ensures forall k :: 0 <= k < Slots(maxsize) ==> buf[k] == 0.0
      ensures forall k :: Slots(maxsize) <= k < buf.Length ==> buf[k] == old(buf[k])
      ensures Valid() ==> RingHistory(buf[..], whead, maxsize + 1) == Zeros(maxsize + 1)
    {
      var i := 0;
      while i < Slots(maxsize)
        invariant 0 <= i <= Slots(maxsize)
        invariant forall k :: 0 <= k < i ==> buf[k] == 0.0
        invariant forall k :: i <= k < buf.Length ==> buf[k] == old(buf[k])
      {
        buf[i] := 0.0;
        i := i + 1;
      }
      if Valid() {
        ClearedHistory(buf[..], whead, maxsize + 1);
      }
    }

    /** delay_bounds: head to the buffer start, end marker at maxsize. */
    method Bounds()
      modifies this`whead, this`bufend
      ensures whead == 0 && bufend == maxsize
    {
      whead := 0;
      bufend := maxsize;
    }

    /** delay_maxsize, with the fallback size kept when the allocation fails. */
    method Maxsize(f: real, allocOk: bool)
      requires Sized()
      modifies this`buf, this`maxsofar, this`maxsize, this`delsize, this`remain, this`whead,
               this`bufend, buf, bufini
      ensures Valid()
      ensures var s := Resize(f, old(maxsofar), allocOk);
              maxsize == s.maxsize && maxsofar == s.maxsofar
      ensures maxsofar == old(maxsofar) ==> buf == old(buf)
      ensures maxsofar != old(maxsofar) ==> fresh(buf) || buf == bufini
      ensures delsize == Min(old(delsize), maxsize)
      ensures remain == 0 && whead == 0 && bufend == maxsize
      ensures forall k :: 0 <= k < Slots(maxsize) ==> buf[k] == 0.0
      ensures buf == old(buf) ==> forall k :: Slots(maxsize) <= k < buf.Length ==> buf[k] == old(buf[k])
      ensures RingHistory(buf[..], whead, maxsize + 1) == Zeros(maxsize + 1)
    {
      Grow(f, allocOk);
      if delsize > maxsize {
        delsize := maxsize;
      }
      remain := 0;
      Clear();
      Bounds();
    }

    /** delay_maxsize, lines 44-67: take the requested size, growing the buffer when it
        exceeds the largest size so far. */
    method Grow(f: real, allocOk: bool)
      requires Sized()
      modifies this`buf, this`maxsofar, this`maxsize
      ensures var s := Resize(f, old(maxsofar), allocOk);
              maxsize == s.maxsize && maxsofar == s.maxsofar && buf.Length == s.slots
      ensures maxsofar == old(maxsofar) ==> buf == old(buf)
      ensures maxsofar != old(maxsofar) ==> fresh(buf) || buf == bufini
      ensures maxsofar == DEFMAXSIZE ==> buf == bufini
    {
      var m := RequestedMaxsize(f);
      if m > maxsofar {
        maxsofar := m;
        if allocOk {
          // getbytes for the default buffer, resizebytes for a heap buffer; the
          // contents are cleared afterwards either way.
          buf := new real[Slots(m)];
        } else {
          buf := bufini;
          m := DEFMAXSIZE;
          maxsofar := DEFMAXSIZE;
        }
      }
      maxsize := m;
    }

    /** delay_delay: take a new delay, remember the previous one and start a ramp. */
    method SetDelay(f: real)
      requires Valid()
      modifies this`prevdelsize, this`delsize, this`remain, this`rampinc,
               this`currramp, this`prevramp
      ensures Valid()
      ensures prevdelsize == old(delsize) && delsize == ClampDelay(f, maxsize)
      ensures remain == RampSamples(ramplength, sr) && rampinc == RampIncrement(remain)
      ensures currramp == 0.0 && prevramp == 1.0
    {
      prevdelsize := delsize;
      delsize := if f > 0.0 then Trunc(f) else 0;
      if delsize > maxsize {
        delsize := maxsize;
      }
      remain := RampSamples(ramplength, sr);
      rampinc := RampIncrement(remain);
      currramp := 0.0;
      prevramp := 1.0;
    }

    /** delay_ramp: a negative ramp length counts as 0. */
    method SetRamp(f: real)
      requires Valid()
      modifies this`ramplength
      ensures Valid()
      ensures ramplength == if f < 0.0 then 0.0 else f
    {
      ramplength := if f < 0.0 then 0.0 else f;
    }

    /** delay_dsp: take the host's sample rate (converted to int), cancel any ramp,
        clear the buffer and reset the head. */
    method Dsp(rate: real)
      requires Valid() && rate >= 0.0
      modifies this`sr, this`remain, this`whead, this`bufend, buf
      ensures Valid()
      ensures sr == Trunc(rate) && remain == 0 && whead == 0 && bufend == maxsize
      ensures forall k :: 0 <= k < Slots(maxsize) ==> buf[k] == 0.0
      ensures forall k :: Slots(maxsize) <= k < buf.Length ==> buf[k] == old(buf[k])
      ensures RingHistory(buf[..], whead, maxsize + 1) == Zeros(maxsize + 1)
      ensures buf == old(buf) && bufini == old(bufini)
      ensures maxsize == old(maxsize) && maxsofar == old(maxsofar)
      ensures delsize == old(delsize) && prevdelsize == old(prevdelsize)
      ensures ramplength == old(ramplength) && rampinc == old(rampinc)
      ensures currramp == old(currramp) && prevramp == old(prevramp)
    {
      sr := Trunc(rate);
      remain := 0;
      Clear();
      Bounds();
    }

    /** delay_perform: one block. The ramp is started first if the second inlet brings a
        new delay; then the block is processed with the ramp state that results. The
        fields outside the modifies clause (the buffer, its sizes, the sample rate and
        the ramp length) stay as they are. */
    method Perform(in1: array<real>, in2: array<real>, out: array<real>)
      requires Valid()
      requires in1.Length == out.Length && in2.Length >= 1
      requires buf != in1 && buf != out
      modifies this`prevdelsize, this`delsize, this`remain, this`rampinc, this`currramp,
               this`prevramp, this`whead, buf, out
      ensures Valid()
      ensures TakesNewDelay(old(in2[0]), old(delsize), old(remain)) ==>
                prevdelsize == old(delsize) && delsize == ClampDelay(old(in2[0]), maxsize)
      ensures !TakesNewDelay(old(in2[0]), old(delsize), old(remain)) ==>
                prevdelsize == old(prevdelsize) && delsize == old(delsize)
      ensures buf[maxsize + 1..] == old(buf[maxsize + 1..])
      ensures Block(RingHistory(buf[..], whead, maxsize + 1), out[..], Ramp(remain, rampinc, currramp, prevramp))
           == PerformBlock(old(PendingRamp(in2[0])), prevdelsize, delsize,
                           old(RingHistory(buf[..], whead, maxsize + 1)), Sanitized(old(in1[..])), old(out[..]))
    {
      ghost var h := RingHistory(buf[..], whead, maxsize + 1);
      Retarget(in2[0]);
      assert RingHistory(buf[..], whead, maxsize + 1) == h;
      Process(in1, out);
    }

    /** delay_perform, lines 108-110: a first sample of the second inlet that differs
        from the delay starts a ramp to it, unless a ramp is under way. */
    method Retarget(f: real)
      requires Valid()
      modifies this`prevdelsize, this`delsize, this`remain, this`rampinc, this`currramp,
               this`prevramp
      ensures Valid()
      ensures Ramp(remain, rampinc, currramp, prevramp) == old(PendingRamp(f))
      ensures TakesNewDelay(f, old(delsize), old(remain)) ==>
                prevdelsize == old(delsize) && delsize == ClampDelay(f, maxsize)
      ensures !TakesNewDelay(f, old(delsize), old(remain)) ==>
                prevdelsize == old(prevdelsize) && delsize == old(delsize)
    {
      if f != delsize as real && remain == 0 {
        SetDelay(f);
      }
    }

    /** delay_perform after the ramp check, lines 112-181: one of the four loops runs,
        chosen by the samples left of the ramp and the delay. */
    method Process(in1: array<real>, out: array<real>)
      requires Valid() && in1.Length == out.Length
      requires buf != in1 && buf != out
      modifies this`remain, this`currramp, this`prevramp, this`whead, buf, out
      ensures Valid()
      ensures buf[maxsize + 1..] == old(buf[maxsize + 1..])
      ensures var b := PerformBlock(Ramp(old(remain), rampinc, old(currramp), old(prevramp)), prevdelsize,
                                    delsize, old(RingHistory(buf[..], whead, maxsize + 1)),
                                    Sanitized(old(in1[..])), old(out[..]));
              RingHistory(buf[..], whead, maxsize + 1) == b.history && out[..] == b.out &&
              Ramp(remain, rampinc, currramp, prevramp) == b.ramp
    {
      var wp, s := RunBlock(buf, maxsize, whead, prevdelsize, delsize,
                            Ramp(remain, rampinc, currramp, prevramp), in1, out);
      ghost var ring, block := buf[..], out[..];
      Commit(wp, s);
      assert buf[..] == ring && out[..] == block;
      assert RingHistory(buf[..], whead, maxsize + 1) == RingHistory(ring, wp, maxsize + 1);
    }

    /** delay_perform, lines 153-155 and 180: the head and the ramp state go back into
        the object. */
    method Commit(wp: int, s: Ramp)
      requires Valid() && 0 <= wp <= maxsize && 0 <= s.remain && s.inc == rampinc
      requires s.remain > 0 ==> prevdelsize <= maxsize && s.curr + s.prev == 1.0
      modifies this`remain, this`currramp, this`prevramp, this`whead
      ensures Valid() && whead == wp && Ramp(remain, rampinc, currramp, prevramp) == s
    {
      remain, currramp, prevramp, whead := s.remain, s.curr, s.prev, wp;
    }
  }
}
