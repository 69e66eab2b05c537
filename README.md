# delay~ and the four-point delay reader, in Dafny

This project models two pieces of the Pure Data delay externals.

**`delay~`** (`src/delay_cyclone_bak.c`) is the `Delay` class in module `DelayCyclone`.
- It holds a circular buffer of `maxsize + 1` live samples, followed by guard slots.
- With no ramp pending, each DSP block writes every sanitised input sample at the write head, and each output is read `delsize` samples behind the head.
- When the second inlet brings a new delay and no ramp is pending, a ramp of `remain` samples starts. The previous tap's gain starts at 1, the new tap's at 0.
- While the ramp is longer than the block, each block writes all its samples and cross-fades the two taps, one gain step per sample.
- The block in which the ramp ends (`remain` at most the block size) does not cross-fade. Only its first `remain` samples are written and output, at the new delay. The rest of its input is never written, and the rest of its output is left as it was. Line 123 tests `nleft > nblock` strictly, so a ramp of exactly one block also takes this branch. The gains therefore never reach (1, 0) in `delay_perform`, and a ramp no longer than one block does not cross-fade at all (`RampStopsShort`, `RampEndsShortOfTarget`).
- Line 108 compares the inlet's raw value with the truncated and clamped delay. An inlet that is not a whole number of samples in [0, maxsize] therefore starts a new ramp, to the same delay, at every block with no ramp pending (`RetakesDelay`). Each such ramp ends in a cut-short block as above.
- `delay_maxsize`, `delay_delay`, `delay_ramp` and `delay_dsp` reconfigure the object. `delay_new` sets it up.

C pointers into the buffer become indices:
- `whead` stands for `x_whead - x_buf`.
- `bufend` stands for `x_bufend - x_buf`.

`x_rampvals[0]` and `x_rampvals[1]` are the fields `currramp` and `prevramp`. Samples are `real`s.

**How a block is specified.** Module `DelayRing` gives the ring a value view. `RingHistory(buf, whead, maxsize + 1)` is the last `maxsize + 1` samples written, oldest first.

A block of sanitised inputs `ys` does two things:
- It turns the history `h` into `Slide(h, ys)`, which is the last `|h|` samples of `h + ys`.
- Its output `j` at delay `d` is `Tap(h, ys, d, j)`. That is the input `d` samples earlier, or an older sample of `h` when that input came before the block.

`DelayedStream` chains this across blocks. After a clear and the samples `past` written since, the tap at delay `d` is the stream `past + ys` delayed by `d` samples, with zeros before the stream began. A block with no ramp pending outputs exactly these taps (`SteadyBlockDelaysStream`). A cross-fade block outputs a mix of two such taps. A block that ends a ramp writes only part of its input, so only that part joins `past`. `SteadyBlocksCompose` shows that without a ramp, two blocks in a row do what one block of their concatenation does.

Three module-level methods over the buffer array cover the four loops of `delay_perform`:
- `RampLoop` and `WriteReadLoop` write first and then read. `WriteReadLoop` covers both the ramp-tail loop (lines 140-151) and the delay-0 loop (lines 170-178).
- `ReadWriteLoop` reads first and then writes.

Each method's loop invariant ties the arrays to a recursive function that runs the same loop on sequences. A lemma proved by induction then turns that function into the `Slide`/`Tap` statement.

`PerformBlock` states a whole block on values: the new history, the output block and the ramp state, by case of the samples left of the ramp. `RunBlock` picks the loop as `delay_perform` does, working on the head and ramp state as locals, and `Delay.Commit` writes them back into the object, as lines 153-155 and 180 do.

**The shared header** (`src/simple_del_shared.h`) is module `DelShared`.
- `cubic_interpolate` is modelled over reals.
- C's `&` on 32-bit `int`s is modelled for a nonnegative mask. It is bitwise AND of the operand's two's-complement value modulo 2^32.
- `MaskIsMod` proves that masking with `2^k - 1` is reduction modulo `2^k`, negative operands included.
- The `t_simple_delwritectl` record is the datatype `DelWriteCtl`. Nothing in the model uses it. `cubic_interpolate` takes a bare buffer, as in the header.

## Model

| member | source | states |
|---|---|---|
| DelayRing.Next | src/delay_cyclone_bak.c:135-137 | the step `if (p++ == ep) p = buf` keeps a pointer on the ring 0..maxsize |
| DelayRing.NextIsSuccessor | src/delay_cyclone_bak.c:135-137 | that step is +1 modulo maxsize + 1 |
| DelayRing.ReadIndex | src/delay_cyclone_bak.c:118-121 | `wp - d`, wrapped by `+ maxsize + 1`, lands in [0, maxsize] for every delay 0 <= d <= maxsize |
| DelayRing.ReadIndexIsMod | src/delay_cyclone_bak.c:157-158 | the wrapped read pointer is `(wp - d) mod (maxsize + 1)` |
| DelayRing.NextAdvance | src/delay_cyclone_bak.c:177 | after i steps from w0, one more step gives `(w0 + i + 1) mod (maxsize + 1)` |
| DelayRing.NextKeepsDistance | src/delay_cyclone_bak.c:166-167 | a read pointer stepped together with the head stays d slots behind it |
| DelayRing.Tap | src/delay_cyclone_bak.c:156-178 | the tap at delay d for sample j is input j - d of the block, or entry `|h| + j - d` of the prior history if j < d |
| DelayRing.WriteStep | src/delay_cyclone_bak.c:175-177 | writing x at the head and stepping drops the oldest sample of the history and appends x |
| DelayRing.SlideCompose | src/delay_cyclone_bak.c:180 | processing two blocks in turn slides the history by their concatenation |
| DelayRing.ReadBeforeWrite | src/delay_cyclone_bak.c:164-165 | reading at delay d >= 1 before the write yields history entry n - d, the sample written d steps earlier |
| DelayRing.ReadAfterWrite | src/delay_cyclone_bak.c:146-147 | reading after the write: delay 0 yields the sample just written, delay d the one d steps earlier |
| DelayRing.ReadThenWriteStep | src/delay_cyclone_bak.c:160-167 | one read-then-write step outputs the tap and slides the history by one sample |
| DelayRing.WriteThenReadStep | src/delay_cyclone_bak.c:171-177 | one write-then-read step outputs the tap and slides the history by one sample |
| DelayRing.ClearedHistory | src/delay_cyclone_bak.c:33 | a ring with all live slots zero has an all-zero history |
| DelayRing.DelayedStream | src/delay_cyclone_bak.c:156-168 | after a clear and the samples `past`, the tap at delay d is the stream `past + ys` delayed by d samples, and 0 before the stream began |
| DelayCyclone.Trunc | src/delay_cyclone_bak.c:79 | `(int)f` truncates toward zero: the whole number between 0 and f that is less than 1 away from f |
| DelayCyclone.BigOrSmall | src/delay_cyclone_bak.c:128 | `PD_BIGORSMALL` as a magnitude test: 0 counts as small, and nonzero samples within full scale down to 0.0001 are kept |
| DelayCyclone.Sanitized | src/delay_cyclone_bak.c:127-128 | a block of inputs as stored: same length, each sample sanitised |
| DelayCyclone.Sanitize | src/delay_cyclone_bak.c:127-128 | a stored sample is the input, or 0 when the input is big-or-small; a stored sample is never big-or-small unless 0 |
| DelayCyclone.RequestedMaxsize | src/delay_cyclone_bak.c:44 | the requested size is at least 1, and is the whole part of f when f >= 1 |
| DelayCyclone.ClampDelay | src/delay_cyclone_bak.c:78-83 | the new delay d is in [0, maxsize]; it is 0 or not above f; and f is below d + 1 unless d is cut to maxsize (a negative f gives 0) |
| DelayCyclone.ClampDelayUnique | src/delay_cyclone_bak.c:78-83 | those three properties determine the clamped delay |
| DelayCyclone.RampSamples | src/delay_cyclone_bak.c:85 | the ramp length in samples is the whole part of `ramplength * sr * 0.001`, and not negative |
| DelayCyclone.RampIncrement | src/delay_cyclone_bak.c:86 | the gain step times the ramp length is 1 |
| DelayCyclone.RampReachesTarget | src/delay_cyclone_bak.c:84-88 | n steps of the step delay_delay sets carry the gains from (0, 1) to (1, 0); delay_perform never takes the n-th step (see RampStopsShort) |
| DelayCyclone.TakesNewDelay | src/delay_cyclone_bak.c:108 | the condition for a new delay: the inlet's raw value differs from the stored (truncated, clamped) delay and no ramp is pending |
| DelayCyclone.RetakesDelay | src/delay_cyclone_bak.c:108 | once an inlet's delay is taken, the same inlet value is taken again at the next block with no ramp pending exactly when it is not a whole number of samples in [0, maxsize] |
| DelayCyclone.ResizeAsWritten | src/delay_cyclone_bak.c:44-67 | as written, maxsize is the requested size even after a failed allocation, and maxsofar never decreases |
| DelayCyclone.AsWrittenClearOverruns | src/delay_cyclone_bak.c:52-67 | a failed growth to 1000 leaves a 519-sample buffer that delay_clear (line 33) zeroes 1007 samples of |
| DelayCyclone.Resize | src/delay_cyclone_bak.c:44-67 | the buffer always covers the samples delay_clear zeroes; with a successful or unneeded allocation, maxsize is the requested size and maxsofar its running maximum; after a failure both are DELAY_DEFMAXSIZE |
| DelayCyclone.ResizeAgreesWithSource | src/delay_cyclone_bak.c:44-67 | without a failed allocation the corrected and the written sizing agree |
| DelayCyclone.SteppedIsLinear | src/delay_cyclone_bak.c:129-130 | a gain after k steps of inc is g0 + k * inc |
| DelayCyclone.SteppedSum | src/delay_cyclone_bak.c:129-130 | opposite steps keep `currramp + prevramp` unchanged |
| DelayCyclone.WriteReadRun | src/delay_cyclone_bak.c:140-151 | the write-then-read loop on sequences keeps the buffer and block lengths and the head on the ring |
| DelayCyclone.ReadWriteRun | src/delay_cyclone_bak.c:160-168 | the read-then-write loop on sequences keeps the buffer and block lengths and the head on the ring |
| DelayCyclone.CrossfadeRun | src/delay_cyclone_bak.c:126-138 | the cross-fade loop on sequences keeps the buffer and block lengths and the head on the ring |
| DelayCyclone.WriteReadRunTaps | src/delay_cyclone_bak.c:140-151 | k write-then-read steps output the taps at delay d, slide the history by k samples, move the head k places, leave later outputs and the guard slots untouched |
| DelayCyclone.ReadWriteRunTaps | src/delay_cyclone_bak.c:160-168 | the same for the read-then-write loop at a delay of at least 1 |
| DelayCyclone.CrossfadeRunTaps | src/delay_cyclone_bak.c:123-138 | output j mixes the taps at prevdelsize and delsize with the gains after j + 1 steps; the gains end k steps on; the history and head move as above |
| DelayCyclone.CrossfadeStep | src/delay_cyclone_bak.c:127-137 | one cross-fade step: both gains move one step, the output is their mix of the two taps, the history slides by one |
| DelayCyclone.RampLoop | src/delay_cyclone_bak.c:114-138 | a ramp longer than the block: every output is the cross-fade of the two taps, the history slides by the block, the gains end n steps on, the guard slots are untouched |
| DelayCyclone.WriteReadLoop | src/delay_cyclone_bak.c:139-152 | the first k outputs are the taps at delay d (d = 0: the input itself), the history slides by k samples, the remaining outputs and the guard slots are untouched |
| DelayCyclone.ReadWriteLoop | src/delay_cyclone_bak.c:156-168 | every output is the input delsize samples earlier, the history slides by the block, the guard slots are untouched |
| DelayCyclone.Mix | src/delay_cyclone_bak.c:133 | the cross-fade output: each tap times its gain, summed |
| DelayCyclone.PerformBlock | src/delay_cyclone_bak.c:112-179 | the new history, output block and ramp state of one block, by case of the samples left of the ramp: none, more than the block, or at most the block |
| DelayCyclone.RampStopsShort | src/delay_cyclone_bak.c:123-155 | between blocks a ramp of len samples has gains `(len - remain) / len` and `remain / len`; a block that keeps the ramp running keeps this, one that ends it takes no step, so the current gain ends below 1 |
| DelayCyclone.SteadyBlocksCompose | src/delay_cyclone_bak.c:156-179 | with no ramp pending, two blocks in a row leave the same history and ramp state as one block of their concatenation, and output its outputs |
| DelayCyclone.SteadyBlockDelaysStream | src/delay_cyclone_bak.c:156-179 | after a clear and the samples `past`, a block with no ramp outputs `past + ys` delayed by d samples, with 0 before the stream began |
| DelayCyclone.RampEndsShortOfTarget | src/delay_cyclone_bak.c:114-155 | a 10-sample ramp over blocks of 4: two blocks cross-fade and leave the gains at (0.8, 0.2); the third ends the ramp after 2 samples, writes only those into the history and leaves outputs 2 and 3 as they were |
| DelayCyclone.RunBlock | src/delay_cyclone_bak.c:112-179 | the loop chosen by remain and the delay leaves the ring, the output and the ramp state PerformBlock gives; the head stays on the ring; the gains keep their sum while a ramp is pending; the guard slots are untouched |
| DelayCyclone.Delay.PendingRamp | src/delay_cyclone_bak.c:108-110 | without a new delay the ramp state is kept; with one it restarts at gains (0, 1) with a step that times its length is 1 |
| DelayCyclone.Delay.constructor | src/delay_cyclone_bak.c:194-205 | the sizes are those of delay_maxsize on the size argument, the delay argument is cut to the requested size and to maxsize, the head is at 0, the ramp gains and step are 0, and the history is all zero |
| DelayCyclone.Delay.InitDelay | src/delay_cyclone_bak.c:203-205 | the delay is the argument cut to the requested size and to maxsize; the history is unchanged |
| DelayCyclone.Delay.Clear | src/delay_cyclone_bak.c:30-34 | the first maxsize + 2*GUARD - 1 samples are zero, the rest are unchanged |
| DelayCyclone.Delay.Bounds | src/delay_cyclone_bak.c:36-40 | the head is at 0 and the end marker at maxsize |
| DelayCyclone.Delay.Maxsize | src/delay_cyclone_bak.c:42-74 | the sizes follow Resize, delsize is cut to maxsize, no ramp is pending, the head is at 0 and the end at maxsize, all maxsize + 2*GUARD - 1 samples are zero; if the buffer is kept, the samples past them are unchanged |
| DelayCyclone.Delay.Grow | src/delay_cyclone_bak.c:44-67 | the sizes follow Resize and the buffer holds Slots(maxsofar) samples; a new buffer is fresh or the default one |
| DelayCyclone.Delay.SetDelay | src/delay_cyclone_bak.c:76-89 | prevdelsize takes the old delay, delsize the clamped argument, remain the ramp length in samples, the step 1/remain, the gains (0, 1) |
| DelayCyclone.Delay.SetRamp | src/delay_cyclone_bak.c:91-94 | the ramp length is the argument, or 0 if it is negative |
| DelayCyclone.Delay.Dsp | src/delay_cyclone_bak.c:185-190 | the sample rate is taken, no ramp is pending, all maxsize + 2*GUARD - 1 samples are zero and the samples past them unchanged, the head is at 0, nothing else changes |
| DelayCyclone.Delay.Perform | src/delay_cyclone_bak.c:96-183 | a new delay is taken only when the inlet differs and no ramp is pending; the ring, the output and the ramp state then follow PerformBlock for that ramp state; the guard slots are untouched |
| DelayCyclone.Delay.Retarget | src/delay_cyclone_bak.c:108-110 | the ramp state becomes PendingRamp of the inlet, and the delays change exactly when TakesNewDelay holds |
| DelayCyclone.Delay.Process | src/delay_cyclone_bak.c:112-181 | the ring, the output and the fields remain, currramp and prevramp follow PerformBlock for the object's ramp state and delays; the object stays valid; the guard slots are untouched |
| DelayCyclone.Delay.Commit | src/delay_cyclone_bak.c:153-155 | the ramp state, and the head as line 180 does, are stored in the object, which stays valid |
| DelShared.BitAnd | src/simple_del_shared.h:54-56 | a bitwise AND is at most either operand |
| DelShared.AndMask | src/simple_del_shared.h:54-56 | `x & mask` on a 32-bit int lies in [0, mask] |
| DelShared.LowBits | src/simple_del_shared.h:54-56 | AND with `2^k - 1` is the remainder modulo `2^k` |
| DelShared.MaskIsMod | src/simple_del_shared.h:54-56 | `(phase - j) & (2^k - 1)` is `(phase - j) mod 2^k` for every 32-bit value, negative ones included |
| DelShared.MaskedIndex | src/simple_del_shared.h:54-56 | for a phase inside the buffer, an older tap below 0 wraps to the top: `phase - j + 2^k` |
| DelShared.Cubic | src/simple_del_shared.h:57-63 | frac = 0 gives b and frac = 1 gives c |
| DelShared.CubicConstant | src/simple_del_shared.h:57-63 | four equal samples interpolate to that sample for every frac |
| DelShared.CubicLinear | src/simple_del_shared.h:57-63 | four samples on a line interpolate to `b + frac * (c - b)`, whatever the 1/6 constant |
| DelShared.CubicInterpolate | src/simple_del_shared.h:51-64 | reads only the buffer; frac = 0 gives `buffer[(phase - 1) & mask]`, frac = 1 gives `buffer[(phase - 2) & mask]` |
| DelShared.InterpolateTaps | src/simple_del_shared.h:53-56 | with mask `2^k - 1` and the phase in the buffer, the taps are `phase` and `phase - 1, 2, 3` modulo `2^k`, all inside the buffer |

## Left out

- Pd glue is not modelled. That covers `class_new`, `class_addmethod`, `inlet_new`, `outlet_new`, `dsp_add`, `delay_tilde_setup` and the unpacking of `w[]`. Apart from the next item, it is registration only. A block is given as the arrays `in1` and `out`, and the second inlet `in2`, of which only the first sample is read.
- `pd_new` zero-fills the object. The constructor models this by starting every field at 0.
- A float message to the main inlet is not modelled. `CLASS_MAINSIGNALIN(delay_class, t_delay, x_delsize)` at line 233, commented "guessing here", names the `int` field `x_delsize` as the inlet's float slot. Pd would then store a float's bits into the delay that line 108 compares against and the loops read with. Pd's class code is not part of this model, so neither the effect nor a fix is stated.
- `delay_free` is not modelled: Dafny has no memory release. Line 216 frees `maxsofar` samples rather than the size allocated. When the buffer never grew, `x_buf` is `x_bufini`, the array inside the object itself, and line 216 passes that to `freebytes`.
- `getbytes` and `resizebytes` are not modelled. Their outcome is the parameter `allocOk`. A successful allocation is a fresh array; the contents `resizebytes` would keep are cleared right after anyway. `pd_error` is not modelled.
- Floating point is not modelled. Samples and ramp gains are reals.
  - `PD_BIGORSMALL` is a magnitude test: below 2^-63 or from 2^65 up. That is where the two top bits of a float's exponent field are equal, which is what Pd's macro tests. The comment at line 128 rounds this to an exponent outside (-64, 64).
  - There are no NaNs or infinities.
  - Single- and double-precision rounding is not modelled.
  - The 0.1666667 constant is the exact decimal.
- `DelayCyclone.RampIncrement`: at `remain == 0`, C's `1.0 / 0` is infinite. The model uses 0 instead. The value is never read while no ramp is pending.
- 32-bit `int` overflow in the casts `(int)f` is not modelled, because `Trunc` is unbounded. A float beyond the `int` range is undefined behaviour in C.
- `DelayCyclone.Delay.Dsp` requires a sample rate >= 0, as the host supplies. A negative rate would give a negative ramp length, which the C loops do not handle.
- `DelayCyclone.Delay.Perform`: its contract places the head only through `RingHistory`, not in closed form. The head's position `(whead + n) mod (maxsize + 1)` is stated by the run lemmas called from the loop methods.
- The writer/reader registry is not modelled: `simple_delwrite_findbyname`, `simple_delwrite_update` and `simple_delwrite_check`, and the `t_simple_delwrite` object. They are only declared in the header and their bodies are not part of this model.
- `XTRASAMPS` and `SAMPBLK` are not modelled; nothing shown uses them.
- `DelShared.DelWriteCtl` is the record only. No operation in the header changes or reads it.

## Findings

| source | as written | input that shows it | evidently intended | confidence | as-written member | corrected member |
|---|---|---|---|---|---|---|
| src/delay_cyclone_bak.c:52-67 | after a failed allocation (lines 52 and 61) the buffer falls back to the 519-sample default. Line 67 then overwrites the fallback `x_maxsize = DELAY_DEFMAXSIZE` with the requested size, and `x_maxsofar` keeps the requested size | `delay_maxsize(x, 1000)` on a new object whose `getbytes` fails: `maxsize` becomes 1000 and `delay_clear` zeroes 1007 samples of the 519-sample buffer | keep the fallback: `maxsize` and `maxsofar` become DELAY_DEFMAXSIZE and `delsize` is cut to it, so the buffer always covers the cleared samples and the ring | not executed | DelayCyclone.AsWrittenClearOverruns | DelayCyclone.Resize |
