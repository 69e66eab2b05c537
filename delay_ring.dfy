/** Index arithmetic of the delay~ object's circular buffer and the sample-history
    view of it that the block-processing contracts are stated in.

    The ring has `n = maxsize + 1` live slots, numbered 0..n-1. The write head steps
    with `if (p++ == ep) p = buf` and a read pointer `d` samples behind it starts at
    `wp - d`, moved back into the ring by `+ maxsize + 1`. */
module DelayRing {
  import opened Modular

  /** One step `if (p++ == ep) p = buf` of a pointer on the ring of indices 0..last. */
  function Next(p: int, last: int): (q: int)
    requires 0 <= p <= last
    ensures 0 <= q <= last
  {
    if p == last then 0 else p + 1
  }

  /** Next is the successor modulo the ring size. */
  lemma NextIsSuccessor(p: int, last: int)
    requires 0 <= p <= last
    ensures Next(p, last) == (p + 1) % (last + 1)
  {
    if p == last {
      ModUnique(p + 1, last + 1, 1, 0);
    } else {
      ModUnique(p + 1, last + 1, 0, p + 1);
    }
  }

  /** The read pointer `wp - d`, wrapped by `+ last + 1` when it falls below the buffer. */
  function ReadIndex(w: int, d: int, last: int): (r: int)
    requires 0 <= w <= last && 0 <= d <= last
    ensures 0 <= r <= last
  {
    if w - d < 0 then w - d + last + 1 else w - d
  }

  /** ReadIndex is the difference modulo the ring size. */
  lemma ReadIndexIsMod(w: int, d: int, last: int)
    requires 0 <= w <= last && 0 <= d <= last
    ensures ReadIndex(w, d, last) == (w - d) % (last + 1)
  {
    if w - d < 0 {
      ModUnique(w - d, last + 1, -1, w - d + last + 1);
    } else {
      ModUnique(w - d, last + 1, 0, w - d);
    }
  }

  /** Stepping the head `i + 1` times from `w0` lands on `(w0 + i + 1) mod n`. */
  lemma NextAdvance(w0: int, i: int, last: int)
    requires 0 <= w0 <= last && 0 <= i
    ensures 0 <= (w0 + i) % (last + 1) <= last
    ensures Next((w0 + i) % (last + 1), last) == (w0 + i + 1) % (last + 1)
  {
    var n := last + 1;
    var a := w0 + i;
    var q, r := a / n, a % n;
    NextIsSuccessor(r, last);
    assert a == q * n + r;
    if r + 1 < n {
      ModUnique(a + 1, n, q, r + 1);
    } else {
      assert a + 1 == (q + 1) * n + 0;
      ModUnique(a + 1, n, q + 1, 0);
    }
  }

  /** A read pointer stepped together with the write head stays `d` slots behind it. */
  lemma NextKeepsDistance(w: int, d: int, last: int)
    requires 0 <= w <= last && 0 <= d <= last
    ensures Next(ReadIndex(w, d, last), last) == ReadIndex(Next(w, last), d, last)
  {
  }

  /** The `n` samples of the ring oldest first. Slot `w`, the next one the head
      overwrites, holds the oldest; slot `w - 1` (wrapped) the newest. */
  function RingHistory(b: seq<real>, w: int, n: int): (h: seq<real>)
    requires 0 <= w < n <= |b|
    ensures |h| == n
  {
    b[w..n] + b[..w]
  }

  /** The history after the samples `xs` have been written into a ring whose history
      was `h`: the last |h| samples of `h + xs`. */
  function Slide(h: seq<real>, xs: seq<real>): (h': seq<real>)
    ensures |h'| == |h|
  {
    (h + xs)[|xs|..]
  }

  /** The sample at delay `d` while sample `j` of the block `ys` is being processed by a
      ring whose history was `h` when the block began. */
  function Tap(h: seq<real>, ys: seq<real>, d: int, j: int): (v: real)
    requires 0 <= d < |h| && 0 <= j < |ys|
    ensures j >= d ==> v == ys[j - d]
    ensures j < d ==> v == h[|h| + j - d]
  {
    (h + ys)[|h| + j - d]
  }

  /** The taps of a block `b` that follows the block `a` are those of `a + b` counted
      from the end of `a`. */
  lemma TapCompose(h: seq<real>, a: seq<real>, b: seq<real>, d: int, j: int)
    requires 0 <= d < |h| && 0 <= j < |b|
    ensures Tap(Slide(h, a), b, d, j) == Tap(h, a + b, d, |a| + j)
  {
    assert Slide(h, a) + b == (h + a + b)[|a|..];
    assert h + (a + b) == h + a + b;
  }

  function Zeros(n: nat): (z: seq<real>)
    ensures |z| == n
    ensures forall k :: 0 <= k < n ==> z[k] == 0.0
  {
    seq(n, k => 0.0)
  }

  /** Writing `x` at the head and stepping the head drops the oldest sample of the
      history and appends `x`. */
  lemma WriteStep(b: seq<real>, w: int, n: int, x: real)
    requires 0 <= w < n <= |b|
    ensures RingHistory(b[w := x], Next(w, n - 1), n) == RingHistory(b, w, n)[1..] + [x]
  {
    var b' := b[w := x];
    if w == n - 1 {
      assert RingHistory(b, w, n) == [b[w]] + b[..w];
      assert b'[0..n] == b[..w] + [x];
    } else {
      assert b'[w + 1..n] == b[w + 1..n];
      assert b'[..w + 1] == b[..w] + [x];
      assert RingHistory(b, w, n)[1..] == b[w + 1..n] + b[..w];
    }
  }

  /** Sliding in one more sample drops the oldest and appends it. */
  lemma SlideStep(h: seq<real>, xs: seq<real>, x: real)
    requires |h| >= 1
    ensures Slide(h, xs + [x]) == Slide(h, xs)[1..] + [x]
  {
    assert h + (xs + [x]) == (h + xs) + [x];
  }

  /** Sliding block by block is sliding the blocks' concatenation. */
  lemma SlideCompose(h: seq<real>, a: seq<real>, b: seq<real>)
    ensures Slide(Slide(h, a), b) == Slide(h, a + b)
  {
    calc {
      Slide(Slide(h, a), b);
      ((h + a)[|a|..] + b)[|b|..];
      { assert (h + a)[|a|..] + b == (h + a + b)[|a|..]; }
      (h + a + b)[|a|..][|b|..];
      { assert h + (a + b) == h + a + b; }
      Slide(h, a + b);
    }
  }

  /** Read before the write: the slot `d` behind the head holds the sample written `d`
      steps ago, entry `n - d` of the history. */
  lemma ReadBeforeWrite(b: seq<real>, w: int, n: int, d: int)
    requires 0 <= w < n <= |b| && 1 <= d < n
    ensures b[ReadIndex(w, d, n - 1)] == RingHistory(b, w, n)[n - d]
  {
    var h := RingHistory(b, w, n);
    if w - d < 0 {
      assert h[n - d] == b[w..n][n - d];
    } else {
      assert h[n - d] == b[..w][n - d - (n - w)];
    }
  }

  /** Read after the write of `x` at the head: delay 0 sees `x`, a delay `d >= 1` the
      sample written `d` steps ago. */
  lemma ReadAfterWrite(b: seq<real>, w: int, n: int, d: int, x: real)
    requires 0 <= w < n <= |b| && 0 <= d < n
    ensures b[w := x][ReadIndex(w, d, n - 1)] == (RingHistory(b, w, n) + [x])[n - d]
  {
    if d > 0 {
      ReadBeforeWrite(b, w, n, d);
    }
  }

  /** Entry `n - d` of the history after `i` samples of the block, extended by the
      sample being written, is the tap at delay `d` for sample `i`. */
  lemma TapStep(h: seq<real>, ys: seq<real>, i: int, d: int)
    requires 0 <= d < |h| && 0 <= i < |ys|
    ensures (Slide(h, ys[..i]) + [ys[i]])[|h| - d] == Tap(h, ys, d, i)
  {
    assert ys[..i + 1] == ys[..i] + [ys[i]];
    SlideStep(h, ys[..i], ys[i]);
    SlideStep(h, ys[..i + 1], ys[i]);
    var e := h + ys[..i + 1];
    assert Slide(h, ys[..i]) + [ys[i]] == e[i..];
    assert e[i..][|h| - d] == e[|h| + i - d];
    assert e[|h| + i - d] == (h + ys)[|h| + i - d];
  }

  /** One step of a loop that reads at delay `d >= 1` and then writes `ys[i]`: the read
      yields the tap, and the history takes in `ys[i]`. */
  lemma ReadThenWriteStep(b: seq<real>, w: int, n: int, h: seq<real>, ys: seq<real>, i: int, d: int)
    requires 0 <= w < n <= |b| && 1 <= d < n && |h| == n && 0 <= i < |ys|
    requires RingHistory(b, w, n) == Slide(h, ys[..i])
    ensures b[ReadIndex(w, d, n - 1)] == Tap(h, ys, d, i)
    ensures RingHistory(b[w := ys[i]], Next(w, n - 1), n) == Slide(h, ys[..i + 1])
  {
    ReadBeforeWrite(b, w, n, d);
    TapStep(h, ys, i, d);
    WriteStep(b, w, n, ys[i]);
    assert ys[..i + 1] == ys[..i] + [ys[i]];
    SlideStep(h, ys[..i], ys[i]);
  }

  /** One step of a loop that writes `ys[i]` and then reads at delay `d >= 0`: the read
      yields the tap (the new sample itself at delay 0), and the history takes in `ys[i]`. */
  lemma WriteThenReadStep(b: seq<real>, w: int, n: int, h: seq<real>, ys: seq<real>, i: int, d: int)
    requires 0 <= w < n <= |b| && 0 <= d < n && |h| == n && 0 <= i < |ys|
    requires RingHistory(b, w, n) == Slide(h, ys[..i])
    ensures b[w := ys[i]][ReadIndex(w, d, n - 1)] == Tap(h, ys, d, i)
    ensures RingHistory(b[w := ys[i]], Next(w, n - 1), n) == Slide(h, ys[..i + 1])
  {
    ReadAfterWrite(b, w, n, d, ys[i]);
    TapStep(h, ys, i, d);
    WriteStep(b, w, n, ys[i]);
    assert ys[..i + 1] == ys[..i] + [ys[i]];
    SlideStep(h, ys[..i], ys[i]);
  }

  /** A ring whose `n` live slots are all zero has an all-zero history. */
  lemma ClearedHistory(b: seq<real>, w: int, n: int)
    requires 0 <= w < n <= |b|
    requires forall k :: 0 <= k < n ==> b[k] == 0.0
    ensures RingHistory(b, w, n) == Zeros(n)
  {
  }

  /** The delay-line property across blocks: once the ring has been cleared and the
      samples `past` written, the tap at delay `d` for sample `j` of the next block is
      the input stream `past + ys` delayed by `d` samples, and 0 before the stream began. */
  lemma DelayedStream(n: nat, past: seq<real>, ys: seq<real>, d: int, j: int)
    requires 0 <= d < n && 0 <= j < |ys|
    ensures Tap(Slide(Zeros(n), past), ys, d, j)
         == if |past| + j >= d then (past + ys)[|past| + j - d] else 0.0
  {
    var z := Zeros(n);
    var e := z + past + ys;
    assert Slide(z, past) + ys == e[|past|..];
    assert Tap(Slide(z, past), ys, d, j) == e[|past| + n + j - d];
    if |past| + j >= d {
      assert e[|past| + n + j - d] == (past + ys)[|past| + j - d];
    } else {
      assert e[|past| + n + j - d] == z[|past| + n + j - d];
    }
  }
}
