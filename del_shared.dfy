/** The parts of src/simple_del_shared.h shared by the writer and the readers of a named
    delay line: the delay-line record and the four-point interpolation that reads it.
    Samples are reals; C's `int` is kept explicit where the masking depends on it. */
module DelShared {
  import opened Modular

  const INT_MIN: int := -0x8000_0000
  const INT_MAX: int := 0x7FFF_FFFF

  /** t_simple_delwritectl: the delay line's size in samples, its buffer and the
      position the writer writes next. */
  datatype DelWriteCtl = DelWriteCtl(n: int, vec: seq<real>, phase: int)

  function Pow2(k: nat): (p: nat)
    ensures p >= 1
  {
    if k == 0 then 1 else 2 * Pow2(k - 1)
  }

  /** Bitwise `&` of two naturals, one binary digit at a time. */
  function BitAnd(a: nat, b: nat): (r: nat)
    ensures r <= a && r <= b
    decreases a
  {
    if a == 0 || b == 0 then 0
    else 2 * BitAnd(a / 2, b / 2) + (if a % 2 == 1 && b % 2 == 1 then 1 else 0)
  }

  /** C's `x & m` on 32-bit ints with `m >= 0`: `x` enters with its two's-complement
      bits, those of `x mod 2^32`, and bit 31, where the two differ, is clear in `m`. */
  function AndMask(x: int, m: int): (r: int)
    requires INT_MIN <= x <= INT_MAX && 0 <= m <= INT_MAX
    ensures 0 <= r <= m
  {
    BitAnd(x % 0x1_0000_0000, m)
  }

  /** Masking with `2^k - 1` keeps the low `k` bits: the remainder modulo `2^k`. */
  lemma {:induction false} LowBits(a: nat, k: nat)
    ensures BitAnd(a, Pow2(k) - 1) == a % Pow2(k)
  {
    var m := Pow2(k);
    if k == 0 {
      assert m == 1;
    } else if a == 0 {
      assert BitAnd(a, m - 1) == 0;
    } else {
      var p := Pow2(k - 1);
      assert m == 2 * p;
      OddMask(a, p);
      LowBits(a / 2, k - 1);
      HalveMod(a, p);
    }
  }

  /** One digit of a mask of ones: the low bit of `a` is kept and the rest of the mask
      applies to `a / 2`. */
  lemma OddMask(a: nat, p: nat)
    requires a > 0 && p >= 1
    ensures BitAnd(a, 2 * p - 1) == 2 * BitAnd(a / 2, p - 1) + a % 2
  {
    var b := 2 * p - 1;
    assert b / 2 == p - 1 && b % 2 == 1;
  }

  lemma {:induction false} Pow2Split(k: nat, j: nat)
    ensures Pow2(k + j) == Pow2(k) * Pow2(j)
  {
    if j > 0 {
      Pow2Split(k, j - 1);
      assert Pow2(k + j) == 2 * Pow2(k + j - 1);
    }
  }

  lemma {:induction false} Pow2Monotone(k: nat, j: nat)
    requires k <= j
    ensures Pow2(k) <= Pow2(j)
  {
    if k < j {
      Pow2Monotone(k, j - 1);
    }
  }

  /** The powers of two at the top of a 32-bit word. */
  lemma Pow2Word()
    ensures Pow2(31) == 0x8000_0000 && Pow2(32) == 0x1_0000_0000
  {
    assert Pow2(4) == 16;
    Pow2Split(4, 4);
    Pow2Split(8, 8);
    Pow2Split(16, 16);
  }

  /** `2^k - 1 & x` on a 32-bit int `x`, for `k <= 31`, is `x mod 2^k`, negative `x`
      included: a masked index below 0 wraps to the top of the buffer. */
  lemma MaskIsMod(x: int, k: nat)
    requires INT_MIN <= x <= INT_MAX && k <= 31
    ensures Pow2(k) - 1 <= INT_MAX
    ensures AndMask(x, Pow2(k) - 1) == x % Pow2(k)
  {
    Pow2Word();
    Pow2Monotone(k, 31);
    LowBits(x % 0x1_0000_0000, k);
    Pow2Split(k, 32 - k);
    ModOfMod(x, Pow2(k), Pow2(32 - k));
  }

  /** The index `phase - j` with the mask of a buffer of `2^k` samples: `phase - j`
      itself when it is not negative, else that plus `2^k`. */
  lemma MaskedIndex(phase: int, j: int, k: nat)
    requires 0 <= phase < Pow2(k) && 0 <= j <= phase + Pow2(k) && k <= 31
    ensures Pow2(k) - 1 <= INT_MAX
    ensures AndMask(phase - j, Pow2(k) - 1) == if phase >= j then phase - j else phase - j + Pow2(k)
  {
    Pow2Word();
    Pow2Monotone(k, 31);
    MaskIsMod(phase - j, k);
    if phase >= j {
      ModUnique(phase - j, Pow2(k), 0, phase - j);
    } else {
      ModUnique(phase - j, Pow2(k), -1, phase - j + Pow2(k));
    }
  }

  /** 1/6 as the single-precision literal of the source. */
  const SIXTH: real := 0.1666667

  /** The four-point, third-order interpolation between `b` and `c`, with `a` the
      newest and `d` the oldest of four consecutive samples. */
  function Cubic(a: real, b: real, c: real, d: real, frac: real): (r: real)
    ensures frac == 0.0 ==> r == b
    ensures frac == 1.0 ==> r == c
  {
    var cminusb := c - b;
    b + frac * (cminusb - SIXTH * (1.0 - frac) * ((d - a - 3.0 * cminusb) * frac + (d + 2.0 * a - 3.0 * b)))
  }

  /** Four equal samples interpolate to that sample wherever `frac` lies. */
  lemma CubicConstant(v: real, frac: real)
    ensures Cubic(v, v, v, v, frac) == v
  {
  }

  /** Four samples on a line interpolate linearly between `b` and `c`, whatever the
      value of the 1/6 constant: both correction terms vanish. */
  lemma CubicLinear(v: real, s: real, frac: real)
    ensures Cubic(v, v - s, v - 2.0 * s, v - 3.0 * s, frac) == (v - s) + frac * ((v - 2.0 * s) - (v - s))
  {
    var a, b, c, d := v, v - s, v - 2.0 * s, v - 3.0 * s;
    assert d - a - 3.0 * (c - b) == 0.0;
    assert d + 2.0 * a - 3.0 * b == 0.0;
  }

  /** cubic_interpolate: the sample at `phase` and the three before it, each found with
      the mask. Index `phase` itself is not masked, so the caller keeps it in the buffer;
      a mask below the buffer length keeps the other three there. The buffer is only
      read. */
  function CubicInterpolate(buffer: array<real>, phase: int, mask: int, frac: real): (r: real)
    reads buffer
    requires 0 <= phase < buffer.Length && 0 <= mask < buffer.Length
    requires phase <= INT_MAX && mask <= INT_MAX
    ensures frac == 0.0 ==> r == buffer[AndMask(phase - 1, mask)]
    ensures frac == 1.0 ==> r == buffer[AndMask(phase - 2, mask)]
  {
    var a := buffer[phase];
    var b := buffer[AndMask(phase - 1, mask)];
    var c := buffer[AndMask(phase - 2, mask)];
    var d := buffer[AndMask(phase - 3, mask)];
    Cubic(a, b, c, d, frac)
  }

  /** On a buffer of `2^k` samples (mask `2^k - 1`) with the phase inside it, the four
      taps are the samples `phase`, `phase - 1`, `phase - 2`, `phase - 3` modulo `2^k`. */
  lemma InterpolateTaps(buffer: array<real>, phase: int, k: nat, frac: real)
    requires k <= 31 && Pow2(k) <= buffer.Length && 0 <= phase < Pow2(k)
    ensures Pow2(k) - 1 <= INT_MAX
    ensures CubicInterpolate(buffer, phase, Pow2(k) - 1, frac)
         == Cubic(buffer[phase], buffer[(phase - 1) % Pow2(k)], buffer[(phase - 2) % Pow2(k)],
                  buffer[(phase - 3) % Pow2(k)], frac)
  {
    Pow2Word();
    Pow2Monotone(k, 31);
    var m := Pow2(k) - 1;
    MaskIsMod(phase - 1, k);
    MaskIsMod(phase - 2, k);
    MaskIsMod(phase - 3, k);
    var i1, i2, i3 := AndMask(phase - 1, m), AndMask(phase - 2, m), AndMask(phase - 3, m);
    assert i1 == (phase - 1) % Pow2(k) && i2 == (phase - 2) % Pow2(k) && i3 == (phase - 3) % Pow2(k);
    assert CubicInterpolate(buffer, phase, m, frac)
        == Cubic(buffer[phase], buffer[i1], buffer[i2], buffer[i3], frac);
  }
}
