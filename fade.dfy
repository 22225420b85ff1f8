/** The integer arithmetic that scales a colour for one step of a pulse fade. */
module Fade {
  import opened Colors

  /** 2^32: Go's `uint32` arithmetic is modulo this. */
  const U32: nat := 0x1_0000_0000

  /** The largest step count for which no product `channel16 * j` with
      `j <= steps` can overflow `uint32` (0xffff * 65537 == 2^32 - 1). */
  const MaxExactSteps: nat := 65537

  /** `color.RGBA.RGBA()` widens each 8-bit channel to 16 bits by repeating the
      byte (`c * 0x101`). That method belongs to Go's image/color package and is
      taken here as a stated assumption: both bytes of the result are `c`. */
  function Widen(c: Byte): (w: nat)
    ensures w < 0x1_0000
    ensures w / 0x100 == c && w % 0x100 == c
  {
    c * 0x101
  }

  /** Multiplication of two `uint32` values: exact below 2^32, wrapping above. */
  function MulU32(x: nat, y: nat): (p: nat)
    ensures p < U32
    ensures x * y < U32 ==> p == x * y
  {
    (x * y) % U32
  }

  /** One scaled channel of a pulse sample: `byte((c16 * uint32(j) / uint32(steps)) >> 8)`.
      Since `j <= steps < 2^32`, the conversions of `j` and `steps` to `uint32` keep
      their values; the product wraps, `>> 8` divides by 256 and `byte` keeps the
      low 8 bits. Whenever the product does not wrap, the channel is the exact
      scaled value `c16 * j / steps / 256`, which never exceeds `c`. */
  function FadeChannel(c: Byte, j: nat, steps: nat): (v: Byte)
    requires 0 < steps < U32 && j <= steps
    ensures Widen(c) * j < U32 ==> v == Widen(c) * j / steps / 0x100 && v <= c
  {
    ExactWithoutWrap(c, j, steps);
    (MulU32(Widen(c), j) / steps / 0x100) % 0x100
  }

  /** Pulse sample `j` of `steps` for colour `col`: each colour channel scaled by
      `j / steps`, the alpha channel passed through `uint8(c * 0x101)`. */
  function Sample(col: RGBA, j: nat, steps: nat): (s: RGBA)
    requires 0 < steps < U32 && j <= steps
    ensures s.a == col.a
  {
    RGBA(FadeChannel(col.r, j, steps), FadeChannel(col.g, j, steps),
         FadeChannel(col.b, j, steps), Widen(col.a) % 0x100)
  }

  /** Channel-wise "no brighter than" on the three colour channels. */
  predicate NoBrighter(x: RGBA, y: RGBA) {
    x.r <= y.r && x.g <= y.g && x.b <= y.b
  }

  lemma MulMonotone(w: nat, j: nat, k: nat)
    requires j <= k
    ensures w * j <= w * k
  {
  }

  lemma MulDistributes(d: nat, q: nat)
    ensures d * (q + 1) == d * q + d
  {
  }

  lemma DivMonotone(x: nat, y: nat, d: nat)
    requires x <= y && 0 < d
    ensures x / d <= y / d
  {
    MulDistributes(d, y / d);
    assert d * (x / d) <= x && y < d * (y / d + 1);
    if x / d > y / d {
      MulMonotone(d, y / d + 1, x / d);
    }
  }

  /** Dividing a multiple of `d` by `d` gives the other factor back. */
  lemma MulDivCancel(w: nat, d: nat)
    requires 0 < d
    ensures w * d / d == w
  {
    var q := w * d / d;
    assert w * d == d * q + (w * d) % d;
    MulDistributes(d, q);
    MulDistributes(d, w);
    if q < w {
      MulMonotone(d, q + 1, w);
    } else if q > w {
      MulMonotone(d, w + 1, q);
    }
  }

  /** Scaling by `k / steps` with `k <= steps` never exceeds the value scaled. */
  lemma ScaledBelow(w: nat, k: nat, steps: nat)
    requires 0 < steps && k <= steps
    ensures w * k / steps <= w
  {
    MulMonotone(w, k, steps);
    DivMonotone(w * k, w * steps, steps);
    MulDivCancel(w, steps);
  }

  /** A 16-bit value whose high byte is `c`, scaled by `j / steps` and shifted
      right 8, is at most `c`. */
  lemma ScaledByteBelow(w: nat, c: nat, j: nat, steps: nat)
    requires 0 < steps && j <= steps && w / 0x100 == c
    ensures w * j / steps / 0x100 <= c
  {
    ScaledBelow(w, j, steps);
    DivMonotone(w * j / steps, w, 0x100);
  }

  /** When the product does not wrap, the `uint32` computation of a channel is
      the exact scaled value, and it fits in a byte without truncation. */
  lemma ExactWithoutWrap(c: Byte, j: nat, steps: nat)
    requires 0 < steps && j <= steps
    ensures Widen(c) * j < U32 ==>
      (MulU32(Widen(c), j) / steps / 0x100) % 0x100 == Widen(c) * j / steps / 0x100 <= c
  {
    var w := Widen(c);
    if w * j < U32 {
      var q := w * j / steps / 0x100;
      ScaledByteBelow(w, c, j, steps);
      assert MulU32(w, j) / steps / 0x100 == q;
      assert q % 0x100 == q;
    }
  }

  /** With at most MaxExactSteps steps the product never wraps. */
  lemma {:induction false} NoWrap(c: Byte, j: nat, steps: nat)
    requires 0 < steps <= MaxExactSteps && j <= steps
    ensures Widen(c) * j < U32
    ensures MulU32(Widen(c), j) == Widen(c) * j
  {
    MulMonotone(Widen(c), j, MaxExactSteps);
    assert Widen(c) * MaxExactSteps <= 0xffff * MaxExactSteps by {
      MulMonotone(MaxExactSteps, Widen(c), 0xffff);
    }
  }

  /** A fade starts dark and ends at the target: the channel is 0 at `j = 0` and
      exactly `c` at `j = steps`. */
  lemma FadeChannelEnds(c: Byte, steps: nat)
    requires 0 < steps <= MaxExactSteps
    ensures FadeChannel(c, 0, steps) == 0
    ensures FadeChannel(c, steps, steps) == c
  {
    NoWrap(c, steps, steps);
    MulDivCancel(Widen(c), steps);
  }

  /** Without wrap-around a channel is the exact scaled value, which never
      exceeds the target channel. */
  lemma FadeChannelExact(c: Byte, j: nat, steps: nat)
    requires 0 < steps <= MaxExactSteps && j <= steps
    ensures FadeChannel(c, j, steps) == Widen(c) * j / steps / 0x100
    ensures FadeChannel(c, j, steps) <= c
  {
    NoWrap(c, j, steps);
  }

  /** For `j <= k <= steps` a sample at `j` is no brighter than one at `k`. */
  lemma FadeChannelMonotone(c: Byte, j: nat, k: nat, steps: nat)
    requires 0 < steps <= MaxExactSteps && j <= k <= steps
    ensures FadeChannel(c, j, steps) <= FadeChannel(c, k, steps)
  {
    FadeChannelExact(c, j, steps);
    FadeChannelExact(c, k, steps);
    var w := Widen(c);
    MulMonotone(w, j, k);
    DivMonotone(w * j, w * k, steps);
    DivMonotone(w * j / steps, w * k / steps, 0x100);
  }

  /** The whole-colour forms of the three channel facts. */
  lemma SampleEnds(col: RGBA, steps: nat)
    requires 0 < steps <= MaxExactSteps
    ensures Sample(col, 0, steps) == RGBA(0, 0, 0, col.a)
    ensures Sample(col, steps, steps) == col
  {
    FadeChannelEnds(col.r, steps);
    FadeChannelEnds(col.g, steps);
    FadeChannelEnds(col.b, steps);
  }

  lemma SampleMonotone(col: RGBA, j: nat, k: nat, steps: nat)
    requires 0 < steps <= MaxExactSteps && j <= k <= steps
    ensures NoBrighter(Sample(col, j, steps), Sample(col, k, steps))
    ensures NoBrighter(Sample(col, k, steps), col)
  {
    FadeChannelMonotone(col.r, j, k, steps);
    FadeChannelMonotone(col.g, j, k, steps);
    FadeChannelMonotone(col.b, j, k, steps);
    FadeChannelExact(col.r, k, steps);
    FadeChannelExact(col.g, k, steps);
    FadeChannelExact(col.b, k, steps);
  }

  /** Above MaxExactSteps the `uint32` product wraps and the fade is no longer
      monotone: with 70000 steps, full red drops from 239 at j = 65537 to 0 at
      j = 65538. */
  lemma WrapBreaksMonotonicity()
    ensures FadeChannel(0xff, 65537, 70000) == 239
    ensures FadeChannel(0xff, 65538, 70000) == 0
  {
    assert Widen(0xff) * 65537 == 0xffff_ffff;
    assert Widen(0xff) * 65538 == U32 + 65534;
  }
}
