/**
 * Small pure helpers shared by the compressor, the tape emulators and the
 * meter: dB conversion, mid/side coding, the peak envelope follower, the
 * one-pole filters, the meter quantiser and the parameter lookup tables.
 */
module Utils {
  import opened Transcendental

  /** One frame of the sample buffer: `samples[i][0]` and `samples[i][1]`. */
  datatype Frame = Frame(left: real, right: real)

  function Abs(x: real): (r: real)
    ensures r >= 0.0
    ensures r == x || r == -x
  {
    if x < 0.0 then -x else x
  }

  function Max(a: real, b: real): (r: real)
    ensures r >= a && r >= b
    ensures r == a || r == b
  {
    if a < b then b else a
  }

  function Min(a: real, b: real): (r: real)
    ensures r <= a && r <= b
    ensures r == a || r == b
  {
    if a < b then a else b
  }

  // ---------------------------------------------------------------------------
  // dB / linear conversion

  /** `pow(10, dB / 20)`: a gain never exceeds unity exactly when its dB value is not positive. */
  function DbToLinear(m: Math, dB: real): (gain: real)
    ensures gain > 0.0
    ensures gain <= 1.0 <==> dB <= 0.0
    ensures dB == 0.0 ==> gain == 1.0
  {
    m.pow10(dB / 20.0)
  }

  /** Linear to dB, with everything at or below 1e-8 clamped to -120 dB instead of log10(0). */
  function LinearToDb(m: Math, linear: real): (dB: real)
    ensures linear <= 0.00000001 ==> dB == -120.0
    ensures linear > 0.00000001 ==> dB == 20.0 * m.log10(linear)
  {
    if linear <= 0.00000001 then -120.0 else 20.0 * m.log10(linear)
  }

  // ---------------------------------------------------------------------------
  // Mid/side coding

  function ToMid(l: real, r: real): real
  {
    (l + r) * 0.5
  }

  function ToSide(l: real, r: real): real
  {
    (l - r) * 0.5
  }

  /** Decoding recovers the mid and side it was given. */
  function FromMidSide(mid: real, side: real): (lr: Frame)
    ensures ToMid(lr.left, lr.right) == mid
    ensures ToSide(lr.left, lr.right) == side
  {
    Frame(mid + side, mid - side)
  }

  /** Encoding then decoding is the identity on a stereo frame. */
  lemma MidSideRoundTrip(l: real, r: real)
    ensures FromMidSide(ToMid(l, r), ToSide(l, r)) == Frame(l, r)
  {
  }

  // ---------------------------------------------------------------------------
  // Envelope follower

  /** The one-pole coefficient `exp(-1 / (0.001 * ms * sampleRate))` of a time constant in ms. */
  function EnvCoef(m: Math, timeMs: real, sampleRate: real): (c: real)
    requires timeMs > 0.0 && sampleRate > 0.0
    ensures 0.0 < c < 1.0
  {
    var t := 0.001 * timeMs * sampleRate;
    assert t > 0.0 by { PositiveProduct(0.001 * timeMs, sampleRate); }
    m.exp(-1.0 / t)
  }

  lemma PositiveProduct(a: real, b: real)
    requires a > 0.0 && b > 0.0
    ensures a * b > 0.0
  {
  }

  lemma NonnegProduct(a: real, b: real)
    requires a >= 0.0 && b >= 0.0
    ensures a * b >= 0.0
  {
    if a > 0.0 && b > 0.0 {
      PositiveProduct(a, b);
    }
  }

  lemma NonnegQuotient(x: real, d: real)
    requires x >= 0.0 && d > 0.0
    ensures x / d >= 0.0
  {
    var q := x / d;
    assert q * d == x;
    if q < 0.0 {
      PositiveProduct(-q, d);
    }
  }

  /** One step `coef * (env - target) + target` of a one-pole follower stays between env and target. */
  lemma StepToward(coef: real, env: real, target: real)
    requires 0.0 < coef < 1.0
    ensures env < target ==> env < coef * (env - target) + target < target
    ensures target <= env ==> target <= coef * (env - target) + target <= env
  {
    var d := env - target;
    var p, q := coef * d, (1.0 - coef) * d;
    assert p + q == d;
    if d < 0.0 {
      PositiveProduct(coef, -d);
      PositiveProduct(1.0 - coef, -d);
      assert p == -(coef * -d) && q == -((1.0 - coef) * -d);
    } else {
      NonnegProduct(coef, d);
      NonnegProduct(1.0 - coef, d);
    }
  }

  /**
   * Peak follower: attack coefficient exactly when the rectified input is above
   * the envelope, release otherwise; either way the new envelope moves from the
   * old one toward `|input|` without overshooting it.
   */
  function PeakEnv(m: Math, input: real, env: real, attack: real, release: real, sampleRate: real): (e: real)
    requires attack > 0.0 && release > 0.0 && sampleRate > 0.0
    ensures Abs(input) > env ==> env < e < Abs(input)
    ensures Abs(input) <= env ==> Abs(input) <= e <= env
    ensures Abs(input) > env ==> e - Abs(input) == EnvCoef(m, attack, sampleRate) * (env - Abs(input))
    ensures Abs(input) <= env ==> e - Abs(input) == EnvCoef(m, release, sampleRate) * (env - Abs(input))
  {
    var a := Abs(input);
    var coef := if a > env then EnvCoef(m, attack, sampleRate) else EnvCoef(m, release, sampleRate);
    StepToward(coef, env, a);
    coef * (env - a) + a
  }

  // ---------------------------------------------------------------------------
  // Shapers

  /** `tanh(x)`. */
  function SoftClip(m: Math, x: real): (y: real)
    ensures -1.0 < y < 1.0
    ensures x == 0.0 ==> y == 0.0
  {
    m.tanh(x)
  }

  /** Tube stage: a saturating tanh part plus polynomial even/odd harmonics, scaled by 0.85. */
  function TubeStage(m: Math, x: real, drive: real, asym: real, even: real, odd: real): (y: real)
    ensures x == 0.0 ==> y == 0.0
    ensures Abs(y - 0.85 * (even * (x * x) - odd * (x * x * x))) < 0.85
  {
    var u := drive * (x + asym * x * x);
    assert x == 0.0 ==> u == 0.0;
    var t := m.tanh(u);
    assert 0.85 * (t + even * (x * x) - odd * (x * x * x)) - 0.85 * (even * (x * x) - odd * (x * x * x)) == 0.85 * t;
    0.85 * (t + even * (x * x) - odd * (x * x * x))
  }

  /**
   * The bump oscillator and HF-loss decay that every transformer and tape head
   * applies: `(x + gain * sin(2 * 3.14159 * freq * n / sr)) * exp(-n / (sr / loss))`.
   * `n` is the sample index the caller passes; at n = 0 nothing is added or lost.
   */
  function BumpAndLoss(m: Math, x: real, n: nat, bumpFreq: real, bumpGain: real, loss: real, sampleRate: real): (y: real)
    requires sampleRate > 0.0 && loss > 0.0
    ensures n == 0 ==> y == x
  {
    var bump := bumpGain * m.sin(2.0 * 3.14159 * bumpFreq * (n as real) / sampleRate);
    (x + bump) * m.exp(-(n as real) / (sampleRate / loss))
  }

  /** Transformer stage: bump and HF loss, then `tanh(1.08 * x)`; the output is always in (-1, 1). */
  function XfmrStage(m: Math, x: real, n: nat, bumpFreq: real, bumpGain: real, highLoss: real, sampleRate: real): (y: real)
    requires sampleRate > 0.0 && highLoss > 0.0
    ensures -1.0 < y < 1.0
    ensures n == 0 ==> y == m.tanh(1.08 * x)
  {
    m.tanh(1.08 * BumpAndLoss(m, x, n, bumpFreq, bumpGain, highLoss, sampleRate))
  }

  // ---------------------------------------------------------------------------
  // One-pole filters

  /** Low-pass: a convex combination of the input and the previous output. */
  function OnePoleLP(x: real, last: real, alpha: real): (y: real)
    ensures 0.0 <= alpha <= 1.0 ==> Min(x, last) <= y <= Max(x, last)
    ensures alpha == 1.0 ==> y == x
    ensures alpha == 0.0 ==> y == last
  {
    ConvexBetween(x, last, alpha);
    alpha * x + (1.0 - alpha) * last
  }

  lemma ConvexBetween(x: real, last: real, alpha: real)
    ensures 0.0 <= alpha <= 1.0 ==> Min(x, last) <= alpha * x + (1.0 - alpha) * last <= Max(x, last)
  {
    var y := alpha * x + (1.0 - alpha) * last;
    assert y == last + alpha * (x - last);
    if alpha < 0.0 || alpha > 1.0 {
    } else if x >= last {
      NonnegProduct(alpha, x - last);
      NonnegProduct(1.0 - alpha, x - last);
      assert (1.0 - alpha) * (x - last) == (x - last) - alpha * (x - last);
    } else {
      NonnegProduct(alpha, last - x);
      NonnegProduct(1.0 - alpha, last - x);
      assert alpha * (last - x) == -(alpha * (x - last));
      assert (1.0 - alpha) * (last - x) == (last - x) - alpha * (last - x);
    }
  }

  /**
   * The high-pass as written, `alpha * (last + x - last)`: the previous value
   * cancels, so the "filter" is a plain gain of alpha.
   */
  function OnePoleHP(x: real, last: real, alpha: real): (y: real)
    ensures y == alpha * x
  {
    alpha * (last + x - last)
  }

  /** Steady input 1.0 comes out of the written high-pass as 0.5 at every step, whatever came before. */
  lemma OnePoleHPPassesDC(last: real)
    ensures OnePoleHP(1.0, last, 0.5) == 0.5
    ensures OnePoleHP(1.0, OnePoleHP(1.0, last, 0.5), 0.5) == 0.5
  {
  }

  /**
   * A one-pole high-pass with memory of both its previous input and output:
   * `alpha * (prevOut + x - prevIn)`. The compressor's sidechain filter has this
   * form. With the input holding steady, the output only shrinks by alpha.
   */
  function HighPassStep(x: real, prevIn: real, prevOut: real, alpha: real): (y: real)
    ensures x == prevIn ==> y == alpha * prevOut
    ensures y - alpha * prevOut == alpha * (x - prevIn)
  {
    alpha * (prevOut + x - prevIn)
  }

  function Power(a: real, n: nat): real
  {
    if n == 0 then 1.0 else a * Power(a, n - 1)
  }

  /** The output after `n` steps of the high-pass fed the constant `c`, having last seen `c`. */
  function HighPassHeld(c: real, y0: real, alpha: real, n: nat): real
  {
    if n == 0 then y0 else HighPassStep(c, c, HighPassHeld(c, y0, alpha, n - 1), alpha)
  }

  /** A held input decays geometrically: the high-pass blocks DC. */
  lemma {:induction false} HighPassBlocksDC(c: real, y0: real, alpha: real, n: nat)
    ensures HighPassHeld(c, y0, alpha, n) == Power(alpha, n) * y0
  {
    if n > 0 {
      HighPassBlocksDC(c, y0, alpha, n - 1);
      calc {
        HighPassHeld(c, y0, alpha, n);
        alpha * HighPassHeld(c, y0, alpha, n - 1);
        alpha * (Power(alpha, n - 1) * y0);
        (alpha * Power(alpha, n - 1)) * y0;
      }
    }
  }

  /** For 0 < alpha < 1 the factor alphaⁿ stays positive, falls at every step and is below 1 after the first. */
  lemma {:induction false} PowerDecays(alpha: real, n: nat)
    requires 0.0 < alpha < 1.0
    ensures 0.0 < Power(alpha, n + 1) < Power(alpha, n) <= 1.0
  {
    if n > 0 {
      PowerDecays(alpha, n - 1);
    }
    var p := Power(alpha, n);
    assert 0.0 < p <= 1.0;
    PositiveProduct(alpha, p);
    assert p - alpha * p == (1.0 - alpha) * p;
    PositiveProduct(1.0 - alpha, p);
  }

  // ---------------------------------------------------------------------------
  // Meter quantiser and clamp

  /** `int(x)`: truncation toward zero. */
  function TruncToInt(x: real): (n: int)
    ensures x >= 0.0 ==> n as real <= x < n as real + 1.0
    ensures x < 0.0 ==> n as real - 1.0 < x <= n as real
  {
    if x >= 0.0 then x.Floor else -((-x).Floor)
  }

  /** The value clamped to [min, max] the way the meter does it: first raised to min, then lowered to max. */
  function MeterClamp(val: real, min: real, max: real): (v: real)
    requires min < max
    ensures min <= v <= max
    ensures val <= min ==> v == min
    ensures val >= max ==> v == max
    ensures min <= val <= max ==> v == val
  {
    var lifted := if val < min then min else val;
    if lifted > max then max else lifted
  }

  /** The clamped value as a fraction of the range, scaled to `span` frames and offset by one half. */
  function MeterPosition(val: real, min: real, max: real, span: real): (pos: real)
    requires min < max
    ensures span >= 0.0 ==> 0.5 <= pos <= span + 0.5
    ensures val <= min ==> pos == 0.5
    ensures val >= max ==> pos == span + 0.5
  {
    var v := MeterClamp(val, min, max);
    ScaledFraction(span, v - min, max - min) + 0.5
  }

  /** `k * a / d` for a share `a` of a whole `d`: between 0 and `k`, and exactly `k` for the whole. */
  function ScaledFraction(k: real, a: real, d: real): (r: real)
    requires 0.0 <= a <= d && d > 0.0
    ensures k >= 0.0 ==> 0.0 <= r <= k
    ensures a == 0.0 ==> r == 0.0
    ensures a == d ==> r == k
  {
    assert k * d / d == k;
    if k >= 0.0 then
      NonnegProduct(k, a);
      NonnegProduct(k, d - a);
      assert k * (d - a) == k * d - k * a;
      NonnegQuotient(k * a, d);
      DivideMonotone(k * a, k * d, d);
      k * a / d
    else
      k * a / d
  }

  /** A larger share never gives a smaller scaled fraction. */
  lemma ScaledFractionMonotone(k: real, a1: real, a2: real, d: real)
    requires 0.0 <= a1 <= a2 <= d && d > 0.0 && k >= 0.0
    ensures ScaledFraction(k, a1, d) <= ScaledFraction(k, a2, d)
  {
    NonnegProduct(k, a2 - a1);
    assert k * a2 - k * a1 == k * (a2 - a1);
    DivideMonotone(k * a1, k * a2, d);
  }

  /**
   * Maps `val` in [min, max] to a frame index in [0, frames - 1]; values
   * outside the range are clamped first.
   */
  function MapMeter(val: real, min: real, max: real, frames: int): (frame: int)
    requires min < max
    ensures frames >= 1 ==> 0 <= frame <= frames - 1
    ensures frames >= 1 && val <= min ==> frame == 0
    ensures frames >= 1 && val >= max ==> frame == frames - 1
  {
    TruncToInt(MeterPosition(val, min, max, (frames - 1) as real))
  }

  /** A larger value never gives a lower frame. */
  lemma MapMeterMonotone(v1: real, v2: real, min: real, max: real, frames: int)
    requires min < max && frames >= 1 && v1 <= v2
    ensures MapMeter(v1, min, max, frames) <= MapMeter(v2, min, max, frames)
  {
    var k := (frames - 1) as real;
    ScaledFractionMonotone(k, MeterClamp(v1, min, max) - min, MeterClamp(v2, min, max) - min, max - min);
  }

  lemma DivideMonotone(a: real, b: real, d: real)
    requires a <= b && d > 0.0
    ensures a / d <= b / d
  {
    assert b / d - a / d == (b - a) / d;
    NonnegQuotient(b - a, d);
  }

  /** Clamp to [lo, hi]: inside the range when it is non-empty, and the identity on it. */
  function Clamp(x: real, lo: real, hi: real): (r: real)
    ensures lo <= hi ==> lo <= r <= hi
    ensures lo <= x <= hi ==> r == x
    ensures x < lo ==> r == lo
    ensures lo <= hi && x > hi ==> r == hi
  {
    if x < lo then lo else if x > hi then hi else x
  }

  lemma ClampIdempotent(x: real, lo: real, hi: real)
    requires lo <= hi
    ensures Clamp(Clamp(x, lo, hi), lo, hi) == Clamp(x, lo, hi)
  {
  }

  // ---------------------------------------------------------------------------
  // Parameter tables

  /** SC_HPF index to cutoff in Hz: 1 gives 60, 2 gives 120, anything else 0 (filter off). */
  function ScHpfFreq(idx: int): (freq: real)
    ensures freq == 60.0 <==> idx == 1
    ensures freq == 120.0 <==> idx == 2
    ensures freq == 0.0 <==> idx != 1 && idx != 2
  {
    if idx == 1 then 60.0 else if idx == 2 then 120.0 else 0.0
  }

  /** IPS index to tape speed: 0 gives 7, 1 gives 15, anything else 30. */
  function MapIpsIndexToValue(idx: int): (ips: int)
    ensures ips == 7 <==> idx == 0
    ensures ips == 15 <==> idx == 1
    ensures ips == 30 <==> idx != 0 && idx != 1
  {
    if idx == 0 then 7 else if idx == 1 then 15 else 30
  }
}
