/**
 * The Fairchild-style compressor: blended tube and transformer colouration,
 * per-signal sidechain filter and peak envelope, program-dependent ratio,
 * 6 dB soft knee, stereo or mid/side gain, stereo link, wet/dry mix written
 * back into the sample buffer, and the gain-reduction values it publishes.
 */
module Compressor {
  import opened Transcendental
  import opened Utils
  import opened Telemetry

  // ---------------------------------------------------------------------------
  // Component tables and their blends

  datatype TubeModel = TubeModel(name: string, drive: real, asym: real, even: real, odd: real, qty: nat)
  datatype XfmrModel = XfmrModel(name: string, bumpFreq: real, bumpGain: real, highLoss: real)

  /** The quantity-weighted tube character used by every tube stage. */
  datatype TubeParams = TubeParams(drive: real, asym: real, even: real, odd: real)
  /** The averaged transformer character used by every transformer stage. */
  datatype XfmrParams = XfmrParams(bumpFreq: real, bumpGain: real, highLoss: real)

  const TubeModels: seq<TubeModel> := [
    TubeModel("6386", 1.25, 0.06, 0.11, 0.09, 8),
    TubeModel("12AX7", 1.40, 0.04, 0.12, 0.10, 2),
    TubeModel("6973", 1.30, 0.05, 0.10, 0.08, 4),
    TubeModel("12BH7", 1.15, 0.05, 0.09, 0.07, 2),
    TubeModel("E80F", 1.10, 0.03, 0.08, 0.07, 1)
  ]

  const XfmrModels: seq<XfmrModel> := [
    XfmrModel("Input 1", 50.0, 2.0, 13000.0),
    XfmrModel("Input 2", 52.0, 2.1, 14000.0),
    XfmrModel("Interstage 1", 55.0, 1.9, 12000.0),
    XfmrModel("Interstage 2", 60.0, 2.2, 15000.0),
    XfmrModel("Interstage 3", 58.0, 2.0, 16000.0),
    XfmrModel("Output 1", 54.0, 2.2, 12000.0),
    XfmrModel("Output 2", 56.0, 2.1, 13000.0)
  ]

  datatype TubeField = Drive | Asym | Even | Odd
  datatype XfmrField = BumpFreq | BumpGain | HighLoss

  function TubeValue(t: TubeModel, f: TubeField): real
  {
    match f
    case Drive => t.drive
    case Asym => t.asym
    case Even => t.even
    case Odd => t.odd
  }

  function TubeParam(p: TubeParams, f: TubeField): real
  {
    match f
    case Drive => p.drive
    case Asym => p.asym
    case Even => p.even
    case Odd => p.odd
  }

  function XfmrValue(x: XfmrModel, f: XfmrField): real
  {
    match f
    case BumpFreq => x.bumpFreq
    case BumpGain => x.bumpGain
    case HighLoss => x.highLoss
  }

  function XfmrParam(p: XfmrParams, f: XfmrField): real
  {
    match f
    case BumpFreq => p.bumpFreq
    case BumpGain => p.bumpGain
    case HighLoss => p.highLoss
  }

  /** Sum of the quantities, accumulated front to back. */
  function TotalQty(ts: seq<TubeModel>): nat
  {
    if ts == [] then 0 else TotalQty(ts[..|ts| - 1]) + ts[|ts| - 1].qty
  }

  /** Sum of one field weighted by quantity, accumulated front to back. */
  function WeightedSum(ts: seq<TubeModel>, f: TubeField): real
  {
    if ts == [] then 0.0
    else WeightedSum(ts[..|ts| - 1], f) + Weighted(ts[|ts| - 1], f)
  }

  /** One field of one tube type times its quantity. */
  function Weighted(t: TubeModel, f: TubeField): real
  {
    TubeValue(t, f) * t.qty as real
  }

  /** Sum of one transformer field, accumulated front to back. */
  function XfmrSum(xs: seq<XfmrModel>, f: XfmrField): real
  {
    if xs == [] then 0.0 else XfmrSum(xs[..|xs| - 1], f) + XfmrValue(xs[|xs| - 1], f)
  }

  function BlendTubes(ts: seq<TubeModel>): TubeParams
    requires TotalQty(ts) > 0
  {
    var q := TotalQty(ts) as real;
    TubeParams(WeightedSum(ts, Drive) / q, WeightedSum(ts, Asym) / q,
               WeightedSum(ts, Even) / q, WeightedSum(ts, Odd) / q)
  }

  function BlendXfmrs(xs: seq<XfmrModel>): XfmrParams
    requires |xs| > 0
  {
    var n := |xs| as real;
    XfmrParams(XfmrSum(xs, BumpFreq) / n, XfmrSum(xs, BumpGain) / n, XfmrSum(xs, HighLoss) / n)
  }

  /** `sum` lies between `lo * n` and `hi * n`. */
  predicate Bracketed(lo: real, hi: real, n: real, sum: real)
  {
    lo * n <= sum <= hi * n
  }

  /** A quantity-weighted sum lies between the smallest and largest value times the total quantity. */
  lemma {:induction false} WeightedSumBounds(ts: seq<TubeModel>, f: TubeField, lo: real, hi: real)
    requires forall i :: 0 <= i < |ts| ==> lo <= TubeValue(ts[i], f) <= hi
    ensures Bracketed(lo, hi, TotalQty(ts) as real, WeightedSum(ts, f))
  {
    if ts == [] {
      assert Bracketed(lo, hi, 0.0, 0.0);
    } else {
      var init, t := ts[..|ts| - 1], ts[|ts| - 1];
      WeightedSumBounds(init, f, lo, hi);
      AccumulateBounds(lo, hi, TotalQty(init) as real, WeightedSum(init, f), TubeValue(t, f), t.qty as real);
    }
  }

  /**
   * Adding `q` copies of a value in [lo, hi] to a sum bracketed by `lo * n`
   * and `hi * n` gives a sum bracketed by `lo * (n + q)` and `hi * (n + q)`.
   */
  lemma AccumulateBounds(lo: real, hi: real, n: real, sum: real, v: real, q: real)
    requires Bracketed(lo, hi, n, sum)
    requires lo <= v <= hi && q >= 0.0
    ensures Bracketed(lo, hi, n + q, sum + v * q)
  {
    NonnegProduct(v - lo, q);
    NonnegProduct(hi - v, q);
    assert (v - lo) * q == v * q - lo * q;
    assert (hi - v) * q == hi * q - v * q;
    assert lo * (n + q) == lo * n + lo * q;
    assert hi * (n + q) == hi * n + hi * q;
  }

  /** A sum of values lies between the smallest and largest value times the count. */
  lemma {:induction false} XfmrSumBounds(xs: seq<XfmrModel>, f: XfmrField, lo: real, hi: real)
    requires forall i :: 0 <= i < |xs| ==> lo <= XfmrValue(xs[i], f) <= hi
    ensures Bracketed(lo, hi, |xs| as real, XfmrSum(xs, f))
  {
    if xs == [] {
      assert Bracketed(lo, hi, 0.0, 0.0);
    } else {
      var init := xs[..|xs| - 1];
      XfmrSumBounds(init, f, lo, hi);
      AccumulateBounds(lo, hi, |init| as real, XfmrSum(init, f), XfmrValue(xs[|xs| - 1], f), 1.0);
      assert XfmrValue(xs[|xs| - 1], f) * 1.0 == XfmrValue(xs[|xs| - 1], f);
    }
  }

  /** A total scaled by `lo` and `hi` brackets the sum, so the mean lies in [lo, hi]. */
  lemma MeanWithin(sum: real, n: real, lo: real, hi: real)
    requires n > 0.0 && Bracketed(lo, hi, n, sum)
    ensures lo <= sum / n <= hi
  {
    DivideMonotone(lo * n, sum, n);
    DivideMonotone(sum, hi * n, n);
    assert lo * n / n == lo;
    assert hi * n / n == hi;
  }

  /** The blend is a weighted mean: each parameter lies within the range of the component values. */
  lemma BlendTubesWithin(ts: seq<TubeModel>, f: TubeField, lo: real, hi: real)
    requires TotalQty(ts) > 0
    requires forall i :: 0 <= i < |ts| ==> lo <= TubeValue(ts[i], f) <= hi
    ensures lo <= TubeParam(BlendTubes(ts), f) <= hi
  {
    WeightedSumBounds(ts, f, lo, hi);
    MeanWithin(WeightedSum(ts, f), TotalQty(ts) as real, lo, hi);
  }

  /** The transformer blend is a mean: each parameter lies within the range of the component values. */
  lemma BlendXfmrsWithin(xs: seq<XfmrModel>, f: XfmrField, lo: real, hi: real)
    requires |xs| > 0
    requires forall i :: 0 <= i < |xs| ==> lo <= XfmrValue(xs[i], f) <= hi
    ensures lo <= XfmrParam(BlendXfmrs(xs), f) <= hi
  {
    XfmrSumBounds(xs, f, lo, hi);
    MeanWithin(XfmrSum(xs, f), |xs| as real, lo, hi);
  }

  /** The tube table holds 17 tubes in all. */
  lemma TubeTableQuantity()
    ensures TotalQty(TubeModels) == 17
  {
    var ts := TubeModels;
    assert ts[..4][..3][..2][..1][..0] == [];
    assert ts[..4][..3][..2][..1] == ts[..1];
    assert ts[..4][..3][..2] == ts[..2];
    assert ts[..4][..3] == ts[..3];
    assert ts[..|ts| - 1] == ts[..4];
    assert TotalQty(ts[..1]) == 8;
    assert TotalQty(ts[..2]) == 10;
    assert TotalQty(ts[..3]) == 14;
    assert TotalQty(ts[..4]) == 16;
  }

  /**
   * getBlendedTubeParams: the tube character is the quantity-weighted mean of
   * the tube table, so each of its parameters lies within the range the five
   * tube types span.
   */
  method GetBlendedTubeParams() returns (p: TubeParams)
    ensures TotalQty(TubeModels) == 17
    ensures p == BlendTubes(TubeModels)
    ensures 1.10 <= p.drive <= 1.40 && 0.03 <= p.asym <= 0.06
    ensures 0.08 <= p.even <= 0.12 && 0.07 <= p.odd <= 0.10
  {
    TubeTableQuantity();
    p := WeightedMean(TubeModels);
    TubeBlendRanges();
  }

  /** The accumulator loop of getBlendedTubeParams over any table with tubes in it. */
  method WeightedMean(ts: seq<TubeModel>) returns (p: TubeParams)
    requires TotalQty(ts) > 0
    ensures p == BlendTubes(ts)
  {
    var totalQty, drive, asym, even, odd := 0.0, 0.0, 0.0, 0.0, 0.0;
    var i := 0;
    while i < |ts|
      invariant 0 <= i <= |ts|
      invariant totalQty == TotalQty(ts[..i]) as real
      invariant drive == WeightedSum(ts[..i], Drive)
      invariant asym == WeightedSum(ts[..i], Asym)
      invariant even == WeightedSum(ts[..i], Even)
      invariant odd == WeightedSum(ts[..i], Odd)
    {
      var t := ts[i];
      assert ts[..i + 1][..i] == ts[..i];
      totalQty := totalQty + t.qty as real;
      drive := drive + Weighted(t, Drive);
      asym := asym + Weighted(t, Asym);
      even := even + Weighted(t, Even);
      odd := odd + Weighted(t, Odd);
      i := i + 1;
    }
    assert ts[..i] == ts;
    p := TubeParams(drive / totalQty, asym / totalQty, even / totalQty, odd / totalQty);
  }

  /** Each blended tube parameter lies within the range the five tube types span. */
  lemma TubeBlendRanges()
    ensures TotalQty(TubeModels) == 17
    ensures var p := BlendTubes(TubeModels);
            1.10 <= p.drive <= 1.40 && 0.03 <= p.asym <= 0.06 && 0.08 <= p.even <= 0.12 && 0.07 <= p.odd <= 0.10
  {
    TubeTableQuantity();
    BlendTubesWithin(TubeModels, Drive, 1.10, 1.40);
    BlendTubesWithin(TubeModels, Asym, 0.03, 0.06);
    BlendTubesWithin(TubeModels, Even, 0.08, 0.12);
    BlendTubesWithin(TubeModels, Odd, 0.07, 0.10);
  }

  /**
   * getBlendedXfmrParams: each averaged parameter lies within the range of the
   * seven transformers, so in particular the HF-loss constant is positive.
   */
  method GetBlendedXfmrParams() returns (p: XfmrParams)
    ensures p == BlendXfmrs(XfmrModels)
    ensures 50.0 <= p.bumpFreq <= 60.0 && 1.9 <= p.bumpGain <= 2.2
    ensures 12000.0 <= p.highLoss <= 16000.0
  {
    p := Mean(XfmrModels);
    XfmrBlendRanges();
  }

  /** The accumulator loop of getBlendedXfmrParams over any non-empty table. */
  method Mean(xs: seq<XfmrModel>) returns (p: XfmrParams)
    requires |xs| > 0
    ensures p == BlendXfmrs(xs)
  {
    var n := |xs|;
    var bumpF, bumpG, highL := 0.0, 0.0, 0.0;
    var i := 0;
    while i < n
      invariant 0 <= i <= n
      invariant bumpF == XfmrSum(xs[..i], BumpFreq)
      invariant bumpG == XfmrSum(xs[..i], BumpGain)
      invariant highL == XfmrSum(xs[..i], HighLoss)
    {
      assert xs[..i + 1][..i] == xs[..i];
      bumpF := bumpF + xs[i].bumpFreq;
      bumpG := bumpG + xs[i].bumpGain;
      highL := highL + xs[i].highLoss;
      i := i + 1;
    }
    assert xs[..i] == xs;
    p := XfmrParams(bumpF / n as real, bumpG / n as real, highL / n as real);
  }

  /** Each averaged transformer parameter lies within the range of the seven transformers. */
  lemma XfmrBlendRanges()
    ensures var p := BlendXfmrs(XfmrModels);
            50.0 <= p.bumpFreq <= 60.0 && 1.9 <= p.bumpGain <= 2.2 && 12000.0 <= p.highLoss <= 16000.0
  {
    BlendXfmrsWithin(XfmrModels, BumpFreq, 50.0, 60.0);
    BlendXfmrsWithin(XfmrModels, BumpGain, 1.9, 2.2);
    BlendXfmrsWithin(XfmrModels, HighLoss, 12000.0, 16000.0);
  }

  // ---------------------------------------------------------------------------
  // Colouration

  /** The tube stage with the blended tube character: silence stays silent. */
  function TubeColour(m: Math, tube: TubeParams, x: real): (y: real)
    ensures x == 0.0 ==> y == 0.0
  {
    TubeStage(m, x, tube.drive, tube.asym, tube.even, tube.odd)
  }

  /** The transformer stage with the blended transformer character: always inside (-1, 1). */
  function XfmrColour(m: Math, xfmr: XfmrParams, x: real, n: nat, sampleRate: real): (y: real)
    requires sampleRate > 0.0 && xfmr.highLoss > 0.0
    ensures -1.0 < y < 1.0
    ensures n == 0 ==> y == m.tanh(1.08 * x)
  {
    XfmrStage(m, x, n, xfmr.bumpFreq, xfmr.bumpGain, xfmr.highLoss, sampleRate)
  }

  /**
   * Input gain, tube and transformer colouration of frame `n` of a block. A
   * mono buffer feeds its left sample to both sides.
   */
  function Colour(m: Math, tube: TubeParams, xfmr: XfmrParams, inGain: real, numChannels: int,
                  n: nat, x: Frame, sampleRate: real): (c: Frame)
    requires sampleRate > 0.0 && xfmr.highLoss > 0.0
    ensures -1.0 < c.left < 1.0 && -1.0 < c.right < 1.0
    ensures numChannels <= 1 ==> c.left == c.right
  {
    var tubeL := TubeColour(m, tube, x.left * inGain);
    var tubeR := if numChannels > 1 then TubeColour(m, tube, x.right * inGain) else tubeL;
    Frame(XfmrColour(m, xfmr, tubeL, n, sampleRate), XfmrColour(m, xfmr, tubeR, n, sampleRate))
  }

  // ---------------------------------------------------------------------------
  // Per-block setup

  /** A snapshot of the host parameters; `compOn` and `link` are the 0/1 switches. */
  datatype CompParams = CompParams(
    inputGain: real, threshold: real, output: real, timeConstant: int,
    scHpf: int, mix: real, link: bool, mode: int, compOn: bool)

  /** The constants computed once per block before the sample loop. */
  datatype Setup = Setup(
    thres: real, inGain: real, outGain: real, wet: real, dry: real,
    attack: real, release: real, freq: real, alpha: real, midSide: bool, link: bool)

  /** Attack and release of the six time-constant positions, in the units the follower takes. */
  const AttackTimes: seq<real> := [0.2, 0.2, 0.4, 0.8, 0.2, 0.2]
  const ReleaseTimes: seq<real> := [0.3, 0.8, 2.0, 5.0, 2.0, 0.3]

  /** Knee width in dB. */
  const Knee: real := 6.0

  predicate SetupOk(s: Setup)
  {
    s.attack > 0.0 && s.release > 0.0 && (s.freq > 0.0 ==> 0.0 < s.alpha < 1.0)
  }

  /** What one sample step needs: a usable setup, a sample rate, and a positive HF-loss constant. */
  predicate Ready(s: Setup, xfmr: XfmrParams, sampleRate: real)
  {
    SetupOk(s) && sampleRate > 0.0 && xfmr.highLoss > 0.0
  }

  /** `a / (a + b)` of two positive numbers is strictly between 0 and 1. */
  lemma ShareOfSum(a: real, b: real)
    requires a > 0.0 && b > 0.0
    ensures 0.0 < a / (a + b) < 1.0
  {
    var q := a / (a + b);
    assert q * (a + b) == a;
    if q <= 0.0 {
      NonnegProduct(-q, a + b);
    }
    if q >= 1.0 {
      NonnegProduct(q - 1.0, a + b);
    }
  }

  /** The sidechain high-pass coefficient `RC / (RC + dt)` of a cutoff: strictly between 0 and 1. */
  function HpfAlpha(freq: real, sampleRate: real): (alpha: real)
    requires freq > 0.0 && sampleRate > 0.0
    ensures 0.0 < alpha < 1.0
  {
    var rc := 1.0 / (2.0 * 3.14159265359 * freq);
    var dt := 1.0 / sampleRate;
    PositiveQuotient(1.0, 2.0 * 3.14159265359 * freq);
    PositiveQuotient(1.0, sampleRate);
    ShareOfSum(rc, dt);
    rc / (rc + dt)
  }

  lemma PositiveQuotient(x: real, d: real)
    requires x > 0.0 && d > 0.0
    ensures x / d > 0.0
  {
    var q := x / d;
    assert q * d == x;
    if q <= 0.0 {
      NonnegProduct(-q, d);
    }
  }

  /**
   * The block constants: wet and dry always sum to one, the time constant
   * selects an attack shorter than its release, the high-pass runs exactly for
   * SC_HPF 1 and 2 with a coefficient in (0, 1), and mode 0 is stereo.
   */
  function BlockSetup(m: Math, p: CompParams, sampleRate: real): (s: Setup)
    requires 1 <= p.timeConstant <= 6 && sampleRate > 0.0
    ensures SetupOk(s)
    ensures s.attack < s.release
    ensures s.wet + s.dry == 1.0
    ensures p.mix == 0.0 ==> s.wet == 0.0 && s.dry == 1.0
    ensures s.inGain > 0.0 && (p.inputGain == 0.0 ==> s.inGain == 1.0)
    ensures s.freq > 0.0 <==> p.scHpf == 1 || p.scHpf == 2
    ensures s.freq <= 0.0 ==> s.alpha == 0.0
    ensures s.midSide <==> p.mode != 0
    ensures s.link == p.link && s.thres == p.threshold
  {
    var tc := p.timeConstant - 1;
    var freq := ScHpfFreq(p.scHpf);
    var wet := p.mix / 100.0;
    Setup(p.threshold, DbToLinear(m, p.inputGain), p.output / 100.0, wet, 1.0 - wet,
          AttackTimes[tc], ReleaseTimes[tc], freq,
          if freq > 0.0 then HpfAlpha(freq, sampleRate) else 0.0,
          p.mode != 0, p.link)
  }

  // ---------------------------------------------------------------------------
  // Sidechain and envelope

  /** Sidechain filter memory and envelope of one signal (left, right, mid or side). */
  datatype Tracker = Tracker(env: real, hpf: real, hpfLast: real)

  const Quiet: Tracker := Tracker(0.0, 0.0, 0.0)

  /** The sidechain signal: the high-passed input when the filter is on, the input itself otherwise. */
  function Sidechain(s: Setup, t: Tracker, x: real): (sc: real)
    ensures s.freq <= 0.0 ==> sc == x
    ensures s.freq > 0.0 && x == t.hpfLast ==> sc == s.alpha * t.hpf
  {
    if s.freq > 0.0 then HighPassStep(x, t.hpfLast, t.hpf, s.alpha) else x
  }

  /**
   * One sample of sidechain and envelope for one signal: the envelope moves
   * toward the rectified sidechain without overshooting it, and the filter
   * memory changes only while the filter runs.
   */
  function Track(m: Math, s: Setup, t: Tracker, x: real, sampleRate: real): (t': Tracker)
    requires SetupOk(s) && sampleRate > 0.0
    ensures Min(t.env, Abs(Sidechain(s, t, x))) <= t'.env <= Max(t.env, Abs(Sidechain(s, t, x)))
    ensures t.env >= 0.0 ==> t'.env >= 0.0
    ensures s.freq > 0.0 ==> t'.hpf == Sidechain(s, t, x) && t'.hpfLast == x
    ensures s.freq <= 0.0 ==> t'.hpf == t.hpf && t'.hpfLast == t.hpfLast
  {
    var sc := Sidechain(s, t, x);
    var env := PeakEnv(m, sc, t.env, s.attack, s.release, sampleRate);
    if s.freq > 0.0 then Tracker(env, sc, x) else Tracker(env, t.hpf, t.hpfLast)
  }

  /** Envelope in dB; an envelope of exactly zero reads 0 dB, and log10 only ever sees a positive value. */
  function EnvDb(m: Math, env: real): (dB: real)
    ensures env == 0.0 ==> dB == 0.0
  {
    if Abs(env) > 0.0 then 20.0 * m.log10(Abs(env)) else 0.0
  }

  // ---------------------------------------------------------------------------
  // Gain computer

  /** Program-dependent ratio from the mid envelope: 2:1 up to the threshold, rising to at most 30:1. */
  function Ratio(envMidDb: real, thres: real): (ratio: real)
    ensures 2.0 <= ratio <= 30.0
    ensures envMidDb <= thres ==> ratio == 2.0
    ensures envMidDb - thres >= 56.0 ==> ratio == 30.0
  {
    var r := 2.0 + Max(0.0, envMidDb - thres) * 0.5;
    if r > 30.0 then 30.0 else r
  }

  /** A louder mid signal never lowers the ratio. */
  lemma RatioMonotone(e1: real, e2: real, thres: real)
    requires e1 <= e2
    ensures Ratio(e1, thres) <= Ratio(e2, thres)
  {
  }

  /** The straight line above the knee. */
  function AboveKnee(thres: real, over: real, ratio: real): real
    requires ratio > 0.0
  {
    thres + over / ratio
  }

  /** The quadratic inside the knee. */
  function InKnee(envDb: real, over: real, ratio: real): real
    requires ratio > 0.0
  {
    envDb + (1.0 / ratio - 1.0) * ((over + Knee / 2.0) * (over + Knee / 2.0)) / (2.0 * Knee)
  }

  /**
   * Soft-knee gain computer: the output level in dB. Below the knee it is the
   * input level, so the gain is unity; with a ratio of at least one it never
   * exceeds the input level.
   */
  function KneeGr(envDb: real, thres: real, ratio: real): (gr: real)
    requires ratio > 0.0
    ensures envDb - thres < -Knee / 2.0 ==> gr == envDb
    ensures ratio >= 1.0 ==> gr <= envDb
  {
    var over := envDb - thres;
    if over < -Knee / 2.0 then envDb
    else if over > Knee / 2.0 then
      AboveKneeAtMost(thres, over, ratio);
      AboveKnee(thres, over, ratio)
    else
      InKneeAtMost(envDb, over, ratio);
      InKnee(envDb, over, ratio)
  }

  lemma QuotientAtMost(x: real, ratio: real)
    requires x >= 0.0 && ratio >= 1.0
    ensures 0.0 <= x / ratio <= x
  {
    var q := x / ratio;
    assert q * ratio == x;
    NonnegQuotient(x, ratio);
    NonnegProduct(q, ratio - 1.0);
    assert q * (ratio - 1.0) == x - q;
  }

  lemma AboveKneeAtMost(thres: real, over: real, ratio: real)
    requires ratio > 0.0 && over >= 0.0
    ensures ratio >= 1.0 ==> AboveKnee(thres, over, ratio) <= thres + over
  {
    if ratio >= 1.0 {
      QuotientAtMost(over, ratio);
    }
  }

  lemma InKneeAtMost(envDb: real, over: real, ratio: real)
    requires ratio > 0.0
    ensures ratio >= 1.0 ==> InKnee(envDb, over, ratio) <= envDb
  {
    if ratio >= 1.0 {
      QuotientAtMost(1.0, ratio);
      var c, u := 1.0 / ratio - 1.0, over + Knee / 2.0;
      var sq := u * u;
      if u < 0.0 {
        NonnegProduct(-u, -u);
      } else {
        NonnegProduct(u, u);
      }
      NonnegProduct(-c, sq);
      assert (-c) * sq == -(c * sq);
    }
  }

  /** The knee meets the line below it: at the lower edge the quadratic gives the input level. */
  lemma KneeMeetsBelow(thres: real, ratio: real)
    requires ratio > 0.0
    ensures KneeGr(thres - Knee / 2.0, thres, ratio) == thres - Knee / 2.0
  {
  }

  /** The knee meets the line above it: at the upper edge the quadratic gives `thres + 3 / ratio`. */
  lemma KneeMeetsAbove(thres: real, ratio: real)
    requires ratio > 0.0
    ensures KneeGr(thres + Knee / 2.0, thres, ratio) == AboveKnee(thres, Knee / 2.0, ratio)
  {
    var c := 1.0 / ratio - 1.0;
    assert c * 36.0 == 36.0 / ratio - 36.0;
    assert 36.0 / ratio / 12.0 == 3.0 / ratio;
  }

  /** `f2 - f1` lies in [0, e2 - e1]: the curve neither falls nor rises faster than its input. */
  predicate Tracks(e1: real, e2: real, f1: real, f2: real)
  {
    f1 <= f2 && f2 - f1 <= e2 - e1
  }

  /** Inside the knee the slope `1 + c * (u1 + u2) / 12` lies in [0, 1]. */
  lemma KneeSlope(c: real, u1: real, u2: real)
    requires -1.0 <= c <= 0.0 && 0.0 <= u1 <= u2 <= 6.0
    ensures Tracks(u1, u2, u1 + c * (u1 * u1) / 12.0, u2 + c * (u2 * u2) / 12.0)
  {
    var w := (u1 + u2) / 12.0;
    var k := c * w;
    NonnegProduct(-c, w);
    NonnegProduct(-c, 1.0 - w);
    NonnegProduct(1.0 + c, w);
    assert (-c) * w == -k;
    assert (-c) * (1.0 - w) == -c + k;
    var d := u2 - u1;
    assert c * (u2 * u2) / 12.0 - c * (u1 * u1) / 12.0 == k * d;
    NonnegProduct(1.0 + k, d);
    NonnegProduct(-k, d);
    assert (1.0 + k) * d == d + k * d;
    assert (-k) * d == -(k * d);
  }

  lemma InKneeTracks(thres: real, ratio: real, e1: real, e2: real)
    requires ratio >= 1.0
    requires -Knee / 2.0 <= e1 - thres && e1 <= e2 && e2 - thres <= Knee / 2.0
    ensures Tracks(e1, e2, InKnee(e1, e1 - thres, ratio), InKnee(e2, e2 - thres, ratio))
  {
    QuotientAtMost(1.0, ratio);
    PositiveQuotient(1.0, ratio);
    var c := 1.0 / ratio - 1.0;
    var u1, u2 := e1 - thres + 3.0, e2 - thres + 3.0;
    KneeSlope(c, u1, u2);
    assert InKnee(e1, e1 - thres, ratio) == e1 + c * (u1 * u1) / 12.0;
    assert InKnee(e2, e2 - thres, ratio) == e2 + c * (u2 * u2) / 12.0;
  }

  lemma AboveKneeTracks(thres: real, ratio: real, e1: real, e2: real)
    requires ratio >= 1.0 && e1 <= e2
    ensures Tracks(e1, e2, AboveKnee(thres, e1 - thres, ratio), AboveKnee(thres, e2 - thres, ratio))
  {
    QuotientAtMost(e2 - e1, ratio);
    assert (e2 - thres) / ratio - (e1 - thres) / ratio == (e2 - e1) / ratio;
  }

  /**
   * The gain computer is continuous and monotone with slope at most one: a
   * louder input never gives a lower output level, and never one that rises
   * by more than the input did.
   */
  lemma KneeMonotone(thres: real, ratio: real, e1: real, e2: real)
    requires ratio >= 1.0 && e1 <= e2
    ensures Tracks(e1, e2, KneeGr(e1, thres, ratio), KneeGr(e2, thres, ratio))
  {
    var lo, hi := thres - Knee / 2.0, thres + Knee / 2.0;
    KneeMeetsBelow(thres, ratio);
    KneeMeetsAbove(thres, ratio);
    if e2 < lo {
    } else if e1 > hi {
      AboveKneeTracks(thres, ratio, e1, e2);
    } else if e1 >= lo && e2 <= hi {
      InKneeTracks(thres, ratio, e1, e2);
    } else if e1 < lo && e2 <= hi {
      InKneeTracks(thres, ratio, lo, e2);
    } else if e1 >= lo {
      InKneeTracks(thres, ratio, e1, hi);
      AboveKneeTracks(thres, ratio, hi, e2);
    } else {
      InKneeTracks(thres, ratio, lo, hi);
      AboveKneeTracks(thres, ratio, hi, e2);
    }
  }

  /** Gain `10^((gr - envDb) / 20)`: positive, at most unity when the output level is not above the input. */
  function ChannelGain(m: Math, gr: real, envDb: real): (gain: real)
    ensures gain > 0.0
    ensures gr <= envDb ==> gain <= 1.0
    ensures gr == envDb ==> gain == 1.0
  {
    DbToLinear(m, gr - envDb)
  }

  /** Scaling by a gain in [0, 1] never makes a sample louder. */
  lemma Attenuates(x: real, g: real)
    requires 0.0 <= g <= 1.0
    ensures Abs(x * g) <= Abs(x)
  {
    if x >= 0.0 {
      NonnegProduct(x, g);
      NonnegProduct(x, 1.0 - g);
    } else {
      NonnegProduct(-x, g);
      NonnegProduct(-x, 1.0 - g);
    }
  }

  // ---------------------------------------------------------------------------
  // One sample

  /** The gain-reduction registers `grL`, `grR`, `grM`, `grS`, reset at the start of every block. */
  datatype GrRegs = GrRegs(grL: real, grR: real, grM: real, grS: real)

  const ZeroRegs: GrRegs := GrRegs(0.0, 0.0, 0.0, 0.0)

  /** Everything the sample loop carries from one sample to the next. */
  datatype EngineState = EngineState(l: Tracker, r: Tracker, m: Tracker, s: Tracker, gainR: real, gr: GrRegs)

  /** Envelopes are never negative and the remembered right gain is a gain in [0, 1]. */
  predicate StateOk(st: EngineState)
  {
    && st.l.env >= 0.0 && st.r.env >= 0.0 && st.m.env >= 0.0 && st.s.env >= 0.0
    && 0.0 <= st.gainR <= 1.0
  }

  /** The detector's verdict for one sample: new trackers, registers, the two gains and the unlinked wet frame. */
  datatype Detection = Detection(l: Tracker, r: Tracker, mid: Tracker, side: Tracker,
                                 gr: GrRegs, gainL: real, gainR: real, wet: Frame)

  /**
   * Sidechain, envelopes, ratio and gain computer for one coloured frame.
   * Stereo mode computes both gains and leaves the mid/side registers alone;
   * mid/side mode takes the mid gain as the left gain, leaves the right gain
   * and the left/right registers as they were. In stereo the wet signal is
   * never louder than its input, and below the knee each published register
   * holds its envelope level with unity gain. In either mode the knee output
   * never exceeds the envelope level it was computed from.
   */
  function Detect(m: Math, s: Setup, sampleRate: real, c: Frame, st: EngineState): (d: Detection)
    requires SetupOk(s) && sampleRate > 0.0
    ensures d.gainL > 0.0 && d.gainL <= 1.0
    ensures StateOk(st) ==> StateOk(EngineState(d.l, d.r, d.mid, d.side, d.gainR, d.gr))
    ensures s.midSide ==> d.gainR == st.gainR && d.gr.grL == st.gr.grL && d.gr.grR == st.gr.grR
    ensures !s.midSide ==> d.gr.grM == st.gr.grM && d.gr.grS == st.gr.grS
    ensures !s.midSide ==> Abs(d.wet.left) <= Abs(c.left) && Abs(d.wet.right) <= Abs(c.right)
    ensures !s.midSide ==> d.gr.grL <= EnvDb(m, d.l.env) && d.gr.grR <= EnvDb(m, d.r.env)
    ensures !s.midSide && EnvDb(m, d.l.env) - s.thres < -Knee / 2.0 ==>
              d.gr.grL == EnvDb(m, d.l.env) && d.gainL == 1.0
    ensures !s.midSide && EnvDb(m, d.r.env) - s.thres < -Knee / 2.0 ==>
              d.gr.grR == EnvDb(m, d.r.env) && d.gainR == 1.0
    ensures s.midSide ==> d.gr.grM <= EnvDb(m, d.mid.env) && d.gr.grS <= EnvDb(m, d.side.env)
  {
    var inL, inR := c.left, c.right;
    var mid, side := ToMid(inL, inR), ToSide(inL, inR);
    var l := Track(m, s, st.l, inL, sampleRate);
    var r := Track(m, s, st.r, inR, sampleRate);
    var tm := Track(m, s, st.m, mid, sampleRate);
    var ts := Track(m, s, st.s, side, sampleRate);
    var dbL, dbR, dbM, dbS := EnvDb(m, l.env), EnvDb(m, r.env), EnvDb(m, tm.env), EnvDb(m, ts.env);
    var ratio := Ratio(dbM, s.thres);
    if !s.midSide then
      var grL, grR := KneeGr(dbL, s.thres, ratio), KneeGr(dbR, s.thres, ratio);
      var gainL, gainR := ChannelGain(m, grL, dbL), ChannelGain(m, grR, dbR);
      Attenuates(inL, gainL);
      Attenuates(inR, gainR);
      Detection(l, r, tm, ts, st.gr.(grL := grL, grR := grR), gainL, gainR, Frame(inL * gainL, inR * gainR))
    else
      var grM, grS := KneeGr(dbM, s.thres, ratio), KneeGr(dbS, s.thres, ratio);
      var gainM, gainS := ChannelGain(m, grM, dbM), ChannelGain(m, grS, dbS);
      Detection(l, r, tm, ts, st.gr.(grM := grM, grS := grS), gainM, st.gainR,
                FromMidSide(mid * gainM, side * gainS))
  }

  /** Output gain applied to the wet/dry blend; with no wet share the output is the scaled dry frame. */
  function Mix(s: Setup, wet: Frame, dry: Frame): (y: Frame)
    ensures s.wet == 0.0 && s.dry == 1.0 ==> y == Frame(s.outGain * dry.left, s.outGain * dry.right)
    ensures s.wet == 1.0 && s.dry == 0.0 ==> y == Frame(s.outGain * wet.left, s.outGain * wet.right)
  {
    Frame(s.outGain * (s.wet * wet.left + s.dry * dry.left),
          s.outGain * (s.wet * wet.right + s.dry * dry.right))
  }

  /** The wet frame after the optional stereo link, which scales both inputs by the smaller gain. */
  function LinkedWet(s: Setup, c: Frame, d: Detection): Frame
  {
    if s.link then Frame(c.left * Min(d.gainL, d.gainR), c.right * Min(d.gainL, d.gainR)) else d.wet
  }

  datatype StepOut = StepOut(state: EngineState, frame: Frame)

  /**
   * The end of one iteration, given the coloured frame and the detector's
   * verdict: link, mix, and the state to carry on. With the link on, both
   * output channels are their coloured inputs times one common factor built
   * from the smaller gain; with no wet share the output is the coloured input
   * times the output gain; and a right gain of 0 under the link leaves only
   * the dry share.
   */
  function Combine(s: Setup, c: Frame, d: Detection): (o: StepOut)
    ensures o.state == Carry(d)
    ensures s.link ==> o.frame == Scaled(c, LinkFactor(s, Min(d.gainL, d.gainR)))
    ensures s.wet == 0.0 && s.dry == 1.0 ==> o.frame == Scaled(c, s.outGain)
    ensures s.link && d.gainL > 0.0 && d.gainR == 0.0 ==> o.frame == Scaled(c, s.outGain * s.dry)
  {
    LinkedMix(s, c, d);
    LinkFactorAtZero(s);
    StepOut(Carry(d), Mix(s, LinkedWet(s, c, d), c))
  }

  /**
   * The two per-sample stages of the loop, fixed for one block: the colour
   * chain, which sees only the sample index and the input frame, and the
   * detector, which sees the coloured frame and the carried state.
   */
  datatype Chain = Chain(colour: (nat, Frame) -> Frame, detect: (Frame, EngineState) -> Detection)

  /** What the loop needs of a detector: a positive left gain, a well-formed state, and the right gain kept in mid/side. */
  ghost predicate ChainOk(s: Setup, ch: Chain)
  {
    && (forall c, st :: ch.detect(c, st).gainL > 0.0)
    && (forall c, st :: StateOk(st) ==> StateOk(Carry(ch.detect(c, st))))
    && (forall c, st :: s.midSide ==> ch.detect(c, st).gainR == st.gainR)
  }

  /** The state a detection hands to the next sample. */
  function Carry(d: Detection): EngineState
  {
    EngineState(d.l, d.r, d.mid, d.side, d.gainR, d.gr)
  }

  /** The compressor's own chain: `Colour` with the block's input gain, then `Detect`. */
  function EngineChain(m: Math, tube: TubeParams, xfmr: XfmrParams, s: Setup, numChannels: int,
                       sampleRate: real): (ch: Chain)
    requires Ready(s, xfmr, sampleRate)
    ensures ChainOk(s, ch)
  {
    Chain((n: nat, x: Frame) => Colour(m, tube, xfmr, s.inGain, numChannels, n, x, sampleRate),
          (c, st) => Detect(m, s, sampleRate, c, st))
  }

  /** One iteration of the sample loop: colour frame `n`, detect, then link and mix. The loop state stays well-formed. */
  function Step(s: Setup, ch: Chain, n: nat, x: Frame, st: EngineState): (o: StepOut)
    requires ChainOk(s, ch)
    ensures StateOk(st) ==> StateOk(o.state)
    ensures s.midSide ==> o.state.gainR == st.gainR
    ensures s.wet == 0.0 && s.dry == 1.0 ==> o.frame == Scaled(ch.colour(n, x), s.outGain)
    ensures s.midSide && s.link && st.gainR == 0.0 ==> o.frame == Scaled(ch.colour(n, x), s.outGain * s.dry)
  {
    var c := ch.colour(n, x);
    Combine(s, c, ch.detect(c, st))
  }

  /** Both channels of a frame times one factor. */
  function Scaled(c: Frame, k: real): Frame
  {
    Frame(k * c.left, k * c.right)
  }

  /** The factor a linked gain `g` puts on the coloured input once mixed and scaled. */
  function LinkFactor(s: Setup, g: real): real
  {
    s.outGain * (s.wet * g + s.dry)
  }

  /** With a linked gain of 0 only the dry share is left. */
  lemma LinkFactorAtZero(s: Setup)
    ensures LinkFactor(s, 0.0) == s.outGain * s.dry
  {
  }

  lemma LinkedMix(s: Setup, c: Frame, d: Detection)
    ensures s.link ==> Mix(s, LinkedWet(s, c, d), c) == Scaled(c, LinkFactor(s, Min(d.gainL, d.gainR)))
  {
    var g := Min(d.gainL, d.gainR);
    assert s.outGain * (s.wet * (c.left * g) + s.dry * c.left) == LinkFactor(s, g) * c.left;
    assert s.outGain * (s.wet * (c.right * g) + s.dry * c.right) == LinkFactor(s, g) * c.right;
  }

  // ---------------------------------------------------------------------------
  // One block

  datatype BlockOut = BlockOut(state: EngineState, frames: seq<Frame>)

  /** The sample loop over a whole buffer: one output frame per input frame, frame `n` coloured with index `n`. */
  function Run(s: Setup, ch: Chain, xs: seq<Frame>, st: EngineState): (o: BlockOut)
    requires ChainOk(s, ch)
    ensures |o.frames| == |xs|
    ensures StateOk(st) ==> StateOk(o.state)
    ensures s.midSide ==> o.state.gainR == st.gainR
    decreases |xs|
  {
    if xs == [] then BlockOut(st, [])
    else
      var prev := Run(s, ch, xs[..|xs| - 1], st);
      var o := Step(s, ch, |xs| - 1, xs[|xs| - 1], prev.state);
      BlockOut(o.state, prev.frames + [o.frame])
  }

  /** Output frame `k` of a block is one step on frame `k` from the state the first `k` frames left. */
  lemma {:induction false} RunFrame(s: Setup, ch: Chain, xs: seq<Frame>, st: EngineState, k: nat)
    requires ChainOk(s, ch) && k < |xs|
    ensures Run(s, ch, xs, st).frames[k] == Step(s, ch, k, xs[k], Run(s, ch, xs[..k], st).state).frame
    decreases |xs|
  {
    var init := xs[..|xs| - 1];
    if k < |init| {
      RunFrame(s, ch, init, st, k);
      assert init[k] == xs[k] && init[..k] == xs[..k];
    } else {
      assert xs[..k] == init;
    }
  }

  /** Every output frame of a block, as `RunFrame` gives it. */
  lemma RunFrames(s: Setup, ch: Chain, xs: seq<Frame>, st: EngineState)
    requires ChainOk(s, ch)
    ensures forall k :: 0 <= k < |xs| ==>
              Run(s, ch, xs, st).frames[k] == Step(s, ch, k, xs[k], Run(s, ch, xs[..k], st).state).frame
  {
    forall k | 0 <= k < |xs|
      ensures Run(s, ch, xs, st).frames[k] == Step(s, ch, k, xs[k], Run(s, ch, xs[..k], st).state).frame
    {
      RunFrame(s, ch, xs, st, k);
    }
  }

  /** With no wet share, every output frame is the coloured input frame times the output gain. */
  lemma DryBlockIsColouredInput(s: Setup, ch: Chain, xs: seq<Frame>, st: EngineState)
    requires ChainOk(s, ch) && s.wet == 0.0 && s.dry == 1.0
    ensures forall k :: 0 <= k < |xs| ==> Run(s, ch, xs, st).frames[k] == Scaled(ch.colour(k, xs[k]), s.outGain)
  {
    RunFrames(s, ch, xs, st);
  }

  /**
   * Mid/side with the link on and a remembered right gain of 0 (a fresh
   * instance): the mid/side branch never updates the right gain, the smaller
   * gain is 0 for the whole block, and only the dry share reaches the output.
   */
  lemma MidSideLinkedWithZeroRightGainMutesWet(s: Setup, ch: Chain, xs: seq<Frame>, st: EngineState)
    requires ChainOk(s, ch) && s.midSide && s.link && st.gainR == 0.0
    ensures Run(s, ch, xs, st).state.gainR == 0.0
    ensures forall k :: 0 <= k < |xs| ==> Run(s, ch, xs, st).frames[k] == Scaled(ch.colour(k, xs[k]), s.outGain * s.dry)
  {
    RunFrames(s, ch, xs, st);
    forall k | 0 <= k < |xs|
      ensures Run(s, ch, xs, st).frames[k] == Scaled(ch.colour(k, xs[k]), s.outGain * s.dry)
    {
      PrefixKeepsRightGain(s, ch, xs, st, k);
      MutedStep(s, ch, k, xs[k], Run(s, ch, xs[..k], st).state);
    }
  }

  /** A linked mid/side step from a zero right gain passes only the dry share. */
  lemma MutedStep(s: Setup, ch: Chain, n: nat, x: Frame, prev: EngineState)
    requires ChainOk(s, ch) && s.midSide && s.link && prev.gainR == 0.0
    ensures Step(s, ch, n, x, prev).frame == Scaled(ch.colour(n, x), s.outGain * s.dry)
  {
  }

  /** In mid/side every prefix of a block leaves the right gain where it started. */
  lemma PrefixKeepsRightGain(s: Setup, ch: Chain, xs: seq<Frame>, st: EngineState, k: int)
    requires ChainOk(s, ch) && s.midSide && 0 <= k <= |xs|
    ensures Run(s, ch, xs[..k], st).state.gainR == st.gainR
  {
  }

  /** The compressor's sample loop over a block: `Run` with the compressor's own chain. */
  function Compress(m: Math, tube: TubeParams, xfmr: XfmrParams, s: Setup, numChannels: int,
                    sampleRate: real, xs: seq<Frame>, st: EngineState): (o: BlockOut)
    requires Ready(s, xfmr, sampleRate)
    ensures |o.frames| == |xs|
    ensures StateOk(st) ==> StateOk(o.state)
    ensures s.midSide ==> o.state.gainR == st.gainR
  {
    Run(s, EngineChain(m, tube, xfmr, s, numChannels, sampleRate), xs, st)
  }

  /** The compressor's sample loop run in place on a buffer. */
  method CompressInPlace(m: Math, tube: TubeParams, xfmr: XfmrParams, s: Setup, numChannels: int,
                         sampleRate: real, samples: array<Frame>, st0: EngineState) returns (st: EngineState)
    requires Ready(s, xfmr, sampleRate)
    modifies samples
    ensures samples[..] == Compress(m, tube, xfmr, s, numChannels, sampleRate, old(samples[..]), st0).frames
    ensures st == Compress(m, tube, xfmr, s, numChannels, sampleRate, old(samples[..]), st0).state
  {
    st := RunInPlace(s, EngineChain(m, tube, xfmr, s, numChannels, sampleRate), samples, st0);
  }

  /** An active block: set up from the knob values, then compress the buffer in place. */
  method CompressBlock(m: Math, tube: TubeParams, xfmr: XfmrParams, p: CompParams, numChannels: int,
                       sampleRate: real, samples: array<Frame>, st0: EngineState) returns (st: EngineState)
    requires 1 <= p.timeConstant <= 6 && sampleRate > 0.0 && xfmr.highLoss > 0.0
    modifies samples
    ensures var o := Compress(m, tube, xfmr, BlockSetup(m, p, sampleRate), numChannels, sampleRate, old(samples[..]), st0);
            samples[..] == o.frames && st == o.state
    ensures StateOk(st0) ==> StateOk(st)
  {
    st := CompressInPlace(m, tube, xfmr, BlockSetup(m, p, sampleRate), numChannels, sampleRate, samples, st0);
  }

  /** The compressor with no wet share: each output frame is its input run through the colour chain, times the output gain. */
  lemma EngineDryBlock(m: Math, tube: TubeParams, xfmr: XfmrParams, s: Setup, numChannels: int,
                       sampleRate: real, xs: seq<Frame>, st: EngineState)
    requires Ready(s, xfmr, sampleRate) && s.wet == 0.0 && s.dry == 1.0
    ensures var o := Compress(m, tube, xfmr, s, numChannels, sampleRate, xs, st);
            forall k :: 0 <= k < |xs| ==>
              o.frames[k] == Scaled(Colour(m, tube, xfmr, s.inGain, numChannels, k, xs[k], sampleRate), s.outGain)
  {
    DryBlockIsColouredInput(s, EngineChain(m, tube, xfmr, s, numChannels, sampleRate), xs, st);
  }

  /** The compressor in linked mid/side from a fresh instance: each output frame is the coloured input times the dry share and the output gain. */
  lemma EngineMidSideLinkedMutesWet(m: Math, tube: TubeParams, xfmr: XfmrParams, s: Setup, numChannels: int,
                                    sampleRate: real, xs: seq<Frame>, st: EngineState)
    requires Ready(s, xfmr, sampleRate) && s.midSide && s.link && st.gainR == 0.0
    ensures var o := Compress(m, tube, xfmr, s, numChannels, sampleRate, xs, st);
            forall k :: 0 <= k < |xs| ==>
              o.frames[k] == Scaled(Colour(m, tube, xfmr, s.inGain, numChannels, k, xs[k], sampleRate), s.outGain * s.dry)
  {
    MidSideLinkedWithZeroRightGainMutesWet(s, EngineChain(m, tube, xfmr, s, numChannels, sampleRate), xs, st);
  }

  /** The sample loop itself: each frame of the buffer is replaced by its output frame, in order. */
  method RunInPlace(s: Setup, ch: Chain, samples: array<Frame>, st0: EngineState) returns (st: EngineState)
    requires ChainOk(s, ch)
    modifies samples
    ensures samples[..] == Run(s, ch, old(samples[..]), st0).frames
    ensures st == Run(s, ch, old(samples[..]), st0).state
  {
    ghost var xs := samples[..];
    st := st0;
    var i := 0;
    while i < samples.Length
      invariant 0 <= i <= samples.Length
      invariant samples[i..] == xs[i..]
      invariant samples[..i] == Run(s, ch, xs[..i], st0).frames
      invariant st == Run(s, ch, xs[..i], st0).state
    {
      assert xs[..i + 1][..i] == xs[..i];
      var o := Step(s, ch, i, samples[i], st);
      samples[i] := o.frame;
      st := o.state;
      i := i + 1;
    }
    assert xs[..i] == xs;
  }

  // ---------------------------------------------------------------------------
  // Telemetry

  /**
   * Comp_GR_* after a block: stereo publishes the left/right registers and
   * zero for mid/side, any other mode the mid/side registers and zero for
   * left/right; Comp_Mode is the mode itself.
   */
  function Publish(mode: int, regs: GrRegs): (c: CompMeters)
    ensures c.mode == mode
    ensures mode == 0 ==> c.grLeft == regs.grL && c.grRight == regs.grR && c.grMid == 0.0 && c.grSide == 0.0
    ensures mode != 0 ==> c.grMid == regs.grM && c.grSide == regs.grS && c.grLeft == 0.0 && c.grRight == 0.0
  {
    if mode == 0 then CompMeters(regs.grL, regs.grR, 0.0, 0.0, mode)
    else CompMeters(0.0, 0.0, regs.grM, regs.grS, mode)
  }

  // ---------------------------------------------------------------------------
  // The script instance

  /**
   * The compressor script: blended tube and transformer characters fixed at
   * start-up, the envelope and filter memory of the four sidechain signals and
   * the right-channel gain carried from block to block, and the last values
   * it published.
   */
  class CompressorEngine {
    const math: Math
    const tube: TubeParams
    const xfmr: XfmrParams
    var trackL: Tracker
    var trackR: Tracker
    var trackM: Tracker
    var trackS: Tracker
    var gainR: real
    var meters: CompMeters

    /** The state a block starts from: the carried memory with all registers reset. */
    function Carried(): EngineState
      reads this
    {
      EngineState(trackL, trackR, trackM, trackS, gainR, ZeroRegs)
    }

    ghost predicate Valid()
      reads this
    {
      xfmr.highLoss > 0.0 && StateOk(Carried())
    }

    constructor(m: Math)
      ensures Valid()
      ensures TotalQty(TubeModels) == 17
      ensures math == m && tube == BlendTubes(TubeModels) && xfmr == BlendXfmrs(XfmrModels)
      ensures Carried() == EngineState(Quiet, Quiet, Quiet, Quiet, 0.0, ZeroRegs)
      ensures meters == NoCompMeters
    {
      math := m;
      var t := GetBlendedTubeParams();
      var x := GetBlendedXfmrParams();
      tube, xfmr := t, x;
      trackL, trackR, trackM, trackS := Quiet, Quiet, Quiet, Quiet;
      gainR := 0.0;
      meters := NoCompMeters;
    }

    /**
     * processBlock: bypassed, it touches neither the buffer nor any state;
     * otherwise the buffer holds the sample loop's output, the memory is the
     * loop's final state, and the meters are published from the final
     * registers.
     */
    method ProcessBlock(samples: array<Frame>, numChannels: int, p: CompParams, sampleRate: real)
      requires Valid() && 1 <= p.timeConstant <= 6 && sampleRate > 0.0
      modifies this, samples
      ensures Valid()
      ensures !p.compOn ==> samples[..] == old(samples[..]) && Carried() == old(Carried()) && meters == old(meters)
      ensures p.compOn ==>
                var s := BlockSetup(math, p, sampleRate);
                var o := Compress(math, tube, xfmr, s, numChannels, sampleRate, old(samples[..]), old(Carried()));
                && samples[..] == o.frames
                && Carried() == o.state.(gr := ZeroRegs)
                && meters == Publish(p.mode, o.state.gr)
    {
      if !p.compOn {
        return;
      }
      var st := CompressBlock(math, tube, xfmr, p, numChannels, sampleRate, samples, Carried());
      trackL, trackR, trackM, trackS, gainR := st.l, st.r, st.m, st.s, st.gainR;
      assert Carried() == st.(gr := ZeroRegs);
      meters := Publish(p.mode, st.gr);
    }
  }
}
