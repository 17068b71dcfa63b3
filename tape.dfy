/**
 * The tape emulator shared by the Neve-style and the Studer-style scripts.
 *
 * Both scripts run the same chain on every frame: trim, input transformer,
 * optional tape head, output transformer with Silk colouration, then a
 * dry/wet blend written back into the buffer, while the block keeps the peak
 * of the tape signal ("drive") and of the coloured signal ("level") for each
 * channel. They differ only in their head table and in four coefficients of
 * the head model, gathered here in a `Machine`.
 */
module Tape {
  import opened Transcendental
  import opened Utils
  import opened Telemetry

  // ---------------------------------------------------------------------------
  // Specs

  datatype XfmrSpec = XfmrSpec(bumpFreq: real, bumpGain: real, highLoss: real)

  /** The input and the output transformer; both scripts use the same two. */
  const InputXfmrSpec: XfmrSpec := XfmrSpec(38.0, 1.2, 16000.0)
  const OutputXfmrSpec: XfmrSpec := XfmrSpec(42.0, 1.5, 14000.0)

  /** One row of a head table, selected by tape speed. `headClip` is listed by both scripts but never read. */
  datatype HeadSpec = HeadSpec(bumpFreq: real, bumpGain: real, hfLoss: real,
                               lfCompMax: real, headClip: real, headSoftClip: real)

  /**
   * A tape machine: its head table (7.5, 15 and 30 IPS) and the coefficients of
   * the head model: how far replay gain drops at full saturation, the drive
   * into the soft clip at no and at full saturation, and the height of the
   * soft clip's shoulder above its threshold.
   */
  datatype Machine = Machine(heads: seq<HeadSpec>, coupling: real, driveBase: real, driveSat: real,
                             clipSlope: real)

  predicate HeadOk(h: HeadSpec)
  {
    h.hfLoss > 0.0 && h.lfCompMax >= 1.0 && h.headSoftClip >= 1.0
  }

  /** Three heads, a coupling in [0, 1], positive drive and a positive shoulder. */
  predicate MachineOk(mc: Machine)
  {
    && |mc.heads| == 3
    && (forall i :: 0 <= i < 3 ==> HeadOk(mc.heads[i]))
    && 0.0 <= mc.coupling <= 1.0
    && mc.driveBase > 0.0 && mc.driveSat >= 0.0
    && mc.clipSlope > 0.0
  }

  // ---------------------------------------------------------------------------
  // Transformers

  /** Input transformer: bump and HF loss, then `tanh(1.05 * x)`. */
  function InputXfmr(m: Math, x: real, n: nat, sampleRate: real): (y: real)
    requires sampleRate > 0.0
    ensures -1.0 < y < 1.0
    ensures n == 0 ==> y == m.tanh(1.05 * x)
  {
    var xf := InputXfmrSpec;
    m.tanh(1.05 * BumpAndLoss(m, x, n, xf.bumpFreq, xf.bumpGain, xf.highLoss, sampleRate))
  }

  /**
   * Silk colouration on a texture amount `textAmt`: Silk Blue (1) adds a second
   * harmonic term, which never lowers the signal; Silk Red (2) adds a third
   * harmonic term, which pushes the signal away from zero; every other mode,
   * and a texture of 0, leaves the signal as it is.
   */
  function Silk(silk: int, textAmt: real, x: real): (y: real)
    ensures silk != 1 && silk != 2 ==> y == x
    ensures textAmt == 0.0 ==> y == x
    ensures x == 0.0 ==> y == 0.0
    ensures silk == 1 && textAmt >= 0.0 ==> y >= x
    ensures silk == 2 && textAmt >= 0.0 && x >= 0.0 ==> y >= x
    ensures silk == 2 && textAmt >= 0.0 && x <= 0.0 ==> y <= x
  {
    if silk == 1 then
      SilkTermSign(textAmt * 0.10, x * x);
      x + textAmt * 0.10 * (x * x)
    else if silk == 2 then
      SilkTermSign(textAmt * 0.12, x * x);
      assert textAmt * 0.12 * (x * x * x) == (textAmt * 0.12 * (x * x)) * x;
      CubeTermSign(textAmt * 0.12 * (x * x), x);
      x + textAmt * 0.12 * (x * x * x)
    else
      x
  }

  lemma SilkTermSign(k: real, sq: real)
    requires sq >= 0.0
    ensures k >= 0.0 ==> k * sq >= 0.0
    ensures k == 0.0 ==> k * sq == 0.0
  {
    if k >= 0.0 {
      NonnegProduct(k, sq);
    }
  }

  lemma CubeTermSign(k: real, x: real)
    ensures k >= 0.0 && x >= 0.0 ==> k * x >= 0.0
    ensures k >= 0.0 && x <= 0.0 ==> k * x <= 0.0
  {
    if k >= 0.0 && x >= 0.0 {
      NonnegProduct(k, x);
    } else if k >= 0.0 && x <= 0.0 {
      NonnegProduct(k, -x);
    }
  }

  /** Output transformer: bump and HF loss, Silk colouration on `texture / 100`, then `tanh(1.05 * x)`. */
  function OutputXfmr(m: Math, x: real, n: nat, silk: int, texture: real, sampleRate: real): (y: real)
    requires sampleRate > 0.0
    ensures -1.0 < y < 1.0
    ensures n == 0 && ((silk != 1 && silk != 2) || texture == 0.0) ==> y == m.tanh(1.05 * x)
  {
    var xf := OutputXfmrSpec;
    var x1 := BumpAndLoss(m, x, n, xf.bumpFreq, xf.bumpGain, xf.highLoss, sampleRate);
    var textAmt := texture / 100.0;
    m.tanh(1.05 * Silk(silk, textAmt, x1))
  }

  // ---------------------------------------------------------------------------
  // Tape head

  /** `sign`: +1 for zero and positive values, -1 for negative ones. */
  function Sign(x: real): (s: real)
    ensures s == 1.0 || s == -1.0
    ensures s == 1.0 <==> x >= 0.0
    ensures s * Abs(x) == x
  {
    if x >= 0.0 then 1.0 else -1.0
  }

  /** Saturation knob 0..100 as a fraction. */
  function SatNorm(sat: real): (s: real)
    ensures 0.0 <= sat <= 100.0 ==> 0.0 <= s <= 1.0
    ensures sat <= 0.0 ==> s <= 0.0
    ensures sat == 100.0 ==> s == 1.0
  {
    sat / 100.0
  }

  /** LF compensation: the head's full boost with no saturation, none at full saturation, in between otherwise. */
  function LfComp(h: HeadSpec, satNorm: real): (c: real)
    ensures satNorm == 0.0 ==> c == h.lfCompMax
    ensures satNorm == 1.0 ==> c == 1.0
    ensures h.lfCompMax >= 1.0 && 0.0 <= satNorm <= 1.0 ==> 1.0 <= c <= h.lfCompMax
  {
    var d := h.lfCompMax - 1.0;
    FractionOf(d, 1.0 - satNorm);
    1.0 + d * (1.0 - satNorm)
  }

  /** A fraction in [0, 1] of a non-negative amount lies between 0 and the amount. */
  lemma FractionOf(d: real, f: real)
    ensures d >= 0.0 && 0.0 <= f <= 1.0 ==> 0.0 <= d * f <= d
  {
    if d >= 0.0 && 0.0 <= f <= 1.0 {
      NonnegProduct(d, f);
      NonnegProduct(d, 1.0 - f);
      assert d * (1.0 - f) == d - d * f;
    }
  }

  /** More saturation never raises the LF compensation. */
  lemma LfCompNonIncreasing(h: HeadSpec, s1: real, s2: real)
    requires h.lfCompMax >= 1.0 && s1 <= s2
    ensures LfComp(h, s2) <= LfComp(h, s1)
  {
    NonnegProduct(h.lfCompMax - 1.0, s2 - s1);
    assert (h.lfCompMax - 1.0) * (s2 - s1) == (h.lfCompMax - 1.0) * (1.0 - s1) - (h.lfCompMax - 1.0) * (1.0 - s2);
  }

  /** Record/replay coupling: replay gain 1 with no saturation, dropping by the machine's coupling at full saturation. */
  function RecReplayCouple(mc: Machine, satNorm: real): (g: real)
    ensures satNorm == 0.0 ==> g == 1.0
    ensures satNorm == 1.0 ==> g == 1.0 - mc.coupling
    ensures 0.0 <= mc.coupling <= 1.0 && 0.0 <= satNorm <= 1.0 ==> 1.0 - mc.coupling <= g <= 1.0
  {
    FractionOf(mc.coupling, satNorm);
    1.0 - mc.coupling * satNorm
  }

  /** More saturation never raises the replay gain. */
  lemma CoupleNonIncreasing(mc: Machine, s1: real, s2: real)
    requires mc.coupling >= 0.0 && s1 <= s2
    ensures RecReplayCouple(mc, s2) <= RecReplayCouple(mc, s1)
  {
    NonnegProduct(mc.coupling, s2 - s1);
    assert mc.coupling * (s2 - s1) == mc.coupling * s2 - mc.coupling * s1;
  }

  /** Drive into the soft clip before LF compensation. */
  function Drive(mc: Machine, satNorm: real): (d: real)
    ensures satNorm == 0.0 ==> d == mc.driveBase
    ensures mc.driveSat >= 0.0 && satNorm >= 0.0 ==> d >= mc.driveBase
  {
    NonnegProductWhen(mc.driveSat, satNorm);
    mc.driveBase + mc.driveSat * satNorm
  }

  lemma NonnegProductWhen(a: real, b: real)
    ensures a >= 0.0 && b >= 0.0 ==> a * b >= 0.0
  {
    if a >= 0.0 && b >= 0.0 {
      NonnegProduct(a, b);
    }
  }

  /** The total gain in front of the soft clip is at least the machine's base drive, and positive. */
  lemma PreSatGainAtLeastBase(mc: Machine, h: HeadSpec, satNorm: real)
    requires MachineOk(mc) && h.lfCompMax >= 1.0 && 0.0 <= satNorm <= 1.0
    ensures Drive(mc, satNorm) * LfComp(h, satNorm) >= mc.driveBase > 0.0
  {
    var d, c := Drive(mc, satNorm), LfComp(h, satNorm);
    NonnegProduct(d, c - 1.0);
    assert d * c == d + d * (c - 1.0);
  }

  /**
   * The head's soft clip: `tanh(p)` exactly when `|p|` is below the threshold;
   * above it, a shoulder with the sign of `p` whose magnitude starts at the
   * threshold and stays below threshold plus slope. Since the threshold is at
   * least 1, the output is always below threshold plus slope in magnitude.
   */
  function HeadSoftClip(m: Math, thresh: real, slope: real, p: real): (y: real)
    requires thresh > 0.0 && slope > 0.0
    ensures Abs(p) < thresh ==> y == m.tanh(p)
    ensures Abs(p) >= thresh ==> thresh <= Abs(y) < thresh + slope
    ensures Abs(p) >= thresh ==> (y >= 0.0 <==> p >= 0.0)
    ensures thresh >= 1.0 ==> Abs(y) < thresh + slope
  {
    if Abs(p) < thresh then
      m.tanh(p)
    else
      var t := m.tanh(Abs(p) - thresh);
      ShoulderBounds(slope, t);
      var v := thresh + slope * t;
      SignTimes(p, v);
      Sign(p) * v
  }

  lemma ShoulderBounds(slope: real, t: real)
    requires slope > 0.0 && 0.0 <= t < 1.0
    ensures 0.0 <= slope * t < slope
  {
    NonnegProduct(slope, t);
    PositiveProduct(slope, 1.0 - t);
    assert slope * (1.0 - t) == slope - slope * t;
  }

  lemma SignTimes(p: real, v: real)
    ensures Abs(Sign(p) * v) == Abs(v)
    ensures v > 0.0 ==> (Sign(p) * v >= 0.0 <==> p >= 0.0)
  {
  }

  /**
   * The head model on a transformer output `x` at speed index `ips`:
   * LF compensation and drive, soft clip, head bump and HF loss, replay
   * coupling. At n = 0 silence stays silent and the output is bounded by the
   * soft clip's ceiling.
   */
  function TapeHead(m: Math, mc: Machine, x: real, n: nat, ips: int, sat: real, sampleRate: real): (y: real)
    requires MachineOk(mc) && 0 <= ips < 3 && sampleRate > 0.0
    ensures n == 0 && x == 0.0 ==> y == 0.0
    ensures n == 0 && 0.0 <= sat <= 100.0 ==> Abs(y) < mc.heads[ips].headSoftClip + mc.clipSlope
  {
    var spec := mc.heads[ips];
    assert HeadOk(spec);
    var satNorm := SatNorm(sat);
    var couple := RecReplayCouple(mc, satNorm);
    var y := HeadSoftClip(m, spec.headSoftClip, mc.clipSlope, PreSat(mc, spec, x, satNorm));
    Replay(m, spec, y, n, couple, sampleRate)
  }

  /** The signal in front of the soft clip: input times drive times LF compensation. */
  function PreSat(mc: Machine, h: HeadSpec, x: real, satNorm: real): (p: real)
    ensures x == 0.0 ==> p == 0.0
  {
    x * Drive(mc, satNorm) * LfComp(h, satNorm)
  }

  /** Head bump and HF loss, then the replay coupling; at n = 0 only the coupling acts, and it never amplifies. */
  function Replay(m: Math, h: HeadSpec, y: real, n: nat, couple: real, sampleRate: real): (r: real)
    requires h.hfLoss > 0.0 && sampleRate > 0.0
    ensures n == 0 ==> r == y * couple
    ensures n == 0 && 0.0 <= couple <= 1.0 ==> Abs(r) <= Abs(y)
  {
    WithinUnitGain(y, couple);
    BumpAndLoss(m, y, n, h.bumpFreq, h.bumpGain, h.hfLoss, sampleRate) * couple
  }

  lemma WithinUnitGain(y: real, g: real)
    ensures 0.0 <= g <= 1.0 ==> Abs(y * g) <= Abs(y)
  {
    if 0.0 <= g <= 1.0 {
      UnitGain(y, g);
    }
  }

  lemma UnitGain(y: real, g: real)
    requires 0.0 <= g <= 1.0
    ensures Abs(y * g) <= Abs(y)
  {
    NonnegProduct(Abs(y), g);
    NonnegProduct(Abs(y), 1.0 - g);
    assert Abs(y) * (1.0 - g) == Abs(y) - Abs(y) * g;
    assert Abs(y * g) == Abs(y) * g;
  }

  // ---------------------------------------------------------------------------
  // One frame

  /** Parameter snapshot: Trim (dB), Blend (0..100), Saturation (0..100), IPS index, TapeIn, Color (Silk mode), Texture (0..100). */
  datatype TapeParams = TapeParams(trim: real, blend: real, saturation: real, ips: int, tapeIn: bool,
                                   color: int, texture: real)

  /** What `processBlock` derives from the parameters before its loop. */
  datatype TapeSetup = TapeSetup(trimGain: real, blendAmt: real, sat: real, ips: int, tapeIn: bool,
                                 colorMode: int, texture: real)

  /** Trim as a linear gain, blend as a fraction; the rest passes through. */
  function BlockSetup(m: Math, p: TapeParams): (s: TapeSetup)
    ensures s.trimGain > 0.0 && (s.trimGain <= 1.0 <==> p.trim <= 0.0)
    ensures p.trim == 0.0 ==> s.trimGain == 1.0
    ensures 0.0 <= p.blend <= 100.0 ==> 0.0 <= s.blendAmt <= 1.0
    ensures p.blend == 0.0 ==> s.blendAmt == 0.0
    ensures p.blend == 100.0 ==> s.blendAmt == 1.0
    ensures s.sat == p.saturation && s.ips == p.ips && s.tapeIn == p.tapeIn
    ensures s.colorMode == p.color && s.texture == p.texture
  {
    TapeSetup(DbToLinear(m, p.trim), p.blend / 100.0, p.saturation, p.ips, p.tapeIn, p.color, p.texture)
  }

  /** The signals of one frame: trimmed dry, after the input transformer, after the tape stage, after colouration, and the blend. */
  datatype Voice = Voice(dry: Frame, input: Frame, tape: Frame, colour: Frame, out: Frame)

  /** The trimmed input; a mono buffer duplicates its left channel. */
  function Trimmed(s: TapeSetup, numChannels: int, x: Frame): (d: Frame)
    ensures d.left == x.left * s.trimGain
    ensures numChannels > 1 ==> d.right == x.right * s.trimGain
    ensures numChannels <= 1 ==> d.right == d.left
  {
    var inL := x.left * s.trimGain;
    var inR := if numChannels > 1 then x.right * s.trimGain else inL;
    Frame(inL, inR)
  }

  /** Dry/wet blend: all dry at 0, all wet at 1, each channel between the two in between. */
  function Blend(blendAmt: real, wet: Frame, dry: Frame): (y: Frame)
    ensures blendAmt == 0.0 ==> y == dry
    ensures blendAmt == 1.0 ==> y == wet
    ensures 0.0 <= blendAmt <= 1.0 ==>
              Min(wet.left, dry.left) <= y.left <= Max(wet.left, dry.left) &&
              Min(wet.right, dry.right) <= y.right <= Max(wet.right, dry.right)
    ensures wet.left == wet.right && dry.left == dry.right ==> y.left == y.right
  {
    ConvexBetween(wet.left, dry.left, blendAmt);
    ConvexBetween(wet.right, dry.right, blendAmt);
    Frame(blendAmt * wet.left + (1.0 - blendAmt) * dry.left,
          blendAmt * wet.right + (1.0 - blendAmt) * dry.right)
  }

  predicate SetupOk(s: TapeSetup)
  {
    0 <= s.ips < 3
  }

  /**
   * One iteration of the sample loop on frame `n`. With the tape off the tape
   * stage passes the transformer output through; a mono buffer gives equal
   * channels everywhere; the coloured signal is always in (-1, 1); with no
   * blend the output is the trimmed dry input.
   */
  function ProcessFrame(m: Math, mc: Machine, s: TapeSetup, numChannels: int, n: nat, x: Frame,
                        sampleRate: real): (v: Voice)
    requires MachineOk(mc) && SetupOk(s) && sampleRate > 0.0
    ensures v.dry == Trimmed(s, numChannels, x)
    ensures !s.tapeIn ==> v.tape == v.input
    ensures s.tapeIn ==> v.tape == Frame(TapeHead(m, mc, v.input.left, n, s.ips, s.sat, sampleRate),
                                         TapeHead(m, mc, v.input.right, n, s.ips, s.sat, sampleRate))
    ensures -1.0 < v.input.left < 1.0 && -1.0 < v.input.right < 1.0
    ensures -1.0 < v.colour.left < 1.0 && -1.0 < v.colour.right < 1.0
    ensures numChannels <= 1 ==>
              v.input.left == v.input.right && v.tape.left == v.tape.right &&
              v.colour.left == v.colour.right && v.out.left == v.out.right
    ensures s.blendAmt == 0.0 ==> v.out == v.dry
    ensures s.blendAmt == 1.0 ==> v.out == v.colour
  {
    var dry := Trimmed(s, numChannels, x);
    var input := Frame(InputXfmr(m, dry.left, n, sampleRate), InputXfmr(m, dry.right, n, sampleRate));
    var tape := if s.tapeIn then Frame(TapeHead(m, mc, input.left, n, s.ips, s.sat, sampleRate),
                                       TapeHead(m, mc, input.right, n, s.ips, s.sat, sampleRate))
                else input;
    var colour := Frame(OutputXfmr(m, tape.left, n, s.colorMode, s.texture, sampleRate),
                        OutputXfmr(m, tape.right, n, s.colorMode, s.texture, sampleRate));
    Voice(dry, input, tape, colour, Blend(s.blendAmt, colour, dry))
  }

  // ---------------------------------------------------------------------------
  // One block

  /** A per-frame processor applied to every frame of a block, frame `k` with index `k`. */
  function VoicesOf(voice: (nat, Frame) -> Voice, xs: seq<Frame>): (vs: seq<Voice>)
    ensures |vs| == |xs|
    ensures forall k :: 0 <= k < |xs| ==> vs[k] == voice(k, xs[k])
  {
    seq(|xs|, k requires 0 <= k < |xs| => voice(k, xs[k]))
  }

  /** `ProcessFrame` with the block's machine, setup, channel count and sample rate fixed. */
  function FrameVoice(m: Math, mc: Machine, s: TapeSetup, numChannels: int, sampleRate: real): (voice: (nat, Frame) -> Voice)
    requires MachineOk(mc) && SetupOk(s) && sampleRate > 0.0
    ensures forall n, x :: voice(n, x) == ProcessFrame(m, mc, s, numChannels, n, x, sampleRate)
  {
    (n: nat, x: Frame) => ProcessFrame(m, mc, s, numChannels, n, x, sampleRate)
  }

  /** Every frame of a block through `ProcessFrame`. */
  function Voices(m: Math, mc: Machine, s: TapeSetup, numChannels: int, sampleRate: real,
                  xs: seq<Frame>): (vs: seq<Voice>)
    requires MachineOk(mc) && SetupOk(s) && sampleRate > 0.0
    ensures |vs| == |xs|
    ensures forall k :: 0 <= k < |xs| ==> vs[k] == ProcessFrame(m, mc, s, numChannels, k, xs[k], sampleRate)
  {
    VoicesOf(FrameVoice(m, mc, s, numChannels, sampleRate), xs)
  }

  /** The four signals the block meters. */
  datatype Probe = DriveLeft | DriveRight | LevelLeft | LevelRight

  function Probed(v: Voice, p: Probe): real
  {
    match p
    case DriveLeft => v.tape.left
    case DriveRight => v.tape.right
    case LevelLeft => v.colour.left
    case LevelRight => v.colour.right
  }

  /** One probed signal across the block. */
  function Column(vs: seq<Voice>, p: Probe): (c: seq<real>)
    ensures |c| == |vs|
    ensures forall k :: 0 <= k < |vs| ==> c[k] == Probed(vs[k], p)
  {
    seq(|vs|, k requires 0 <= k < |vs| => Probed(vs[k], p))
  }

  /** The output frames of the block, in order. */
  function Outputs(vs: seq<Voice>): (ys: seq<Frame>)
    ensures |ys| == |vs|
    ensures forall k :: 0 <= k < |vs| ==> ys[k] == vs[k].out
  {
    seq(|vs|, k requires 0 <= k < |vs| => vs[k].out)
  }

  /** The peak follower step: take `|v|` when it exceeds the peak so far. */
  function RaisePeak(peak: real, v: real): real
  {
    if Abs(v) > peak then Abs(v) else peak
  }

  /** The peak of a block: the follower run over it from 0. */
  function PeakAbs(xs: seq<real>): real
    decreases |xs|
  {
    if xs == [] then 0.0 else RaisePeak(PeakAbs(xs[..|xs| - 1]), xs[|xs| - 1])
  }

  /**
   * The peak of a block is never negative, at least every magnitude in the
   * block, and either 0 or one of those magnitudes.
   */
  lemma {:induction false} PeakAbsBounds(xs: seq<real>)
    ensures PeakAbs(xs) >= 0.0
    ensures forall k :: 0 <= k < |xs| ==> Abs(xs[k]) <= PeakAbs(xs)
    ensures PeakAbs(xs) == 0.0 || exists k :: 0 <= k < |xs| && PeakAbs(xs) == Abs(xs[k])
    decreases |xs|
  {
    if xs != [] {
      var init := xs[..|xs| - 1];
      PeakAbsBounds(init);
      assert forall k :: 0 <= k < |init| ==> init[k] == xs[k];
      if PeakAbs(init) != 0.0 && Abs(xs[|xs| - 1]) <= PeakAbs(init) {
        var k :| 0 <= k < |init| && PeakAbs(init) == Abs(init[k]);
        assert PeakAbs(xs) == Abs(xs[k]);
      }
    }
  }

  /** No sample of the block exceeds its peak, and a peak of 0 means a silent block. */
  lemma ZeroPeakMeansSilence(xs: seq<real>)
    requires PeakAbs(xs) == 0.0
    ensures forall k :: 0 <= k < |xs| ==> xs[k] == 0.0
  {
    PeakAbsBounds(xs);
  }

  /** The coloured signal is in (-1, 1), so the level peaks of a block are below 1. */
  lemma LevelPeakBelowOne(m: Math, mc: Machine, s: TapeSetup, numChannels: int, sampleRate: real,
                          xs: seq<Frame>, p: Probe)
    requires MachineOk(mc) && SetupOk(s) && sampleRate > 0.0
    requires p == LevelLeft || p == LevelRight
    ensures PeakAbs(Column(Voices(m, mc, s, numChannels, sampleRate, xs), p)) < 1.0
  {
    var c := Column(Voices(m, mc, s, numChannels, sampleRate, xs), p);
    var pk := PeakAbs(c);
    PeakAbsBounds(c);
    if pk != 0.0 {
      var k :| 0 <= k < |c| && pk == Abs(c[k]);
    }
  }

  /** With no blend the block writes back the trimmed dry input, frame by frame. */
  lemma NoBlendWritesTrimmedDry(m: Math, mc: Machine, s: TapeSetup, numChannels: int, sampleRate: real,
                                xs: seq<Frame>)
    requires MachineOk(mc) && SetupOk(s) && sampleRate > 0.0 && s.blendAmt == 0.0
    ensures forall k :: 0 <= k < |xs| ==>
              Outputs(Voices(m, mc, s, numChannels, sampleRate, xs))[k] == Trimmed(s, numChannels, xs[k])
  {
  }

  // ---------------------------------------------------------------------------
  // The script instance

  /** A tape script: its machine and the four values it last published. */
  class TapeEngine {
    const math: Math
    const machine: Machine
    var meters: TapeMeters

    ghost predicate Valid()
      reads this
    {
      MachineOk(machine)
    }

    constructor(m: Math, mc: Machine)
      requires MachineOk(mc)
      ensures Valid() && math == m && machine == mc && meters == NoTapeMeters
    {
      math, machine := m, mc;
      meters := NoTapeMeters;
    }

    /**
     * processBlock: every frame of the buffer is replaced by its blended output,
     * and the published meters are the block's peaks of the tape signal and of
     * the coloured signal, per channel, from 0.
     */
    method ProcessBlock(samples: array<Frame>, numChannels: int, p: TapeParams, sampleRate: real)
      requires Valid() && 0 <= p.ips < 3 && sampleRate > 0.0
      modifies this, samples
      ensures Valid()
      ensures var vs := Voices(math, machine, BlockSetup(math, p), numChannels, sampleRate, old(samples[..]));
              && samples[..] == Outputs(vs)
              && meters == TapeMeters(PeakAbs(Column(vs, DriveLeft)), PeakAbs(Column(vs, DriveRight)),
                                      PeakAbs(Column(vs, LevelLeft)), PeakAbs(Column(vs, LevelRight)))
    {
      var s := BlockSetup(math, p);
      meters := RunBlock(FrameVoice(math, machine, s, numChannels, sampleRate), samples);
    }
  }

  /**
   * The sample loop: outputs written back in place, the four peaks tracked
   * from 0 (the four peak registers are kept together as one meter record).
   */
  method RunBlock(voice: (nat, Frame) -> Voice, samples: array<Frame>) returns (peaks: TapeMeters)
    modifies samples
    ensures var vs := VoicesOf(voice, old(samples[..]));
            samples[..] == Outputs(vs) && peaks == BlockPeaks(vs)
  {
    ghost var xs := samples[..];
    ghost var vs := VoicesOf(voice, xs);
    peaks := NoTapeMeters;
    var i := 0;
    while i < samples.Length
      invariant 0 <= i <= samples.Length
      invariant forall k :: i <= k < samples.Length ==> samples[k] == xs[k]
      invariant forall k :: 0 <= k < i ==> samples[k] == vs[k].out
      invariant peaks == BlockPeaks(vs[..i])
    {
      var v := voice(i, samples[i]);
      assert v == vs[i];
      BlockPeaksSnoc(vs, i);
      samples[i] := v.out;
      peaks := TrackPeaks(peaks, v);
      i := i + 1;
    }
    assert vs[..i] == vs;
    assert samples[..] == Outputs(vs);
  }

  /** The four peak followers of the sample loop, each stepped on its own signal of one voice. */
  function TrackPeaks(m: TapeMeters, v: Voice): TapeMeters
  {
    TapeMeters(RaisePeak(m.driveLeft, v.tape.left), RaisePeak(m.driveRight, v.tape.right),
               RaisePeak(m.levelLeft, v.colour.left), RaisePeak(m.levelRight, v.colour.right))
  }

  /** The four block peaks: drive after the tape stage, level after the output transformer. */
  function BlockPeaks(vs: seq<Voice>): TapeMeters
  {
    TapeMeters(PeakAbs(Column(vs, DriveLeft)), PeakAbs(Column(vs, DriveRight)),
               PeakAbs(Column(vs, LevelLeft)), PeakAbs(Column(vs, LevelRight)))
  }

  /** Extending a block by one voice steps each of the four peaks on that voice. */
  lemma BlockPeaksSnoc(vs: seq<Voice>, i: int)
    requires 0 <= i < |vs|
    ensures BlockPeaks(vs[..i + 1]) == TrackPeaks(BlockPeaks(vs[..i]), vs[i])
  {
    PeakStep(vs, i, DriveLeft);
    PeakStep(vs, i, DriveRight);
    PeakStep(vs, i, LevelLeft);
    PeakStep(vs, i, LevelRight);
  }

  /** The peak of a block extended by one value is the follower's step on that value. */
  lemma PeakSnoc(xs: seq<real>, v: real)
    ensures PeakAbs(xs + [v]) == RaisePeak(PeakAbs(xs), v)
  {
    assert (xs + [v])[..|xs|] == xs;
  }

  /** Extending a block by one voice moves each peak by one follower step. */
  lemma PeakStep(vs: seq<Voice>, i: int, p: Probe)
    requires 0 <= i < |vs|
    ensures PeakAbs(Column(vs[..i + 1], p)) == RaisePeak(PeakAbs(Column(vs[..i], p)), Probed(vs[i], p))
  {
    assert Column(vs[..i + 1], p) == Column(vs[..i], p) + [Probed(vs[i], p)];
    PeakSnoc(Column(vs[..i], p), Probed(vs[i], p));
  }
}
