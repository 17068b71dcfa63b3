# LUNA MU 6742 — a verified model of the DSP scripts

LUNA MU 6742 is a channel strip made of small HISE scripts. This project
models the scripts that decide what happens to the audio and the meters:

- **The Fairchild-style compressor** (`LUNA_MU_Compressor.js`). The tube and
  transformer characters are blended once from their tables. Per block, the
  script reads its knobs and runs the per-sample loop:
  - tube and transformer colouration of the input;
  - sidechain high-pass and envelope followers for left, right, mid and side;
  - envelope in dB and a program-dependent ratio;
  - a three-region soft knee;
  - stereo or mid/side gain, and an optional stereo link;
  - a wet/dry mix and the output level, written back into the buffer in place.

  It then publishes the gain-reduction telemetry. A hard bypass skips all of it.
- **The two tape emulators**, Neve-style (`LUNA_MU_TapeEmulator.js`) and
  Studer-style (`LUNA_MU_TapeEmulator_Studer.js`). They share one pipeline:
  - trim, with mono duplication;
  - the input transformer;
  - an optional tape head: LF compensation, record/replay coupling and a soft clip;
  - the output transformer with Silk colouration;
  - a dry/wet blend written back in place;
  - per-block peaks of the tape signal ("drive") and the coloured signal ("level").

  The two scripts differ only in their head table and four coefficients. The
  model has one engine parameterised by a `Machine` record and two instances
  of it.
- **The shared utilities** (`LUNA_MU_Utils.js`) and **the meter script**
  (`LUNA_MU_Meter.js`). The meter script quantises the telemetry into GUI
  frames and picks the L/R or M/S gain reductions for the needles by mode.

Modules:

| file | module | what it holds |
|---|---|---|
| `transcendental.dfy` | `Transcendental` | `tanh`, `exp`, `sin`, `log10`, `pow(10, ·)` as a record of functions with the laws the proofs use |
| `utils.dfy` | `Utils` | the utility functions, the one-pole filters and the meter quantiser |
| `telemetry.dfy` | `Telemetry` | the values the processors publish |
| `compressor.dfy` | `Compressor` | tables, blending, one sample step, the block as a function, and the `CompressorEngine` class |
| `tape.dfy` | `Tape` | the shared tape pipeline, the block as a function, and the `TapeEngine` class |
| `tape_emulator.dfy` | `TapeNeve` | the Neve machine and its facts |
| `tape_studer.dfy` | `TapeStuder` | the Studer machine and its facts |
| `meter.dfy` | `Meter` | the telemetry-to-frame mapping |

How the state is modelled:

- Each processing script's `processBlock` is a `method` of a class. The class's
  fields are the persistent `reg` state:
  - the compressor's four envelopes, its filter memories and its right-channel gain;
  - the published meters.
- Each `processBlock` rewrites the sample buffer, an `array<Frame>`, in place
  in a loop. Its `ensures` ties the new buffer and the new state to a function
  of the old ones: `Compressor.Run` over `Compressor.Step`, or `Tape.Voices`.
  Lemmas state what the source promises about those functions.
- The transcendental functions are uninterpreted. The type `Math` admits only
  those whose laws hold of the real functions:
  - `tanh` lies in (−1, 1) and keeps the sign of a non-negative argument;
  - `exp` is positive and below 1 on negative arguments;
  - `pow(10, x) ≤ 1` exactly when `x ≤ 0`;
  - `log10` is only defined on positive reals, so its argument can never be 0.

Where the code's own comments and names suggest more than the code does,
the model follows the code:

- **Stereo gain-reduction telemetry.** The comments on the telemetry
  (LUNA_MU_Compressor.js:263-266, "dB gain reduction Left") and on the meter
  (LUNA_MU_Meter.js:35-36, "expected: 0 (no GR) to -12dB", "Frame 0 = no GR")
  call the published value a gain reduction, 0 meaning none. The code
  publishes `grL`/`grR` (LUNA_MU_Compressor.js:265-266), which below the knee
  are set to the envelope level in dB itself (LUNA_MU_Compressor.js:200-201),
  not to the reduction. (`Compressor.Detect` and
  `Compressor.CompressorEngine.ProcessBlock` publish them as the code does.)
  So a quiet signal at −6 dB drives the VU needle to frame 4 instead of 0.
- **Stereo link.** Link (LUNA_MU_Compressor.js:244-252) does not make the two
  gains equal: it leaves `gainL` and `gainR` as they are and multiplies both
  channels by the smaller of the two (`Compressor.Combine`).
- **Link in mid/side mode.** The mid/side branch sets `gainL := gainM`
  (LUNA_MU_Compressor.js:241) but never updates `gainR`. The linked gain
  therefore uses whatever right gain an earlier stereo block left behind.
  `gainR` is declared without an initialiser (LUNA_MU_Compressor.js:91); taking
  that start value as 0, on a fresh instance only the dry share reaches the
  output (`Compressor.EngineMidSideLinkedMutesWet`).
- **The sample index.** Both transformer models take the block-local loop index as
  their time, so the bump and HF-loss drift restart at every block.

## Model

| member | source | states |
|---|---|---|
| `Utils.DbToLinear` | LUNA_MU_Utils.js:5-9 | the gain is positive; it is at most 1 exactly when dB ≤ 0; 0 dB is unity |
| `Utils.LinearToDb` | LUNA_MU_Utils.js:10-16 | −120 for every level ≤ 1e-8, otherwise 20·log10 of the level |
| `Utils.FromMidSide` | LUNA_MU_Utils.js:27-31 | the decoded pair encodes back to the given mid and side |
| `Utils.MidSideRoundTrip` | LUNA_MU_Utils.js:19-31 | decoding the mid/side encoding of (L, R) gives back exactly (L, R) |
| `Utils.EnvCoef` | LUNA_MU_Utils.js:37-38 | a follower coefficient `exp(-1/(0.001·t·sr))` lies strictly between 0 and 1 |
| `Utils.StepToward` | LUNA_MU_Utils.js:39-42 | one step `c·(env − target) + target` with c in (0,1) lands between env and target without overshooting |
| `Utils.PeakEnv` | LUNA_MU_Utils.js:34-44 | the attack coefficient is used exactly when the input magnitude is above the envelope, the release one otherwise; the new envelope lies between the old one and the input magnitude |
| `Utils.SoftClip` | LUNA_MU_Utils.js:47-51 | the output lies in (−1, 1) and 0 maps to 0 |
| `Utils.TubeStage` | LUNA_MU_Utils.js:54-60 | silence stays silent; the output is within 0.85 of its polynomial harmonic part |
| `Utils.BumpAndLoss` | LUNA_MU_Utils.js:64-66 | at sample index 0 the transformer's bump and HF loss leave the signal unchanged |
| `Utils.XfmrStage` | LUNA_MU_Utils.js:61-68 | the output lies in (−1, 1); at index 0 it is `tanh(1.08·x)` |
| `Utils.OnePoleLP` | LUNA_MU_Utils.js:71-75 | for alpha in [0,1] the output lies between x and last; alpha 1 gives x, alpha 0 gives last |
| `Utils.ConvexBetween` | LUNA_MU_Utils.js:74 | a convex combination of two values lies between them |
| `Utils.OnePoleHP` | LUNA_MU_Utils.js:76-80 | as written, the output is `alpha·x`, whatever the previous value |
| `Utils.OnePoleHPPassesDC` | LUNA_MU_Utils.js:76-80 | the written high-pass fed a constant 1.0 keeps emitting 0.5 (it does not block DC) |
| `Utils.HighPassStep` | LUNA_MU_Compressor.js:162-165 | the high-pass with input and output memory: a held input only scales the previous output by alpha |
| `Utils.HighPassBlocksDC` | LUNA_MU_Compressor.js:162-165 | after n steps of a held input the output is alphaⁿ times the starting output |
| `Utils.PowerDecays` | LUNA_MU_Compressor.js:162-165 | for 0 < alpha < 1 that factor alphaⁿ stays positive, falls at every step and is below 1 after the first, so a held DC input decays away |
| `Utils.TruncToInt` | LUNA_MU_Utils.js:88 | `int()` truncates toward zero: for x ≥ 0 it is the floor, for x < 0 the ceiling |
| `Utils.MeterClamp` | LUNA_MU_Utils.js:86-87 | the value is pinned into [min, max] and left alone inside it |
| `Utils.MeterPosition` | LUNA_MU_Utils.js:88 | the rounding position lies in [0.5, span + 0.5]; it is 0.5 at the bottom and span + 0.5 at the top |
| `Utils.ScaledFraction` | LUNA_MU_Utils.js:88 | `k·a/d` lies in [0, k], is 0 at a = 0 and k at a = d |
| `Utils.ScaledFractionMonotone` | LUNA_MU_Utils.js:88 | `k·a/d` does not decrease as a grows |
| `Utils.MapMeter` | LUNA_MU_Utils.js:83-89 | for min < max and frames ≥ 1: an integer frame in [0, frames−1], 0 at or below min, frames−1 at or above max |
| `Utils.MapMeterMonotone` | LUNA_MU_Utils.js:83-89 | the frame never decreases as the value grows |
| `Utils.Clamp` | LUNA_MU_Utils.js:92-97 | within [lo, hi] when lo ≤ hi; x itself when inside; lo below; hi above |
| `Utils.ClampIdempotent` | LUNA_MU_Utils.js:92-97 | clamping twice is clamping once |
| `Utils.ScHpfFreq` | LUNA_MU_Utils.js:109-115 | 60 Hz exactly for index 1, 120 Hz exactly for index 2, 0 (off) exactly for every other index |
| `Utils.MapIpsIndexToValue` | LUNA_MU_Utils.js:100-106 | 7 IPS exactly for index 0, 15 exactly for index 1, 30 exactly for every other index |
| `Compressor.WeightedSumBounds` | LUNA_MU_Compressor.js:54-60 | if every tube's field lies in [lo, hi], the quantity-weighted sum lies between lo and hi times the total quantity |
| `Compressor.XfmrSumBounds` | LUNA_MU_Compressor.js:71-75 | if every transformer's field lies in [lo, hi], the sum lies between n·lo and n·hi |
| `Compressor.MeanWithin` | LUNA_MU_Compressor.js:61-66 | a sum bracketed by n·lo and n·hi, divided by n > 0, lies in [lo, hi] |
| `Compressor.BlendTubesWithin` | LUNA_MU_Compressor.js:61-66 | each blended tube parameter lies within the range of that parameter over the table |
| `Compressor.BlendXfmrsWithin` | LUNA_MU_Compressor.js:76-80 | each averaged transformer parameter lies within the range of that parameter over the table |
| `Compressor.TubeTableQuantity` | LUNA_MU_Compressor.js:34-40 | the tube table holds 17 tubes, so the blend never divides by 0 |
| `Compressor.WeightedMean` | LUNA_MU_Compressor.js:53-66 | the accumulator loop computes the quantity-weighted mean of each tube field |
| `Compressor.GetBlendedTubeParams` | LUNA_MU_Compressor.js:52-67 | the result is the weighted mean of the table, with drive in [1.10, 1.40], asym in [0.03, 0.06], even in [0.08, 0.12], odd in [0.07, 0.10] |
| `Compressor.TubeBlendRanges` | LUNA_MU_Compressor.js:34-40 | the weighted mean of the actual table lies in those ranges |
| `Compressor.Mean` | LUNA_MU_Compressor.js:70-80 | the accumulator loop computes the mean of each transformer field |
| `Compressor.GetBlendedXfmrParams` | LUNA_MU_Compressor.js:69-81 | the result is the mean of the table, with bump frequency in [50, 60], bump gain in [1.9, 2.2], HF loss in [12000, 16000] (so positive) |
| `Compressor.XfmrBlendRanges` | LUNA_MU_Compressor.js:42-50 | the mean of the actual table lies in those ranges |
| `Compressor.TubeColour` | LUNA_MU_Compressor.js:94-100 | the blended tube model maps silence to silence |
| `Compressor.XfmrColour` | LUNA_MU_Compressor.js:101-108 | the blended transformer's output lies in (−1, 1) and is `tanh(1.08·x)` at index 0 |
| `Compressor.Colour` | LUNA_MU_Compressor.js:145-154 | the coloured input frame lies in (−1, 1) on both channels; a mono buffer gives equal channels |
| `Compressor.HpfAlpha` | LUNA_MU_Compressor.js:135-136 | the sidechain filter coefficient `RC/(RC + 1/sr)` lies strictly between 0 and 1 |
| `Compressor.BlockSetup` | LUNA_MU_Compressor.js:114-138 | the per-block setup: positive attack below release; wet + dry = 1 (mix 0 is all dry); input gain positive and 1 at 0 dB; the filter runs exactly for SC_HPF 1 or 2 (alpha 0 otherwise); mid/side exactly for a non-zero mode |
| `Compressor.Sidechain` | LUNA_MU_Compressor.js:159-170 | with the filter off the sidechain is the signal; with it on and the input held, the filter output only scales by alpha |
| `Compressor.Track` | LUNA_MU_Compressor.js:159-183 | the envelope moves between its old value and the rectified sidechain and stays non-negative; filter memory changes only while the filter runs |
| `Compressor.EnvDb` | LUNA_MU_Compressor.js:185-188 | an envelope of exactly 0 reads 0 dB (and log10 is never applied to 0) |
| `Compressor.Ratio` | LUNA_MU_Compressor.js:190-191 | the ratio lies in [2, 30]; it is 2 when the mid envelope is at or below threshold and 30 from 56 dB above it |
| `Compressor.RatioMonotone` | LUNA_MU_Compressor.js:190-191 | a louder mid envelope never lowers the ratio |
| `Compressor.KneeGr` | LUNA_MU_Compressor.js:200-205 | below the knee the output level equals the input level (unity gain); for any ratio ≥ 1 it never exceeds the input level (never boosts) |
| `Compressor.AboveKneeAtMost` | LUNA_MU_Compressor.js:202-203 | above the knee `thres + over/ratio` is at most the input level |
| `Compressor.InKneeAtMost` | LUNA_MU_Compressor.js:204-205 | inside the knee the quadratic term only lowers the level |
| `Compressor.KneeMeetsBelow` | LUNA_MU_Compressor.js:200-205 | at over = −3 dB the knee branch equals the input level: continuous with the region below |
| `Compressor.KneeMeetsAbove` | LUNA_MU_Compressor.js:200-205 | at over = +3 dB the knee branch equals `thres + over/ratio`: continuous with the region above |
| `Compressor.KneeMonotone` | LUNA_MU_Compressor.js:200-205 | across all three regions, a louder input never gives a lower output level, and never a larger rise than the input's |
| `Compressor.ChannelGain` | LUNA_MU_Compressor.js:214-215 | the gain `10^((gr − envDb)/20)` is positive, at most 1 when gr ≤ envDb, and exactly 1 when they are equal |
| `Compressor.Attenuates` | LUNA_MU_Compressor.js:216-217 | a gain in [0, 1] never raises a magnitude |
| `Compressor.Detect` | LUNA_MU_Compressor.js:156-242 | one sample of detection: the left gain lies in (0, 1]; envelopes stay non-negative and the right gain stays in [0, 1]; mid/side leaves the right gain and the L/R registers untouched and stereo the M/S registers; stereo never raises either channel, and below the knee it reports each channel's envelope level with unity gain on that channel; in either mode each published register is at most the envelope level it was computed from |
| `Compressor.Mix` | LUNA_MU_Compressor.js:254-255 | mix 0 outputs the dry frame times the output gain, mix 100 the wet frame times it |
| `Compressor.LinkedMix` | LUNA_MU_Compressor.js:244-255 | with link on, both channels of the coloured input are scaled by one factor built from the smaller gain |
| `Compressor.Combine` | LUNA_MU_Compressor.js:244-255 | link and mix of one sample: the linked output uses the smaller gain on both channels; an all-dry mix gives the coloured input times the output gain; a linked right gain of 0 leaves only the dry share |
| `Compressor.EngineChain` | LUNA_MU_Compressor.js:145-242 | the compressor's colour and detection stages keep the loop state well-formed and leave the right gain alone in mid/side mode |
| `Compressor.Step` | LUNA_MU_Compressor.js:145-255 | one iteration keeps the state well-formed and keeps the right gain in mid/side mode; the all-dry and the zero-right-gain linked mid/side cases output the coloured frame times a fixed factor |
| `Compressor.Run` | LUNA_MU_Compressor.js:143-260 | the loop outputs one frame per input frame, keeps the state well-formed, and in mid/side mode ends with the right gain it started with |
| `Compressor.RunFrame` | LUNA_MU_Compressor.js:143-260 | output frame k is one step on input frame k from the state the first k frames left |
| `Compressor.DryBlockIsColouredInput` | LUNA_MU_Compressor.js:254-255 | with mix 0 every output frame is the coloured input times the output gain |
| `Compressor.MidSideLinkedWithZeroRightGainMutesWet` | LUNA_MU_Compressor.js:241-255 | linked mid/side from a right gain of 0: the right gain stays 0 for the block and every output frame is the coloured input times `outGain·dry` |
| `Compressor.PrefixKeepsRightGain` | LUNA_MU_Compressor.js:219-242 | any prefix of a mid/side block leaves the right gain as it found it |
| `Compressor.MutedStep` | LUNA_MU_Compressor.js:244-255 | a linked mid/side step from a right gain of 0 passes only the dry share |
| `Compressor.Compress` | LUNA_MU_Compressor.js:143-260 | the compressor's sample loop: one output per input, well-formed state, right gain kept in mid/side mode |
| `Compressor.EngineDryBlock` | LUNA_MU_Compressor.js:254-255 | the compressor with mix 0 outputs the tube/transformer-coloured input times the output gain, frame by frame |
| `Compressor.EngineMidSideLinkedMutesWet` | LUNA_MU_Compressor.js:241-255 | the compressor in linked mid/side mode from a right gain of 0 outputs only `outGain·dry` times the coloured input |
| `Compressor.RunInPlace` | LUNA_MU_Compressor.js:143-260 | the in-place loop leaves the buffer holding the block's output frames and returns its final state |
| `Compressor.CompressInPlace` | LUNA_MU_Compressor.js:143-260 | the same for the compressor's own stages |
| `Compressor.CompressBlock` | LUNA_MU_Compressor.js:114-260 | set-up from the knobs, then the in-place loop; a well-formed state stays well-formed |
| `Compressor.Publish` | LUNA_MU_Compressor.js:264-275 | stereo publishes the L/R registers with Mid and Side as 0; mid/side publishes M/S with Left and Right as 0; the mode is published as given |
| `Compressor.CompressorEngine.constructor` | LUNA_MU_Compressor.js:82-91 | a fresh instance holds the blended tube and transformer characters, silent trackers, a right gain of 0 and no telemetry (registers declared without an initialiser taken as 0) |
| `Compressor.CompressorEngine.ProcessBlock` | LUNA_MU_Compressor.js:110-276 | bypass touches neither buffer, state nor meters; otherwise the buffer holds the loop's output, the carried state is the loop's final state, and the meters are the mode-selected final registers |
| `Tape.InputXfmr` | LUNA_MU_TapeEmulator.js:38-44 | the output lies in (−1, 1); at index 0 it is `tanh(1.05·x)` |
| `Tape.Silk` | LUNA_MU_TapeEmulator.js:79-84 | Silk off (or no texture) leaves x unchanged; 0 stays 0; Silk Blue only adds; Silk Red pushes x further in its own direction |
| `Tape.OutputXfmr` | LUNA_MU_TapeEmulator.js:73-86 | the output lies in (−1, 1); at index 0 with Silk off or no texture it is `tanh(1.05·x)` |
| `Tape.Sign` | LUNA_MU_TapeEmulator.js:88 | ±1, +1 exactly when x ≥ 0 (so sign(0) = +1), and sign·\|x\| = x |
| `Tape.SatNorm` | LUNA_MU_TapeEmulator.js:49 | saturation 0..100 maps into [0, 1], with 100 at 1 |
| `Tape.LfComp` | LUNA_MU_TapeEmulator.js:53 | LF compensation is lfCompMax at sat 0, 1 at sat 100, and between them otherwise |
| `Tape.LfCompNonIncreasing` | LUNA_MU_TapeEmulator.js:53 | more saturation never raises the LF compensation |
| `Tape.RecReplayCouple` | LUNA_MU_TapeEmulator.js:55 | replay coupling is 1 at sat 0, 1 − coupling at full sat, and in [1 − coupling, 1] between |
| `Tape.CoupleNonIncreasing` | LUNA_MU_TapeEmulator.js:55 | more saturation never raises the replay coupling |
| `Tape.Drive` | LUNA_MU_TapeEmulator.js:58 | the drive is the base drive at sat 0 and never below it |
| `Tape.PreSatGainAtLeastBase` | LUNA_MU_TapeEmulator.js:53-58 | the gain into the soft clip, drive times LF compensation, is at least the base drive |
| `Tape.HeadSoftClip` | LUNA_MU_TapeEmulator.js:57-65 | the tanh branch is taken exactly when \|preSat\| is below the threshold; otherwise \|y\| lies in [threshold, threshold + shoulder) with the sign of preSat; so \|y\| < threshold + shoulder always |
| `Tape.PreSat` | LUNA_MU_TapeEmulator.js:58 | silence into the head is silence into the clip |
| `Tape.Replay` | LUNA_MU_TapeEmulator.js:66-69 | at index 0 the head output is the clipped value times the coupling, so never louder when the coupling is in [0, 1] |
| `Tape.TapeHead` | LUNA_MU_TapeEmulator.js:47-70 | at index 0: silence stays silent, and for sat in [0, 100] the head output stays below headSoftClip + shoulder |
| `Tape.BlockSetup` | LUNA_MU_TapeEmulator.js:92-99 | trim becomes a positive gain (at most 1 exactly when trim ≤ 0, 1 at 0 dB); blend becomes a fraction in [0, 1], 0 and 1 at its ends |
| `Tape.Trimmed` | LUNA_MU_TapeEmulator.js:106-111 | each channel is trimmed; a mono buffer duplicates the left channel |
| `Tape.Blend` | LUNA_MU_TapeEmulator.js:137-138 | blend 0 outputs the dry frame, 1 the coloured one, and in between each channel lies between them |
| `Tape.ProcessFrame` | LUNA_MU_TapeEmulator.js:106-138 | one iteration: dry is the trimmed input; with TapeIn off the tape stage is the identity, with it on it is the head model on each channel; transformer outputs lie in (−1, 1); mono stays mono; blend 0 gives the dry frame, blend 100 the coloured one |
| `Tape.Voices` | LUNA_MU_TapeEmulator.js:104-147 | frame k of the block goes through one iteration with index k |
| `Tape.PeakAbsBounds` | LUNA_MU_TapeEmulator.js:142-147 | a block peak from 0 is ≥ 0, ≥ every magnitude in the block, and either 0 or one of those magnitudes |
| `Tape.ZeroPeakMeansSilence` | LUNA_MU_TapeEmulator.js:142-147 | a peak of 0 means the signal was 0 throughout the block |
| `Tape.LevelPeakBelowOne` | LUNA_MU_TapeEmulator.js:145-146 | the published level peaks are always below 1 |
| `Tape.NoBlendWritesTrimmedDry` | LUNA_MU_TapeEmulator.js:106-138 | with blend 0 every output frame is the trimmed dry input |
| `Tape.TapeEngine.constructor` | LUNA_MU_TapeEmulator.js:14-35 | a fresh instance has its machine and no telemetry |
| `Tape.TapeEngine.ProcessBlock` | LUNA_MU_TapeEmulator.js:90-155 | the buffer holds every frame's blended output, and the meters are the block peaks of the tape and coloured signals per channel |
| `Tape.RunBlock` | LUNA_MU_TapeEmulator.js:101-148 | the in-place loop writes each frame's output and returns the four peaks tracked from 0 |
| `Tape.BlockPeaksSnoc` | LUNA_MU_TapeEmulator.js:142-147 | one more frame steps each of the four peaks on that frame's value |
| `Tape.PeakStep` | LUNA_MU_TapeEmulator.js:142-147 | one more frame raises a peak to the new magnitude exactly when that magnitude is above it |
| `Tape.PeakSnoc` | LUNA_MU_TapeEmulator.js:142-147 | the peak of a block extended by one value is the follower's step on it |
| `TapeNeve.NeveOk` | LUNA_MU_TapeEmulator.js:28-35 | the Neve head table and coefficients are well-formed |
| `TapeNeve.NeveCoupling` | LUNA_MU_TapeEmulator.js:55 | for sat in [0, 100] the coupling `1 − 0.25·sat/100` lies in [0.75, 1] and does not increase with sat |
| `TapeNeve.NeveSoftClipCeiling` | LUNA_MU_TapeEmulator.js:57-65 | the Neve soft clip output is always below 1.6 + 0.25 |
| `TapeNeve.NevePreSatGain` | LUNA_MU_TapeEmulator.js:53-58 | the Neve gain into the soft clip is at least 1.1 |
| `TapeNeve.NewNeveEngine` | LUNA_MU_TapeEmulator.js:28-35 | a fresh tape engine over the Neve machine |
| `TapeStuder.StuderOk` | LUNA_MU_TapeEmulator_Studer.js:28-35 | the Studer head table and coefficients are well-formed |
| `TapeStuder.StuderCoupling` | LUNA_MU_TapeEmulator_Studer.js:55 | for sat in [0, 100] the coupling `1 − 0.08·sat/100` lies in [0.92, 1] and does not increase with sat |
| `TapeStuder.StuderSoftClipCeiling` | LUNA_MU_TapeEmulator_Studer.js:57-65 | the Studer soft clip output is always below 1.4 + 0.18, and above threshold keeps the sign of preSat |
| `TapeStuder.StuderPreSatGain` | LUNA_MU_TapeEmulator_Studer.js:53-58 | the Studer gain into the clip is `(1.04 + 1.8·satNorm)·lfComp` with lfComp in [1, lfCompMax], so at least 1.04 |
| `TapeStuder.NewStuderEngine` | LUNA_MU_TapeEmulator_Studer.js:28-35 | a fresh tape engine over the Studer machine |
| `Meter.NeedleFrame` | LUNA_MU_Meter.js:40-46 | a needle frame lies in [0, 8]; 0 dB or more of "reduction" gives 0, −12 dB or less gives 8 |
| `Meter.NeedleMonotone` | LUNA_MU_Meter.js:40-46 | a lower (more negative) reduction never gives a lower needle frame |
| `Meter.StripFrame` | LUNA_MU_Meter.js:51-54 | a tape strip frame lies in [0, 8]; ≤ 0 gives 0, ≥ 1 gives 8 |
| `Meter.StripMonotone` | LUNA_MU_Meter.js:51-54 | a higher drive or level never gives a lower frame |
| `Meter.Frames` | LUNA_MU_Meter.js:20-63 | all six published frames lie in [0, 8]; mode 0 drives the needles from Left/Right, any other mode from Mid/Side; the strips follow the tape values |
| `Meter.RestingFrames` | LUNA_MU_Meter.js:57-62 | with nothing published yet, every frame is 0 |

## Left out

- Transcendental numerics and IEEE rounding: `tanh`, `exp`, `sin`, `log10` and `pow(10, ·)` are uninterpreted functions with the stated laws. Arithmetic is over exact reals.
- The host API (`Content.addParameter`, `Content.setValue/getValue`, `Engine.getSampleRate`): parameters are a snapshot record, the sample rate is a positive input, and telemetry is a record field of each engine. The meter script's `getValue` calls become the arguments of `Meter.Frames`.
- Samples are modelled as a buffer of stereo `Frame`s. For a mono buffer the scripts read only the left slot as input (the right input is the left one) and still write both output slots, as the code does.
- Registers declared without an initialiser (LUNA_MU_Compressor.js:85-91: the envelopes, the high-pass memories and `gainR`) are taken to start at 0. The scripting engine's start value for them is not part of this model.
- `maxGR` in the compressor is computed but never published, so it is not modelled.
- `headClip` in both head tables is never read by the code. It is kept in `HeadSpec` and unused.
- No script calls the utility file; the compressor and the tape scripts inline the same formulas. The model reuses a `Utils` definition wherever the inline code is identical over the reals:
  - `TubeStage` and `XfmrStage` for `tubeModel` and `xfmrModel`;
  - `PeakEnv` for the envelope followers;
  - `DbToLinear`, `ToMid`, `ToSide` and `ScHpfFreq`;
  - `BumpAndLoss` for the tape transformers.

  `OnePoleLP`, `OnePoleHP`, `Clamp`, `LinearToDb`, `MapIpsIndexToValue` and `SoftClip` are used by no script. They are modelled on their own.
- The meter script's own `mapMeter` is the same text as the utility one, so `Meter` uses `Utils.MapMeter`.
- `LUNA_MU_TubeAnimation.js`, `LUNA_MU_SkinSwitcher.js` and `LUNA_MU_IndicatorLights.js` are not part of this model: GUI timers, randomness, images and button callbacks.
- The time drift of the transformer bump and HF loss is an opaque factor. Only its value at index 0, where it vanishes, is stated.
- Compressor.CompressorEngine.ProcessBlock: requires TimeConstant in 1..6 and a positive sample rate. The host enforces that knob range; outside it the code would index past its tables.
- Tape.TapeEngine.ProcessBlock: requires the IPS index in 0..2 (the knob's range); outside it the code would index past the head table.
- Utils.MapMeter: requires min < max. Both callers pass constant ranges (0..12 and 0..1); with min = max the code divides by zero.
- Tape.TapeHead: its bound on the output is stated at sample index 0 only. At later indices the head bump and the HF roll-off (both numeric) are added and scaled.
- Compressor.Detect: in mid/side mode the mid and side levels are bounded, but no bound is stated on the decoded left/right output. Decoding adds and subtracts the scaled mid and side, so each output channel can exceed its input even though neither gain exceeds 1.

## Findings

| source | as written | input that shows it | evidently intended | confidence | as-written member | corrected member |
|---|---|---|---|---|---|---|
| LUNA_MU_Utils.js:76-80 | `onePoleHP` returns `alpha * (last + x - last)`, in which `last` cancels, so the "high-pass" is a plain gain `alpha·x` that passes DC | a constant input 1.0 with alpha 0.5 gives 0.5 at every step, whatever `last` is | a one-pole high-pass remembering its previous input and output, `alpha·(prevOut + x − prevIn)`, as the compressor's sidechain filter writes inline; a held input then decays as alphaⁿ | high; not executed | `Utils.OnePoleHP`, `Utils.OnePoleHPPassesDC` | `Utils.HighPassStep`, `Utils.HighPassBlocksDC` (used by `Compressor.Sidechain`) |
