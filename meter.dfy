/**
 * The meter script: once per block it reads the compressor's and the tape
 * script's published values and turns them into frame numbers of the 9-frame
 * needle and drive/level strips.
 */
module Meter {
  import opened Utils
  import opened Telemetry

  /** The six frame numbers the meter publishes. */
  datatype MeterFrames = MeterFrames(needleLeft: int, needleRight: int,
                                     driveLeft: int, driveRight: int,
                                     levelLeft: int, levelRight: int)

  /** A needle frame from a published dB value: 0 at 0 dB or above, 8 at -12 dB or below. */
  function NeedleFrame(gr: real): (f: int)
    ensures 0 <= f <= 8
    ensures gr >= 0.0 ==> f == 0
    ensures gr <= -12.0 ==> f == 8
  {
    MapMeter(-gr, 0.0, 12.0, 9)
  }

  /** A lower published value never moves the needle back. */
  lemma NeedleMonotone(gr1: real, gr2: real)
    requires gr1 <= gr2
    ensures NeedleFrame(gr2) <= NeedleFrame(gr1)
  {
    MapMeterMonotone(-gr2, -gr1, 0.0, 12.0, 9);
  }

  /** A drive or level strip frame from a linear peak: 0 at 0 or below, 8 at 1 or above. */
  function StripFrame(v: real): (f: int)
    ensures 0 <= f <= 8
    ensures v <= 0.0 ==> f == 0
    ensures v >= 1.0 ==> f == 8
  {
    MapMeter(v, 0.0, 1.0, 9)
  }

  /** A higher peak never lowers the strip. */
  lemma StripMonotone(v1: real, v2: real)
    requires v1 <= v2
    ensures StripFrame(v1) <= StripFrame(v2)
  {
    MapMeterMonotone(v1, v2, 0.0, 1.0, 9);
  }

  /**
   * processBlock: in mode 0 the needles follow Comp_GR_Left/Right, in any
   * other mode Comp_GR_Mid/Side; the four strips follow the tape peaks. Every
   * frame is in [0, 8].
   */
  function Frames(c: CompMeters, t: TapeMeters): (f: MeterFrames)
    ensures 0 <= f.needleLeft <= 8 && 0 <= f.needleRight <= 8
    ensures 0 <= f.driveLeft <= 8 && 0 <= f.driveRight <= 8
    ensures 0 <= f.levelLeft <= 8 && 0 <= f.levelRight <= 8
    ensures c.mode == 0 ==> f.needleLeft == NeedleFrame(c.grLeft) && f.needleRight == NeedleFrame(c.grRight)
    ensures c.mode != 0 ==> f.needleLeft == NeedleFrame(c.grMid) && f.needleRight == NeedleFrame(c.grSide)
    ensures f.driveLeft == StripFrame(t.driveLeft) && f.driveRight == StripFrame(t.driveRight)
    ensures f.levelLeft == StripFrame(t.levelLeft) && f.levelRight == StripFrame(t.levelRight)
  {
    var needleL := if c.mode == 0 then NeedleFrame(c.grLeft) else NeedleFrame(c.grMid);
    var needleR := if c.mode == 0 then NeedleFrame(c.grRight) else NeedleFrame(c.grSide);
    MeterFrames(needleL, needleR,
                StripFrame(t.driveLeft), StripFrame(t.driveRight),
                StripFrame(t.levelLeft), StripFrame(t.levelRight))
  }

  /** Before anything is published every needle and strip rests at frame 0. */
  lemma RestingFrames()
    ensures Frames(NoCompMeters, NoTapeMeters) == MeterFrames(0, 0, 0, 0, 0, 0)
  {
  }
}
