/**
 * The Studer A827-style tape script: the same engine and transformers as the
 * Neve script, with the Studer head table, a replay drop of 8 % at full
 * saturation, drive 1.04 + 1.8 * sat and a soft-clip shoulder of 0.18.
 */
module TapeStuder {
  import opened Transcendental
  import opened Utils
  import opened Telemetry
  import opened Tape

  /** Head table for 7.5, 15 and 30 IPS. */
  const StuderHeads: seq<HeadSpec> := [
    HeadSpec(38.0, 0.6, 18000.0, 1.06, 1.1, 1.4),
    HeadSpec(48.0, 0.4, 20000.0, 1.04, 1.1, 1.4),
    HeadSpec(70.0, 0.2, 22000.0, 1.02, 1.1, 1.4)
  ]

  const Studer: Machine := Machine(StuderHeads, 0.08, 1.04, 1.8, 0.18)

  lemma StuderOk()
    ensures MachineOk(Studer)
  {
  }

  /** For saturation 0..100 the replay gain stays in [0.92, 1], and it never rises with saturation. */
  lemma StuderCoupling(sat1: real, sat2: real)
    requires 0.0 <= sat1 <= sat2 <= 100.0
    ensures 0.92 <= RecReplayCouple(Studer, SatNorm(sat1)) <= 1.0
    ensures 0.92 <= RecReplayCouple(Studer, SatNorm(sat2)) <= 1.0
    ensures RecReplayCouple(Studer, SatNorm(sat2)) <= RecReplayCouple(Studer, SatNorm(sat1))
  {
    CoupleNonIncreasing(Studer, SatNorm(sat1), SatNorm(sat2));
  }

  /** The Studer soft clip never exceeds 1.4 + 0.18 in magnitude, and above its threshold keeps the sign of its input. */
  lemma StuderSoftClipCeiling(m: Math, ips: int, p: real)
    requires 0 <= ips < 3
    ensures Abs(HeadSoftClip(m, Studer.heads[ips].headSoftClip, Studer.clipSlope, p)) < 1.58
    ensures Abs(p) >= 1.4 ==> (HeadSoftClip(m, Studer.heads[ips].headSoftClip, Studer.clipSlope, p) >= 0.0 <==> p >= 0.0)
  {
  }

  /** Pre-saturation gain `(1.04 + 1.8 * satNorm) * lfComp`, with lfComp between 1 and the head's lfCompMax. */
  lemma StuderPreSatGain(ips: int, sat: real)
    requires 0 <= ips < 3 && 0.0 <= sat <= 100.0
    ensures Drive(Studer, SatNorm(sat)) == 1.04 + 1.8 * SatNorm(sat)
    ensures 1.0 <= LfComp(Studer.heads[ips], SatNorm(sat)) <= Studer.heads[ips].lfCompMax
    ensures Drive(Studer, SatNorm(sat)) * LfComp(Studer.heads[ips], SatNorm(sat)) >= 1.04
  {
    PreSatGainAtLeastBase(Studer, Studer.heads[ips], SatNorm(sat));
  }

  /** A fresh Studer tape script: nothing published yet. */
  method NewStuderEngine(m: Math) returns (e: TapeEngine)
    ensures fresh(e) && e.Valid()
    ensures e.math == m && e.machine == Studer && e.meters == NoTapeMeters
  {
    e := new TapeEngine(m, Studer);
  }
}
