/**
 * The Neve 542-style tape script: the shared tape engine with the Neve head
 * table, a replay drop of 25 % at full saturation, drive 1.1 + 3.2 * sat and a
 * soft-clip shoulder of 0.25.
 */
module TapeNeve {
  import opened Transcendental
  import opened Utils
  import opened Telemetry
  import opened Tape

  /** Head table for 7.5, 15 and 30 IPS. */
  const NeveHeads: seq<HeadSpec> := [
    HeadSpec(45.0, 3.8, 10000.0, 1.25, 1.2, 1.6),
    HeadSpec(60.0, 2.7, 17000.0, 1.18, 1.2, 1.6),
    HeadSpec(120.0, 1.7, 22000.0, 1.12, 1.2, 1.6)
  ]

  const Neve: Machine := Machine(NeveHeads, 0.25, 1.1, 3.2, 0.25)

  lemma NeveOk()
    ensures MachineOk(Neve)
  {
  }

  /** For saturation 0..100 the replay gain stays in [0.75, 1], and it never rises with saturation. */
  lemma NeveCoupling(sat1: real, sat2: real)
    requires 0.0 <= sat1 <= sat2 <= 100.0
    ensures 0.75 <= RecReplayCouple(Neve, SatNorm(sat1)) <= 1.0
    ensures 0.75 <= RecReplayCouple(Neve, SatNorm(sat2)) <= 1.0
    ensures RecReplayCouple(Neve, SatNorm(sat2)) <= RecReplayCouple(Neve, SatNorm(sat1))
  {
    CoupleNonIncreasing(Neve, SatNorm(sat1), SatNorm(sat2));
  }

  /** The Neve soft clip never exceeds 1.6 + 0.25 in magnitude, at any speed. */
  lemma NeveSoftClipCeiling(m: Math, ips: int, p: real)
    requires 0 <= ips < 3
    ensures Abs(HeadSoftClip(m, Neve.heads[ips].headSoftClip, Neve.clipSlope, p)) < 1.85
  {
  }

  /** The gain in front of the Neve soft clip is at least 1.1 for saturation 0..100, at any speed. */
  lemma NevePreSatGain(ips: int, sat: real)
    requires 0 <= ips < 3 && 0.0 <= sat <= 100.0
    ensures Drive(Neve, SatNorm(sat)) * LfComp(Neve.heads[ips], SatNorm(sat)) >= 1.1
  {
    PreSatGainAtLeastBase(Neve, Neve.heads[ips], SatNorm(sat));
  }

  /** A fresh Neve tape script: nothing published yet. */
  method NewNeveEngine(m: Math) returns (e: TapeEngine)
    ensures fresh(e) && e.Valid()
    ensures e.math == m && e.machine == Neve && e.meters == NoTapeMeters
  {
    e := new TapeEngine(m, Neve);
  }
}
