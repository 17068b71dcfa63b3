/**
 * The values the two audio processors publish once per block and the meter
 * reads back. The host passes them by name between scripts; here they are
 * plain records.
 */
module Telemetry {

  /** Comp_GR_Left, Comp_GR_Right, Comp_GR_Mid, Comp_GR_Side and Comp_Mode. */
  datatype CompMeters = CompMeters(grLeft: real, grRight: real, grMid: real, grSide: real, mode: int)

  /** Tape_Drive_Left/Right and Tape_Level_Left/Right: per-block peaks. */
  datatype TapeMeters = TapeMeters(driveLeft: real, driveRight: real, levelLeft: real, levelRight: real)

  /** What a meter reads before anything has been published. */
  const NoCompMeters := CompMeters(0.0, 0.0, 0.0, 0.0, 0)
  const NoTapeMeters := TapeMeters(0.0, 0.0, 0.0, 0.0)
}
