/** The tuning constants of the runner (view size, world physics, player box). */
module Constants {

  const ViewWidth: real := 1000.0
  const ViewHeight: real := 360.0

  const Gravity: real := 3000.0
  const GroundY: real := 270.0
  const BaseSpeed: real := 220.0
  const MaxRunSpeed: real := 360.0
  const Accel: real := 3000.0
  const Friction: real := 0.85
  const JumpVel: real := 980.0
  const MaxFallSpeed: real := 1800.0
  const CoyoteTime: real := 0.1
  const JumpBuffer: real := 0.12

  const PlayerW: real := 44.0
  const PlayerH: real := 48.0

  /** The host loop clamps the frame time to this many seconds. */
  const MaxDt: real := 0.032
}
