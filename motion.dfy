// Commands the control core sends to the Romi chassis (the motion service).
// The chassis itself (kinematics, motor PID, encoder odometry) is not part of
// this model: a command is recorded, in order, instead of being executed.
module Motion {

  datatype Command =
    | Idle                                               // chassis.idle(): stop without locking the wheels
    | DriveFor(distance: real, speed: real, blocking: bool)
    | TurnFor(angle: real, rate: real, blocking: bool)
    | MoveArch(radius: real, speed: real, blocking: bool)
}
