/**
 * The hand-written policies that drive the warehouse machines: each machine state selects a
 * waypoint for the end effector and a gripper command, and a state outside the machine is an
 * error. The waypoint coordinates live in the ground environment's constants and are kept
 * here by name.
 */
module Waypoints {
  /** Where the end effector is sent: a fixed point, or one of the named waypoints above,
      at the grasp height of, or over the release spot of a block. */
  datatype Waypoint = Point(x: real, y: real, z: real)
    | AboveRed | GraspRed | ReleaseRed | AboveGreen | GraspGreen | ReleaseGreen

  /** The point the arm lifts to in the initial state: `[0.0, 0.0, 0.1]`. */
  const Lift: Waypoint := Point(0.0, 0.0, 0.1)

  /** The gripper commands: -1.0 closes the gripper, 1.0 opens it. */
  const Close: real := -1.0
  const Open: real := 1.0

  /** `ValueError(f"Invalid state {u}")`. */
  datatype ManualError = InvalidState(u: int)

  /** The same waypoint for the green block in place of the red one. */
  function ToGreen(w: Waypoint): Waypoint {
    match w
    case AboveRed => AboveGreen
    case GraspRed => GraspGreen
    case ReleaseRed => ReleaseGreen
    case _ => w
  }
}

/** The policy for the context-free machine, which moves the red block (states 10 to 6) and
    then the green block (states 5 to 1) and ends in state 0. */
module ContextFreeManual {
  import opened Wrappers
  import opened Waypoints

  /** `resolve_current_waypoint`. */
  function ResolveCurrentWaypoint(u: int): Result<Waypoint, ManualError> {
    match u
    case 0 => Ok(Lift)
    case 10 => Ok(AboveRed)
    case 9 | 8 => Ok(GraspRed)
    case 7 | 6 => Ok(ReleaseRed)
    case 5 => Ok(AboveGreen)
    case 4 | 3 => Ok(GraspGreen)
    case 2 | 1 => Ok(ReleaseGreen)
    case _ => Err(InvalidState(u))
  }

  /** `resolve_gripper_state`. */
  function ResolveGripperState(u: int): Result<real, ManualError> {
    match u
    case 0 | 2 | 3 | 7 | 8 => Ok(Close)
    case 4 | 5 | 1 | 10 | 9 | 6 => Ok(Open)
    case _ => Err(InvalidState(u))
  }

  /** Both lookups are defined on the states 0 to 10 and on nothing else, and reject any other
      state with an error naming it. */
  lemma SameDomain(u: int)
    ensures ResolveCurrentWaypoint(u).Ok? <==> 0 <= u <= 10
    ensures ResolveGripperState(u).Ok? <==> 0 <= u <= 10
    ensures ResolveCurrentWaypoint(u).Err? ==> ResolveCurrentWaypoint(u).error == InvalidState(u)
    ensures ResolveGripperState(u).Err? ==> ResolveGripperState(u).error == InvalidState(u)
  {
  }

  /** The gripper closes in states 0, 2, 3, 7 and 8 and opens in 1, 4, 5, 6, 9 and 10. */
  lemma GripperCommands(u: int)
    ensures ResolveGripperState(u) == Ok(Close) <==> u in {0, 2, 3, 7, 8}
    ensures ResolveGripperState(u) == Ok(Open) <==> u in {1, 4, 5, 6, 9, 10}
  {
  }

  /** The states that share a waypoint: 9 and 8 grasp red, 7 and 6 release red, 4 and 3 grasp
      green, 2 and 1 release green. Two different states get the same waypoint exactly when
      they are one of these pairs. */
  predicate SharedPair(u: int, v: int) {
    (u == 9 && v == 8) || (u == 7 && v == 6) || (u == 4 && v == 3) || (u == 2 && v == 1)
  }

  /** Two different states get the same waypoint exactly when they form one of the pairs. */
  lemma SharedWaypoints(u: int, v: int)
    requires ResolveCurrentWaypoint(u).Ok? && ResolveCurrentWaypoint(v).Ok? && u != v
    ensures ResolveCurrentWaypoint(u) == ResolveCurrentWaypoint(v) <==> SharedPair(u, v) || SharedPair(v, u)
  {
  }

  /** Within a pair sharing a waypoint the gripper command changes: at a grasp waypoint the
      gripper arrives open and closes, at a release waypoint it arrives closed and opens. */
  lemma PairsSwitchGripper(u: int, v: int)
    requires SharedPair(u, v)
    ensures ResolveGripperState(u).Ok? && ResolveGripperState(v).Ok?
    ensures ResolveGripperState(u) != ResolveGripperState(v)
    ensures ResolveCurrentWaypoint(u) in {Ok(GraspRed), Ok(GraspGreen)} ==>
      ResolveGripperState(u) == Ok(Open) && ResolveGripperState(v) == Ok(Close)
    ensures ResolveCurrentWaypoint(u) in {Ok(ReleaseRed), Ok(ReleaseGreen)} ==>
      ResolveGripperState(u) == Ok(Close) && ResolveGripperState(v) == Ok(Open)
  {
  }

  /** The green block's states 1 to 5 are driven like the red block's states 6 to 10, with the
      green waypoints in place of the red ones. */
  lemma GreenLikeRed(u: int)
    requires 1 <= u <= 5
    ensures ResolveCurrentWaypoint(u).Ok? && ResolveCurrentWaypoint(u + 5).Ok?
    ensures ResolveCurrentWaypoint(u).value == ToGreen(ResolveCurrentWaypoint(u + 5).value)
    ensures ResolveGripperState(u) == ResolveGripperState(u + 5)
  {
  }
}

/** The policy for the single-block machine, which moves the red block (states 5 to 1) and ends
    in state 0. */
module WarehouseManual {
  import opened Wrappers
  import opened Waypoints
  import ContextFreeManual

  /** `resolve_current_waypoint`. */
  function ResolveCurrentWaypoint(u: int): Result<Waypoint, ManualError> {
    match u
    case 0 => Ok(Lift)
    case 5 => Ok(AboveRed)
    case 4 | 3 => Ok(GraspRed)
    case 2 | 1 => Ok(ReleaseRed)
    case _ => Err(InvalidState(u))
  }

  /** `resolve_gripper_state`. */
  function ResolveGripperState(u: int): Result<real, ManualError> {
    match u
    case 0 | 2 | 3 => Ok(Close)
    case 4 | 5 | 1 => Ok(Open)
    case _ => Err(InvalidState(u))
  }

  /** Both lookups are defined on the states 0 to 5 and on nothing else, and reject any other
      state with an error naming it. */
  lemma SameDomain(u: int)
    ensures ResolveCurrentWaypoint(u).Ok? <==> 0 <= u <= 5
    ensures ResolveGripperState(u).Ok? <==> 0 <= u <= 5
    ensures ResolveCurrentWaypoint(u).Err? ==> ResolveCurrentWaypoint(u).error == InvalidState(u)
    ensures ResolveGripperState(u).Err? ==> ResolveGripperState(u).error == InvalidState(u)
  {
  }

  /** State 0 lifts to the fixed point, 5 goes above the red block, 4 and 3 to its grasp
      height and 2 and 1 over its release spot. */
  lemma WaypointTable(u: int)
    ensures ResolveCurrentWaypoint(u) == Ok(Lift) <==> u == 0
    ensures ResolveCurrentWaypoint(u) == Ok(AboveRed) <==> u == 5
    ensures ResolveCurrentWaypoint(u) == Ok(GraspRed) <==> u == 4 || u == 3
    ensures ResolveCurrentWaypoint(u) == Ok(ReleaseRed) <==> u == 2 || u == 1
  {
  }

  /** The gripper closes in states 0, 2 and 3 and opens in 1, 4 and 5. */
  lemma GripperCommands(u: int)
    ensures ResolveGripperState(u) == Ok(Close) <==> u in {0, 2, 3}
    ensures ResolveGripperState(u) == Ok(Open) <==> u in {1, 4, 5}
  {
  }

  /** The single block is driven as the context-free policy drives the red block: state u
      here is state u + 5 there. */
  lemma RedModuleAgrees(u: int)
    requires 1 <= u <= 5
    ensures ResolveCurrentWaypoint(u) == ContextFreeManual.ResolveCurrentWaypoint(u + 5)
    ensures ResolveGripperState(u) == ContextFreeManual.ResolveGripperState(u + 5)
  {
  }
}
