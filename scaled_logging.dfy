/**
 * The logging wrapper of the plain warehouse product: five subtask flags raised by the
 * machine configuration after each step and never cleared, `reset` included.
 */
module WarehouseLogging {
  /** above_complete, grasp_complete, grip_complete, release_complete, drop_complete. */
  datatype StageFlags = StageFlags(above: bool, grasp: bool, grip: bool, release: bool, drop: bool)

  /** `_update_subtask_info` for configuration (u, c): states 4, 3, 2 and 1 raise above, grasp,
      grip and release, and the counters exactly (0,) raise drop. */
  function StageUpdate(f: StageFlags, u: int, c: seq<int>): StageFlags {
    var f1 :=
      match u
      case 4 => f.(above := true)
      case 3 => f.(grasp := true)
      case 2 => f.(grip := true)
      case 1 => f.(release := true)
      case _ => f;
    if c == [0] then f1.(drop := true) else f1
  }

  /** Each flag is true after an update exactly when it was before or the configuration is its
      own; no flag is ever cleared. */
  lemma StageUpdateExact(f: StageFlags, u: int, c: seq<int>)
    ensures StageUpdate(f, u, c).above <==> f.above || u == 4
    ensures StageUpdate(f, u, c).grasp <==> f.grasp || u == 3
    ensures StageUpdate(f, u, c).grip <==> f.grip || u == 2
    ensures StageUpdate(f, u, c).release <==> f.release || u == 1
    ensures StageUpdate(f, u, c).drop <==> f.drop || c == [0]
  {
  }

  /** A state outside 1..4 with counters other than (0,) changes nothing. */
  lemma OtherStatesKeepFlags(f: StageFlags, u: int, c: seq<int>)
    requires !(1 <= u <= 4) && c != [0]
    ensures StageUpdate(f, u, c) == f
  {
  }

  /** Updating twice with the same configuration is updating once. */
  lemma {:induction false} StageUpdateIdempotent(f: StageFlags, u: int, c: seq<int>)
    ensures StageUpdate(StageUpdate(f, u, c), u, c) == StageUpdate(f, u, c)
  {
    StageUpdateExact(f, u, c);
    StageUpdateExact(StageUpdate(f, u, c), u, c);
  }

  function FlagInt(b: bool): (r: int)
    ensures r == 0 || r == 1
    ensures r == 1 <==> b
  {
    if b then 1 else 0
  }

  /** `_get_subtask_info`: each flag as 0 or 1. */
  function StageInfo(f: StageFlags): (r: map<string, int>)
    ensures r.Keys == {"above_complete", "grasp_complete", "grip_complete", "release_complete", "drop_complete"}
    ensures forall k :: k in r ==> r[k] == 0 || r[k] == 1
    ensures r["above_complete"] == 1 <==> f.above
    ensures r["grasp_complete"] == 1 <==> f.grasp
    ensures r["grip_complete"] == 1 <==> f.grip
    ensures r["release_complete"] == 1 <==> f.release
    ensures r["drop_complete"] == 1 <==> f.drop
  {
    map["above_complete" := FlagInt(f.above), "grasp_complete" := FlagInt(f.grasp),
        "grip_complete" := FlagInt(f.grip), "release_complete" := FlagInt(f.release),
        "drop_complete" := FlagInt(f.drop)]
  }

  /** `LoggingWrapper`: five flags. */
  class LoggingWrapper {
    var aboveComplete: bool
    var graspComplete: bool
    var gripComplete: bool
    var releaseComplete: bool
    var dropComplete: bool

    function Flags(): StageFlags
      reads this
    {
      StageFlags(aboveComplete, graspComplete, gripComplete, releaseComplete, dropComplete)
    }

    /** `__init__`: every flag false. */
    constructor ()
      ensures Flags() == StageFlags(false, false, false, false, false)
    {
      aboveComplete, graspComplete, gripComplete, releaseComplete, dropComplete := false, false, false, false, false;
    }

    /** `reset`: the product resets, the flags stay as they are. */
    method Reset() returns (info: map<string, int>)
      ensures info == StageInfo(Flags())
    {
      info := StageInfo(Flags());
    }

    /** `step`: raises the flags the product's configuration (u, c) after its step matches. */
    method Step(u: int, c: seq<int>) returns (info: map<string, int>)
      modifies this
      ensures Flags() == StageUpdate(old(Flags()), u, c)
      ensures info == StageInfo(Flags())
    {
      if u == 4 {
        aboveComplete := true;
      } else if u == 3 {
        graspComplete := true;
      } else if u == 2 {
        gripComplete := true;
      } else if u == 1 {
        releaseComplete := true;
      }
      if c == [0] {
        dropComplete := true;
      }
      info := StageInfo(Flags());
    }
  }
}
