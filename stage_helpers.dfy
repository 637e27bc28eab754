/*
  The stage factories of the warehouse machines: `create_above_block_stage`,
  `create_grip_stage` and `create_release_position_stage`.  Each returns the list of
  transitions one stage of a block module contributes: its formulas are "<wff> / <cs>",
  they all start at `current_state`, and exactly one of them (the success transition)
  moves to `success_state`.

  A Python call that leaves out a required parameter, or passes a keyword the function
  does not declare, raises `TypeError` before the body runs.  The factories differ here:
  the above stage demands the two counter modifiers, the grip and release stages accept
  none.  `Option<Modifiers>` records whether a call passes them.
*/
module StageHelpers {
  import opened Wrappers
  import opened Compiler
  import opened Blocks

  /** What a reward factory builds; the waypoint is named by its constant in `cw`. */
  datatype RewardKind =
    | ConstantReward(value: int)
    | WaypointReward(waypoint: string)
    | PenaltyWaypointReward(waypoint: string, penalty: int)

  /** A `RewardFunction` with the intercept the machines may overwrite afterwards. */
  datatype Reward = Reward(kind: RewardKind, intercept: int)

  /** The `Transition` dataclass. */
  datatype Transition = Transition(formula: string, current: int, next: int, modifier: seq<int>, reward: Reward)

  /** The two keyword arguments `remain_counter_modifier` and `progress_counter_modifier`. */
  datatype Modifiers = Modifiers(remain: seq<int>, progress: seq<int>)

  datatype CallError =
    | MissingModifiers          // TypeError: required argument not given
    | UnexpectedModifiers       // TypeError: unexpected keyword argument
    | InvalidColour(colour: string)  // ValueError from the colour check

  /** The colours the factories know a waypoint for. */
  predicate StageColour(colour: string) {
    colour == "RED" || colour == "GREEN" || colour == "BLUE"
  }

  /** A freshly created reward function: `_intercept` is 0. */
  function Made(kind: RewardKind): (r: Reward)
    ensures r.kind == kind && r.intercept == 0
  {
    Reward(kind, 0)
  }

  /** Stage `k` of `Blocks`: above is 0, grip 2, release 3. */
  predicate Shaped(ts: seq<Transition>, k: nat, colour: string, cs: string, current: int, success: int)
    requires k < 5
  {
    |ts| == |StageTexts(k, colour)|
    && forall j :: 0 <= j < |ts| ==>
         ts[j].formula == Row(StageTexts(k, colour)[j], cs) && ts[j].current == current
         && ts[j].next == (if j == ExitIndex(k) then success else current)
  }

  function AboveStage(colour: string, cs: string, current: int, success: int, mods: Option<Modifiers>)
    : (r: Result<seq<Transition>, CallError>)
    ensures mods.None? ==> r == Err(MissingModifiers)
    ensures mods.Some? && !StageColour(colour) ==> r == Err(InvalidColour(colour))
    ensures r.Ok? <==> mods.Some? && StageColour(colour)
    ensures r.Ok? ==> Shaped(r.value, 0, colour, cs, current, success)
    ensures r.Ok? ==> forall j :: 0 <= j < |r.value| ==>
              r.value[j].modifier == (if j == 1 then mods.value.progress else mods.value.remain)
              && r.value[j].reward.intercept == 0
  {
    if mods.None? then Err(MissingModifiers)
    else if !StageColour(colour) then Err(InvalidColour(colour))
    else
      var ts := StageTexts(0, colour);
      var m := mods.value;
      Ok([Transition(Row(ts[0], cs), current, current, m.remain, Made(ConstantReward(-1))),
          Transition(Row(ts[1], cs), current, success, m.progress, Made(ConstantReward(100))),
          Transition(Row(ts[2], cs), current, current, m.remain, Made(WaypointReward("ABOVE_" + colour)))])
  }

  function GripStage(colour: string, cs: string, current: int, success: int, mods: Option<Modifiers>)
    : (r: Result<seq<Transition>, CallError>)
    ensures mods.Some? ==> r == Err(UnexpectedModifiers)
    ensures mods.None? && !StageColour(colour) ==> r == Err(InvalidColour(colour))
    ensures r.Ok? <==> mods.None? && StageColour(colour)
    ensures r.Ok? ==> Shaped(r.value, 2, colour, cs, current, success)
    ensures r.Ok? ==> forall j :: 0 <= j < |r.value| ==> r.value[j].modifier == [0] && r.value[j].reward.intercept == 0
  {
    if mods.Some? then Err(UnexpectedModifiers)
    else if !StageColour(colour) then Err(InvalidColour(colour))
    else
      var ts := StageTexts(2, colour);
      var waypoint := "GRASP_" + colour;
      Ok([Transition(Row(ts[0], cs), current, current, [0], Made(ConstantReward(-1))),
          Transition(Row(ts[1], cs), current, current, [0], Made(PenaltyWaypointReward(waypoint, -1))),
          Transition(Row(ts[2], cs), current, success, [0], Made(ConstantReward(100))),
          Transition(Row(ts[3], cs), current, current, [0], Made(WaypointReward(waypoint)))])
  }

  function ReleaseStage(colour: string, cs: string, current: int, success: int, mods: Option<Modifiers>)
    : (r: Result<seq<Transition>, CallError>)
    ensures mods.Some? ==> r == Err(UnexpectedModifiers)
    ensures mods.None? && !StageColour(colour) ==> r == Err(InvalidColour(colour))
    ensures r.Ok? <==> mods.None? && StageColour(colour)
    ensures r.Ok? ==> Shaped(r.value, 3, colour, cs, current, success)
    ensures r.Ok? ==> forall j :: 0 <= j < |r.value| ==> r.value[j].modifier == [0] && r.value[j].reward.intercept == 0
  {
    if mods.Some? then Err(UnexpectedModifiers)
    else if !StageColour(colour) then Err(InvalidColour(colour))
    else
      var ts := StageTexts(3, colour);
      var waypoint := "RELEASE_" + colour;
      Ok([Transition(Row(ts[0], cs), current, current, [0], Made(ConstantReward(-1))),
          Transition(Row(ts[1], cs), current, current, [0], Made(PenaltyWaypointReward(waypoint, -1))),
          Transition(Row(ts[2], cs), current, success, [0], Made(ConstantReward(500))),
          Transition(Row(ts[3], cs), current, current, [0], Made(WaypointReward(waypoint)))])
  }

  // ---------------------------------------------------------------------------------------
  // What a stage means once its formulas are compiled.

  lemma StageColourIsColour(colour: string)
    requires StageColour(colour)
    ensures IsColour(colour)
  {
  }

  /** Every formula of a stage compiles to the guard "stage formula j, counter pattern p". */
  lemma ShapedCompiles(ts: seq<Transition>, k: nat, colour: string, cs: string, p: seq<CounterTest>, current: int, success: int)
    requires k < 5 && Shaped(ts, k, colour, cs, current, success)
    requires StageColour(colour) && |p| >= 1 && SpacedListing(cs, p)
    ensures forall j :: 0 <= j < |ts| ==> Compile(ts[j].formula) == Ok(Guard(StageFormulas(k, colour)[j], p))
  {
    StageColourIsColour(colour);
    StageCompiles(k, colour, cs, p);
  }

  /** The guards of a stage are enabled exactly when the counters match the stage's pattern:
      if they match, some transition applies whatever the events; if not, none does. */
  lemma ShapedCovers(ts: seq<Transition>, k: nat, colour: string, cs: string, p: seq<CounterTest>,
                     current: int, success: int, events: set<string>, counters: seq<int>)
    requires k < 5 && Shaped(ts, k, colour, cs, current, success)
    requires StageColour(colour) && |p| >= 1 && SpacedListing(cs, p)
    ensures Matches(p, counters) <==>
            exists j, g :: 0 <= j < |ts| && Compile(ts[j].formula) == Ok(g) && GuardHolds(g, events, counters)
  {
    ShapedCompiles(ts, k, colour, cs, p, current, success);
    if Matches(p, counters) {
      StageCovers(k, colour, events);
      var j :| 0 <= j < |StageFormulas(k, colour)| && Holds(StageFormulas(k, colour)[j], events);
      assert GuardHolds(Guard(StageFormulas(k, colour)[j], p), events, counters);
    }
  }

  /** The success transition is the only one that leaves the current state. */
  lemma ShapedExit(ts: seq<Transition>, k: nat, colour: string, cs: string, current: int, success: int)
    requires k < 5 && Shaped(ts, k, colour, cs, current, success) && success != current
    ensures forall j :: 0 <= j < |ts| ==> (ts[j].next != current <==> j == ExitIndex(k))
    ensures ExitIndex(k) < |ts| && ts[ExitIndex(k)].next == success
  {
  }
}
