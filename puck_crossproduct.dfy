/**
 * The Puck World cross product and its logging wrapper. The product's observation is the
 * 12-entry ground observation followed by the machine state and the three counters; an ending
 * step reports success unless the step budget ran out. The wrapper keeps three subtask flags
 * that the machine configuration after each step raises and `reset` clears.
 */
module PuckCrossProduct {
  import opened Wrappers
  import opened CrossProducts

  /** `_get_obs`: ground ++ [u, *c]. */
  function PuckObs(g: seq<int>, u: int, c: seq<int>): seq<int> {
    g + [u] + c
  }

  /** `to_ground_obs`: the 12 ground entries. */
  function PuckGround(obs: seq<int>): seq<int> {
    Take(obs, 12)
  }

  /** A 12-long ground observation comes back out of the product observation. */
  lemma PuckGroundInverse(g: seq<int>, u: int, c: seq<int>)
    requires |g| == 12
    ensures PuckGround(PuckObs(g, u, c)) == g
  {
    assert PuckObs(g, u, c)[..12] == g;
  }

  /** The declared length 16 is 12 ground entries, the state and three counters. */
  lemma PuckObsLength(g: seq<int>, u: int, c: seq<int>)
    requires |g| == 12
    ensures |PuckObs(g, u, c)| == 16 <==> |c| == 3
  {
  }

  /** Different configurations give different observations: ground, state and counters can all
      be read back. */
  lemma PuckObsInjective(g: seq<int>, u: int, c: seq<int>, g': seq<int>, u': int, c': seq<int>)
    requires |g| == 12 && |g'| == 12
    requires PuckObs(g, u, c) == PuckObs(g', u', c')
    ensures g == g' && u == u' && c == c'
  {
    var obs := PuckObs(g, u, c);
    assert obs[..12] == g && PuckObs(g', u', c')[..12] == g';
    assert obs[12] == u && PuckObs(g', u', c')[12] == u';
    assert obs[13..] == c && PuckObs(g', u', c')[13..] == c';
  }

  /** `info["success"]` after a step: false when the step budget ran out, true otherwise, and
      no entry on a step that does not end the episode. */
  function SuccessInfo(terminated: bool, truncated: bool, steps: int, maxSteps: int): Option<bool> {
    if terminated || truncated then Some(!(steps >= maxSteps)) else None
  }

  /** With the step's truncation rule (truncated iff steps >= max_steps), success is reported
      exactly for the episodes that end within the budget and failure for the rest. */
  lemma SuccessWithinBudget(terminated: bool, steps: int, maxSteps: int)
    ensures SuccessInfo(terminated, steps >= maxSteps, steps, maxSteps) == Some(true) <==> terminated && steps < maxSteps
    ensures SuccessInfo(terminated, steps >= maxSteps, steps, maxSteps) == Some(false) <==> steps >= maxSteps
    ensures SuccessInfo(terminated, steps >= maxSteps, steps, maxSteps) == None <==> !terminated && steps < maxSteps
  {
  }

  // ---------------------------------------------------------------------------------------
  // The logging wrapper.

  /** The three subtask flags t_1_1, t_1_2 and t_1_3. */
  datatype PuckFlags = PuckFlags(t11: bool, t12: bool, t13: bool)

  /** `_update_subtask_info` for configuration (u, c): state 3 with the first counter at zero
      raises t_1_1, state 0 with it at zero raises t_1_2 and at one raises t_1_3. The first
      counter is read only in states 0 and 3. */
  function PuckUpdate(f: PuckFlags, u: int, c: seq<int>): PuckFlags
    requires (u == 0 || u == 3) ==> |c| >= 1
  {
    var f1 := if u == 3 && c[0] == 0 then f.(t11 := true) else f;
    var f2 := if u == 0 && c[0] == 0 then f1.(t12 := true) else f1;
    if u == 0 && c[0] == 1 then f2.(t13 := true) else f2
  }

  /** Flags only go from false to true. */
  lemma PuckUpdateMonotone(f: PuckFlags, u: int, c: seq<int>)
    requires (u == 0 || u == 3) ==> |c| >= 1
    ensures f.t11 ==> PuckUpdate(f, u, c).t11
    ensures f.t12 ==> PuckUpdate(f, u, c).t12
    ensures f.t13 ==> PuckUpdate(f, u, c).t13
  {
  }

  /** Each flag is true after an update exactly when it was before or its configuration is the
      current one, so one update raises at most one flag. */
  lemma PuckUpdateExact(f: PuckFlags, u: int, c: seq<int>)
    requires (u == 0 || u == 3) ==> |c| >= 1
    ensures PuckUpdate(f, u, c).t11 <==> f.t11 || (u == 3 && c[0] == 0)
    ensures PuckUpdate(f, u, c).t12 <==> f.t12 || (u == 0 && c[0] == 0)
    ensures PuckUpdate(f, u, c).t13 <==> f.t13 || (u == 0 && c[0] == 1)
  {
  }

  /** The info entry of a flag: 1 when it is raised, 0 when not. */
  function FlagInt(b: bool): (r: int)
    ensures r == 0 || r == 1
    ensures r == 1 <==> b
  {
    if b then 1 else 0
  }

  /** `_get_subtask_info`. */
  function PuckInfo(f: PuckFlags): (r: map<string, int>)
    ensures r.Keys == {"subtask/t_1_1_complete", "subtask/t_1_2_complete", "subtask/t_1_3_complete"}
    ensures forall k :: k in r ==> r[k] == 0 || r[k] == 1
    ensures r["subtask/t_1_1_complete"] == 1 <==> f.t11
    ensures r["subtask/t_1_2_complete"] == 1 <==> f.t12
    ensures r["subtask/t_1_3_complete"] == 1 <==> f.t13
  {
    map["subtask/t_1_1_complete" := FlagInt(f.t11),
        "subtask/t_1_2_complete" := FlagInt(f.t12),
        "subtask/t_1_3_complete" := FlagInt(f.t13)]
  }

  /** `PuckWorldLoggingWrapper`: the flags and the configuration copied from the product. */
  class PuckWorldLoggingWrapper {
    var t11: bool
    var t12: bool
    var t13: bool
    var u: int
    var c: seq<int>

    function Flags(): PuckFlags
      reads this
    {
      PuckFlags(t11, t12, t13)
    }

    /** `__init__`: all three flags false. */
    constructor ()
      ensures Flags() == PuckFlags(false, false, false)
    {
      t11, t12, t13 := false, false, false;
    }

    /** `reset`: copies the product's configuration after its reset and clears the flags. */
    method Reset(u: int, c: seq<int>) returns (info: map<string, int>)
      modifies this
      ensures this.u == u && this.c == c
      ensures Flags() == PuckFlags(false, false, false)
      ensures info == PuckInfo(Flags())
    {
      this.u := u;
      this.c := c;
      t11, t12, t13 := false, false, false;
      info := PuckInfo(Flags());
    }

    /** `step`: copies the product's configuration after its step and raises the flags it
        matches; the product's reward comes back as a float and everything else unchanged. */
    method Step(u: int, c: seq<int>) returns (info: map<string, int>)
      requires (u == 0 || u == 3) ==> |c| >= 1
      modifies this
      ensures this.u == u && this.c == c
      ensures Flags() == PuckUpdate(old(Flags()), u, c)
      ensures info == PuckInfo(Flags())
    {
      this.u := u;
      this.c := c;
      if this.u == 3 && this.c[0] == 0 {
        t11 := true;
      }
      if this.u == 0 && this.c[0] == 0 {
        t12 := true;
      }
      if this.u == 0 && this.c[0] == 1 {
        t13 := true;
      }
      info := PuckInfo(Flags());
    }
  }
}
