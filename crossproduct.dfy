/**
 * The cross product of the context-sensitive warehouse experiments and what it shares with the
 * context-sensitive product MDP: the counting reward machine as a product sees it, the fused
 * observation (ground observation followed by the machine's three encodings) with the prefix
 * that recovers the ground observation, the in-place action preprocessing and the gripper
 * bookkeeping of `step`.
 *
 * The base class crm/crossproduct is not part of this model. The machine's transition, its
 * encoders and the reward functions it hands back are parameters of `Crm`.
 */
module CrossProducts {
  import opened Wrappers
  import opened Automaton

  type Obs = seq<real>
  type Props = set<string>

  /** A reward function handed back by a transition: the reward of (obs, action, next obs). */
  type RewardFn = (Obs, seq<real>, Obs) -> real

  /** The counting reward machine seen from a product: initial state and counters, final
      states, states `U`, the transition and the three observation encoders. */
  datatype Crm = Crm(
    u0: int,
    c0: seq<int>,
    finals: set<int>,
    states: seq<int>,
    transition: (int, seq<int>, Props) -> Result<(int, seq<int>, RewardFn), TransitionError>,
    encodeMachineState: int -> seq<real>,
    encodeCounterConfiguration: (seq<int>, real) -> seq<real>,
    encodeCounterState: seq<int> -> seq<real>)

  /** `obs[:n]`: numpy slicing keeps the whole vector when it is shorter than `n`. */
  function Take<T>(s: seq<T>, n: nat): (r: seq<T>)
    ensures |r| == if |s| <= n then |s| else n
    ensures forall i :: 0 <= i < |r| ==> r[i] == s[i]
  {
    if |s| <= n then s else s[..n]
  }

  // ---------------------------------------------------------------------------------------
  // Fused observations.

  /** The scale the context-sensitive product passes to the counter-configuration encoder. */
  const ContextSensitiveScale: real := 100000.0

  /** The default `memory_scale` of the context-sensitive warehouse product. */
  const EncodedMemoryScale: real := 100000.0

  /** ground ++ state encoding ++ scaled counter-configuration encoding ++ counter-state
      encoding, the `_get_obs` of both context-sensitive warehouse products. */
  function EncodedObs(m: Crm, g: Obs, u: int, c: seq<int>, scale: real): Obs {
    g + m.encodeMachineState(u) + m.encodeCounterConfiguration(c, scale) + m.encodeCounterState(c)
  }

  /** `to_ground_obs` of the warehouse products: the 7 entries of the robot's state. */
  function WarehouseGround(obs: Obs): Obs {
    Take(obs, 7)
  }

  /** A 7-long ground observation comes back out of the encoded observation. */
  lemma EncodedGround(m: Crm, g: Obs, u: int, c: seq<int>, scale: real)
    requires |g| == 7
    ensures WarehouseGround(EncodedObs(m, g, u, c, scale)) == g
  {
    assert EncodedObs(m, g, u, c, scale)[..7] == g;
  }

  // ---------------------------------------------------------------------------------------
  // Action preprocessing.

  /** `np.clip(x, -0.1, 0.1)`. */
  function Clip(x: real): (r: real)
    ensures -0.1 <= r <= 0.1
    ensures -0.1 <= x <= 0.1 ==> r == x
    ensures r <= 0.0 <==> x <= 0.0
  {
    if x < -0.1 then -0.1 else if x > 0.1 then 0.1 else x
  }

  /** The gripper command: close (-1.0) for a non-positive request, open (1.0) otherwise. */
  function GripperCommand(x: real): (r: real)
    ensures r == -1.0 || r == 1.0
    ensures r <= 0.0 <==> x <= 0.0
  {
    if x <= 0.0 then -1.0 else 1.0
  }

  /** `_preprocess_action`: the first three entries clipped, then the last one replaced by the
      gripper command it asks for. */
  function Preprocessed(a: seq<real>): seq<real>
    requires |a| >= 1
  {
    var clipped := seq(|a|, i requires 0 <= i < |a| => if i < 3 then Clip(a[i]) else a[i]);
    clipped[|a| - 1 := GripperCommand(clipped[|a| - 1])]
  }

  /** The preprocessed action keeps its length, has its displacement within [-0.1, 0.1], leaves
      the entries between displacement and gripper as they are, and ends in a gripper command
      of the same sign as the request. */
  lemma PreprocessedShape(a: seq<real>)
    requires |a| >= 1
    ensures |Preprocessed(a)| == |a|
    ensures forall i :: 0 <= i < 3 && i < |a| - 1 ==> Preprocessed(a)[i] == Clip(a[i]) && -0.1 <= Preprocessed(a)[i] <= 0.1
    ensures forall i :: 3 <= i < |a| - 1 ==> Preprocessed(a)[i] == a[i]
    ensures Preprocessed(a)[|a| - 1] == GripperCommand(a[|a| - 1])
  {
  }

  /** Preprocessing an action twice changes nothing more. */
  lemma {:induction false} PreprocessedIdempotent(a: seq<real>)
    requires |a| >= 1
    ensures Preprocessed(Preprocessed(a)) == Preprocessed(a)
  {
    var p := Preprocessed(a);
    PreprocessedShape(a);
    PreprocessedShape(p);
    forall i | 0 <= i < |a|
      ensures Preprocessed(p)[i] == p[i]
    {
      if i == |a| - 1 {
        assert GripperCommand(p[i]) == p[i];
      }
    }
  }

  /** `_preprocess_action` on the array itself: the array is changed in place and returned. */
  method PreprocessAction(action: array<real>) returns (r: array<real>)
    requires action.Length >= 1
    modifies action
    ensures r == action
    ensures action[..] == Preprocessed(old(action[..]))
  {
    forall i | 0 <= i < action.Length && i < 3 {
      action[i] := Clip(action[i]);
    }
    var last := action.Length - 1;
    if action[last] <= 0.0 {
      action[last] := -1.0;
    } else {
      action[last] := 1.0;
    }
    r := action;
  }

  // ---------------------------------------------------------------------------------------
  // The product's step bookkeeping.

  /** `WarehouseCrossProduct` of the context-sensitive experiments: the action it last acted on
      and the one before, both the arrays the caller handed in. */
  class WarehouseCrossProduct {
    const memoryScale: real
    const maxSteps: int
    var action: array?<real>
    var lastAction: array?<real>

    /** The actions `step` compares have a gripper entry. */
    ghost predicate Valid()
      reads this
    {
      lastAction != null ==> lastAction.Length >= 1
    }

    /** `__init__`: a step budget of 5000 and a memory scale of 100000 by default; no previous
        action. */
    constructor (maxSteps: int, memoryScale: real)
      ensures Valid()
      ensures this.maxSteps == maxSteps && this.memoryScale == memoryScale
      ensures action == null && lastAction == null
    {
      this.maxSteps := maxSteps;
      this.memoryScale := memoryScale;
      action := null;
      lastAction := null;
    }

    /** `_get_obs` with the product's memory scale. */
    function GetObs(m: Crm, g: Obs, u: int, c: seq<int>): Obs {
      EncodedObs(m, g, u, c, memoryScale)
    }

    /** `step` around the base step: the action is preprocessed in place and kept, and the
        gripper is settled (five ground steps) exactly when there was a previous action whose
        gripper entry differs from the new one. Both fields keep the caller's array itself. */
    method Step(a: array<real>) returns (settles: bool)
      requires Valid() && a.Length >= 1
      modifies this, a
      ensures Valid()
      ensures a[..] == Preprocessed(old(a[..]))
      ensures action == a && lastAction == a
      ensures settles <==> old(lastAction) != null && old(lastAction)[old(lastAction).Length - 1] != a[a.Length - 1]
    {
      var act := PreprocessAction(a);
      action := act;
      settles := false;
      if lastAction != null {
        if lastAction[lastAction.Length - 1] != action[action.Length - 1] {
          settles := true;
        }
      }
      lastAction := act;
    }
  }

  /** A caller that hands in the same array on every step never gets the gripper settled: the
      previous action is that array, already overwritten by the new action. */
  method ReusedArrayNeverSettles(p: WarehouseCrossProduct, a: array<real>) returns (first: bool, second: bool)
    requires p.Valid() && p.lastAction == null && a.Length >= 1
    modifies p, a
    ensures !first && !second
  {
    first := p.Step(a);
    second := p.Step(a);
  }

  /** A fresh array whose gripper request has the other sign than the previous action's does
      settle the gripper. */
  method FlippedGripperSettles(p: WarehouseCrossProduct, a: array<real>, b: array<real>) returns (second: bool)
    requires p.Valid() && a != b && a.Length >= 1 && b.Length >= 1
    requires a[a.Length - 1] <= 0.0 && b[b.Length - 1] > 0.0
    modifies p, a, b
    ensures second
  {
    var first := p.Step(a);
    PreprocessedShape(old(b[..]));
    second := p.Step(b);
  }
}
