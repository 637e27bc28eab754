/**
 * The context-sensitive cross-product MDP of the warehouse: the product of the ground robot
 * environment and the context-sensitive counting reward machine. `reset` and `step` keep the
 * step count, the machine configuration, the last two actions and ground observations and the
 * subtask flags in fields; counterfactual generation replays the last step's propositions from
 * every machine state and sampled counter vector.
 *
 * The ground environment, the labelling function and the sampler are parameters: `reset` and
 * `step` receive the ground observations the environment returns, the labelling function is a
 * field, and the sampled counter vectors are an argument of the counterfactual generation.
 */
module ContextSensitiveCrossProduct {
  import opened Wrappers
  import opened Automaton
  import opened CrossProducts

  /** The warehouse machine has three counters (red, green, blue), and its transitions keep
      them three. */
  ghost predicate ThreeCounters(m: Crm) {
    |m.c0| == 3 &&
    forall u, c, p :: |c| == 3 && m.transition(u, c, p).Ok? ==> |m.transition(u, c, p).value.1| == 3
  }

  // ---------------------------------------------------------------------------------------
  // Subtask flags.

  datatype Colour = Red | Green | Blue

  datatype Stage = Above | Grasp | Release

  /** A subtask flag: `<colour>_<one|two|three>_complete` is `Placed(colour, 1|2|3)`, and
      `<colour>_<stage>_<k>_0` is `Reached(colour, stage, k)`. */
  datatype Subtask =
    | Placed(colour: Colour, count: int)
    | Reached(colour: Colour, stage: Stage, remaining: int)

  /** The counter that counts the blocks of a colour still to place. */
  function CounterOf(colour: Colour): (i: nat)
    ensures i < 3
  {
    match colour
    case Red => 0
    case Green => 1
    case Blue => 2
  }

  /** The block module stage a machine state belongs to: release, grasp and above for blue
      (1, 2, 4), green (6, 7, 9) and red (11, 12, 14). */
  function StageAt(u: int): Option<(Colour, Stage)> {
    match u
    case 1 => Some((Blue, Release))
    case 2 => Some((Blue, Grasp))
    case 4 => Some((Blue, Above))
    case 6 => Some((Green, Release))
    case 7 => Some((Green, Grasp))
    case 9 => Some((Green, Above))
    case 11 => Some((Red, Release))
    case 12 => Some((Red, Grasp))
    case 14 => Some((Red, Above))
    case _ => None
  }

  /** The completion flag of a colour at the decision state: its counter at 2, 1 or 0 means
      three, two or one blocks placed. */
  function PlacedFlag(colour: Colour, k: int): set<Subtask> {
    if k == 2 then {Placed(colour, 3)}
    else if k == 1 then {Placed(colour, 2)}
    else if k == 0 then {Placed(colour, 1)}
    else {}
  }

  /** The stage flag of a module state for counter value 3, 2 or 1. */
  function ReachedFlag(colour: Colour, stage: Stage, k: int): set<Subtask> {
    if k == 3 then {Reached(colour, stage, 3)}
    else if k == 2 then {Reached(colour, stage, 2)}
    else if k == 1 then {Reached(colour, stage, 1)}
    else {}
  }

  /** `_update_subtask_logging` for configuration (u, c): the flags it raises. */
  function SubtaskUpdate(u: int, c: seq<int>): set<Subtask>
    requires |c| == 3
  {
    if u == 0 then PlacedFlag(Red, c[0]) + PlacedFlag(Green, c[1]) + PlacedFlag(Blue, c[2])
    else match StageAt(u)
      case None => {}
      case Some((colour, stage)) => ReachedFlag(colour, stage, c[CounterOf(colour)])
  }

  /** A completion flag is raised exactly at the decision state, for a count from 1 to 3 one
      above its colour's counter. */
  lemma PlacedRaised(u: int, c: seq<int>, colour: Colour, n: int)
    requires |c| == 3
    ensures Placed(colour, n) in SubtaskUpdate(u, c) <==> u == 0 && 1 <= n <= 3 && c[CounterOf(colour)] == n - 1
  {
    if u == 0 {
      match colour
      case Red =>
      case Green =>
      case Blue =>
    }
  }

  /** A stage flag is raised exactly in its module state, for a value from 1 to 3 equal to its
      colour's counter. */
  lemma ReachedRaised(u: int, c: seq<int>, colour: Colour, stage: Stage, n: int)
    requires |c| == 3
    ensures Reached(colour, stage, n) in SubtaskUpdate(u, c) <==> StageAt(u) == Some((colour, stage)) && 1 <= n <= 3 && c[CounterOf(colour)] == n
  {
  }

  /** One update raises at most one flag per colour, and outside the decision state at most
      one flag in all. */
  lemma OneFlagPerColour(u: int, c: seq<int>, s: Subtask, t: Subtask)
    requires |c| == 3
    requires s in SubtaskUpdate(u, c) && t in SubtaskUpdate(u, c)
    requires s.colour == t.colour || u != 0
    ensures s == t
  {
  }

  /** The logs of an ending step: every flag with its value, and success 1 exactly when the
      machine sits in a final state. */
  datatype SubtaskLogs = SubtaskLogs(raised: set<Subtask>, isSuccess: int)

  function Logs(m: Crm, raised: set<Subtask>, u: int): (r: SubtaskLogs)
    ensures r.raised == raised
    ensures r.isSuccess == 1 <==> u in m.finals
    ensures r.isSuccess == 0 <==> u !in m.finals
  {
    SubtaskLogs(raised, if u in m.finals then 1 else 0)
  }

  // ---------------------------------------------------------------------------------------
  // Back to the ground observation.

  /** The division by zero that `to_ground_obs` evaluates before its `return`. */
  datatype ArithmeticError = ZeroDivision

  /** `to_ground_obs`: it divides 0 by 0 before slicing, so it raises for every observation and
      the product's fused observation has no left inverse here. */
  function ToGroundObs(obs: Obs): (r: Result<Obs, ArithmeticError>)
    ensures r == Err(ZeroDivision)
  {
    Err(ZeroDivision)
  }

  // ---------------------------------------------------------------------------------------
  // Extra ground steps.

  /** The ground-environment steps a step takes after the transition: ten to put a block back
      when the configuration changed into the decision state with a counter left, and five
      when the gripper command changed. */
  function ExtraGroundSteps(changed: bool, u: int, c: seq<int>, lastCommand: real, command: real): (n: nat)
    requires |c| == 3
    ensures n > 0 <==> (changed && u == 0 && c != [0, 0, 0]) || lastCommand != command
  {
    (if changed && u == 0 && (c[0] != 0 || c[1] != 0 || c[2] != 0) then 10 else 0) +
    (if lastCommand != command then 5 else 0)
  }

  /** After `reset` the previous action is all zeros, so the first step always changes the
      gripper command and settles the gripper. */
  lemma FirstStepMovesGripper(changed: bool, u: int, c: seq<int>, a: seq<real>)
    requires |c| == 3 && |a| >= 1
    ensures ExtraGroundSteps(changed, u, c, 0.0, Preprocessed(a)[|a| - 1]) >= 5
  {
    PreprocessedShape(a);
  }

  // ---------------------------------------------------------------------------------------
  // Counterfactual experience.

  /** What counterfactual generation reads: the last step's propositions and the experience's
      ground observation, action and next ground observation. */
  datatype Query = Query(props: Props, obs: Obs, action: seq<real>, obsNext: Obs)

  /** One synthetic transition. */
  datatype Experience = Experience(obs: Obs, action: seq<real>, obsNext: Obs, reward: real, done: bool)

  /** The synthetic transition from (u, c), or none when the transition raises. */
  function Synthesise(m: Crm, q: Query, u: int, c: seq<int>): Option<Experience> {
    match m.transition(u, c, q.props)
    case Err(_) => None
    case Ok((uj, cj, rf)) =>
      Some(Experience(EncodedObs(m, q.obs, u, c, ContextSensitiveScale), q.action,
                      EncodedObs(m, q.obsNext, uj, cj, ContextSensitiveScale), rf(q.obs, q.action, q.obsNext), uj in m.finals))
  }

  function OptionSeq<T>(o: Option<T>): (r: seq<T>)
    ensures |r| <= 1
  {
    match o
    case None => []
    case Some(x) => [x]
  }

  /** The synthetic transitions of one state, in sample order. */
  function RowExperiences(m: Crm, q: Query, u: int, cs: seq<seq<int>>): seq<Experience>
  {
    if cs == [] then [] else RowExperiences(m, q, u, cs[..|cs| - 1]) + OptionSeq(Synthesise(m, q, u, cs[|cs| - 1]))
  }

  /** The synthetic transitions of all states, state by state. */
  function Experiences(m: Crm, q: Query, us: seq<int>, samples: seq<seq<seq<int>>>): seq<Experience>
    requires |us| == |samples|
  {
    if us == [] then []
    else Experiences(m, q, us[..|us| - 1], samples[..|us| - 1]) + RowExperiences(m, q, us[|us| - 1], samples[|us| - 1])
  }

  /** One more state appends that state's row. */
  lemma ExperiencesNext(m: Crm, q: Query, us: seq<int>, samples: seq<seq<seq<int>>>, i: nat)
    requires |us| == |samples| && i < |us|
    ensures Experiences(m, q, us[..i + 1], samples[..i + 1])
            == Experiences(m, q, us[..i], samples[..i]) + RowExperiences(m, q, us[i], samples[i])
  {
    assert us[..i + 1][..i] == us[..i] && samples[..i + 1][..i] == samples[..i];
  }

  /** The number of sampled counter vectors. */
  function TotalSamples(samples: seq<seq<seq<int>>>): nat {
    if samples == [] then 0 else TotalSamples(samples[..|samples| - 1]) + |samples[|samples| - 1]|
  }

  /** A state's row is at most as long as its samples. */
  lemma {:induction false} RowBound(m: Crm, q: Query, u: int, cs: seq<seq<int>>)
    ensures |RowExperiences(m, q, u, cs)| <= |cs|
  {
    if cs != [] {
      RowBound(m, q, u, cs[..|cs| - 1]);
    }
  }

  /** There are at most as many synthetic transitions as sampled counter vectors. */
  lemma {:induction false} ExperiencesBound(m: Crm, q: Query, us: seq<int>, samples: seq<seq<seq<int>>>)
    requires |us| == |samples|
    ensures |Experiences(m, q, us, samples)| <= TotalSamples(samples)
  {
    if us != [] {
      ExperiencesBound(m, q, us[..|us| - 1], samples[..|us| - 1]);
      RowBound(m, q, us[|us| - 1], samples[|us| - 1]);
    }
  }

  /** The transition from (u, c) succeeds, and `e` is the transition it gives: the fused
      observations before and after, the experience's action, the reward of the transition's
      reward function and done exactly when the next state is final. */
  ghost predicate FromTransition(m: Crm, q: Query, u: int, c: seq<int>, e: Experience) {
    var t := m.transition(u, c, q.props);
    t.Ok? &&
    e.obs == EncodedObs(m, q.obs, u, c, ContextSensitiveScale) &&
    e.action == q.action &&
    e.obsNext == EncodedObs(m, q.obsNext, t.value.0, t.value.1, ContextSensitiveScale) &&
    e.reward == t.value.2(q.obs, q.action, q.obsNext) &&
    e.done == (t.value.0 in m.finals)
  }

  lemma SynthesiseFrom(m: Crm, q: Query, u: int, c: seq<int>)
    ensures Synthesise(m, q, u, c).Some? <==> m.transition(u, c, q.props).Ok?
    ensures Synthesise(m, q, u, c).Some? ==> FromTransition(m, q, u, c, Synthesise(m, q, u, c).value)
  {
  }

  /** Every transition of a row comes from one of its samples. */
  lemma {:induction false} RowSound(m: Crm, q: Query, u: int, cs: seq<seq<int>>, e: Experience)
    requires e in RowExperiences(m, q, u, cs)
    ensures exists j :: 0 <= j < |cs| && FromTransition(m, q, u, cs[j], e)
  {
    var n := |cs| - 1;
    if e in RowExperiences(m, q, u, cs[..n]) {
      RowSound(m, q, u, cs[..n], e);
      var j :| 0 <= j < n && FromTransition(m, q, u, cs[..n][j], e);
      assert cs[..n][j] == cs[j];
    } else {
      SynthesiseFrom(m, q, u, cs[n]);
    }
  }

  /** Every sample whose transition succeeds has its transition in the row. */
  lemma {:induction false} RowComplete(m: Crm, q: Query, u: int, cs: seq<seq<int>>, j: nat)
    requires j < |cs| && m.transition(u, cs[j], q.props).Ok?
    ensures Synthesise(m, q, u, cs[j]).Some? && Synthesise(m, q, u, cs[j]).value in RowExperiences(m, q, u, cs)
  {
    var n := |cs| - 1;
    if j < n {
      assert cs[..n][j] == cs[j];
      RowComplete(m, q, u, cs[..n], j);
    }
  }

  /** Every synthetic transition comes from a state and one of its samples whose transition
      succeeds: failing configurations are skipped and nothing else is added. */
  lemma {:induction false} ExperiencesSound(m: Crm, q: Query, us: seq<int>, samples: seq<seq<seq<int>>>, e: Experience)
    requires |us| == |samples| && e in Experiences(m, q, us, samples)
    ensures exists i, j :: 0 <= i < |us| && 0 <= j < |samples[i]| && FromTransition(m, q, us[i], samples[i][j], e)
  {
    var n := |us| - 1;
    if e in Experiences(m, q, us[..n], samples[..n]) {
      ExperiencesSound(m, q, us[..n], samples[..n], e);
      var i, j :| 0 <= i < n && 0 <= j < |samples[..n][i]| && FromTransition(m, q, us[..n][i], samples[..n][i][j], e);
      assert us[..n][i] == us[i] && samples[..n][i] == samples[i];
    } else {
      RowSound(m, q, us[n], samples[n], e);
    }
  }

  /** Every state and sample whose transition succeeds gives a synthetic transition. */
  lemma {:induction false} ExperiencesComplete(m: Crm, q: Query, us: seq<int>, samples: seq<seq<seq<int>>>, i: nat, j: nat)
    requires |us| == |samples| && i < |us| && j < |samples[i]|
    requires m.transition(us[i], samples[i][j], q.props).Ok?
    ensures Synthesise(m, q, us[i], samples[i][j]).Some?
    ensures Synthesise(m, q, us[i], samples[i][j]).value in Experiences(m, q, us, samples)
  {
    var n := |us| - 1;
    if i < n {
      assert us[..n][i] == us[i] && samples[..n][i] == samples[i];
      ExperiencesComplete(m, q, us[..n], samples[..n], i, j);
    } else {
      RowComplete(m, q, us[n], samples[n], j);
    }
  }

  /** The configuration the real step visited, when it is among the candidates, is replayed
      exactly: its synthetic transition carries the real step's next configuration, reward and
      termination, fused with the same ground observations. */
  lemma RealStepReplayed(m: Crm, q: Query, us: seq<int>, samples: seq<seq<seq<int>>>, i: nat, j: nat,
                         uNext: int, cNext: seq<int>, rf: RewardFn)
    requires |us| == |samples| && i < |us| && j < |samples[i]|
    requires m.transition(us[i], samples[i][j], q.props) == Ok((uNext, cNext, rf))
    ensures Experience(EncodedObs(m, q.obs, us[i], samples[i][j], ContextSensitiveScale), q.action,
                       EncodedObs(m, q.obsNext, uNext, cNext, ContextSensitiveScale),
                       rf(q.obs, q.action, q.obsNext), uNext in m.finals)
            in Experiences(m, q, us, samples)
  {
    ExperiencesComplete(m, q, us, samples, i, j);
  }

  /** Six buffers hold the fields of the same transitions, in order. */
  predicate Unzipped(es: seq<Experience>, obs: seq<Obs>, actions: seq<seq<real>>, obsNext: seq<Obs>,
                     rewards: seq<real>, dones: seq<bool>, infos: seq<map<string, int>>)
  {
    |obs| == |es| && |actions| == |es| && |obsNext| == |es| && |rewards| == |es| && |dones| == |es| && |infos| == |es| &&
    forall k :: 0 <= k < |es| ==>
      obs[k] == es[k].obs && actions[k] == es[k].action && obsNext[k] == es[k].obsNext &&
      rewards[k] == es[k].reward && dones[k] == es[k].done && infos[k] == map[]
  }

  /** Appending the fields of one more transition to the six buffers keeps them in step. */
  lemma UnzippedAppend(es: seq<Experience>, obs: seq<Obs>, actions: seq<seq<real>>, obsNext: seq<Obs>,
                       rewards: seq<real>, dones: seq<bool>, infos: seq<map<string, int>>, e: Experience)
    requires Unzipped(es, obs, actions, obsNext, rewards, dones, infos)
    ensures Unzipped(es + [e], obs + [e.obs], actions + [e.action], obsNext + [e.obsNext], rewards + [e.reward], dones + [e.done], infos + [map[]])
  {
  }

  // ---------------------------------------------------------------------------------------
  // The product.

  /** What `step` returns besides the new state, with the extra ground steps it took. */
  datatype StepOutput = StepOutput(obs: Obs, reward: real, terminated: bool, truncated: bool, info: Option<SubtaskLogs>, groundSteps: nat)

  class ContextSensitiveCrossProductMdp {
    const crm: Crm
    const lf: (Obs, seq<real>, Obs) -> Props
    const maxSteps: int

    var steps: int
    var u: int
    var c: seq<int>
    var uLast: int
    var cLast: seq<int>
    var groundObs: Obs
    var groundObsNext: Obs
    /** The array the caller handed to the last `step` (the zero action after `reset`), and
        the one it handed to the step before: references, not copies. */
    var action: array?<real>
    var lastAction: array?<real>
    /** The propositions of the last step; none before the first step, where the attribute
        does not exist yet. */
    var props: Option<Props>
    var reward: real
    var done: bool
    /** The subtask flags that are true. */
    var raised: set<Subtask>

    /** The state `step` needs: a configuration of three counters and a previous action with
        a gripper entry. */
    ghost predicate Valid()
      reads this
    {
      |c| == 3 && action != null && action.Length >= 1
    }

    /** `__init__`: the machine, the labelling function and the step budget (5000 by
        default). */
    constructor (crm: Crm, lf: (Obs, seq<real>, Obs) -> Props, maxSteps: int)
      ensures this.crm == crm && this.lf == lf && this.maxSteps == maxSteps
      ensures props == None
    {
      this.crm := crm;
      this.lf := lf;
      this.maxSteps := maxSteps;
      this.props := None;
    }

    /** `reset`: clears the flags and the step count, puts the machine in its initial
        configuration, takes the ground environment's first observation as both the current
        and the next one and the zero action as the action, and returns the fused observation. */
    method Reset(g0: Obs) returns (obs: Obs)
      requires |crm.c0| == 3
      modifies this
      ensures Valid()
      ensures raised == {} && steps == 0
      ensures u == crm.u0 && c == crm.c0
      ensures groundObs == g0 && groundObsNext == g0
      ensures fresh(action) && action[..] == [0.0, 0.0, 0.0, 0.0]
      ensures uLast == old(uLast) && cLast == old(cLast) && lastAction == old(lastAction)
      ensures props == old(props) && reward == old(reward) && done == old(done)
      ensures obs == EncodedObs(crm, g0, crm.u0, crm.c0, ContextSensitiveScale)
    {
      raised := {};
      steps := 0;
      u := crm.u0;
      c := crm.c0;
      groundObs := g0;
      groundObsNext := groundObs;
      action := new real[4](i => 0.0);
      assert action[..] == [0.0, 0.0, 0.0, 0.0];
      obs := EncodedObs(crm, groundObs, u, c, ContextSensitiveScale);
    }

    /** `_machine_cfg_changed`: the last step moved the machine state or a counter. */
    predicate MachineCfgChanged()
      reads this
    {
      uLast != u || cLast != c
    }

    /** `step`: preprocesses the action in place, counts the step, moves the ground
        environment on to `gNext`, labels the move, takes the machine transition and commits
        it, then raises the subtask flags if the configuration changed and settles the ground
        environment (its observation after the extra steps is `settled`). A transition that
        raises leaves the step half done, as the exception does. */
    method Step(a: array<real>, gNext: Obs, settled: Obs) returns (r: Result<StepOutput, TransitionError>)
      requires ThreeCounters(crm) && Valid() && a.Length >= 1
      modifies this, a
      ensures Valid()
      ensures a[..] == Preprocessed(old(a[..]))
      ensures steps == old(steps) + 1
      ensures lastAction == old(action) && action == a
      ensures old(action) != a ==> lastAction[..] == old(action[..])
      ensures groundObs == old(groundObsNext)
      ensures props == Some(lf(old(groundObsNext), a[..], gNext))
      ensures r.Err? <==> crm.transition(old(u), old(c), props.value).Err?
      ensures r.Err? ==>
        r.error == crm.transition(old(u), old(c), props.value).error &&
        u == old(u) && c == old(c) && uLast == old(uLast) && cLast == old(cLast) &&
        reward == old(reward) && done == old(done) && raised == old(raised) && groundObsNext == gNext
      ensures r.Ok? ==>
        var t := crm.transition(old(u), old(c), props.value).value;
        uLast == old(u) && cLast == old(c) && u == t.0 && c == t.1 &&
        reward == t.2(groundObs, a[..], gNext) && r.value.reward == reward &&
        r.value.terminated == (u in crm.finals) &&
        r.value.truncated == (steps >= maxSteps) &&
        done == (r.value.terminated || r.value.truncated) &&
        r.value.obs == EncodedObs(crm, gNext, u, c, ContextSensitiveScale) &&
        raised == old(raised) + (if MachineCfgChanged() then SubtaskUpdate(u, c) else {}) &&
        r.value.groundSteps == ExtraGroundSteps(MachineCfgChanged(), u, c, lastAction[lastAction.Length - 1], a[a.Length - 1]) &&
        groundObsNext == (if r.value.groundSteps > 0 then settled else gNext) &&
        r.value.info == (if done then Some(Logs(crm, raised, u)) else None)
    {
      Advance(a, gNext);
      var t := crm.transition(u, c, props.value);
      if t.Err? {
        return Err(t.error);
      }
      var (uNext, cNext, rf) := t.value;
      var stepReward := rf(groundObs, action[..], groundObsNext);
      var terminated := uNext in crm.finals;
      var truncated := steps >= maxSteps;
      Commit(uNext, cNext, stepReward, terminated || truncated);
      var obs := EncodedObs(crm, groundObsNext, u, c, ContextSensitiveScale);
      var groundSteps := Settle(settled);
      var info := if terminated || truncated then Some(Logs(crm, raised, u)) else None;
      r := Ok(StepOutput(obs, stepReward, terminated, truncated, info, groundSteps));
    }

    /** The start of `step`: the action preprocessed in place, the step counted, the actions
        and ground observations shifted by one and the move labelled. */
    method Advance(a: array<real>, gNext: Obs)
      requires Valid() && a.Length >= 1
      modifies this, a
      ensures Valid() && lastAction != null && lastAction.Length >= 1
      ensures a[..] == Preprocessed(old(a[..]))
      ensures old(action) != a ==> lastAction[..] == old(action[..])
      ensures steps == old(steps) + 1 && lastAction == old(action) && action == a
      ensures groundObs == old(groundObsNext) && groundObsNext == gNext
      ensures props == Some(lf(old(groundObsNext), a[..], gNext))
      ensures u == old(u) && c == old(c) && uLast == old(uLast) && cLast == old(cLast)
      ensures reward == old(reward) && done == old(done) && raised == old(raised)
    {
      var act := PreprocessAction(a);
      steps := steps + 1;
      lastAction := action;
      action := act;
      groundObs := groundObsNext;
      groundObsNext := gNext;
      props := Some(lf(groundObs, action[..], groundObsNext));
    }

    /** The commit of `step`: the old configuration saved, the new one taken, with the reward
        and whether the episode is done. */
    method Commit(uNext: int, cNext: seq<int>, stepReward: real, isDone: bool)
      requires Valid() && |cNext| == 3
      modifies this
      ensures Valid()
      ensures uLast == old(u) && cLast == old(c) && u == uNext && c == cNext
      ensures reward == stepReward && done == isDone
      ensures steps == old(steps) && action == old(action) && lastAction == old(lastAction)
      ensures groundObs == old(groundObs) && groundObsNext == old(groundObsNext)
      ensures props == old(props) && raised == old(raised)
    {
      uLast := u;
      cLast := c;
      reward := stepReward;
      done := isDone;
      u := uNext;
      c := cNext;
    }

    /** The end of `step`: the subtask flags raised when the configuration changed, and the
        ground environment settled when a block goes back or the gripper command changed. */
    method Settle(settled: Obs) returns (groundSteps: nat)
      requires Valid() && lastAction != null && lastAction.Length >= 1
      modifies this
      ensures Valid() && lastAction == old(lastAction)
      ensures raised == old(raised) + (if MachineCfgChanged() then SubtaskUpdate(u, c) else {})
      ensures groundSteps == ExtraGroundSteps(MachineCfgChanged(), u, c, lastAction[lastAction.Length - 1], action[action.Length - 1])
      ensures groundObsNext == (if groundSteps > 0 then settled else old(groundObsNext))
      ensures u == old(u) && c == old(c) && uLast == old(uLast) && cLast == old(cLast)
      ensures steps == old(steps) && action == old(action)
      ensures groundObs == old(groundObs) && props == old(props) && reward == old(reward) && done == old(done)
    {
      groundSteps := 0;
      if MachineCfgChanged() {
        raised := raised + SubtaskUpdate(u, c);
        if u == 0 && (c[0] != 0 || c[1] != 0 || c[2] != 0) {
          groundSteps := groundSteps + 10;
        }
      }
      if lastAction[lastAction.Length - 1] != action[action.Length - 1] {
        groundSteps := groundSteps + 5;
      }
      if groundSteps > 0 {
        groundObsNext := settled;
      }
    }

    /** `generate_counterfactual_experience`: for every machine state and every counter vector
        sampled for it, the transition under the last step's propositions; transitions that
        raise are skipped. `samples[i]` holds the vectors sampled for state i. Before the first
        step there are no propositions: reading them raises inside the `try`, so every
        candidate is skipped and the buffers stay empty. */
    method GenerateCounterfactualExperience(g: Obs, act: seq<real>, gNext: Obs, samples: seq<seq<seq<int>>>)
      returns (obsBuffer: seq<Obs>, actionBuffer: seq<seq<real>>, obsNextBuffer: seq<Obs>,
               rewardBuffer: seq<real>, doneBuffer: seq<bool>, infoBuffer: seq<map<string, int>>)
      requires |samples| == |crm.states|
      ensures props.None? ==> obsBuffer == [] && actionBuffer == [] && obsNextBuffer == [] && rewardBuffer == [] && doneBuffer == [] && infoBuffer == []
      ensures props.Some? ==> Unzipped(Experiences(crm, Query(props.value, g, act, gNext), crm.states, samples),
                                       obsBuffer, actionBuffer, obsNextBuffer, rewardBuffer, doneBuffer, infoBuffer)
    {
      obsBuffer, actionBuffer, obsNextBuffer, rewardBuffer, doneBuffer, infoBuffer := [], [], [], [], [], [];
      if props.None? {
        return;
      }
      var q := Query(props.value, g, act, gNext);
      var us := crm.states;
      var i := 0;
      while i < |us|
        invariant 0 <= i <= |us|
        invariant Unzipped(Experiences(crm, q, us[..i], samples[..i]), obsBuffer, actionBuffer, obsNextBuffer, rewardBuffer, doneBuffer, infoBuffer)
      {
        ghost var es := Experiences(crm, q, us[..i], samples[..i]);
        obsBuffer, actionBuffer, obsNextBuffer, rewardBuffer, doneBuffer, infoBuffer :=
          AppendState(es, q, us[i], samples[i], obsBuffer, actionBuffer, obsNextBuffer, rewardBuffer, doneBuffer, infoBuffer);
        ExperiencesNext(crm, q, us, samples, i);
        i := i + 1;
      }
      assert us[..i] == us && samples[..i] == samples;
    }

    /** The inner loop of the counterfactual generation: the transitions of state `u` from each
        of its sampled counter vectors `cs`, appended to the buffers. */
    method AppendState(ghost es: seq<Experience>, q: Query, u: int, cs: seq<seq<int>>,
                       obs0: seq<Obs>, actions0: seq<seq<real>>, obsNext0: seq<Obs>,
                       rewards0: seq<real>, dones0: seq<bool>, infos0: seq<map<string, int>>)
      returns (obsBuffer: seq<Obs>, actionBuffer: seq<seq<real>>, obsNextBuffer: seq<Obs>,
               rewardBuffer: seq<real>, doneBuffer: seq<bool>, infoBuffer: seq<map<string, int>>)
      requires props == Some(q.props)
      requires Unzipped(es, obs0, actions0, obsNext0, rewards0, dones0, infos0)
      ensures Unzipped(es + RowExperiences(crm, q, u, cs), obsBuffer, actionBuffer, obsNextBuffer, rewardBuffer, doneBuffer, infoBuffer)
    {
      obsBuffer, actionBuffer, obsNextBuffer, rewardBuffer, doneBuffer, infoBuffer := obs0, actions0, obsNext0, rewards0, dones0, infos0;
      ghost var acc := es;
      var j := 0;
      while j < |cs|
        invariant 0 <= j <= |cs|
        invariant acc == es + RowExperiences(crm, q, u, cs[..j])
        invariant Unzipped(acc, obsBuffer, actionBuffer, obsNextBuffer, rewardBuffer, doneBuffer, infoBuffer)
      {
        assert cs[..j + 1][..j] == cs[..j];
        var t := crm.transition(u, cs[j], q.props);
        if t.Ok? {
          var (uj, cj, rf) := t.value;
          var rj := rf(q.obs, q.action, q.obsNext);
          ghost var e := Experience(EncodedObs(crm, q.obs, u, cs[j], ContextSensitiveScale), q.action,
                                    EncodedObs(crm, q.obsNext, uj, cj, ContextSensitiveScale), rj, uj in crm.finals);
          UnzippedAppend(acc, obsBuffer, actionBuffer, obsNextBuffer, rewardBuffer, doneBuffer, infoBuffer, e);
          obsBuffer := obsBuffer + [EncodedObs(crm, q.obs, u, cs[j], ContextSensitiveScale)];
          actionBuffer := actionBuffer + [q.action];
          obsNextBuffer := obsNextBuffer + [EncodedObs(crm, q.obsNext, uj, cj, ContextSensitiveScale)];
          rewardBuffer := rewardBuffer + [rj];
          doneBuffer := doneBuffer + [uj in crm.finals];
          infoBuffer := infoBuffer + [map[]];
          assert Synthesise(crm, q, u, cs[j]) == Some(e);
          acc := acc + [e];
        }
        j := j + 1;
      }
      assert cs[..j] == cs;
    }
  }

  /** A caller that hands `step` the array it handed the step before never gets the gripper
      settled: the previous action is that same array, already overwritten by the new action,
      so only a block going back costs ground steps. */
  method ReusedActionNeverSettles(p: ContextSensitiveCrossProductMdp, a: array<real>, gNext: Obs, settled: Obs)
    returns (r: Result<StepOutput, TransitionError>)
    requires ThreeCounters(p.crm) && p.Valid() && p.action == a
    modifies p, a
    ensures r.Ok? ==> (r.value.groundSteps > 0 <==> p.MachineCfgChanged() && p.u == 0 && p.c != [0, 0, 0])
  {
    r := p.Step(a, gNext, settled);
  }

  /** A fresh array whose gripper request has the other sign than the previous action's does
      settle the gripper. */
  method FreshFlippedActionSettles(p: ContextSensitiveCrossProductMdp, a: array<real>, gNext: Obs, settled: Obs)
    returns (r: Result<StepOutput, TransitionError>)
    requires ThreeCounters(p.crm) && p.Valid() && a.Length >= 1 && p.action != a
    requires p.action[p.action.Length - 1] <= 0.0 && a[a.Length - 1] > 0.0
    modifies p, a
    ensures r.Ok? ==> r.value.groundSteps >= 5
  {
    PreprocessedShape(a[..]);
    r := p.Step(a, gNext, settled);
  }
}
