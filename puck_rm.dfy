/**
 * `PuckWorldRewardMachine`: the puck world as a reward machine in the legacy syntax. Nine
 * states visit the three targets three times over, in the order T_1, T_2, T_3; "DEFAULT"
 * self-loops. Reaching a target pays 10; the self-loops pay the navigation reward towards the
 * state's target. The navigation rewards are floating-point closures over the observation, so
 * they appear as identifiers.
 */
module PuckWorldRm {
  import opened Wrappers
  import opened Compiler
  import opened Dicts
  import opened Automaton
  import opened ChainMachines

  /** A reward of the table: a constant, or the navigation closure `nav_t_<target>_reward`. */
  datatype RmReward = Constant(value: int) | Navigate(target: nat)

  /** `u_0`. */
  const U0: int := 0

  /** `_get_state_transition_function`. */
  function U(): Dict<int, Dict<string, int>> {
    [ (0, [("T_1", 1), ("DEFAULT", 0)]),
      (1, [("T_2", 2), ("DEFAULT", 1)]),
      (2, [("T_3", 3), ("DEFAULT", 2)]),
      (3, [("T_1", 4), ("DEFAULT", 3)]),
      (4, [("T_2", 5), ("DEFAULT", 4)]),
      (5, [("T_3", 6), ("DEFAULT", 5)]),
      (6, [("T_1", 7), ("DEFAULT", 6)]),
      (7, [("T_2", 8), ("DEFAULT", 7)]),
      (8, [("T_3", Sentinel), ("DEFAULT", 8)]) ]
  }

  /** `_get_reward_transition_function`. */
  function R(): Dict<int, Dict<string, RmReward>> {
    [ (0, [("T_1", Constant(10)), ("DEFAULT", Navigate(1))]),
      (1, [("T_2", Constant(10)), ("DEFAULT", Navigate(2))]),
      (2, [("T_3", Constant(10)), ("DEFAULT", Navigate(3))]),
      (3, [("T_1", Constant(10)), ("DEFAULT", Navigate(1))]),
      (4, [("T_2", Constant(10)), ("DEFAULT", Navigate(2))]),
      (5, [("T_3", Constant(10)), ("DEFAULT", Navigate(3))]),
      (6, [("T_1", Constant(10)), ("DEFAULT", Navigate(1))]),
      (7, [("T_2", Constant(10)), ("DEFAULT", Navigate(2))]),
      (8, [("T_3", Constant(10)), ("DEFAULT", Navigate(3))]) ]
  }

  /** The proposition that target `k + 1` is reached: "T_1", "T_2" or "T_3". */
  function TargetName(k: nat): string
    requires k < 3
  {
    if k == 0 then "T_1" else if k == 1 then "T_2" else "T_3"
  }

  /** The proposition each state waits for. */
  function Targets(): seq<string> {
    ["T_1", "T_2", "T_3", "T_1", "T_2", "T_3", "T_1", "T_2", "T_3"]
  }

  /** The reward of each state's progress entry and of its self-loop. */
  function Progress(): seq<RmReward> {
    seq(9, _ => Constant(10))
  }

  function Idle(): seq<RmReward> {
    [Navigate(1), Navigate(2), Navigate(3), Navigate(1), Navigate(2), Navigate(3), Navigate(1), Navigate(2), Navigate(3)]
  }

  /** State `i` waits for target `(i mod 3) + 1`, and its self-loop navigates towards it. */
  lemma TargetsCycle(i: nat)
    requires i < 9
    ensures Targets()[i] == TargetName(i % 3)
    ensures Progress()[i] == Constant(10) && Idle()[i] == Navigate(i % 3 + 1)
  {
  }

  /** The targets are proposition names other than "DEFAULT". */
  lemma TargetsValid()
    ensures ValidTargets(Targets())
  {
    assert IsPropositionName("T_1") && IsPropositionName("T_2") && IsPropositionName("T_3") by {
      assert IsWordChar('T') && IsWordChar('_') && IsWordChar('1') && IsWordChar('2') && IsWordChar('3');
    }
  }

  /** States 0 to 4 of the tables. */
  lemma RowsLow()
    ensures forall s :: 0 <= s < 5 ==> ChainRow(U(), R(), Targets(), Progress(), Idle(), s)
  {
    assert ChainRow(U(), R(), Targets(), Progress(), Idle(), 0);
    assert ChainRow(U(), R(), Targets(), Progress(), Idle(), 1);
    assert ChainRow(U(), R(), Targets(), Progress(), Idle(), 2);
    assert ChainRow(U(), R(), Targets(), Progress(), Idle(), 3);
    assert ChainRow(U(), R(), Targets(), Progress(), Idle(), 4);
  }

  /** States 5 to 8 of the tables. */
  lemma RowsHigh()
    ensures forall s :: 5 <= s < 9 ==> ChainRow(U(), R(), Targets(), Progress(), Idle(), s)
  {
    assert ChainRow(U(), R(), Targets(), Progress(), Idle(), 5);
    assert ChainRow(U(), R(), Targets(), Progress(), Idle(), 6);
    assert ChainRow(U(), R(), Targets(), Progress(), Idle(), 7);
    assert ChainRow(U(), R(), Targets(), Progress(), Idle(), 8);
  }

  /** The tables form a chain over the targets: each state moves on only on its own target,
      to the next state or, from state 8, to the terminal sentinel, and "DEFAULT" stays; the
      reward table has the same expressions in the same order. */
  lemma IsChain()
    ensures Chain(U(), R(), Targets(), Progress(), Idle())
  {
    TargetsValid();
    RowsLow();
    RowsHigh();
  }

  /** Construction succeeds, and the machine is a reward machine: it declares no initial
      counters and runs from `(0,)`. */
  lemma Built()
    ensures var f := ChainMachines.Final(U());
            var b := BuildTable(f, RewardMachineDeltas(f), R(), Keep, Compile);
            b.Ok? && IsChainTable(b.value, Targets(), Progress(), Idle())
    ensures IsRewardMachine(U()) && InitialCounters(true, None) == Ok([0])
  {
    IsChain();
    ChainBuilds(U(), R(), Targets(), Progress(), Idle());
    ChainIsRewardMachine(U(), R(), Targets(), Progress(), Idle());
  }

  /** `transition` from state `s`: the state's target pays 10 and moves on (state 8 to the
      terminal state 9), otherwise "DEFAULT" stays with the navigation reward towards that
      target, otherwise the step fails. */
  lemma Transition(t: Dict<int, seq<Entry<RmReward>>>, s: nat, alphabet: set<string>, events: set<string>)
    requires IsChainTable(t, Targets(), Progress(), Idle()) && s < 9
    requires {"T_1", "T_2", "T_3", "DEFAULT"} <= alphabet
    ensures Step(t, s, [0], alphabet, events)
         == if TargetName(s % 3) in events then Ok((s + 1, [0], Constant(10)))
            else if "DEFAULT" in events then Ok((s, [0], Navigate(s % 3 + 1)))
            else Err(NoTransition(s))
  {
    TargetsCycle(s);
    assert forall k :: 0 <= k < 9 ==> Targets()[k] in alphabet;
    ChainStep(t, Targets(), Progress(), Idle(), s, alphabet, events);
  }

  /** The terminal state 9 has no entries: a step from it is an error. */
  lemma TerminalUndefined(t: Dict<int, seq<Entry<RmReward>>>, c: seq<int>, alphabet: set<string>, events: set<string>)
    requires IsChainTable(t, Targets(), Progress(), Idle())
    ensures Step(t, 9, c, alphabet, events) == Err(UndefinedState(9))
  {
    ChainTerminalUndefined(t, Targets(), Progress(), Idle(), c, alphabet, events);
  }
}
