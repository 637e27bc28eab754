/**
 * `OfficeWorldRewardMachine`: a reward machine in the legacy syntax for the office world. The
 * agent fetches mail ("M"), then coffee ("C"), then reaches the office ("P"); "DEFAULT"
 * self-loops. Progress pays 1 and the self-loops pay 0.
 */
module OfficeWorldRm {
  import opened Wrappers
  import opened Compiler
  import opened Dicts
  import opened Automaton
  import opened ChainMachines

  /** `u_0`. */
  const U0: int := 0

  /** `_get_state_transition_function`. */
  function U(): Dict<int, Dict<string, int>> {
    [ (0, [("M", 1), ("DEFAULT", 0)]),
      (1, [("C", 2), ("DEFAULT", 1)]),
      (2, [("P", Sentinel), ("DEFAULT", 2)]) ]
  }

  /** `_get_reward_transition_function`. */
  function R(): Dict<int, Dict<string, int>> {
    [ (0, [("M", 1), ("DEFAULT", 0)]),
      (1, [("C", 1), ("DEFAULT", 0)]),
      (2, [("P", 1), ("DEFAULT", 0)]) ]
  }

  /** The proposition each state waits for. */
  function Targets(): seq<string> {
    ["M", "C", "P"]
  }

  /** The reward of each state's progress entry and of its self-loop. */
  function Progress(): seq<int> {
    [1, 1, 1]
  }

  function Idle(): seq<int> {
    [0, 0, 0]
  }

  /** The tables form a chain over "M", "C", "P": each state moves on only on its own target,
      to the next state or, from state 2, to the terminal sentinel, and "DEFAULT" stays; the
      reward table has the same expressions in the same order. */
  lemma IsChain()
    ensures Chain(U(), R(), Targets(), Progress(), Idle())
  {
    assert IsWordChar('M') && IsWordChar('C') && IsWordChar('P');
    assert ValidTargets(Targets());
    assert ChainRow(U(), R(), Targets(), Progress(), Idle(), 0);
    assert ChainRow(U(), R(), Targets(), Progress(), Idle(), 1);
    assert ChainRow(U(), R(), Targets(), Progress(), Idle(), 2);
  }

  /** Construction succeeds, and the machine is a reward machine: it declares no initial
      counters and runs from `(0,)`. */
  lemma Built()
    ensures var f := ChainMachines.Final(U());
            var b := BuildTable(f, RewardMachineDeltas(f), R(), Keep, Compile);
            b.Ok? && IsChainTable(b.value, Targets(), Progress(), Idle())
    ensures IsRewardMachine(U()) && InitialCounters(true, None) == Ok([0])
  {
    IsChain();
    ChainBuilds(U(), R(), Targets(), Progress(), Idle());
    ChainIsRewardMachine(U(), R(), Targets(), Progress(), Idle());
  }

  /** `transition` from state `s`: the state's target pays 1 and moves on (state 2 to the
      terminal state 3), otherwise "DEFAULT" pays 0 and stays, otherwise the step fails. */
  lemma Transition(t: Dict<int, seq<Entry<int>>>, s: nat, alphabet: set<string>, events: set<string>)
    requires IsChainTable(t, Targets(), Progress(), Idle()) && s < 3
    requires {"M", "C", "P", "DEFAULT"} <= alphabet
    ensures Step(t, s, [0], alphabet, events)
         == if Targets()[s] in events then Ok((s + 1, [0], 1))
            else if "DEFAULT" in events then Ok((s, [0], 0))
            else Err(NoTransition(s))
  {
    ChainStep(t, Targets(), Progress(), Idle(), s, alphabet, events);
  }

  /** The task in order: mail, coffee, office reach the terminal state with a reward of 1 at
      each step. */
  lemma Task(t: Dict<int, seq<Entry<int>>>, alphabet: set<string>)
    requires IsChainTable(t, Targets(), Progress(), Idle())
    requires {"M", "C", "P", "DEFAULT"} <= alphabet
    ensures Step(t, U0, [0], alphabet, {"M"}) == Ok((1, [0], 1))
    ensures Step(t, 1, [0], alphabet, {"C"}) == Ok((2, [0], 1))
    ensures Step(t, 2, [0], alphabet, {"P"}) == Ok((3, [0], 1))
    ensures Step(t, 3, [0], alphabet, {"DEFAULT"}) == Err(UndefinedState(3))
  {
    Transition(t, 0, alphabet, {"M"});
    Transition(t, 1, alphabet, {"C"});
    Transition(t, 2, alphabet, {"P"});
    ChainTerminalUndefined(t, Targets(), Progress(), Idle(), [0], alphabet, {"DEFAULT"});
  }
}
