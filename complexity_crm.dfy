/**
 * The counting reward machine of the complexity study: three dict literals, one per state,
 * merged into one transition dict keyed by (label, state, counter pattern), and the graph of
 * its edges. From state 0 an "E" moves to 1; state 1 ends in 3 on an "E" and, with no event,
 * waits while its first counter is non-zero and moves to 2 once it is zero; state 2 waits
 * with no event while its second counter is non-zero and ends in 3 once it is zero. The dict
 * holds next states only, no counter deltas. Unlike the reward machine,
 * the dict does not depend on a size parameter.
 */
module ComplexityCrm {
  import opened TransitionGraphs
  import opened ComplexityRm
  import opened Compiler

  /** A counter pattern of two counters: ("-", "-"), ("NZ", "-"), ... */
  type Pattern = (CounterTest, CounterTest)

  /** A key of the transition dict: (label tuple, state, counter pattern). */
  type Key = (Label, int, Pattern)

  /** The source state of a key. */
  function Source(k: Key): int {
    k.1
  }

  /** The entries of state 0: "E" enters state 1, "*" ends in 3, everything else stays. */
  function DeltaU0(): map<Key, int> {
    map[(M, 0, (Any, Any)) := 0, (E, 0, (Any, Any)) := 1, (C, 0, (Any, Any)) := 0,
        (P, 0, (Any, Any)) := 0, (Star, 0, (Any, Any)) := 3, (NoEvent, 0, (Any, Any)) := 0]
  }

  /** The entries of state 1: "E" ends in 3, and with no event it stays while its first
      counter is non-zero and moves on to 2 once it is zero. */
  function DeltaU1(): map<Key, int> {
    map[(M, 1, (Any, Any)) := 1, (E, 1, (Any, Any)) := 3, (C, 1, (Any, Any)) := 1,
        (P, 1, (Any, Any)) := 1, (Star, 1, (Any, Any)) := 3,
        (NoEvent, 1, (NonZero, Any)) := 1, (NoEvent, 1, (Zero, Any)) := 2]
  }

  /** The entries of state 2: with no event it stays while its second counter is non-zero and
      ends in 3 once it is zero. */
  function DeltaU2(): map<Key, int> {
    map[(M, 2, (Any, Any)) := 2, (E, 2, (Any, Any)) := 2, (C, 2, (Any, Any)) := 2,
        (P, 2, (Any, Any)) := 2, (Star, 2, (Any, Any)) := 3,
        (NoEvent, 2, (Any, NonZero)) := 2, (NoEvent, 2, (Any, Zero)) := 3]
  }

  /** `_compute_crm_transitions()`: the union of the three dicts. */
  function CrmTransitions(): map<Key, int> {
    DeltaU0() + DeltaU1() + DeltaU2()
  }

  /** `d` holds entries of state `u` only, each leading to a state from 0 to 3. */
  predicate OfState(d: map<Key, int>, u: int) {
    forall k :: k in d ==> Source(k) == u && 0 <= d[k] <= 3
  }

  /** State 0 has 6 entries, all leading to states 0 to 3. */
  lemma StateU0()
    ensures |DeltaU0()| == 6 && OfState(DeltaU0(), 0)
  {
  }

  /** State 1 has 7 entries, all leading to states 0 to 3. */
  lemma StateU1()
    ensures |DeltaU1()| == 7 && OfState(DeltaU1(), 1)
  {
  }

  /** State 2 has 7 entries, all leading to states 0 to 3. */
  lemma StateU2()
    ensures |DeltaU2()| == 7 && OfState(DeltaU2(), 2)
  {
  }

  /** The edges out of state 0: it stays, enters 1 on "E" or ends in 3 on "*". */
  lemma EdgesU0()
    ensures Edges(DeltaU0(), Source) == {(0, 0), (0, 1), (0, 3)}
  {
    var d := DeltaU0();
    assert (M, 0, (Any, Any)) in d && (E, 0, (Any, Any)) in d && (Star, 0, (Any, Any)) in d;
  }

  /** The edges out of state 1: it stays, moves on to 2 once its counter is zero, or ends in 3. */
  lemma EdgesU1()
    ensures Edges(DeltaU1(), Source) == {(1, 1), (1, 2), (1, 3)}
  {
    var d := DeltaU1();
    assert (M, 1, (Any, Any)) in d && (E, 1, (Any, Any)) in d && (NoEvent, 1, (Zero, Any)) in d;
  }

  /** The edges out of state 2: it stays or ends in 3. */
  lemma EdgesU2()
    ensures Edges(DeltaU2(), Source) == {(2, 2), (2, 3)}
  {
    var d := DeltaU2();
    assert (M, 2, (Any, Any)) in d && (Star, 2, (Any, Any)) in d;
  }

  /** Merging two dicts with disjoint keys keeps every entry of both. */
  lemma MergeSize(a: map<Key, int>, b: map<Key, int>)
    requires a.Keys !! b.Keys
    ensures |a + b| == |a| + |b|
  {
    assert (a + b).Keys == a.Keys + b.Keys;
    assert a.Keys * b.Keys == {};
  }

  /** The entries of two different states have disjoint keys. */
  lemma Disjoint(a: map<Key, int>, b: map<Key, int>, u: int, v: int)
    requires u != v && OfState(a, u) && OfState(b, v)
    ensures a.Keys !! b.Keys
  {
    forall k | k in a
      ensures k !in b
    {
      assert Source(k) == u;
    }
  }

  /** Three dicts holding the entries of states 0, 1 and 2 have disjoint keys, so merging them
      overrides nothing: the union has as many entries as the three together. */
  lemma UnionOfStates(d0: map<Key, int>, d1: map<Key, int>, d2: map<Key, int>)
    requires OfState(d0, 0) && OfState(d1, 1) && OfState(d2, 2)
    ensures d0.Keys !! d1.Keys && d0.Keys !! d2.Keys && d1.Keys !! d2.Keys
    ensures |d0 + d1 + d2| == |d0| + |d1| + |d2|
  {
    Disjoint(d0, d1, 0, 1);
    Disjoint(d0, d2, 0, 2);
    Disjoint(d1, d2, 1, 2);
    MergeSize(d0, d1);
    MergeSize(d0 + d1, d2);
  }

  /** Every entry of the union of three dicts holding the entries of states 0, 1 and 2 leaves
      one of those states and leads to a state from 0 to 3. */
  lemma UnionRange(d0: map<Key, int>, d1: map<Key, int>, d2: map<Key, int>)
    requires OfState(d0, 0) && OfState(d1, 1) && OfState(d2, 2)
    ensures forall k :: k in d0 + d1 + d2 ==> 0 <= Source(k) <= 2 && 0 <= (d0 + d1 + d2)[k] <= 3
  {
  }

  /** The edges of the union of three dicts with disjoint keys are the edges of the three. */
  lemma UnionEdges(d: map<Key, int>, d0: map<Key, int>, d1: map<Key, int>, d2: map<Key, int>, e: set<(int, int)>)
    requires d == d0 + d1 + d2
    requires d0.Keys !! d1.Keys && d0.Keys !! d2.Keys && d1.Keys !! d2.Keys
    requires e == Edges(d0, Source) + Edges(d1, Source) + Edges(d2, Source)
    ensures Edges(d, Source) == e
  {
    EdgesUnion(d0, d1, Source);
    EdgesUnion(d0 + d1, d2, Source);
  }

  /** The edges of the machine, whatever the size of the environment. */
  const CrmEdges: set<(int, int)> := {(0, 0), (0, 1), (0, 3), (1, 1), (1, 2), (1, 3), (2, 2), (2, 3)}

  /** The three dicts hold the entries of different states, so the union overrides none of
      them. */
  lemma StatesDisjoint()
    ensures DeltaU0().Keys !! DeltaU1().Keys && DeltaU0().Keys !! DeltaU2().Keys && DeltaU1().Keys !! DeltaU2().Keys
  {
    StateU0();
    StateU1();
    StateU2();
    UnionOfStates(DeltaU0(), DeltaU1(), DeltaU2());
  }

  /** The dict has 20 entries: 6 for state 0 and 7 each for states 1 and 2. */
  lemma CrmSize()
    ensures |CrmTransitions()| == 20
  {
    StateU0();
    StateU1();
    StateU2();
    UnionOfStates(DeltaU0(), DeltaU1(), DeltaU2());
  }

  /** No entry leaves the terminal state 3, and every entry leads to a state from 0 to 3. */
  lemma CrmRange()
    ensures forall k :: k in CrmTransitions() ==> 0 <= Source(k) <= 2 && 0 <= CrmTransitions()[k] <= 3
  {
    StateU0();
    StateU1();
    StateU2();
    UnionRange(DeltaU0(), DeltaU1(), DeltaU2());
  }

  /** The edge set of the dict is `CrmEdges`. */
  lemma CrmEdgeSet()
    ensures Edges(CrmTransitions(), Source) == CrmEdges
  {
    StatesDisjoint();
    EdgesU0();
    EdgesU1();
    EdgesU2();
    UnionEdges(CrmTransitions(), DeltaU0(), DeltaU1(), DeltaU2(), CrmEdges);
  }

  /** "*" leads from every non-terminal state to the terminal state 3. */
  lemma StarEnds(u: int)
    requires 0 <= u <= 2
    ensures (Star, u, (Any, Any)) in CrmTransitions() && CrmTransitions()[(Star, u, (Any, Any))] == 3
  {
  }

  /** With no event, state 1 stays while its first counter is non-zero and moves on to 2 once
      it is zero, and state 2 stays while its second counter is non-zero and moves on to 3 once
      it is zero. */
  lemma CounterMoves()
    ensures CrmTransitions()[(NoEvent, 1, (NonZero, Any))] == 1 && CrmTransitions()[(NoEvent, 1, (Zero, Any))] == 2
    ensures CrmTransitions()[(NoEvent, 2, (Any, NonZero))] == 2 && CrmTransitions()[(NoEvent, 2, (Any, Zero))] == 3
  {
  }

  /** `compute_crm_transition_graph()`: the `add_edge` loop over the dict. */
  method ComputeCrmTransitionGraph() returns (edges: set<(int, int)>)
    ensures edges == CrmEdges
  {
    CrmEdgeSet();
    edges := TransitionGraph(CrmTransitions(), Source);
  }
}
