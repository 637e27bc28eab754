/**
 * The reward machine of the complexity study: `_compute_rm_transitions(max_n)` builds, block by
 * block, a transition dict keyed by (label, state), and `compute_rm_transition_graph` keeps its
 * edges. Block `i` (1 <= i <= max_n) starts at state i * i: a head state, `i` states that wait
 * for "C", then `i` states that wait for "P". State 0 is block 0. The terminal state is
 * (max_n + 1) * (max_n + 1).
 */
module ComplexityRm {
  import opened TransitionGraphs

  /** The label tuples of the dict keys: ("M",), ("E",), ("C",), ("P",), ("*",) and (). */
  datatype Label = M | E | C | P | Star | NoEvent

  /** The terminal sentinel of the loop, rewritten at the end. */
  const Sentinel: int := -1

  /** n * n, built up one odd number at a time. */
  function Square(n: nat): nat {
    if n == 0 then 0 else Square(n - 1) + 2 * n - 1
  }

  lemma {:induction false} SquareIs(n: nat)
    ensures Square(n) == n * n
  {
    if n > 0 {
      SquareIs(n - 1);
    }
  }

  /** Squares grow with their roots. */
  lemma {:induction false} SquareMonotone(a: nat, b: nat)
    requires a <= b
    ensures Square(a) <= Square(b)
    decreases b
  {
    if a < b {
      SquareMonotone(a, b - 1);
    }
  }

  /** The terminal state of the machine for `maxN`: (maxN + 1) * (maxN + 1). */
  function Terminal(maxN: nat): nat {
    Square(maxN + 1)
  }

  /** Where a state lies: its block and its offset in the block. */
  datatype Pos = Pos(block: nat, offset: nat)

  /** The position of state `s`. Block `i` holds 1 + 2 * i states, so the offsets of block `i`
      run from 0 to 2 * i. */
  function Position(s: nat): (p: Pos)
    ensures p.offset <= 2 * p.block
  {
    if s == 0 then Pos(0, 0)
    else
      var p := Position(s - 1);
      if p.offset == 2 * p.block then Pos(p.block + 1, 0) else Pos(p.block, p.offset + 1)
  }

  /** Block `i` starts at state i * i. */
  lemma {:induction false} BlockStart(s: nat)
    ensures s == Square(Position(s).block) + Position(s).offset
  {
    if s > 0 {
      BlockStart(s - 1);
    }
  }

  /** State i * i + o, for an offset o of block i, lies at offset o of block i. */
  lemma {:induction false} PositionOf(i: nat, o: nat)
    requires o <= 2 * i
    ensures Position(Square(i) + o) == Pos(i, o)
    decreases i, o
  {
    if o > 0 {
      PositionOf(i, o - 1);
    } else if i > 0 {
      PositionOf(i - 1, 2 * (i - 1));
    }
  }

  /** The value the loop writes for `(l, s)` before the sentinel is rewritten. In block `i`:
      the head (offset 0) jumps on "M" past the 2 * i other states of its block and enters the
      block on "E" (block 0 stays on "E"); the next `i` states move on on "C"; the last `i`
      states move on on "P", the very last one to the sentinel; "*" always leads to the
      sentinel; every other label stays. */
  function RawTarget(l: Label, s: nat): int {
    var p := Position(s);
    match l
    case M => if p.offset == 0 then s + 1 + 2 * p.block else s
    case E => if p.offset == 0 && p.block > 0 then s + 1 else s
    case C => if 0 < p.offset <= p.block then s + 1 else s
    case P => if p.offset == 2 * p.block && p.block > 0 then Sentinel else if p.offset > p.block then s + 1 else s
    case Star => Sentinel
    case NoEvent => s
  }

  /** Rewriting the sentinel to the terminal state. */
  function Remap(v: int, terminal: int): int {
    if v == Sentinel then terminal else v
  }

  /** The entries of the machine once the sentinel is rewritten to the terminal state. */
  function Target(maxN: nat, l: Label, s: nat): int {
    Remap(RawTarget(l, s), Terminal(maxN))
  }

  /** `d` holds exactly the entries (l, s) for s < m, each valued by `f`. */
  ghost predicate Filled(d: map<(Label, int), int>, m: nat, f: (Label, nat) -> int) {
    && (forall l, s :: (l, s) in d <==> 0 <= s < m)
    && (forall l, s :: 0 <= s < m ==> d[(l, s)] == f(l, s))
  }

  /** `d` is the transition dict of the machine for `maxN`: one entry per label for every state
      below the terminal state, valued by `Target`. */
  ghost predicate IsRmTransitions(maxN: nat, d: map<(Label, int), int>) {
    Filled(d, Terminal(maxN), (l: Label, s: nat) => Target(maxN, l, s))
  }

  /** Writing the six entries of state `m` extends a filled dict by one state. */
  lemma FillNext(d: map<(Label, int), int>, m: nat, f: (Label, nat) -> int, vm: int, ve: int, vc: int, vp: int, vs: int, vn: int)
    requires Filled(d, m, f)
    requires vm == f(M, m) && ve == f(E, m) && vc == f(C, m)
    requires vp == f(P, m) && vs == f(Star, m) && vn == f(NoEvent, m)
    ensures Filled(d + map[(M, m) := vm, (E, m) := ve, (C, m) := vc, (P, m) := vp, (Star, m) := vs, (NoEvent, m) := vn], m + 1, f)
  {
    var d' := d + map[(M, m as int) := vm, (E, m as int) := ve, (C, m as int) := vc, (P, m as int) := vp,
                      (Star, m as int) := vs, (NoEvent, m as int) := vn];
    forall l, s | 0 <= s < m + 1
      ensures (l, s) in d' && d'[(l, s)] == f(l, s)
    {
      if s == m {
        match l
        case M =>
        case E =>
        case C =>
        case P =>
        case Star =>
        case NoEvent =>
      }
    }
  }

  /** The six entries the loop writes for state `m`, before the sentinel is rewritten. */
  function RawRow(m: nat): map<(Label, int), int> {
    map[(M, m as int) := RawTarget(M, m), (E, m as int) := RawTarget(E, m), (C, m as int) := RawTarget(C, m),
        (P, m as int) := RawTarget(P, m), (Star, m as int) := RawTarget(Star, m), (NoEvent, m as int) := RawTarget(NoEvent, m)]
  }

  /** The entries of states 0 .. m - 1 the loop writes, state by state. */
  function RawTable(m: nat): map<(Label, int), int> {
    if m == 0 then map[] else RawTable(m - 1) + RawRow(m - 1)
  }

  /** The table of the first `m` states holds one entry per label for each of them. */
  lemma {:induction false} RawTableFilled(m: nat)
    ensures Filled(RawTable(m), m, RawTarget)
  {
    if m > 0 {
      var k := m - 1;
      RawTableFilled(k);
      FillNext(RawTable(k), k, RawTarget, RawTarget(M, k), RawTarget(E, k), RawTarget(C, k),
               RawTarget(P, k), RawTarget(Star, k), RawTarget(NoEvent, k));
      assert RawTable(m) == RawTable(k) + RawRow(k);
    }
  }

  /** The head of block `i`: the values the loop writes for it, and where the next state lies. */
  lemma HeadStep(i: nat, sc: nat)
    requires i >= 1 && Position(sc) == Pos(i, 0)
    ensures RawTarget(M, sc) == sc + 1 + 2 * i && RawTarget(E, sc) == sc + 1
    ensures RawTarget(C, sc) == sc && RawTarget(P, sc) == sc
    ensures RawTarget(Star, sc) == Sentinel && RawTarget(NoEvent, sc) == sc
    ensures Position(sc + 1) == Pos(i, 1)
  {
  }

  /** The state at offset 1 + k of block `i`, which waits for "C". */
  lemma CStep(i: nat, k: nat, sc: nat)
    requires k < i && Position(sc) == Pos(i, 1 + k)
    ensures RawTarget(M, sc) == sc && RawTarget(E, sc) == sc
    ensures RawTarget(C, sc) == sc + 1 && RawTarget(P, sc) == sc
    ensures RawTarget(Star, sc) == Sentinel && RawTarget(NoEvent, sc) == sc
    ensures Position(sc + 1) == Pos(i, 2 + k)
  {
  }

  /** The state at offset 1 + i + k of block `i`, which waits for "P"; after the last one the
      next block starts. */
  lemma PStep(i: nat, k: nat, sc: nat)
    requires k < i && Position(sc) == Pos(i, 1 + i + k)
    ensures RawTarget(M, sc) == sc && RawTarget(E, sc) == sc && RawTarget(C, sc) == sc
    ensures RawTarget(P, sc) == if k < i - 1 then sc + 1 else Sentinel
    ensures RawTarget(Star, sc) == Sentinel && RawTarget(NoEvent, sc) == sc
    ensures Position(sc + 1) == if k < i - 1 then Pos(i, 2 + i + k) else Pos(i + 1, 0)
  {
  }

  /** Block 0 is state 0 alone, as the dict starts out. */
  lemma BlockZero()
    ensures map[(M, 0) := 1, (E, 0) := 0, (C, 0) := 0, (P, 0) := 0, (Star, 0) := -1, (NoEvent, 0) := 0] == RawTable(1)
    ensures Square(1) == 1
  {
  }

  /** The head of block `i` as the loop writes it extends the table by one state. */
  lemma HeadRow(i: nat, sc: nat, delta: map<(Label, int), int>)
    requires i >= 1 && Position(sc) == Pos(i, 0) && delta == RawTable(sc)
    ensures delta + map[(M, sc) := sc + 1 + 2 * i, (E, sc) := sc + 1, (C, sc) := sc, (P, sc) := sc,
                        (Star, sc) := -1, (NoEvent, sc) := sc] == RawTable(sc + 1)
    ensures Position(sc + 1) == Pos(i, 1)
  {
    HeadStep(i, sc);
  }

  /** A state that waits for "C", as the loop writes it, extends the table by one state. */
  lemma CRow(i: nat, k: nat, sc: nat, delta: map<(Label, int), int>)
    requires k < i && Position(sc) == Pos(i, 1 + k) && delta == RawTable(sc)
    ensures delta + map[(M, sc) := sc, (E, sc) := sc, (C, sc) := sc + 1, (P, sc) := sc,
                        (Star, sc) := -1, (NoEvent, sc) := sc] == RawTable(sc + 1)
    ensures Position(sc + 1) == Pos(i, 2 + k)
  {
    CStep(i, k, sc);
  }

  /** A state that waits for "P", as the loop writes it, extends the table by one state; for the
      last state of the block this holds once its "P" entry is overwritten with the sentinel. */
  lemma PRow(i: nat, k: nat, sc: nat, delta: map<(Label, int), int>)
    requires k < i && Position(sc) == Pos(i, 1 + i + k) && delta == RawTable(sc)
    ensures k < i - 1 ==> delta + map[(M, sc) := sc, (E, sc) := sc, (C, sc) := sc, (P, sc) := sc + 1,
                                      (Star, sc) := -1, (NoEvent, sc) := sc] == RawTable(sc + 1)
    ensures k == i - 1 ==> (delta + map[(M, sc) := sc, (E, sc) := sc, (C, sc) := sc, (P, sc) := sc + 1,
                                        (Star, sc) := -1, (NoEvent, sc) := sc])[(P, sc) := -1] == RawTable(sc + 1)
    ensures Position(sc + 1) == if k < i - 1 then Pos(i, 2 + i + k) else Pos(i + 1, 0)
  {
    PStep(i, k, sc);
    if k == i - 1 {
      LastOverwritten(delta, sc, sc, sc, sc, -1, sc);
    }
  }

  /** The "P" entry of the last state of a block is written as the next state first, and then
      overwritten with the sentinel. */
  lemma LastOverwritten(d: map<(Label, int), int>, m: nat, vm: int, ve: int, vc: int, vs: int, vn: int)
    ensures (d + map[(M, m) := vm, (E, m) := ve, (C, m) := vc, (P, m) := m + 1, (Star, m) := vs, (NoEvent, m) := vn])[(P, m) := -1]
            == d + map[(M, m) := vm, (E, m) := ve, (C, m) := vc, (P, m) := -1, (Star, m) := vs, (NoEvent, m) := vn]
  {
  }

  /** Rewriting the sentinel in every entry of the dict the block loop built gives the
      machine's transitions. */
  lemma RemapFilled(maxN: nat, raw: map<(Label, int), int>, d: map<(Label, int), int>)
    requires Filled(raw, Terminal(maxN), RawTarget)
    requires d.Keys == raw.Keys
    requires forall k :: k in d ==> d[k] == Remap(raw[k], Terminal(maxN))
    ensures IsRmTransitions(maxN, d)
  {
    forall l, s | 0 <= s < Terminal(maxN)
      ensures (l, s) in d && d[(l, s)] == Target(maxN, l, s)
    {
      assert (l, s) in raw;
    }
  }

  /** When the block loop ends, the state counter is the terminal state and the dict holds every
      state below it. */
  lemma LoopExit(maxN: nat, sc: nat, delta: map<(Label, int), int>)
    requires sc == Square(maxN + 1) && delta == RawTable(sc)
    ensures sc == Terminal(maxN) && Filled(delta, Terminal(maxN), RawTarget)
  {
    RawTableFilled(sc);
  }

  /** The last loop of `_compute_rm_transitions`: every sentinel value becomes `terminal`. */
  method RewriteSentinel(raw: map<(Label, int), int>, terminal: int) returns (delta: map<(Label, int), int>)
    ensures delta.Keys == raw.Keys
    ensures forall k :: k in delta ==> delta[k] == Remap(raw[k], terminal)
  {
    delta := raw;
    var todo := delta.Keys;
    while todo != {}
      invariant todo <= delta.Keys && delta.Keys == raw.Keys
      invariant forall k :: k in delta ==> delta[k] == if k in todo then raw[k] else Remap(raw[k], terminal)
      decreases |todo|
    {
      var key :| key in todo;
      if delta[key] == -1 {
        delta := delta[key := terminal];
      }
      todo := todo - {key};
    }
  }

  /** The loop over the `i` states of block `i` that wait for "C". */
  method WriteWaitC(i: nat, delta0: map<(Label, int), int>, start: nat) returns (delta: map<(Label, int), int>, next: nat)
    requires Position(start) == Pos(i, 1) && delta0 == RawTable(start)
    ensures next == start + i && Position(next) == Pos(i, 1 + i)
    ensures delta == RawTable(next)
  {
    delta, next := delta0, start;
    var k := 0;
    while k < i
      invariant 0 <= k <= i && next == start + k
      invariant Position(next) == Pos(i, 1 + k)
      invariant delta == RawTable(next)
    {
      CRow(i, k, next, delta);
      delta := delta + map[(M, next) := next, (E, next) := next, (C, next) := next + 1, (P, next) := next,
                           (Star, next) := -1, (NoEvent, next) := next];
      next := next + 1;
      k := k + 1;
    }
  }

  /** The loop over the `i` states of block `i` that wait for "P", and the sentinel written
      for the last of them. */
  method WriteWaitP(i: nat, delta0: map<(Label, int), int>, start: nat) returns (delta: map<(Label, int), int>, next: nat)
    requires i >= 1 && Position(start) == Pos(i, 1 + i) && delta0 == RawTable(start)
    ensures next == start + i && Position(next) == Pos(i + 1, 0)
    ensures delta == RawTable(next)
  {
    delta, next := delta0, start;
    var k := 0;
    while k < i
      invariant 0 <= k <= i && next == start + k
      invariant k < i ==> Position(next) == Pos(i, 1 + i + k)
      invariant k == i ==> Position(next) == Pos(i + 1, 0)
      invariant k < i ==> delta == RawTable(next)
      invariant k == i ==> delta[(P, next - 1) := -1] == RawTable(next)
    {
      PRow(i, k, next, delta);
      delta := delta + map[(M, next) := next, (E, next) := next, (C, next) := next, (P, next) := next + 1,
                           (Star, next) := -1, (NoEvent, next) := next];
      next := next + 1;
      k := k + 1;
    }
    delta := delta[(P, next - 1) := -1];
  }

  /** One pass of the block loop: the head of block `i`, then its states that wait for "C" and
      those that wait for "P". */
  method WriteBlock(i: nat, delta0: map<(Label, int), int>, start: nat) returns (delta: map<(Label, int), int>, next: nat)
    requires i >= 1 && start == Square(i) && delta0 == RawTable(start)
    ensures next == Square(i + 1) && delta == RawTable(next)
  {
    PositionOf(i, 0);
    HeadRow(i, start, delta0);
    delta := delta0 + map[(M, start) := start + 1 + 2 * i, (E, start) := start + 1, (C, start) := start, (P, start) := start,
                          (Star, start) := -1, (NoEvent, start) := start];
    delta, next := WriteWaitC(i, delta, start + 1);
    delta, next := WriteWaitP(i, delta, next);
  }

  /** `_compute_rm_transitions(max_n)`: the dict the loops build is the machine's transitions. */
  method ComputeRmTransitions(maxN: nat) returns (delta: map<(Label, int), int>)
    ensures IsRmTransitions(maxN, delta)
  {
    BlockZero();
    delta := map[(M, 0) := 1, (E, 0) := 0, (C, 0) := 0, (P, 0) := 0, (Star, 0) := -1, (NoEvent, 0) := 0];
    var stateCounter: nat := 1;
    var i := 1;
    while i <= maxN
      invariant 1 <= i <= maxN + 1
      invariant stateCounter == Square(i) && delta == RawTable(stateCounter)
    {
      delta, stateCounter := WriteBlock(i, delta, stateCounter);
      i := i + 1;
    }
    LoopExit(maxN, stateCounter, delta);

    ghost var raw := delta;
    delta := RewriteSentinel(delta, stateCounter);
    RemapFilled(maxN, raw, delta);
  }

  // ---------------------------------------------------------------------------------------
  // Properties of the transitions.

  /** Every state below the terminal state has exactly the six entries M, E, C, P, "*" and (),
      and the terminal state has none. */
  lemma SixEntries(maxN: nat, d: map<(Label, int), int>, s: nat)
    requires IsRmTransitions(maxN, d) && s < Terminal(maxN)
    ensures (set k | k in d && k.1 == s) == {(M, s), (E, s), (C, s), (P, s), (Star, s), (NoEvent, s)}
    ensures forall k :: k in d ==> k.1 < Terminal(maxN)
  {
    forall k | k in d
      ensures k.1 < Terminal(maxN)
    {
      assert (k.0, k.1) in d;
    }
    var here := set k | k in d && k.1 == s;
    forall k | k in here
      ensures k in {(M, s as int), (E, s as int), (C, s as int), (P, s as int), (Star, s as int), (NoEvent, s as int)}
    {
      match k.0
      case M =>
      case E =>
      case C =>
      case P =>
      case Star =>
      case NoEvent =>
    }
    assert (M, s as int) in d && (E, s as int) in d && (C, s as int) in d;
    assert (P, s as int) in d && (Star, s as int) in d && (NoEvent, s as int) in d;
  }

  /** No sentinel is left: every target lies between 0 and the terminal state. */
  lemma TargetsInRange(maxN: nat, l: Label, s: nat)
    requires s < Terminal(maxN)
    ensures 0 <= Target(maxN, l, s) <= Terminal(maxN)
  {
    BlockStart(s);
    var i := Position(s).block;
    assert i <= maxN by {
      if i > maxN {
        SquareMonotone(maxN + 1, i);
      }
    }
    SquareMonotone(i + 1, maxN + 1);
  }

  /** Block `i` of a machine for `maxN` ends below the terminal state. */
  lemma BlockFits(maxN: nat, i: nat)
    requires 1 <= i <= maxN
    ensures Square(i) + 2 * i < Terminal(maxN)
  {
    SquareMonotone(i + 1, maxN + 1);
  }

  /** Block `i` starts at i * i: "M" at its head jumps to the next block, at (i + 1) * (i + 1),
      "E" enters it, and "P" from its last state leads to the terminal state. */
  lemma BlockShape(maxN: nat, i: nat)
    requires 1 <= i <= maxN
    ensures Square(i) + 2 * i < Terminal(maxN)
    ensures Target(maxN, M, Square(i)) == Square(i + 1)
    ensures Target(maxN, E, Square(i)) == Square(i) + 1
    ensures Target(maxN, P, Square(i) + 2 * i) == Terminal(maxN)
  {
    BlockFits(maxN, i);
    PositionOf(i, 0);
    PositionOf(i, 2 * i);
  }

  /** Within block `i`, "C" and then "P" advance one state at a time, and "*" leads to the
      terminal state. */
  lemma BlockSteps(maxN: nat, i: nat, s: nat)
    requires 1 <= i <= maxN && Square(i) < s < Square(i) + 2 * i
    ensures s < Terminal(maxN)
    ensures s <= Square(i) + i ==> Target(maxN, C, s) == s + 1 && Target(maxN, P, s) == s
    ensures s > Square(i) + i ==> Target(maxN, P, s) == s + 1 && Target(maxN, C, s) == s
    ensures Target(maxN, Star, s) == Terminal(maxN)
  {
    BlockFits(maxN, i);
    var o := s - Square(i);
    PositionOf(i, o);
    assert Position(s) == Pos(i, o);
    assert RawTarget(Star, s) == Sentinel;
    if o <= i {
      assert RawTarget(C, s) == s + 1 && RawTarget(P, s) == s;
    } else {
      assert RawTarget(P, s) == s + 1 && RawTarget(C, s) == s;
    }
  }

  /** The source state of a key: the labels are dropped. */
  function State(k: (Label, int)): int {
    k.1
  }

  /** The edges of the machine: every state below the terminal state has an edge to the
      terminal state (on "*"), no edge leaves the terminal state, and every edge ends between 0
      and the terminal state. */
  lemma RmEdges(maxN: nat, d: map<(Label, int), int>, s: nat)
    requires IsRmTransitions(maxN, d) && s < Terminal(maxN)
    ensures (s as int, Terminal(maxN) as int) in Edges(d, State)
    ensures forall e :: e in Edges(d, State) ==> 0 <= e.0 < Terminal(maxN) && 0 <= e.1 <= Terminal(maxN)
  {
    assert (Star, s as int) in d && d[(Star, s as int)] == Target(maxN, Star, s);
    TargetsInRange(maxN, Star, s);
    forall e | e in Edges(d, State)
      ensures 0 <= e.0 < Terminal(maxN) && 0 <= e.1 <= Terminal(maxN)
    {
      var k :| k in d && State(k) == e.0 && d[k] == e.1;
      assert (k.0, k.1) in d;
      TargetsInRange(maxN, k.0, k.1);
    }
  }

  /** `compute_rm_transition_graph(max_n)`: the edges of the machine's transitions. */
  method ComputeRmTransitionGraph(maxN: nat) returns (edges: set<(int, int)>)
    ensures exists d :: IsRmTransitions(maxN, d) && edges == Edges(d, State)
  {
    var transitions := ComputeRmTransitions(maxN);
    edges := TransitionGraph(transitions, State);
  }
}
