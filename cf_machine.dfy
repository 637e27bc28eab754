/**
 * The context-free counting reward machine of the warehouse experiments
 * (experiments/warehouse/lib/machines/contextfree.py). Two counters hold the red and green
 * blocks still to pack. The decision state `0` reads them and enters the red module while red
 * blocks are left, else the green module; a module ends with a drop that decrements its colour's
 * counter and returns to `0`; with both counters at zero the decision leads to the terminal state.
 */
module ContextFree {
  import opened Wrappers
  import opened Text
  import opened Compiler
  import opened Dicts
  import opened Automaton
  import opened Blocks
  import CS = ContextSensitive

  // ---------------------------------------------------------------------------------------
  // The two block modules, in the order the table builders add them.

  /** Module `m` is green (0) or red (1). */
  function ModuleColour(m: nat): string {
    if m == 0 then "GREEN" else "RED"
  }

  /** The states of module `m` are `ModuleStart(m) .. ModuleStart(m) + 4`. */
  function ModuleStart(m: nat): int {
    5 * m + 1
  }

  /** The counter text every expression of module `m` carries. */
  function ModuleCounters(m: nat): string {
    if m == 0 then "(Z, NZ)" else "(NZ, -)"
  }

  /** The pattern that counter text denotes. */
  function ModulePattern(m: nat): seq<CounterTest> {
    if m == 0 then [Zero, NonZero] else [NonZero, Any]
  }

  /** The colours the counter and reward builders accept. */
  predicate KnownColour(colour: string) {
    colour == "RED" || colour == "GREEN"
  }

  /** The counter update of a completed drop of a block of `colour`; any other colour is
      rejected. */
  function DropDelta(colour: string): (r: Option<seq<int>>)
    ensures r.Some? <==> KnownColour(colour)
    ensures r.Some? ==> |r.value| == 2
  {
    if colour == "RED" then Some([-1, 0])
    else if colour == "GREEN" then Some([0, -1])
    else None
  }

  /** The tables of module `m`. */
  function UOf(m: nat): Dict<int, Dict<string, int>> {
    ModuleU(ModuleStart(m), ModuleCounters(m), ModuleColour(m))
  }

  function COf(m: nat): Dict<int, Dict<string, seq<int>>>
    requires m < 2
  {
    ModuleC(ModuleStart(m), ModuleCounters(m), ModuleColour(m), DropDelta(ModuleColour(m)).value)
  }

  function ROf(m: nat): Dict<int, Dict<string, RewardFn>> {
    ModuleR(ModuleStart(m), ModuleCounters(m), ModuleColour(m))
  }

  /** The counter text of module `m` is the spaced listing of its pattern. */
  lemma CountersText(m: nat)
    requires m < 2
    ensures ModuleCounters(m) == SpacedText(ModulePattern(m))
  {
    if m == 0 {
      assert "(Z, NZ)" == SpacedText([Zero, NonZero]);
    } else {
      assert "(NZ, -)" == SpacedText([NonZero, Any]);
    }
  }

  /** A drop decrements exactly the counter its module's pattern requires to be non-zero, by
      one, and leaves the other alone. */
  lemma DropMatchesPattern(m: nat)
    requires m < 2
    ensures var d, p := DropDelta(ModuleColour(m)).value, ModulePattern(m);
            |d| == |p| == 2
            && forall i :: 0 <= i < 2 ==> d[i] >= -1 && (d[i] < 0 <==> p[i] == NonZero) && (d[i] >= 0 ==> d[i] == 0)
  {
  }

  lemma ModuleListing(m: nat)
    requires m < 2
    ensures SpacedListing(ModuleCounters(m), ModulePattern(m)) && IsColour(ModuleColour(m))
  {
    CountersText(m);
    SpacedTextListing(ModulePattern(m));
  }

  // ---------------------------------------------------------------------------------------
  // The decision state.

  /** The counter texts of the decision state's expressions, in declaration order. */
  function DecisionCounters(): seq<string> {
    ["(Z, Z)", "(NZ, -)", "(Z, NZ)"]
  }

  /** The patterns they denote: all packed, red blocks left, green blocks left. */
  function DecisionPattern(j: nat): seq<CounterTest>
    requires j < 3
  {
    if j == 0 then [Zero, Zero] else ModulePattern(2 - j)
  }

  /** The decision state's expressions "/ (..)", each with its value. */
  function DecisionRows<V>(values: seq<V>): (d: Dict<string, V>)
    requires |values| == 3
    ensures |d| == 3 && forall j :: 0 <= j < 3 ==> d[j] == ("/ " + DecisionCounters()[j], values[j])
  {
    seq(3, j requires 0 <= j < 3 => ("/ " + DecisionCounters()[j], values[j]))
  }

  function DecisionU(): Dict<int, Dict<string, int>> {
    [(0, DecisionRows([Sentinel, 10, 5]))]
  }

  function DecisionC(): Dict<int, Dict<string, seq<int>>> {
    [(0, DecisionRows([[0, 0], [0, 0], [0, 0]]))]
  }

  function DecisionR(): Dict<int, Dict<string, RewardFn>> {
    [(0, DecisionRows([Constant(0), Constant(0), Constant(0)]))]
  }

  /** Every decision expression compiles to the constant-true formula and its pattern. */
  lemma DecisionCompiles()
    ensures forall j :: 0 <= j < 3 ==> Compile("/ " + DecisionCounters()[j]) == Ok(Guard(True, DecisionPattern(j)))
  {
    forall j | 0 <= j < 3
      ensures Compile("/ " + DecisionCounters()[j]) == Ok(Guard(True, DecisionPattern(j)))
    {
      DecisionListing(j);
      CS.CompileCounters(DecisionCounters()[j], DecisionPattern(j));
    }
  }

  lemma DecisionListing(j: nat)
    requires j < 3
    ensures SpacedListing(DecisionCounters()[j], DecisionPattern(j))
  {
    if j == 0 {
      assert "(Z, Z)" == SpacedText([Zero, Zero]);
      SpacedTextListing([Zero, Zero]);
    } else {
      ModuleListing(2 - j);
    }
  }

  /** The decision expression that applies to counters `c`: red blocks left, else green, else
      all packed. */
  function DecisionClass(c: seq<int>): nat
    requires |c| == 2
  {
    if c[0] != 0 then 1 else if c[1] != 0 then 2 else 0
  }

  /** For two counters exactly one decision pattern matches, the one of their class: the
      decision is a partition of the counter classes. */
  lemma DecisionPartition(c: seq<int>)
    requires |c| == 2
    ensures forall j :: 0 <= j < 3 ==> (Matches(DecisionPattern(j), c) <==> j == DecisionClass(c))
  {
    forall j | 0 <= j < 3
      ensures Matches(DecisionPattern(j), c) <==> j == DecisionClass(c)
    {
      var p := DecisionPattern(j);
      assert Matches(p, c) <==> Accepts(p[0], c, 0) && Accepts(p[1], c, 1);
    }
  }

  // ---------------------------------------------------------------------------------------
  // The raw tables the three builders produce.

  /** `_get_state_transition_function`: the decision state, then the green and red modules
      merged in. */
  function RawU(): Dict<int, Dict<string, int>> {
    Merge(Merge(DecisionU(), UOf(0)), UOf(1))
  }

  function RawC(): Dict<int, Dict<string, seq<int>>> {
    Merge(Merge(DecisionC(), COf(0)), COf(1))
  }

  function RawR(): Dict<int, Dict<string, RewardFn>> {
    Merge(Merge(DecisionR(), ROf(0)), ROf(1))
  }

  /** Module `m` occupies its five states, its three tables are aligned, and no expression
      occurs twice in one of its states. */
  lemma ModuleWellKeyed(m: nat)
    requires m < 2
    ensures Keys(UOf(m)) == CS.Span(ModuleStart(m)) && Keys(COf(m)) == Keys(UOf(m)) && Keys(ROf(m)) == Keys(UOf(m))
    ensures forall k :: 0 <= k < 5 ==>
              Distinct(Keys(UOf(m)[k].1)) && Keys(COf(m)[k].1) == Keys(UOf(m)[k].1) && Keys(ROf(m)[k].1) == Keys(UOf(m)[k].1)
  {
    ModuleAligned(m);
    ModuleDistinct(m);
  }

  /** Module `m`'s three tables have its five states and, state by state, the same expressions. */
  lemma ModuleAligned(m: nat)
    requires m < 2
    ensures Keys(UOf(m)) == CS.Span(ModuleStart(m)) && Keys(COf(m)) == Keys(UOf(m)) && Keys(ROf(m)) == Keys(UOf(m))
    ensures forall k :: 0 <= k < 5 ==> Keys(COf(m)[k].1) == Keys(UOf(m)[k].1) && Keys(ROf(m)[k].1) == Keys(UOf(m)[k].1)
  {
    var colour := ModuleColour(m);
    ModuleShape(ModuleStart(m), ModuleCounters(m), colour, DropDelta(colour).value);
  }

  /** No expression occurs twice in one state of module `m`. */
  lemma ModuleDistinct(m: nat)
    requires m < 2
    ensures forall k :: 0 <= k < 5 ==> Distinct(Keys(UOf(m)[k].1))
  {
    var s, cs, colour := ModuleStart(m), ModuleCounters(m), ModuleColour(m);
    ModuleShape(s, cs, colour, DropDelta(colour).value);
    ModuleListing(m);
    forall k | 0 <= k < 5
      ensures Distinct(Keys(UOf(m)[k].1))
    {
      StageTextsDistinct(k, colour, cs, ModulePattern(m));
    }
  }


  /** Module `m`'s state table alone: its five states, no expression twice in one of them. */
  lemma UKeyed(m: nat)
    requires m < 2
    ensures Keys(UOf(m)) == CS.Span(ModuleStart(m)) && forall k :: 0 <= k < 5 ==> Distinct(Keys(UOf(m)[k].1))
  {
    ModuleWellKeyed(m);
  }

  /** Module `m`'s counter table alone: its five states, no expression twice in one of them. */
  lemma CKeyed(m: nat)
    requires m < 2
    ensures Keys(COf(m)) == CS.Span(ModuleStart(m)) && forall k :: 0 <= k < 5 ==> Distinct(Keys(COf(m)[k].1))
  {
    ModuleWellKeyed(m);
  }

  /** Module `m`'s reward table alone: its five states, no expression twice in one of them. */
  lemma RKeyed(m: nat)
    requires m < 2
    ensures Keys(ROf(m)) == CS.Span(ModuleStart(m)) && forall k :: 0 <= k < 5 ==> Distinct(Keys(ROf(m)[k].1))
  {
    ModuleWellKeyed(m);
  }

  /** The parts of the state table: the decision state on `0`, each module on its five
      states, no expression twice in a state. */
  lemma UParts()
    ensures Keys(DecisionU()) == [0] && Keys(UOf(0)) == CS.Span(1) && Keys(UOf(1)) == CS.Span(6)
    ensures forall k :: 0 <= k < 5 ==> Distinct(Keys(UOf(0)[k].1)) && Distinct(Keys(UOf(1)[k].1))
  {
    UKeyed(0);
    UKeyed(1);
  }

  /** The parts of the counter table: the decision state on `0`, each module on its five
      states, no expression twice in a state. */
  lemma CParts()
    ensures Keys(DecisionC()) == [0] && Keys(COf(0)) == CS.Span(1) && Keys(COf(1)) == CS.Span(6)
    ensures forall k :: 0 <= k < 5 ==> Distinct(Keys(COf(0)[k].1)) && Distinct(Keys(COf(1)[k].1))
  {
    CKeyed(0);
    CKeyed(1);
  }

  /** The parts of the reward table: the decision state on `0`, each module on its five
      states, no expression twice in a state. */
  lemma RParts()
    ensures Keys(DecisionR()) == [0] && Keys(ROf(0)) == CS.Span(1) && Keys(ROf(1)) == CS.Span(6)
    ensures forall k :: 0 <= k < 5 ==> Distinct(Keys(ROf(0)[k].1)) && Distinct(Keys(ROf(1)[k].1))
  {
    RKeyed(0);
    RKeyed(1);
  }

  /** Merging two modules on fresh states into the decision state appends them. */
  lemma {:induction false} MergeModules<V>(d: Dict<int, Dict<string, V>>, a: Dict<int, Dict<string, V>>, b: Dict<int, Dict<string, V>>)
    requires Keys(d) == [0] && Keys(a) == CS.Span(1) && Keys(b) == CS.Span(6)
    requires forall k :: 0 <= k < 5 ==> Distinct(Keys(a[k].1)) && Distinct(Keys(b[k].1))
    ensures Merge(Merge(d, a), b) == d + a + b
  {
    assert |d| == 1 && d[0].0 == Keys(d)[0] == 0;
    CS.AppendSpan(d, a, 1);
    CS.AppendSpan(d + a, b, 6);
  }

  /** The builders' merge loops only append: the decision state, then the green and red
      modules. */
  lemma RawUFlat()
    ensures RawU() == DecisionU() + UOf(0) + UOf(1)
  {
    UParts();
    MergeModules(DecisionU(), UOf(0), UOf(1));
  }


  lemma RawCFlat()
    ensures RawC() == DecisionC() + COf(0) + COf(1)
  {
    CParts();
    MergeModules(DecisionC(), COf(0), COf(1));
  }


  lemma RawRFlat()
    ensures RawR() == DecisionR() + ROf(0) + ROf(1)
  {
    RParts();
    MergeModules(DecisionR(), ROf(0), ROf(1));
  }


  // ---------------------------------------------------------------------------------------
  // The state table once the sentinel is replaced.

  /** The states of the machine in table order. */
  function AllStates(): (us: seq<int>)
    ensures |us| == 11
  {
    seq(11, i requires 0 <= i < 11 => StateAt(i))
  }

  /** State `i` of the table: the decision state, then each module from its entry state down. */
  function StateAt(i: nat): int {
    if i == 0 then 0 else if i < 6 then 6 - i else 16 - i
  }

  /** The decision state once its sentinel leads to the terminal state 11. */
  function DecisionU11(): Dict<int, Dict<string, int>> {
    [(0, DecisionRows([11, 10, 5]))]
  }

  /** Element `i` of the decision state followed by the two modules. */
  lemma {:induction false} PartAt<V>(d: seq<V>, a: seq<V>, b: seq<V>, i: nat)
    requires |d| == 1 && |a| == 5 && |b| == 5 && i < 11
    ensures (d + a + b)[i] == if i == 0 then d[0] else if i < 6 then a[i - 1] else b[i - 6]
  {
  }

  lemma {:induction false} KeysParts<V>(d: Dict<int, V>, a: Dict<int, V>, b: Dict<int, V>)
    requires Keys(d) == [0] && Keys(a) == CS.Span(1) && Keys(b) == CS.Span(6)
    ensures Keys(d + a + b) == AllStates()
  {
    var t := d + a + b;
    forall i | 0 <= i < 11
      ensures Keys(t)[i] == StateAt(i)
    {
      PartAt(d, a, b, i);
      if i == 0 { assert Keys(d)[0] == d[0].0; }
      else if i < 6 { assert Keys(a)[i - 1] == a[i - 1].0; }
      else { assert Keys(b)[i - 6] == b[i - 6].0; }
    }
  }

  lemma RawUKeys()
    ensures Keys(RawU()) == AllStates()
  {
    UParts();
    KeysParts(DecisionU(), UOf(0), UOf(1));
    RawUFlat();
  }


  lemma RawCKeys()
    ensures Keys(RawC()) == AllStates()
  {
    CParts();
    KeysParts(DecisionC(), COf(0), COf(1));
    RawCFlat();
  }


  lemma RawRKeys()
    ensures Keys(RawR()) == AllStates()
  {
    RParts();
    KeysParts(DecisionR(), ROf(0), ROf(1));
    RawRFlat();
  }


  /** `U`: the states are 0 to 10, each once. */
  lemma AllStatesAre()
    ensures Distinct(AllStates())
    ensures forall u :: u in AllStates() <==> 0 <= u <= 10
  {
    var all := AllStates();
    forall u | 0 <= u <= 10
      ensures u in all
    {
      if u == 0 { assert all[0] == u; }
      else if u <= 5 { assert all[6 - u] == u; }
      else { assert all[16 - u] == u; }
    }
  }

  /** The largest state is 10. */
  lemma MaxStateIs10()
    ensures MaxState(AllStates()) == 10
  {
    AllStatesAre();
    assert AllStates()[6] == 10;
  }

  /** `F`: the terminal state, which the sentinel becomes, is 11, one past the largest state. */
  lemma SentinelTarget()
    ensures RawU() != [] && TerminalState(RawU()) == 11
  {
    RawUKeys();
    MaxStateIs10();
  }

  /** The state table once `_replace_terminal_state` has run. */
  function TableU(): Dict<int, Dict<string, int>> {
    ReplaceSentinel(RawU(), TerminalState(RawU()))
  }

  /** Only the decision state names the sentinel, so the replacement only touches it. */
  lemma TableUFlat()
    ensures TableU() == DecisionU11() + UOf(0) + UOf(1)
  {
    SentinelTarget();
    RawUFlat();
    var d, a, b := DecisionU(), UOf(0), UOf(1);
    ModuleNoSentinel(0);
    ModuleNoSentinel(1);
    DecisionSentinel();
    ReplaceSentinelAppend(d + a, b, 11);
    ReplaceSentinelAppend(d, a, 11);
  }

  lemma DecisionSentinel()
    ensures ReplaceSentinel(DecisionU(), 11) == DecisionU11()
  {
    var r := ReplaceSentinel(DecisionU(), 11);
    assert r[0].1 == ReplaceInRow(DecisionU()[0].1, 11);
    assert r[0].1 == DecisionU11()[0].1;
  }

  lemma ModuleNoSentinel(m: nat)
    requires m < 2
    ensures ReplaceSentinel(UOf(m), 11) == UOf(m)
  {
    ModuleNext(ModuleStart(m), ModuleCounters(m), ModuleColour(m));
    ModuleShape(ModuleStart(m), ModuleCounters(m), ModuleColour(m), []);
    ReplaceSentinelAbsent(UOf(m), 11);
  }

  // ---------------------------------------------------------------------------------------
  // Compiling the tables.

  /** The tables as the decision state followed by the two modules. */
  function FlatU(): Dict<int, Dict<string, int>> {
    DecisionU11() + UOf(0) + UOf(1)
  }

  function FlatC(): Dict<int, Dict<string, seq<int>>> {
    DecisionC() + COf(0) + COf(1)
  }

  function FlatR(): Dict<int, Dict<string, RewardFn>> {
    DecisionR() + ROf(0) + ROf(1)
  }

  /** The raw tables are the flat ones. */
  lemma TablesFlat()
    ensures TableU() == FlatU() && RawC() == FlatC() && RawR() == FlatR()
  {
    TableUFlat();
    RawCFlat();
    RawRFlat();
  }

  /** The decision state's expressions are distinct, and the same in the three tables. */
  lemma DecisionKeys()
    ensures Keys(DecisionC()[0].1) == Keys(DecisionU11()[0].1) && Keys(DecisionR()[0].1) == Keys(DecisionU11()[0].1)
    ensures Distinct(Keys(DecisionU11()[0].1))
  {
    var ks := Keys(DecisionU11()[0].1);
    assert forall j :: 0 <= j < 3 ==> ks[j] == "/ " + DecisionCounters()[j];
    assert ks[0][3] == 'Z' && ks[1][3] == 'N' && ks[2][3] == 'Z';
    assert ks[0][6] == 'Z' && ks[2][6] == 'N';
  }

  lemma AlignedAt(i: nat)
    requires i < 11
    ensures Keys(FlatC()[i].1) == Keys(FlatU()[i].1) && Keys(FlatR()[i].1) == Keys(FlatU()[i].1) && Distinct(Keys(FlatU()[i].1))
  {
    PartAt(DecisionU11(), UOf(0), UOf(1), i);
    PartAt(DecisionC(), COf(0), COf(1), i);
    PartAt(DecisionR(), ROf(0), ROf(1), i);
    if i == 0 {
      DecisionKeys();
    } else {
      ModuleWellKeyed(if i < 6 then 0 else 1);
    }
  }

  /** The three tables list the same states and, state by state, the same expressions. */
  lemma FlatAligned()
    ensures Aligned(FlatU(), FlatC(), FlatR()) && Keys(FlatU()) == AllStates()
  {
    TablesFlat();
    RawUKeys();
    RawCKeys();
    RawRKeys();
    AllStatesAre();
    forall i | 0 <= i < 11
      ensures Keys(FlatC()[i].1) == Keys(FlatU()[i].1) && Keys(FlatR()[i].1) == Keys(FlatU()[i].1) && Distinct(Keys(FlatU()[i].1))
    {
      AlignedAt(i);
    }
  }

  /** The module of table position `i`, 1 to 10. */
  function ModuleOf(i: nat): nat {
    if i < 6 then 0 else 1
  }

  /** The stage of table position `i` within its module. */
  function StageOf(i: nat): nat
    requires 1 <= i < 11
  {
    i - 1 - 5 * ModuleOf(i)
  }

  /** The guards of stage `k` of module `m`: each stage formula with the module's pattern. */
  function StageGuards(m: nat, k: nat): (gs: seq<Guard>)
    requires k < 5
    ensures |gs| == |StageFormulas(k, ModuleColour(m))|
    ensures forall j :: 0 <= j < |gs| ==> gs[j] == Guard(StageFormulas(k, ModuleColour(m))[j], ModulePattern(m))
  {
    var fs := StageFormulas(k, ModuleColour(m));
    seq(|fs|, j requires 0 <= j < |fs| => Guard(fs[j], ModulePattern(m)))
  }

  function DecisionGuards(): (gs: seq<Guard>)
    ensures |gs| == 3 && forall j :: 0 <= j < 3 ==> gs[j] == Guard(True, DecisionPattern(j))
  {
    seq(3, j requires 0 <= j < 3 => Guard(True, DecisionPattern(j)))
  }

  /** The guards the expressions of the table compile to, state by state. */
  function Guards(): (gs: seq<seq<Guard>>)
    ensures |gs| == 11
  {
    seq(11, i requires 0 <= i < 11 => if i == 0 then DecisionGuards() else StageGuards(ModuleOf(i), StageOf(i)))
  }

  /** Every expression of state `i` compiles to its guard. */
  lemma GuardsAt(i: nat)
    requires i < 11
    ensures |Guards()[i]| == |FlatU()[i].1| && forall j :: 0 <= j < |FlatU()[i].1| ==> Compile(FlatU()[i].1[j].0) == Ok(Guards()[i][j])
  {
    if i == 0 {
      DecisionGuardsAt();
    } else {
      ModuleGuardsAt(i);
    }
  }

  lemma ModuleGuardsAt(i: nat)
    requires 1 <= i < 11
    ensures |Guards()[i]| == |FlatU()[i].1| && forall j :: 0 <= j < |FlatU()[i].1| ==> Compile(FlatU()[i].1[j].0) == Ok(Guards()[i][j])
  {
    var m, k := ModuleOf(i), StageOf(i);
    PartAt(DecisionU11(), UOf(0), UOf(1), i);
    assert FlatU()[i] == UOf(m)[k];
    assert Guards()[i] == StageGuards(m, k);
    ModuleGuards(m, k);
    RowCompilesAt(FlatU(), Guards(), i, UOf(m)[k].1, StageGuards(m, k));
  }

  lemma DecisionGuardsAt()
    ensures |Guards()[0]| == |FlatU()[0].1| && forall j :: 0 <= j < |FlatU()[0].1| ==> Compile(FlatU()[0].1[j].0) == Ok(Guards()[0][j])
  {
    PartAt(DecisionU11(), UOf(0), UOf(1), 0);
    assert FlatU()[0] == DecisionU11()[0];
    assert Guards()[0] == DecisionGuards();
    DecisionRowCompiles([11, 10, 5]);
    RowCompilesAt(FlatU(), Guards(), 0, DecisionRows([11, 10, 5]), DecisionGuards());
  }

  lemma DecisionRowCompiles<V>(values: seq<V>)
    requires |values| == 3
    ensures |DecisionGuards()| == |DecisionRows(values)|
    ensures forall j :: 0 <= j < |DecisionRows(values)| ==> Compile(DecisionRows(values)[j].0) == Ok(DecisionGuards()[j])
  {
    DecisionCompiles();
  }

  lemma ModuleGuards(m: nat, k: nat)
    requires m < 2 && k < 5
    ensures |StageGuards(m, k)| == |UOf(m)[k].1|
    ensures forall j :: 0 <= j < |UOf(m)[k].1| ==> Compile(UOf(m)[k].1[j].0) == Ok(StageGuards(m, k)[j])
  {
    ModuleShape(ModuleStart(m), ModuleCounters(m), ModuleColour(m), []);
    ModuleListing(m);
    StageCompiles(k, ModuleColour(m), ModuleCounters(m), ModulePattern(m));
  }

  /** Construction succeeds, and every state holds one entry per expression with its guard,
      next state, counter update and scaled reward; the reward rule is the one of the
      context-sensitive machine, with the same bound 15. */
  lemma FlatBuilt()
    ensures Aligned(FlatU(), FlatC(), FlatR()) && |FlatU()| == 11
    ensures forall i :: 0 <= i < 11 ==> |Guards()[i]| == |FlatU()[i].1|
    ensures var r := BuildTable(FlatU(), FlatC(), FlatR(), CS.Scale, Compile);
            r.Ok? && Keys(r.value) == AllStates()
            && forall i :: 0 <= i < 11 ==>
                 r.value[i].1 == AlignedEntries(FlatU()[i].0, FlatU()[i].1, FlatC()[i].1, FlatR()[i].1, Guards()[i], CS.Scale)
  {
    FlatAligned();
    forall i | 0 <= i < 11
      ensures |Guards()[i]| == |FlatU()[i].1| && forall j :: 0 <= j < |FlatU()[i].1| ==> Compile(FlatU()[i].1[j].0) == Ok(Guards()[i][j])
    {
      GuardsAt(i);
    }
    BuildAligned(FlatU(), FlatC(), FlatR(), Guards(), CS.Scale, Compile);
  }

  /** The shape facts the entries of state `i` need. */
  lemma FlatShape(i: nat)
    requires i < 11
    ensures |FlatU()| == 11 && |FlatC()| == 11 && |FlatR()| == 11
    ensures |FlatC()[i].1| == |FlatU()[i].1| && |FlatR()[i].1| == |FlatU()[i].1| && |Guards()[i]| == |FlatU()[i].1|
  {
    FlatAligned();
    GuardsAt(i);
    assert Keys(FlatC()[i].1) == Keys(FlatU()[i].1) && Keys(FlatR()[i].1) == Keys(FlatU()[i].1);
  }

  /** The entries state `i` of the table compiles to. */
  function EntriesAt(i: nat): (es: seq<Entry<RewardFn>>)
    requires i < 11
    ensures |es| == |FlatU()[i].1|
  {
    FlatShape(i);
    AlignedEntries(FlatU()[i].0, FlatU()[i].1, FlatC()[i].1, FlatR()[i].1, Guards()[i], CS.Scale)
  }

  /** A compiled table of the machine: the eleven states in table order, each with its entries. */
  predicate IsTable(t: Dict<int, seq<Entry<RewardFn>>>) {
    |t| == 11 && Keys(t) == AllStates() && forall i :: 0 <= i < 11 ==> t[i].1 == EntriesAt(i)
  }

  /** The raw tables compile into the machine's table. */
  lemma TableBuilt()
    ensures var r := BuildTable(TableU(), RawC(), RawR(), CS.Scale, Compile); r.Ok? && IsTable(r.value)
  {
    TablesFlat();
    FlatBuilt();
  }

  /** Had the counter updates of a state been missing, construction would have stopped at its
      first expression with an error. */
  lemma MissingCounterRejected(i: nat, j: nat)
    requires i < 11 && j < |FlatU()[i].1|
    ensures BuildTable(FlatU(), FlatC()[i := (FlatC()[i].0, [])], FlatR(), CS.Scale, Compile).Err?
  {
    var c := FlatC()[i := (FlatC()[i].0, [])];
    assert GetOr(c, FlatU()[i].0, []) == [] by {
      FlatAligned();
      assert Keys(c) == Keys(FlatC()) by {
        assert forall k :: 0 <= k < |c| ==> c[k].0 == FlatC()[k].0;
      }
      assert Keys(c)[i] == FlatU()[i].0;
      GetAt(c, i);
    }
    MissingDeltaRejected(FlatU(), c, FlatR(), CS.Scale, Compile, i, j);
  }

  // ---------------------------------------------------------------------------------------
  // The entries of each state.

  /** The position of state `u` in the table. */
  function IndexOf(u: int): (i: nat)
    requires 0 <= u <= 10
    ensures i < 11 && StateAt(i) == u
  {
    if u == 0 then 0 else if u <= 5 then 6 - u else 16 - u
  }

  /** The module that state `u`, 1 to 10, belongs to. */
  function StateModule(u: int): nat
    requires 1 <= u <= 10
  {
    ModuleOf(IndexOf(u))
  }

  /** A compiled table holds the entries of state `u` at the position of `u`. */
  lemma TableAt(t: Dict<int, seq<Entry<RewardFn>>>, u: int)
    requires IsTable(t) && 0 <= u <= 10
    ensures t[IndexOf(u)].0 == u && Get(t, u) == Some(EntriesAt(IndexOf(u)))
  {
    AllStatesAre();
    var i := IndexOf(u);
    assert Keys(t)[i] == StateAt(i);
    GetAt(t, i);
  }

  /** A compiled table has no entries for the terminal state or any other state beyond 10. */
  lemma TableMissing(t: Dict<int, seq<Entry<RewardFn>>>, u: int)
    requires IsTable(t) && !(0 <= u <= 10)
    ensures Get(t, u) == None
  {
    AllStatesAre();
  }

  /** Table position `i`, 1 to 10, holds stage `StageOf(i)` of module `ModuleOf(i)`. */
  lemma FlatModule(i: nat)
    requires 1 <= i < 11
    ensures ModuleOf(i) < 2 && StageOf(i) < 5 && |UOf(ModuleOf(i))| == 5 && |COf(ModuleOf(i))| == 5 && |ROf(ModuleOf(i))| == 5
    ensures FlatU()[i] == UOf(ModuleOf(i))[StageOf(i)] && FlatC()[i] == COf(ModuleOf(i))[StageOf(i)]
         && FlatR()[i] == ROf(ModuleOf(i))[StageOf(i)]
  {
    assert |UOf(0)| == |UOf(1)| == 5 && |COf(0)| == |COf(1)| == 5 && |ROf(0)| == |ROf(1)| == 5 by {
      ModuleWellKeyed(0);
      ModuleWellKeyed(1);
    }
    PartAt(DecisionU11(), UOf(0), UOf(1), i);
    PartAt(DecisionC(), COf(0), COf(1), i);
    PartAt(DecisionR(), ROf(0), ROf(1), i);
  }

  /** The entries of stage `k` of module `m` at state `u`: each stage formula under the module's
      pattern; the exit entry leads to the next stage, from the drop stage back to 0, every other
      entry stays; only the drop's exit changes the counters. */
  predicate StageShaped(es: seq<Entry<RewardFn>>, u: int, m: nat, k: nat)
    requires m < 2 && k < 5
  {
    var fs := StageFormulas(k, ModuleColour(m));
    |es| == |fs|
    && forall j :: 0 <= j < |es| ==>
         es[j].guard == Guard(fs[j], ModulePattern(m))
         && es[j].next == (if j != ExitIndex(k) then u else if k < 4 then u - 1 else 0)
         && es[j].delta == (if k == 4 && j == ExitIndex(k) then DropDelta(ModuleColour(m)).value else [0])
  }

  /** Stage `k` of module `m` compiles into the shaped entries of its state. */
  lemma ModuleStage(m: nat, k: nat)
    requires m < 2 && k < 5
    ensures |COf(m)| == 5 && |ROf(m)| == 5 && |UOf(m)| == 5 && UOf(m)[k].0 == ModuleStart(m) + 4 - k
    ensures |COf(m)[k].1| == |UOf(m)[k].1| && |ROf(m)[k].1| == |UOf(m)[k].1| && |StageGuards(m, k)| == |UOf(m)[k].1|
    ensures StageShaped(AlignedEntries(UOf(m)[k].0, UOf(m)[k].1, COf(m)[k].1, ROf(m)[k].1, StageGuards(m, k), CS.Scale), UOf(m)[k].0, m, k)
  {
    var s, cs, colour := ModuleStart(m), ModuleCounters(m), ModuleColour(m);
    assert UOf(m)[k].0 == s + 4 - k by {
      ModuleWellKeyed(m);
      assert Keys(UOf(m))[k] == UOf(m)[k].0;
    }
    ModuleShape(s, cs, colour, DropDelta(colour).value);
    ModuleNext(s, cs, colour);
    ModuleDeltas(s, cs, colour, DropDelta(colour).value);
    assert Keys(COf(m)[k].1) == Keys(UOf(m)[k].1) && Keys(ROf(m)[k].1) == Keys(UOf(m)[k].1);
  }

  /** Table position `i`, 1 to 10, holds the shaped entries of stage `StageOf(i)` of module
      `ModuleOf(i)`, at state `ModuleStart(m) + 4 - k`. */
  lemma ModuleEntries(i: nat)
    requires 1 <= i < 11
    ensures var m, k := ModuleOf(i), StageOf(i);
            StateAt(i) == ModuleStart(m) + 4 - k && StageShaped(EntriesAt(i), StateAt(i), m, k)
  {
    var m, k := ModuleOf(i), StageOf(i);
    FlatModule(i);
    ModuleStage(m, k);
    assert Guards()[i] == StageGuards(m, k);
  }

  /** The expression texts of the decision state lead to 11, 10 and 5. */
  function DecisionTarget(j: nat): int
    requires j < 3
  {
    [11, 10, 5][j]
  }

  /** The reward of decision entry `j`: the constant zero scaled by its target, none of which is
      15. */
  function DecisionReward(j: nat): RewardFn
    requires j < 3
  {
    Scaled(Constant(0), DecisionTarget(j), 15)
  }

  /** The entries of the decision state: constant-true formulas under the three patterns, no
      counter change. */
  predicate DecisionShaped(es: seq<Entry<RewardFn>>) {
    |es| == 3
    && forall j :: 0 <= j < 3 ==>
         es[j] == Entry("/ " + DecisionCounters()[j], Guard(True, DecisionPattern(j)), DecisionTarget(j), [0, 0], DecisionReward(j))
  }

  lemma DecisionEntries()
    ensures FlatU()[0].0 == 0 && DecisionShaped(EntriesAt(0))
  {
    FlatShape(0);
    assert FlatU()[0] == DecisionU11()[0] && FlatC()[0] == DecisionC()[0] && FlatR()[0] == DecisionR()[0] by {
      PartAt(DecisionU11(), UOf(0), UOf(1), 0);
      PartAt(DecisionC(), COf(0), COf(1), 0);
      PartAt(DecisionR(), ROf(0), ROf(1), 0);
    }
    assert Guards()[0] == DecisionGuards();
    var rows, deltas, rewards := DecisionU11()[0].1, DecisionC()[0].1, DecisionR()[0].1;
    forall j | 0 <= j < 3
      ensures EntriesAt(0)[j] == Entry("/ " + DecisionCounters()[j], Guard(True, DecisionPattern(j)), DecisionTarget(j), [0, 0], DecisionReward(j))
    {
      NotContainsHead("/ " + DecisionCounters()[j], "ACTION");
      assert rows[j] == ("/ " + DecisionCounters()[j], DecisionTarget(j));
      assert deltas[j].1 == [0, 0] && rewards[j].1 == Constant(0);
      assert CS.Scale(0, rows[j].0, rows[j].1, rewards[j].1) == DecisionReward(j);
      assert Guards()[0][j] == Guard(True, DecisionPattern(j));
      assert EntriesAt(0)[j] == AlignedEntries(0, rows, deltas, rewards, Guards()[0], CS.Scale)[j];
    }
  }

  // ---------------------------------------------------------------------------------------
  // Transitions (the first-match scan of the base class, as `Automaton.Step` models it).

  /** The decision state moves to the module of the first colour with blocks left, or to the
      terminal state, whatever the events, and changes no counter. */
  lemma StepDecision(t: Dict<int, seq<Entry<RewardFn>>>, c: seq<int>, props: set<string>)
    requires IsTable(t) && |c| == 2
    ensures Step(t, 0, c, WarehouseEvents(), props) == Ok((DecisionTarget(DecisionClass(c)), c, DecisionReward(DecisionClass(c))))
  {
    TableAt(t, 0);
    DecisionEntries();
    ResolveDecision(EntriesAt(0), c, props);
  }

  /** The decision scan reads the counters alone: the entry of their class fires, whatever the
      events, and changes no counter. */
  lemma ResolveDecision(es: seq<Entry<RewardFn>>, c: seq<int>, props: set<string>)
    requires DecisionShaped(es) && |c| == 2
    ensures Resolve(0, es, WarehouseEvents(), props, c) == Ok((DecisionTarget(DecisionClass(c)), c, DecisionReward(DecisionClass(c))))
  {
    DecisionPartition(c);
    var j := DecisionClass(c);
    assert WellFormedEntries(es, WarehouseEvents(), |c|);
    ResolveWellFormed(0, es, WarehouseEvents(), props, c);
    assert GuardHolds(es[j].guard, props, c);
    assert FirstHolding(es, props, c) == Some(j);
    ZeroDeltaKeeps(c, es[j].delta);
  }

  /** The colours of the modules are block colours of the warehouse alphabet. */
  lemma ModuleEvents(m: nat)
    requires m < 2
    ensures BlockEvents(ModuleColour(m)) + GripperEvents() <= WarehouseEvents()
  {
  }

  /** The scan of a stage moves only while the module's counter pattern holds. When the first
      formula of the stage that holds is the exit, it moves to the next stage, or from the drop
      stage back to the decision state with the drop applied; otherwise it stays. */
  lemma ResolveStage(es: seq<Entry<RewardFn>>, u: int, m: nat, k: nat, c: seq<int>, props: set<string>)
    requires m < 2 && k < 5 && StageShaped(es, u, m, k) && |c| == 2
    ensures var r := Resolve(u, es, WarehouseEvents(), props, c);
            (r.Ok? <==> Matches(ModulePattern(m), c))
            && (r.Err? ==> r.error == NoTransition(u))
            && (r.Ok? && !CS.ExitFires(k, ModuleColour(m), props) ==> r.value.0 == u && r.value.1 == c)
            && (r.Ok? && CS.ExitFires(k, ModuleColour(m), props) && k < 4 ==> r.value.0 == u - 1 && r.value.1 == c)
            && (r.Ok? && CS.ExitFires(k, ModuleColour(m), props) && k == 4 ==>
                  r.value.0 == 0 && ApplyDelta(c, DropDelta(ModuleColour(m)).value) == Ok(r.value.1))
  {
    if Matches(ModulePattern(m), c) {
      ResolveOpen(es, u, m, k, c, props);
    } else {
      ResolveBlocked(es, u, m, k, c, props);
    }
  }

  /** The entries of a stage name only events the machine knows and counters it has. */
  lemma StageWellFormed(es: seq<Entry<RewardFn>>, u: int, m: nat, k: nat, c: seq<int>)
    requires m < 2 && k < 5 && StageShaped(es, u, m, k) && |c| == 2
    ensures WellFormedEntries(es, WarehouseEvents(), |c|)
  {
    StageKnown(k, ModuleColour(m));
    ModuleEvents(m);
    EventsIntact();
  }

  /** When the module's counter pattern fails, no entry of the stage applies. */
  lemma ResolveBlocked(es: seq<Entry<RewardFn>>, u: int, m: nat, k: nat, c: seq<int>, props: set<string>)
    requires m < 2 && k < 5 && StageShaped(es, u, m, k) && |c| == 2 && !Matches(ModulePattern(m), c)
    ensures Resolve(u, es, WarehouseEvents(), props, c) == Err(NoTransition(u))
  {
    StageWellFormed(es, u, m, k, c);
    ResolveWellFormed(u, es, WarehouseEvents(), props, c);
    assert forall j :: 0 <= j < |es| ==> !GuardHolds(es[j].guard, props, c);
  }

  /** When the module's counter pattern holds, some entry of the stage applies, and the first
      one is the exit exactly when the exit fires. */
  lemma OpenFirst(es: seq<Entry<RewardFn>>, u: int, m: nat, k: nat, c: seq<int>, props: set<string>)
    requires m < 2 && k < 5 && StageShaped(es, u, m, k) && |c| == 2 && Matches(ModulePattern(m), c)
    ensures FirstHolding(es, props, c).Some?
    ensures FirstHolding(es, props, c).value == ExitIndex(k) <==> CS.ExitFires(k, ModuleColour(m), props)
  {
    var fs := StageFormulas(k, ModuleColour(m));
    assert forall j :: 0 <= j < |es| ==> (GuardHolds(es[j].guard, props, c) <==> Holds(fs[j], props));
    StageCovers(k, ModuleColour(m), props);
  }

  /** When the module's counter pattern holds, the first formula that holds decides: the exit
      moves on, every other entry stays. */
  lemma ResolveOpen(es: seq<Entry<RewardFn>>, u: int, m: nat, k: nat, c: seq<int>, props: set<string>)
    requires m < 2 && k < 5 && StageShaped(es, u, m, k) && |c| == 2 && Matches(ModulePattern(m), c)
    ensures var r := Resolve(u, es, WarehouseEvents(), props, c);
            r.Ok?
            && (!CS.ExitFires(k, ModuleColour(m), props) ==> r.value.0 == u && r.value.1 == c)
            && (CS.ExitFires(k, ModuleColour(m), props) && k < 4 ==> r.value.0 == u - 1 && r.value.1 == c)
            && (CS.ExitFires(k, ModuleColour(m), props) && k == 4 ==>
                  r.value.0 == 0 && ApplyDelta(c, DropDelta(ModuleColour(m)).value) == Ok(r.value.1))
  {
    StageWellFormed(es, u, m, k, c);
    ResolveWellFormed(u, es, WarehouseEvents(), props, c);
    OpenFirst(es, u, m, k, c, props);
    var x := FirstHolding(es, props, c).value;
    if x == ExitIndex(k) && k == 4 {
      assert |DropDelta(ModuleColour(m)).value| == 2;
    } else {
      ZeroDeltaKeeps(c, es[x].delta);
    }
  }


  /** A module state moves only while its counter pattern holds and is undefined otherwise; its
      exit leads to the next stage, the drop stage's exit back to `0` with the drop applied, every
      other entry keeps state and counters. */
  lemma StepModule(t: Dict<int, seq<Entry<RewardFn>>>, u: int, c: seq<int>, props: set<string>)
    requires IsTable(t) && 1 <= u <= 10 && |c| == 2
    ensures var m, k := StateModule(u), StageOf(IndexOf(u));
            var r := Step(t, u, c, WarehouseEvents(), props);
            (r.Ok? <==> Matches(ModulePattern(m), c))
            && (r.Err? ==> r.error == NoTransition(u))
            && (r.Ok? && !CS.ExitFires(k, ModuleColour(m), props) ==> r.value.0 == u && r.value.1 == c)
            && (r.Ok? && CS.ExitFires(k, ModuleColour(m), props) && k < 4 ==> r.value.0 == u - 1 && r.value.1 == c)
            && (r.Ok? && CS.ExitFires(k, ModuleColour(m), props) && k == 4 ==>
                  u == ModuleStart(m) && r.value.0 == 0 && ApplyDelta(c, DropDelta(ModuleColour(m)).value) == Ok(r.value.1))
  {
    var i := IndexOf(u);
    ModuleEntries(i);
    ResolveStage(EntriesAt(i), u, ModuleOf(i), StageOf(i), c, props);
    assert Step(t, u, c, WarehouseEvents(), props) == Resolve(u, EntriesAt(i), WarehouseEvents(), props, c) by {
      TableAt(t, u);
    }
  }

  // ---------------------------------------------------------------------------------------
  // The reachable configurations.

  /** The blocks still to pack. */
  function Total(c: seq<int>): int
    requires |c| == 2
  {
    c[0] + c[1]
  }

  /** A configuration the machine can be in: two non-negative counters; a module state only
      while its colour is the first with blocks left; the terminal state only once every block
      is packed. */
  predicate Consistent(u: int, c: seq<int>) {
    |c| == 2 && NonNegative(c) && 0 <= u <= 11
    && (1 <= u <= 10 ==> Matches(ModulePattern(StateModule(u)), c))
    && (u == 11 ==> c == [0, 0])
  }

  /** A drop in a module whose pattern holds packs exactly one block and leaves both counters
      non-negative. */
  lemma DropPacksOne(m: nat, c: seq<int>)
    requires m < 2 && |c| == 2 && NonNegative(c) && Matches(ModulePattern(m), c)
    ensures var r := ApplyDelta(c, DropDelta(ModuleColour(m)).value);
            r.Ok? && |r.value| == 2 && NonNegative(r.value) && Total(r.value) == Total(c) - 1
  {
    var d := DropDelta(ModuleColour(m)).value;
    DropMatchesPattern(m);
    NoUnderflow(ModulePattern(m), c, d);
    var c' := ApplyDelta(c, d).value;
    assert forall i :: 0 <= i < 2 ==> c'[i] == c[i] + d[i];
  }

  /** Outside the terminal state a consistent configuration always has a transition, whatever
      the events, and it leads to a consistent configuration; the counters only change on a drop,
      which returns to the decision state with exactly one block fewer. */
  lemma StepConsistent(t: Dict<int, seq<Entry<RewardFn>>>, u: int, c: seq<int>, props: set<string>)
    requires IsTable(t) && Consistent(u, c) && u != 11
    ensures var r := Step(t, u, c, WarehouseEvents(), props);
            r.Ok? && Consistent(r.value.0, r.value.1)
            && (r.value.1 == c || (u != 0 && r.value.0 == 0 && Total(r.value.1) == Total(c) - 1))
  {
    if u == 0 {
      DecisionConsistent(t, c, props);
    } else {
      ModuleConsistent(t, u, c, props);
    }
  }

  lemma DecisionConsistent(t: Dict<int, seq<Entry<RewardFn>>>, c: seq<int>, props: set<string>)
    requires IsTable(t) && Consistent(0, c)
    ensures var r := Step(t, 0, c, WarehouseEvents(), props);
            r.Ok? && Consistent(r.value.0, r.value.1) && r.value.1 == c
  {
    StepDecision(t, c, props);
    DecisionPartition(c);
    var j := DecisionClass(c);
    if j == 0 {
      assert c == [0, 0];
    } else {
      DecisionTargetMatches(j, c);
    }
  }

  /** A decision entry that routes to a module is taken only when that module's pattern holds. */
  lemma DecisionTargetMatches(j: nat, c: seq<int>)
    requires 1 <= j < 3 && |c| == 2 && Matches(DecisionPattern(j), c)
    ensures 1 <= DecisionTarget(j) <= 10 && Matches(ModulePattern(StateModule(DecisionTarget(j))), c)
  {
    if j == 1 {
      assert StateModule(10) == 1;
    } else {
      assert StateModule(5) == 0;
    }
  }

  lemma ModuleConsistent(t: Dict<int, seq<Entry<RewardFn>>>, u: int, c: seq<int>, props: set<string>)
    requires IsTable(t) && Consistent(u, c) && 1 <= u <= 10
    ensures var r := Step(t, u, c, WarehouseEvents(), props);
            r.Ok? && Consistent(r.value.0, r.value.1)
            && (r.value.1 == c || (r.value.0 == 0 && Total(r.value.1) == Total(c) - 1))
  {
    var m, k := StateModule(u), StageOf(IndexOf(u));
    StepModule(t, u, c, props);
    if CS.ExitFires(k, ModuleColour(m), props) && k == 4 {
      DropPacksOne(m, c);
    } else if CS.ExitFires(k, ModuleColour(m), props) {
      assert StateModule(u - 1) == m;
    }
  }

  /** The terminal state has no transitions: a run that reaches it is over. */
  lemma StepTerminal(t: Dict<int, seq<Entry<RewardFn>>>, c: seq<int>, props: set<string>)
    requires IsTable(t)
    ensures Step(t, 11, c, WarehouseEvents(), props) == Err(UndefinedState(11))
  {
    TableMissing(t, 11);
  }

  // ---------------------------------------------------------------------------------------
  // Sampled counter configurations (the random draws are a parameter).

  /** Vector `n` of `product(range(3), repeat=2)`: the base-3 digits of `n`. */
  function GridVector(n: nat): (v: seq<int>)
    requires n < 9
    ensures |v| == 2 && 0 <= v[0] < 3 && 0 <= v[1] < 3 && 3 * v[0] + v[1] == n
  {
    [n / 3, n % 3]
  }

  /** Row `i` of the 10 random draws after `[5:, 0] = 0`. */
  function ZeroedDraw(row: seq<int>, i: nat): (v: seq<int>)
    requires |row| == 2
  {
    [if i >= 5 then 0 else row[0], row[1]]
  }

  /** `sample_counter_configurations`: the 9 vectors of {0,1,2}^2 in product order, then the 10
      drawn rows, counter 0 cleared in the last five. */
  function Samples(draws: seq<seq<int>>): (r: seq<seq<int>>)
    requires |draws| == 10 && forall i :: 0 <= i < 10 ==> |draws[i]| == 2
    ensures |r| == 19 && forall i :: 0 <= i < 19 ==> |r[i]| == 2
    ensures forall i :: 9 <= i < 19 ==> r[i][1] == draws[i - 9][1]
    ensures forall i :: 9 <= i < 19 ==> r[i][0] == (if i < 14 then draws[i - 9][0] else 0)
  {
    seq(9, n requires 0 <= n < 9 => GridVector(n)) + seq(10, i requires 0 <= i < 10 => ZeroedDraw(draws[i], i))
  }

  /** The first 9 samples are exactly the vectors over {0,1,2}. */
  lemma SamplesGrid(draws: seq<seq<int>>)
    requires |draws| == 10 && forall i :: 0 <= i < 10 ==> |draws[i]| == 2
    ensures forall i :: 0 <= i < 9 ==> 0 <= Samples(draws)[i][0] < 3 && 0 <= Samples(draws)[i][1] < 3
    ensures forall x, y :: 0 <= x < 3 && 0 <= y < 3 ==> Samples(draws)[3 * x + y] == [x, y]
  {
    forall i | 0 <= i < 9
      ensures Samples(draws)[i] == GridVector(i)
    {
      SampleAt(draws, i);
    }
    forall x, y | 0 <= x < 3 && 0 <= y < 3
      ensures Samples(draws)[3 * x + y] == [x, y]
    {
      SampleAt(draws, 3 * x + y);
    }
  }

  /** Sample `n` of the grid part is the vector of `n`'s base-3 digits. */
  lemma SampleAt(draws: seq<seq<int>>, n: nat)
    requires |draws| == 10 && forall i :: 0 <= i < 10 ==> |draws[i]| == 2
    requires n < 9
    ensures Samples(draws)[n] == GridVector(n)
  {
  }


  /** Draws in `[0, 100000)` give samples in `[0, 100000)`, each a consistent configuration of
      the decision state. */
  lemma SamplesInRange(draws: seq<seq<int>>)
    requires |draws| == 10 && forall i :: 0 <= i < 10 ==> |draws[i]| == 2
    requires forall i, k :: 0 <= i < 10 && 0 <= k < 2 ==> 0 <= draws[i][k] < 100000
    ensures forall i, k :: 0 <= i < 19 && 0 <= k < 2 ==> 0 <= Samples(draws)[i][k] < 100000
    ensures forall i :: 0 <= i < 19 ==> Consistent(0, Samples(draws)[i])
  {
    var r := Samples(draws);
    forall i, k | 0 <= i < 19 && 0 <= k < 2
      ensures 0 <= r[i][k] < 100000
    {
      if i < 9 {
        assert r[i] == GridVector(i);
      } else {
        assert r[i] == ZeroedDraw(draws[i - 9], i - 9);
      }
    }
  }

  // ---------------------------------------------------------------------------------------
  // The machine object.

  /** What construction leaves behind once the raw tables are built: the state table with the
      sentinel replaced, `U`, `F` and the compiled table. */
  lemma Constructed(u: Dict<int, Dict<string, int>>, states: seq<int>, terminal: seq<int>, t: Dict<int, seq<Entry<RewardFn>>>)
    requires Laid() != [] && u == ReplaceSentinel(Laid(), TerminalState(Laid()))
    requires states == Keys(Laid()) && terminal == [TerminalState(Laid())]
    requires var built := BuildTable(u, FlatC(), FlatR(), CS.Scale, Compile); built.Ok? ==> t == built.value
    ensures u == FlatU() && states == AllStates() && terminal == [11] && IsTable(t)
  {
    RawUFlat();
    SentinelTarget();
    RawUKeys();
    TablesFlat();
    TableBuilt();
  }

  /** The state table as the merge loops lay it out: the decision state, then the green and red
      modules. */
  function Laid(): Dict<int, Dict<string, int>> {
    DecisionU() + UOf(0) + UOf(1)
  }

  /** `ContextFreeCRM`: the raw tables the builders fill, the states `U`, the terminal states `F`
      and the compiled table. */
  class Machine {
    const c0: seq<int>
    const u0: int := 0
    var rawU: Dict<int, Dict<string, int>>
    var rawC: Dict<int, Dict<string, seq<int>>>
    var rawR: Dict<int, Dict<string, RewardFn>>
    var states: seq<int>
    var terminal: seq<int>
    var table: Dict<int, seq<Entry<RewardFn>>>

    /** Builds the three raw tables, replaces the sentinel, records `U` and `F`, and compiles
        the table; the default gives three blocks of each colour. */
    constructor (c0: seq<int>)
      ensures this.c0 == c0 && rawU == FlatU() && rawC == FlatC() && rawR == FlatR()
      ensures states == AllStates() && terminal == [11] && IsTable(table)
    {
      var u := GetStateTransitionFunction();
      var c := GetCounterTransitionFunction();
      var r := GetRewardTransitionFunction();
      this.c0 := c0;
      rawU, rawC, rawR := u, c, r;
      states, terminal, table := [], [], [];
      new;
      assert |DecisionU()| == 1;
      Finish();
      Constructed(rawU, states, terminal, table);
    }

    /** The rest of construction: replace the sentinel (the terminal state is one past the
        largest state), record `U` and `F`, compile the table. */
    method Finish()
      requires rawU != []
      modifies this
      ensures rawU == ReplaceSentinel(old(rawU), TerminalState(old(rawU))) && rawC == old(rawC) && rawR == old(rawR)
      ensures states == Keys(old(rawU)) && terminal == [TerminalState(old(rawU))]
      ensures var built := BuildTable(rawU, rawC, rawR, CS.Scale, Compile);
              table == (if built.Ok? then built.value else old(table))
    {
      ghost var u0 := rawU;
      ReplaceTerminalState();
      states := Keys(rawU);
      assert states == Keys(u0);
      terminal := [MaxState(states) + 1];
      assert terminal == [TerminalState(u0)];
      var _ := InitTransitionFunctions();
    }

    /** `_init_transition_functions`: every expression of every state is compiled and paired
        with its next state, counter delta and scaled reward; a missing counter delta stops
        construction with an error. */
    method InitTransitionFunctions() returns (r: Result<(), BuildError>)
      modifies this
      ensures var built := BuildTable(rawU, rawC, rawR, CS.Scale, Compile);
              (r.Ok? <==> built.Ok?) && (r.Err? ==> r.error == built.error)
              && table == (if built.Ok? then built.value else old(table))
      ensures rawU == old(rawU) && rawC == old(rawC) && rawR == old(rawR) && states == old(states) && terminal == old(terminal)
    {
      var built := InitTransitions(rawU, rawC, rawR, CS.Scale, Compile);
      if built.Err? {
        return Err(built.error);
      }
      table := built.value;
      r := Ok(());
    }

    /** `_replace_terminal_state`: every sentinel next state becomes one past the largest state. */
    method ReplaceTerminalState()
      requires rawU != []
      modifies this
      ensures rawU == ReplaceSentinel(old(rawU), TerminalState(old(rawU)))
      ensures rawC == old(rawC) && rawR == old(rawR) && states == old(states) && terminal == old(terminal) && table == old(table)
    {
      rawU := ReplaceSentinel(rawU, TerminalState(rawU));
    }
  }

  /** `_get_state_transition_function`: the decision state, then the green and red modules
      merged in by the merge loops. */
  method GetStateTransitionFunction() returns (d: Dict<int, Dict<string, int>>)
    ensures d == Laid()
  {
    d := DecisionU();
    var green := AddBlockModuleDeltaU(1, "(Z, NZ)", "GREEN");
    d := MergeRows(d, green);
    var red := AddBlockModuleDeltaU(6, "(NZ, -)", "RED");
    d := MergeRows(d, red);
    RawUFlat();
  }

  /** `_get_counter_transition_function`. */
  method GetCounterTransitionFunction() returns (d: Dict<int, Dict<string, seq<int>>>)
    ensures d == FlatC()
  {
    d := DecisionC();
    var green := AddBlockModuleDeltaC(1, "(Z, NZ)", "GREEN");
    d := MergeRows(d, green.value);
    var red := AddBlockModuleDeltaC(6, "(NZ, -)", "RED");
    d := MergeRows(d, red.value);
    RawCFlat();
  }

  /** `_get_reward_transition_function`. */
  method GetRewardTransitionFunction() returns (d: Dict<int, Dict<string, RewardFn>>)
    ensures d == FlatR()
  {
    d := DecisionR();
    var green := AddBlockModuleDeltaR(1, "(Z, NZ)", "GREEN");
    d := MergeRows(d, green.value);
    var red := AddBlockModuleDeltaR(6, "(NZ, -)", "RED");
    d := MergeRows(d, red.value);
    RawRFlat();
  }

  /** `_add_block_module_delta_u`: the next states of the module entered at `uStart + 4`. */
  method AddBlockModuleDeltaU(uStart: int, cs: string, colour: string) returns (d: Dict<int, Dict<string, int>>)
    ensures d == ModuleU(uStart, cs, colour)
  {
    d := ModuleU(uStart, cs, colour);
  }

  /** `_add_block_module_delta_c`: an unknown colour is rejected; otherwise the counter updates
      of the module, the drop decrementing the colour's counter and every other entry `(0,)`. */
  method AddBlockModuleDeltaC(uStart: int, cs: string, colour: string) returns (r: Result<Dict<int, Dict<string, seq<int>>>, BuildError>)
    ensures r.Ok? <==> KnownColour(colour)
    ensures r.Ok? ==> r.value == ModuleC(uStart, cs, colour, DropDelta(colour).value)
    ensures r.Err? ==> r.error == InvalidColour(colour)
  {
    var drop := DropDelta(colour);
    if drop.None? {
      return Err(InvalidColour(colour));
    }
    return Ok(ModuleC(uStart, cs, colour, drop.value));
  }

  /** `_add_block_module_delta_r`: an unknown colour is rejected; otherwise the rewards of the
      module. */
  method AddBlockModuleDeltaR(uStart: int, cs: string, colour: string) returns (r: Result<Dict<int, Dict<string, RewardFn>>, BuildError>)
    ensures r.Ok? <==> KnownColour(colour)
    ensures r.Ok? ==> r.value == ModuleR(uStart, cs, colour)
    ensures r.Err? ==> r.error == InvalidColour(colour)
  {
    if !KnownColour(colour) {
      return Err(InvalidColour(colour));
    }
    return Ok(ModuleR(uStart, cs, colour));
  }
}
