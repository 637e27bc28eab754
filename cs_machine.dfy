/**
 * The context-sensitive counting reward machine of the warehouse experiments
 * (experiments/warehouse_exp/lib/machines/context_sensitive.py). Three counters hold the red,
 * green and blue blocks still to pack. The decision state `0` reads them and enters the block
 * module of the first colour with blocks left, red, then green, then blue; a module ends with a
 * drop that decrements its colour's counter and returns to `0`; with every counter at zero the
 * decision leads to the terminal state.
 */
module ContextSensitive {
  import opened Wrappers
  import opened Text
  import opened Compiler
  import opened Dicts
  import opened Automaton
  import opened Blocks

  // ---------------------------------------------------------------------------------------
  // The three block modules, in the order the table builders add them.

  /** Module `m` is blue (0), green (1) or red (2). */
  function ModuleColour(m: nat): string {
    if m == 0 then "BLUE" else if m == 1 then "GREEN" else "RED"
  }

  /** The states of module `m` are `ModuleStart(m) .. ModuleStart(m) + 4`. */
  function ModuleStart(m: nat): int {
    5 * m + 1
  }

  /** The counter text every expression of module `m` carries. */
  function ModuleCounters(m: nat): string {
    if m == 0 then "(Z, Z, NZ)" else if m == 1 then "(Z, NZ, -)" else "(NZ, -, -)"
  }

  /** The pattern that counter text denotes. */
  function ModulePattern(m: nat): seq<CounterTest> {
    if m == 0 then [Zero, Zero, NonZero] else if m == 1 then [Zero, NonZero, Any] else [NonZero, Any, Any]
  }

  /** The colours the reward builder accepts. */
  predicate KnownColour(colour: string) {
    colour == "RED" || colour == "GREEN" || colour == "BLUE"
  }

  /** The counter update of a completed drop of a block of `colour`; any other colour is
      rejected. */
  function DropDelta(colour: string): (r: Option<seq<int>>)
    ensures r.Some? <==> KnownColour(colour)
    ensures r.Some? ==> |r.value| == 3
  {
    if colour == "RED" then Some([-1, 0, 0])
    else if colour == "GREEN" then Some([0, -1, 0])
    else if colour == "BLUE" then Some([0, 0, -1])
    else None
  }

  /** The tables of module `m`. */
  function UOf(m: nat): Dict<int, Dict<string, int>> {
    ModuleU(ModuleStart(m), ModuleCounters(m), ModuleColour(m))
  }

  function COf(m: nat): Dict<int, Dict<string, seq<int>>>
    requires m < 3
  {
    ModuleC(ModuleStart(m), ModuleCounters(m), ModuleColour(m), DropDelta(ModuleColour(m)).value)
  }

  function ROf(m: nat): Dict<int, Dict<string, RewardFn>> {
    ModuleR(ModuleStart(m), ModuleCounters(m), ModuleColour(m))
  }

  /** The counter text of module `m` is the spaced listing of its pattern. */
  lemma CountersText(m: nat)
    requires m < 3
    ensures ModuleCounters(m) == SpacedText(ModulePattern(m))
  {
    if m == 0 {
      assert "(Z, Z, NZ)" == SpacedText([Zero, Zero, NonZero]);
    } else if m == 1 {
      assert "(Z, NZ, -)" == SpacedText([Zero, NonZero, Any]);
    } else {
      assert "(NZ, -, -)" == SpacedText([NonZero, Any, Any]);
    }
  }

  /** A drop decrements exactly the counters its module's pattern requires to be non-zero, by
      one, and leaves the others alone. */
  lemma DropMatchesPattern(m: nat)
    requires m < 3
    ensures var d, p := DropDelta(ModuleColour(m)).value, ModulePattern(m);
            |d| == |p| == 3
            && forall i :: 0 <= i < 3 ==> d[i] >= -1 && (d[i] < 0 <==> p[i] == NonZero) && (d[i] >= 0 ==> d[i] == 0)
  {
  }

  lemma ModuleListing(m: nat)
    requires m < 3
    ensures SpacedListing(ModuleCounters(m), ModulePattern(m)) && IsColour(ModuleColour(m))
  {
    CountersText(m);
    SpacedTextListing(ModulePattern(m));
  }

  // ---------------------------------------------------------------------------------------
  // The decision state.

  /** The counter texts of the decision state's expressions, in declaration order. */
  function DecisionCounters(): seq<string> {
    ["(Z, Z, Z)", "(NZ, -, -)", "(Z, NZ, -)", "(Z, Z, NZ)"]
  }

  /** The patterns they denote: all packed, then red, green and blue blocks left. */
  function DecisionPattern(j: nat): seq<CounterTest>
    requires j < 4
  {
    if j == 0 then [Zero, Zero, Zero] else ModulePattern(3 - j)
  }

  /** The decision state's expressions "/ (..)", each with its value. */
  function DecisionRows<V>(values: seq<V>): (d: Dict<string, V>)
    requires |values| == 4
    ensures |d| == 4 && forall j :: 0 <= j < 4 ==> d[j] == ("/ " + DecisionCounters()[j], values[j])
  {
    seq(4, j requires 0 <= j < 4 => ("/ " + DecisionCounters()[j], values[j]))
  }

  function DecisionU(): Dict<int, Dict<string, int>> {
    [(0, DecisionRows([Sentinel, 15, 10, 5]))]
  }

  function DecisionC(): Dict<int, Dict<string, seq<int>>> {
    [(0, DecisionRows([[0, 0, 0], [0, 0, 0], [0, 0, 0], [0, 0, 0]]))]
  }

  function DecisionR(): Dict<int, Dict<string, RewardFn>> {
    [(0, DecisionRows([Constant(0), Constant(0), Constant(0), Constant(0)]))]
  }

  /** Every decision expression compiles to the constant-true formula and its pattern. */
  lemma DecisionCompiles()
    ensures forall j :: 0 <= j < 4 ==> Compile("/ " + DecisionCounters()[j]) == Ok(Guard(True, DecisionPattern(j)))
  {
    forall j | 0 <= j < 4
      ensures Compile("/ " + DecisionCounters()[j]) == Ok(Guard(True, DecisionPattern(j)))
    {
      DecisionListing(j);
      CompileCounters(DecisionCounters()[j], DecisionPattern(j));
    }
  }

  lemma DecisionListing(j: nat)
    requires j < 4
    ensures SpacedListing(DecisionCounters()[j], DecisionPattern(j))
  {
    if j == 0 {
      assert "(Z, Z, Z)" == SpacedText([Zero, Zero, Zero]);
      SpacedTextListing([Zero, Zero, Zero]);
    } else {
      ModuleListing(3 - j);
    }
  }

  /** An expression with no event text: "/ (..)". */
  lemma CompileCounters(cs: string, p: seq<CounterTest>)
    requires |p| >= 1 && SpacedListing(cs, p)
    ensures Compile("/ " + cs) == Ok(Guard(True, p))
  {
    assert EventPart(True) + "/ " + cs == "/ " + cs by {
      assert EventPart(True) == "";
    }
    CompileSpacedText(True, cs, p, "/ " + cs);
  }

  /** The decision expression that applies to counters `c`: red blocks left, else green, else
      blue, else all packed. */
  function DecisionClass(c: seq<int>): nat
    requires |c| == 3
  {
    if c[0] != 0 then 1 else if c[1] != 0 then 2 else if c[2] != 0 then 3 else 0
  }

  /** For three counters exactly one decision pattern matches, the one of their class: the
      decision is a partition of the counter classes. */
  lemma DecisionPartition(c: seq<int>)
    requires |c| == 3
    ensures forall j :: 0 <= j < 4 ==> (Matches(DecisionPattern(j), c) <==> j == DecisionClass(c))
  {
    forall j | 0 <= j < 4
      ensures Matches(DecisionPattern(j), c) <==> j == DecisionClass(c)
    {
      var p := DecisionPattern(j);
      assert Matches(p, c) <==> Accepts(p[0], c, 0) && Accepts(p[1], c, 1) && Accepts(p[2], c, 2);
    }
  }

  // ---------------------------------------------------------------------------------------
  // The raw tables the three builders produce.

  /** `_get_state_transition_function`: the decision state, then the blue, green and red
      modules merged in. */
  function RawU(): Dict<int, Dict<string, int>> {
    Merge(Merge(Merge(DecisionU(), UOf(0)), UOf(1)), UOf(2))
  }

  function RawC(): Dict<int, Dict<string, seq<int>>> {
    Merge(Merge(Merge(DecisionC(), COf(0)), COf(1)), COf(2))
  }

  function RawR(): Dict<int, Dict<string, RewardFn>> {
    Merge(Merge(Merge(DecisionR(), ROf(0)), ROf(1)), ROf(2))
  }

  /** The states of the module that starts at `s`, in the order the builder lists them. */
  function Span(s: int): (sp: seq<int>)
    ensures |sp| == 5 && forall k :: 0 <= k < 5 ==> sp[k] == s + 4 - k
  {
    [s + 4, s + 3, s + 2, s + 1, s]
  }

  /** Module `m` occupies its five states, its three tables are aligned, and no expression
      occurs twice in one of its states. */
  lemma ModuleWellKeyed(m: nat)
    requires m < 3
    ensures Keys(UOf(m)) == Span(ModuleStart(m)) && Keys(COf(m)) == Keys(UOf(m)) && Keys(ROf(m)) == Keys(UOf(m))
    ensures forall k :: 0 <= k < 5 ==>
              Distinct(Keys(UOf(m)[k].1)) && Keys(COf(m)[k].1) == Keys(UOf(m)[k].1) && Keys(ROf(m)[k].1) == Keys(UOf(m)[k].1)
  {
    ModuleAligned(m);
    ModuleDistinct(m);
  }

  /** Module `m`'s three tables have its five states and, state by state, the same expressions. */
  lemma ModuleAligned(m: nat)
    requires m < 3
    ensures Keys(UOf(m)) == Span(ModuleStart(m)) && Keys(COf(m)) == Keys(UOf(m)) && Keys(ROf(m)) == Keys(UOf(m))
    ensures forall k :: 0 <= k < 5 ==> Keys(COf(m)[k].1) == Keys(UOf(m)[k].1) && Keys(ROf(m)[k].1) == Keys(UOf(m)[k].1)
  {
    var colour := ModuleColour(m);
    ModuleShape(ModuleStart(m), ModuleCounters(m), colour, DropDelta(colour).value);
  }

  /** No expression occurs twice in one state of module `m`. */
  lemma ModuleDistinct(m: nat)
    requires m < 3
    ensures forall k :: 0 <= k < 5 ==> Distinct(Keys(UOf(m)[k].1))
  {
    var s, cs, colour := ModuleStart(m), ModuleCounters(m), ModuleColour(m);
    ModuleShape(s, cs, colour, DropDelta(colour).value);
    ModuleListing(m);
    forall k | 0 <= k < 5
      ensures Distinct(Keys(UOf(m)[k].1))
    {
      StageTextsDistinct(k, colour, cs, ModulePattern(m));
    }
  }


  /** Module `m`'s state table alone: its five states, no expression twice in one of them. */
  lemma UKeyed(m: nat)
    requires m < 3
    ensures Keys(UOf(m)) == Span(ModuleStart(m)) && forall k :: 0 <= k < 5 ==> Distinct(Keys(UOf(m)[k].1))
  {
    ModuleWellKeyed(m);
  }

  /** Module `m`'s counter table alone. */
  lemma CKeyed(m: nat)
    requires m < 3
    ensures Keys(COf(m)) == Span(ModuleStart(m)) && forall k :: 0 <= k < 5 ==> Distinct(Keys(COf(m)[k].1))
  {
    ModuleWellKeyed(m);
  }

  /** Module `m`'s reward table alone. */
  lemma RKeyed(m: nat)
    requires m < 3
    ensures Keys(ROf(m)) == Span(ModuleStart(m)) && forall k :: 0 <= k < 5 ==> Distinct(Keys(ROf(m)[k].1))
  {
    ModuleWellKeyed(m);
  }

  /** The parts of the state table: the decision state on `0`, each module on its five
      states, no expression twice in a state. */
  lemma UParts()
    ensures Keys(DecisionU()) == [0] && Keys(UOf(0)) == Span(1) && Keys(UOf(1)) == Span(6) && Keys(UOf(2)) == Span(11)
    ensures forall k :: 0 <= k < 5 ==> Distinct(Keys(UOf(0)[k].1)) && Distinct(Keys(UOf(1)[k].1)) && Distinct(Keys(UOf(2)[k].1))
  {
    UKeyed(0);
    UKeyed(1);
    UKeyed(2);
  }

  /** The parts of the counter table: the decision state on `0`, each module on its five
      states, no expression twice in a state. */
  lemma CParts()
    ensures Keys(DecisionC()) == [0] && Keys(COf(0)) == Span(1) && Keys(COf(1)) == Span(6) && Keys(COf(2)) == Span(11)
    ensures forall k :: 0 <= k < 5 ==> Distinct(Keys(COf(0)[k].1)) && Distinct(Keys(COf(1)[k].1)) && Distinct(Keys(COf(2)[k].1))
  {
    CKeyed(0);
    CKeyed(1);
    CKeyed(2);
  }

  /** The parts of the reward table: the decision state on `0`, each module on its five
      states, no expression twice in a state. */
  lemma RParts()
    ensures Keys(DecisionR()) == [0] && Keys(ROf(0)) == Span(1) && Keys(ROf(1)) == Span(6) && Keys(ROf(2)) == Span(11)
    ensures forall k :: 0 <= k < 5 ==> Distinct(Keys(ROf(0)[k].1)) && Distinct(Keys(ROf(1)[k].1)) && Distinct(Keys(ROf(2)[k].1))
  {
    RKeyed(0);
    RKeyed(1);
    RKeyed(2);
  }

  /** Merging three modules on fresh states into the decision state appends them. */
  lemma {:induction false} MergeModules<V>(d: Dict<int, Dict<string, V>>, a: Dict<int, Dict<string, V>>,
                                          b: Dict<int, Dict<string, V>>, c: Dict<int, Dict<string, V>>)
    requires Keys(d) == [0] && Keys(a) == Span(1) && Keys(b) == Span(6) && Keys(c) == Span(11)
    requires forall k :: 0 <= k < 5 ==> Distinct(Keys(a[k].1)) && Distinct(Keys(b[k].1)) && Distinct(Keys(c[k].1))
    ensures Merge(Merge(Merge(d, a), b), c) == d + a + b + c
  {
    assert |d| == 1 && d[0].0 == Keys(d)[0] == 0;
    AppendSpan(d, a, 1);
    AppendSpan(d + a, b, 6);
    AppendSpan(d + a + b, c, 11);
  }

  /** Merging a module on states above every state of the table appends it. */
  lemma AppendSpan<V>(d: Dict<int, Dict<string, V>>, m: Dict<int, Dict<string, V>>, s: int)
    requires Keys(m) == Span(s) && forall i :: 0 <= i < |d| ==> d[i].0 < s
    requires forall k :: 0 <= k < 5 ==> Distinct(Keys(m[k].1))
    ensures Merge(d, m) == d + m && forall i :: 0 <= i < |d + m| ==> (d + m)[i].0 < s + 5
  {
    forall i | 0 <= i < |m|
      ensures m[i].0 !in Keys(d)
    {
      assert m[i].0 == Keys(m)[i] >= s;
    }
    assert Distinct(Keys(m));
    MergeFresh(d, m);
  }

  /** The builders' merges only append: the decision state, then the blue, green and red
      modules. */
  lemma RawUFlat()
    ensures RawU() == DecisionU() + UOf(0) + UOf(1) + UOf(2)
  {
    UParts();
    MergeModules(DecisionU(), UOf(0), UOf(1), UOf(2));
  }


  lemma RawCFlat()
    ensures RawC() == DecisionC() + COf(0) + COf(1) + COf(2)
  {
    CParts();
    MergeModules(DecisionC(), COf(0), COf(1), COf(2));
  }


  lemma RawRFlat()
    ensures RawR() == DecisionR() + ROf(0) + ROf(1) + ROf(2)
  {
    RParts();
    MergeModules(DecisionR(), ROf(0), ROf(1), ROf(2));
  }


  // ---------------------------------------------------------------------------------------
  // The state table once the sentinel is replaced.

  /** The states of the machine in table order. */
  function AllStates(): (us: seq<int>)
    ensures |us| == 16
  {
    seq(16, i requires 0 <= i < 16 => StateAt(i))
  }

  /** State `i` of the table: the decision state, then each module from its entry state down. */
  function StateAt(i: nat): int {
    if i == 0 then 0 else if i < 6 then 6 - i else if i < 11 then 16 - i else 26 - i
  }

  /** The decision state once its sentinel leads to the terminal state 16. */
  function DecisionU16(): Dict<int, Dict<string, int>> {
    [(0, DecisionRows([16, 15, 10, 5]))]
  }

  /** Element `i` of the decision state followed by the three modules. */
  lemma {:induction false} PartAt<V>(d: seq<V>, a: seq<V>, b: seq<V>, c: seq<V>, i: nat)
    requires |d| == 1 && |a| == 5 && |b| == 5 && |c| == 5 && i < 16
    ensures (d + a + b + c)[i] == if i == 0 then d[0] else if i < 6 then a[i - 1] else if i < 11 then b[i - 6] else c[i - 11]
  {
  }

  lemma {:induction false} KeysParts<V>(d: Dict<int, V>, a: Dict<int, V>, b: Dict<int, V>, c: Dict<int, V>)
    requires Keys(d) == [0] && Keys(a) == Span(1) && Keys(b) == Span(6) && Keys(c) == Span(11)
    ensures Keys(d + a + b + c) == AllStates()
  {
    var t := d + a + b + c;
    forall i | 0 <= i < 16
      ensures Keys(t)[i] == StateAt(i)
    {
      PartAt(d, a, b, c, i);
      if i == 0 { assert Keys(d)[0] == d[0].0; }
      else if i < 6 { assert Keys(a)[i - 1] == a[i - 1].0; }
      else if i < 11 { assert Keys(b)[i - 6] == b[i - 6].0; }
      else { assert Keys(c)[i - 11] == c[i - 11].0; }
    }
  }

  lemma RawUKeys()
    ensures Keys(RawU()) == AllStates()
  {
    UParts();
    KeysParts(DecisionU(), UOf(0), UOf(1), UOf(2));
    RawUFlat();
  }


  lemma RawCKeys()
    ensures Keys(RawC()) == AllStates()
  {
    CParts();
    KeysParts(DecisionC(), COf(0), COf(1), COf(2));
    RawCFlat();
  }


  lemma RawRKeys()
    ensures Keys(RawR()) == AllStates()
  {
    RParts();
    KeysParts(DecisionR(), ROf(0), ROf(1), ROf(2));
    RawRFlat();
  }


  /** `U`: the states are 0 to 15, each once. */
  lemma AllStatesAre()
    ensures Distinct(AllStates())
    ensures forall u :: u in AllStates() <==> 0 <= u <= 15
  {
    var all := AllStates();
    forall u | 0 <= u <= 15
      ensures u in all
    {
      if u == 0 { assert all[0] == u; }
      else if u <= 5 { assert all[6 - u] == u; }
      else if u <= 10 { assert all[16 - u] == u; }
      else { assert all[26 - u] == u; }
    }
  }

  /** `F`: the terminal state is 16, one past the largest state. */
  lemma TerminalIs16()
    ensures TerminalState(RawU()) == 16
  {
    assert MaxState(AllStates()) == 15 by {
      AllStatesAre();
      assert AllStates()[11] == 15;
    }
    RawUKeys();
  }

  /** The state table once `_replace_terminal_state` has run. */
  function TableU(): Dict<int, Dict<string, int>> {
    ReplaceSentinel(RawU(), TerminalState(RawU()))
  }

  /** Only the decision state names the sentinel, so the replacement only touches it. */
  lemma TableUFlat()
    ensures TableU() == DecisionU16() + UOf(0) + UOf(1) + UOf(2)
  {
    TerminalIs16();
    RawUFlat();
    var d, a, b, c := DecisionU(), UOf(0), UOf(1), UOf(2);
    ModuleNoSentinel(0);
    ModuleNoSentinel(1);
    ModuleNoSentinel(2);
    DecisionSentinel();
    ReplaceSentinelAppend(d + a + b, c, 16);
    ReplaceSentinelAppend(d + a, b, 16);
    ReplaceSentinelAppend(d, a, 16);
  }

  lemma DecisionSentinel()
    ensures ReplaceSentinel(DecisionU(), 16) == DecisionU16()
  {
    var r := ReplaceSentinel(DecisionU(), 16);
    assert r[0].1 == ReplaceInRow(DecisionU()[0].1, 16);
    assert r[0].1 == DecisionU16()[0].1;
  }

  lemma ModuleNoSentinel(m: nat)
    requires m < 3
    ensures ReplaceSentinel(UOf(m), 16) == UOf(m)
  {
    var t := UOf(m);
    ModuleNext(ModuleStart(m), ModuleCounters(m), ModuleColour(m));
    ModuleShape(ModuleStart(m), ModuleCounters(m), ModuleColour(m), []);
    ReplaceSentinelAbsent(t, 16);
  }

  // ---------------------------------------------------------------------------------------
  // Compiling the tables.

  /** The three tables list the same states and, state by state, the same expressions. */
  lemma TablesAligned()
    ensures Aligned(TableU(), RawC(), RawR())
  {
    TableUFlat();
    RawCFlat();
    RawRFlat();
    RawUKeys();
    RawCKeys();
    RawRKeys();
    AllStatesAre();
    var t, c, r := TableU(), RawC(), RawR();
    forall i | 0 <= i < 16
      ensures Keys(c[i].1) == Keys(t[i].1) && Keys(r[i].1) == Keys(t[i].1) && Distinct(Keys(t[i].1))
    {
      AlignedAt(i);
    }
  }

  lemma AlignedAt(i: nat)
    requires i < 16
    ensures var t, c, r := DecisionU16() + UOf(0) + UOf(1) + UOf(2), DecisionC() + COf(0) + COf(1) + COf(2), DecisionR() + ROf(0) + ROf(1) + ROf(2);
            Keys(c[i].1) == Keys(t[i].1) && Keys(r[i].1) == Keys(t[i].1) && Distinct(Keys(t[i].1))
  {
    PartAt(DecisionU16(), UOf(0), UOf(1), UOf(2), i);
    PartAt(DecisionC(), COf(0), COf(1), COf(2), i);
    PartAt(DecisionR(), ROf(0), ROf(1), ROf(2), i);
    if i == 0 {
      DecisionKeys();
    } else {
      var m := if i < 6 then 0 else if i < 11 then 1 else 2;
      ModuleWellKeyed(m);
    }
  }

  /** The decision state's expressions are distinct, and the same in the three tables. */
  lemma DecisionKeys()
    ensures Keys(DecisionC()[0].1) == Keys(DecisionU16()[0].1) && Keys(DecisionR()[0].1) == Keys(DecisionU16()[0].1)
    ensures Distinct(Keys(DecisionU16()[0].1))
  {
    var ks := Keys(DecisionU16()[0].1);
    assert forall j :: 0 <= j < 4 ==> ks[j] == "/ " + DecisionCounters()[j];
    assert ks[0][3] == 'Z' && ks[1][3] == 'N' && ks[2][3] == 'Z' && ks[3][3] == 'Z';
    assert ks[0][6] == 'Z' && ks[2][6] == 'N' && ks[3][6] == 'Z';
    assert ks[0][9] == 'Z' && ks[3][9] == 'N';
  }

  /** The module of table position `i`, 1 to 15. */
  function ModuleOf(i: nat): nat {
    if i < 6 then 0 else if i < 11 then 1 else 2
  }

  /** The stage of table position `i` within its module. */
  function StageOf(i: nat): nat
    requires 1 <= i < 16
  {
    i - 1 - 5 * ModuleOf(i)
  }

  /** The guards of stage `k` of module `m`: each stage formula with the module's pattern. */
  function StageGuards(m: nat, k: nat): (gs: seq<Guard>)
    requires k < 5
    ensures |gs| == |StageFormulas(k, ModuleColour(m))|
    ensures forall j :: 0 <= j < |gs| ==> gs[j] == Guard(StageFormulas(k, ModuleColour(m))[j], ModulePattern(m))
  {
    var fs := StageFormulas(k, ModuleColour(m));
    seq(|fs|, j requires 0 <= j < |fs| => Guard(fs[j], ModulePattern(m)))
  }

  function DecisionGuards(): (gs: seq<Guard>)
    ensures |gs| == 4 && forall j :: 0 <= j < 4 ==> gs[j] == Guard(True, DecisionPattern(j))
  {
    seq(4, j requires 0 <= j < 4 => Guard(True, DecisionPattern(j)))
  }

  /** The guards the expressions of the table compile to, state by state. */
  function Guards(): (gs: seq<seq<Guard>>)
    ensures |gs| == 16
  {
    seq(16, i requires 0 <= i < 16 => if i == 0 then DecisionGuards() else StageGuards(ModuleOf(i), StageOf(i)))
  }

  /** The tables as the decision state followed by the three modules. */
  function FlatU(): Dict<int, Dict<string, int>> {
    DecisionU16() + UOf(0) + UOf(1) + UOf(2)
  }

  function FlatC(): Dict<int, Dict<string, seq<int>>> {
    DecisionC() + COf(0) + COf(1) + COf(2)
  }

  function FlatR(): Dict<int, Dict<string, RewardFn>> {
    DecisionR() + ROf(0) + ROf(1) + ROf(2)
  }

  /** Every expression of state `i` compiles to its guard. */
  lemma GuardsAt(i: nat)
    requires i < 16
    ensures |Guards()[i]| == |FlatU()[i].1| && forall j :: 0 <= j < |FlatU()[i].1| ==> Compile(FlatU()[i].1[j].0) == Ok(Guards()[i][j])
  {
    if i == 0 {
      DecisionGuardsAt();
    } else {
      var m, k := ModuleOf(i), StageOf(i);
      PartAt(DecisionU16(), UOf(0), UOf(1), UOf(2), i);
      assert FlatU()[i] == UOf(m)[k];
      assert Guards()[i] == StageGuards(m, k);
      ModuleGuards(m, k);
      RowCompilesAt(FlatU(), Guards(), i, UOf(m)[k].1, StageGuards(m, k));
    }
  }

  lemma DecisionGuardsAt()
    ensures |Guards()[0]| == |FlatU()[0].1| && forall j :: 0 <= j < |FlatU()[0].1| ==> Compile(FlatU()[0].1[j].0) == Ok(Guards()[0][j])
  {
    PartAt(DecisionU16(), UOf(0), UOf(1), UOf(2), 0);
    assert FlatU()[0] == DecisionU16()[0];
    assert Guards()[0] == DecisionGuards();
    DecisionRowCompiles([16, 15, 10, 5]);
    RowCompilesAt(FlatU(), Guards(), 0, DecisionRows([16, 15, 10, 5]), DecisionGuards());
  }

  lemma DecisionRowCompiles<V>(values: seq<V>)
    requires |values| == 4
    ensures |DecisionGuards()| == |DecisionRows(values)|
    ensures forall j :: 0 <= j < |DecisionRows(values)| ==> Compile(DecisionRows(values)[j].0) == Ok(DecisionGuards()[j])
  {
    DecisionCompiles();
  }

  lemma ModuleGuards(m: nat, k: nat)
    requires m < 3 && k < 5
    ensures |StageGuards(m, k)| == |UOf(m)[k].1|
    ensures forall j :: 0 <= j < |UOf(m)[k].1| ==> Compile(UOf(m)[k].1[j].0) == Ok(StageGuards(m, k)[j])
  {
    ModuleShape(ModuleStart(m), ModuleCounters(m), ModuleColour(m), []);
    ModuleListing(m);
    StageCompiles(k, ModuleColour(m), ModuleCounters(m), ModulePattern(m));
  }

  /** The reward rule of `_init_transition_functions`: an expression that mentions no action
      scales its reward by the source state, or from the decision state by the target state
      unless that is 15; the others keep their reward. */
  function Scale(u: int, expr: string, next: int, r: RewardFn): RewardFn {
    if Contains(expr, "ACTION") then r
    else if u != 0 then Scaled(r, u, 15)
    else if next != 15 then Scaled(r, next, 15)
    else r
  }

  /** Construction succeeds, and every state holds one entry per expression with its guard,
      next state, counter update and scaled reward. */
  lemma FlatBuilt()
    ensures Aligned(FlatU(), FlatC(), FlatR()) && |FlatU()| == 16
    ensures forall i :: 0 <= i < 16 ==> |Guards()[i]| == |FlatU()[i].1|
    ensures var r := BuildTable(FlatU(), FlatC(), FlatR(), Scale, Compile);
            r.Ok? && Keys(r.value) == AllStates()
            && forall i :: 0 <= i < 16 ==>
                 r.value[i].1 == AlignedEntries(FlatU()[i].0, FlatU()[i].1, FlatC()[i].1, FlatR()[i].1, Guards()[i], Scale)
  {
    FlatAligned();
    forall i | 0 <= i < 16
      ensures |Guards()[i]| == |FlatU()[i].1| && forall j :: 0 <= j < |FlatU()[i].1| ==> Compile(FlatU()[i].1[j].0) == Ok(Guards()[i][j])
    {
      GuardsAt(i);
    }
    BuildAligned(FlatU(), FlatC(), FlatR(), Guards(), Scale, Compile);
  }

  lemma FlatAligned()
    ensures Aligned(FlatU(), FlatC(), FlatR()) && Keys(FlatU()) == AllStates()
  {
    TablesAligned();
    TableUFlat();
    RawCFlat();
    RawRFlat();
    RawUKeys();
  }

  /** The raw tables are the flat ones. */
  lemma TablesFlat()
    ensures TableU() == FlatU() && RawC() == FlatC() && RawR() == FlatR()
  {
    TableUFlat();
    RawCFlat();
    RawRFlat();
  }

  /** The shape facts the entries of state `i` need. */
  lemma FlatShape(i: nat)
    requires i < 16
    ensures |FlatU()| == 16 && |FlatC()| == 16 && |FlatR()| == 16
    ensures |FlatC()[i].1| == |FlatU()[i].1| && |FlatR()[i].1| == |FlatU()[i].1| && |Guards()[i]| == |FlatU()[i].1|
  {
    FlatAligned();
    GuardsAt(i);
    assert Keys(FlatC()[i].1) == Keys(FlatU()[i].1) && Keys(FlatR()[i].1) == Keys(FlatU()[i].1);
  }

  /** The entries state `i` of the table compiles to. */
  function EntriesAt(i: nat): (es: seq<Entry<RewardFn>>)
    requires i < 16
    ensures |es| == |FlatU()[i].1|
  {
    FlatShape(i);
    AlignedEntries(FlatU()[i].0, FlatU()[i].1, FlatC()[i].1, FlatR()[i].1, Guards()[i], Scale)
  }

  /** A compiled table of the machine: the sixteen states in table order, each with its
      entries. */
  predicate IsTable(t: Dict<int, seq<Entry<RewardFn>>>) {
    |t| == 16 && Keys(t) == AllStates() && forall i :: 0 <= i < 16 ==> t[i].1 == EntriesAt(i)
  }

  /** Construction succeeds and yields the compiled table. */
  lemma Built()
    ensures var r := BuildTable(FlatU(), FlatC(), FlatR(), Scale, Compile);
            r.Ok? && IsTable(r.value)
  {
    FlatBuilt();
  }

  // ---------------------------------------------------------------------------------------
  // The entries of each state.

  /** The position of state `u` in the table. */
  function IndexOf(u: int): (i: nat)
    requires 0 <= u <= 15
    ensures i < 16 && StateAt(i) == u
  {
    if u == 0 then 0 else if u <= 5 then 6 - u else if u <= 10 then 16 - u else 26 - u
  }

  /** The module that state `u`, 1 to 15, belongs to. */
  function StateModule(u: int): nat
    requires 1 <= u <= 15
  {
    ModuleOf(IndexOf(u))
  }

  /** A compiled table holds the entries of state `u` at the position of `u`. */
  lemma TableAt(t: Dict<int, seq<Entry<RewardFn>>>, u: int)
    requires IsTable(t) && 0 <= u <= 15
    ensures t[IndexOf(u)].0 == u && Get(t, u) == Some(EntriesAt(IndexOf(u)))
  {
    AllStatesAre();
    var i := IndexOf(u);
    assert Keys(t)[i] == StateAt(i);
    GetAt(t, i);
  }

  /** A compiled table has no entries for the terminal state or any other state beyond 15. */
  lemma TableMissing(t: Dict<int, seq<Entry<RewardFn>>>, u: int)
    requires IsTable(t) && !(0 <= u <= 15)
    ensures Get(t, u) == None
  {
    AllStatesAre();
  }

  /** Table position `i`, 1 to 15, holds stage `StageOf(i)` of module `ModuleOf(i)`. */
  lemma FlatModule(i: nat)
    requires 1 <= i < 16
    ensures ModuleOf(i) < 3 && StageOf(i) < 5 && |UOf(ModuleOf(i))| == 5 && |COf(ModuleOf(i))| == 5 && |ROf(ModuleOf(i))| == 5
    ensures FlatU()[i] == UOf(ModuleOf(i))[StageOf(i)] && FlatC()[i] == COf(ModuleOf(i))[StageOf(i)]
         && FlatR()[i] == ROf(ModuleOf(i))[StageOf(i)]
  {
    assert |UOf(0)| == |UOf(1)| == |UOf(2)| == 5 && |COf(0)| == |COf(1)| == |COf(2)| == 5 && |ROf(0)| == |ROf(1)| == |ROf(2)| == 5 by {
      ModuleWellKeyed(0);
      ModuleWellKeyed(1);
      ModuleWellKeyed(2);
    }
    PartAt(DecisionU16(), UOf(0), UOf(1), UOf(2), i);
    PartAt(DecisionC(), COf(0), COf(1), COf(2), i);
    PartAt(DecisionR(), ROf(0), ROf(1), ROf(2), i);
  }

  /** The entries of stage `k` of module `m` at state `u`: each stage formula under the module's
      pattern; the exit entry leads to the next stage, from the drop stage back to 0, every other
      entry stays; only the drop's exit changes the counters. */
  predicate StageShaped(es: seq<Entry<RewardFn>>, u: int, m: nat, k: nat)
    requires m < 3 && k < 5
  {
    var fs := StageFormulas(k, ModuleColour(m));
    |es| == |fs|
    && forall j :: 0 <= j < |es| ==>
         es[j].guard == Guard(fs[j], ModulePattern(m))
         && es[j].next == (if j != ExitIndex(k) then u else if k < 4 then u - 1 else 0)
         && es[j].delta == (if k == 4 && j == ExitIndex(k) then DropDelta(ModuleColour(m)).value else [0])
  }

  /** Stage `k` of module `m` compiles into the shaped entries of its state. */
  lemma ModuleStage(m: nat, k: nat)
    requires m < 3 && k < 5
    ensures |COf(m)| == 5 && |ROf(m)| == 5 && |UOf(m)| == 5 && UOf(m)[k].0 == ModuleStart(m) + 4 - k
    ensures |COf(m)[k].1| == |UOf(m)[k].1| && |ROf(m)[k].1| == |UOf(m)[k].1| && |StageGuards(m, k)| == |UOf(m)[k].1|
    ensures StageShaped(AlignedEntries(UOf(m)[k].0, UOf(m)[k].1, COf(m)[k].1, ROf(m)[k].1, StageGuards(m, k), Scale), UOf(m)[k].0, m, k)
  {
    var s, cs, colour := ModuleStart(m), ModuleCounters(m), ModuleColour(m);
    assert UOf(m)[k].0 == s + 4 - k by {
      ModuleWellKeyed(m);
      assert Keys(UOf(m))[k] == UOf(m)[k].0;
    }
    ModuleShape(s, cs, colour, DropDelta(colour).value);
    ModuleNext(s, cs, colour);
    ModuleDeltas(s, cs, colour, DropDelta(colour).value);
    assert Keys(COf(m)[k].1) == Keys(UOf(m)[k].1) && Keys(ROf(m)[k].1) == Keys(UOf(m)[k].1);
  }

  /** Table position `i`, 1 to 15, holds the shaped entries of stage `StageOf(i)` of module
      `ModuleOf(i)`, at state `ModuleStart(m) + 4 - k`. */
  lemma ModuleEntries(i: nat)
    requires 1 <= i < 16
    ensures var m, k := ModuleOf(i), StageOf(i);
            StateAt(i) == ModuleStart(m) + 4 - k && StageShaped(EntriesAt(i), StateAt(i), m, k)
  {
    var m, k := ModuleOf(i), StageOf(i);
    FlatModule(i);
    ModuleStage(m, k);
    assert Guards()[i] == StageGuards(m, k);
  }

  /** The expression texts of the decision state lead to 16, 15, 10 and 5. */
  function DecisionTarget(j: nat): int
    requires j < 4
  {
    [16, 15, 10, 5][j]
  }

  /** The reward of decision entry `j`: the constant zero, scaled by the target unless it is 15. */
  function DecisionReward(j: nat): RewardFn
    requires j < 4
  {
    if j == 1 then Constant(0) else Scaled(Constant(0), DecisionTarget(j), 15)
  }

  /** The entries of the decision state: constant-true formulas under the four patterns, no
      counter change. */
  predicate DecisionShaped(es: seq<Entry<RewardFn>>) {
    |es| == 4
    && forall j :: 0 <= j < 4 ==>
         es[j] == Entry("/ " + DecisionCounters()[j], Guard(True, DecisionPattern(j)), DecisionTarget(j), [0, 0, 0], DecisionReward(j))
  }

  lemma DecisionEntries()
    ensures FlatU()[0].0 == 0 && DecisionShaped(EntriesAt(0))
  {
    FlatShape(0);
    assert FlatU()[0] == DecisionU16()[0] && FlatC()[0] == DecisionC()[0] && FlatR()[0] == DecisionR()[0] by {
      PartAt(DecisionU16(), UOf(0), UOf(1), UOf(2), 0);
      PartAt(DecisionC(), COf(0), COf(1), COf(2), 0);
      PartAt(DecisionR(), ROf(0), ROf(1), ROf(2), 0);
    }
    assert Guards()[0] == DecisionGuards();
    var rows, deltas, rewards := DecisionU16()[0].1, DecisionC()[0].1, DecisionR()[0].1;
    forall j | 0 <= j < 4
      ensures EntriesAt(0)[j] == Entry("/ " + DecisionCounters()[j], Guard(True, DecisionPattern(j)), DecisionTarget(j), [0, 0, 0], DecisionReward(j))
    {
      NotContainsHead("/ " + DecisionCounters()[j], "ACTION");
      assert rows[j] == ("/ " + DecisionCounters()[j], DecisionTarget(j));
      assert deltas[j].1 == [0, 0, 0] && rewards[j].1 == Constant(0);
      assert Scale(0, rows[j].0, rows[j].1, rewards[j].1) == DecisionReward(j);
      assert Guards()[0][j] == Guard(True, DecisionPattern(j));
      assert EntriesAt(0)[j] == AlignedEntries(0, rows, deltas, rewards, Guards()[0], Scale)[j];
    }
  }

  // ---------------------------------------------------------------------------------------
  // Transitions.

  /** The decision scan reads the counters alone: the entry of their class fires, whatever the
      events, and changes no counter. */
  lemma ResolveDecision(es: seq<Entry<RewardFn>>, c: seq<int>, props: set<string>)
    requires DecisionShaped(es) && |c| == 3
    ensures Resolve(0, es, PickPlaceEvents(), props, c) == Ok((DecisionTarget(DecisionClass(c)), c, DecisionReward(DecisionClass(c))))
  {
    DecisionPartition(c);
    var j := DecisionClass(c);
    assert WellFormedEntries(es, PickPlaceEvents(), |c|);
    ResolveWellFormed(0, es, PickPlaceEvents(), props, c);
    assert GuardHolds(es[j].guard, props, c);
    assert FirstHolding(es, props, c) == Some(j);
    ZeroDeltaKeeps(c, es[j].delta);
  }

  /** The decision state moves to the module of the first colour with blocks left, or to the
      terminal state, and changes no counter. */
  lemma StepDecision(t: Dict<int, seq<Entry<RewardFn>>>, c: seq<int>, props: set<string>)
    requires IsTable(t) && |c| == 3
    ensures Step(t, 0, c, PickPlaceEvents(), props) == Ok((DecisionTarget(DecisionClass(c)), c, DecisionReward(DecisionClass(c))))
  {
    TableAt(t, 0);
    DecisionEntries();
    ResolveDecision(EntriesAt(0), c, props);
  }

  /** The colours of the modules are the three block colours. */
  lemma ModuleEvents(m: nat)
    requires m < 3
    ensures BlockEvents(ModuleColour(m)) + GripperEvents() <= PickPlaceEvents()
  {
  }

  /** The exit formula of stage `k` is the first of the stage's formulas that holds. */
  predicate ExitFires(k: nat, colour: string, props: set<string>)
    requires k < 5
  {
    var fs := StageFormulas(k, colour);
    Holds(fs[ExitIndex(k)], props) && forall j :: 0 <= j < ExitIndex(k) ==> !Holds(fs[j], props)
  }

  /** The scan of a stage moves only while the module's counter pattern holds. When the first
      formula of the stage that holds is the exit, it moves to the next stage, or from the drop
      stage back to the decision state with the drop applied; otherwise it stays. */
  lemma ResolveStage(es: seq<Entry<RewardFn>>, u: int, m: nat, k: nat, c: seq<int>, props: set<string>)
    requires m < 3 && k < 5 && StageShaped(es, u, m, k) && |c| == 3
    ensures var r := Resolve(u, es, PickPlaceEvents(), props, c);
            (r.Ok? <==> Matches(ModulePattern(m), c))
            && (r.Err? ==> r.error == NoTransition(u))
            && (r.Ok? && !ExitFires(k, ModuleColour(m), props) ==> r.value.0 == u && r.value.1 == c)
            && (r.Ok? && ExitFires(k, ModuleColour(m), props) && k < 4 ==> r.value.0 == u - 1 && r.value.1 == c)
            && (r.Ok? && ExitFires(k, ModuleColour(m), props) && k == 4 ==>
                  r.value.0 == 0 && ApplyDelta(c, DropDelta(ModuleColour(m)).value) == Ok(r.value.1))
  {
    if Matches(ModulePattern(m), c) {
      ResolveOpen(es, u, m, k, c, props);
    } else {
      ResolveBlocked(es, u, m, k, c, props);
    }
  }

  /** The entries of a stage name only events the machine knows and counters it has. */
  lemma StageWellFormed(es: seq<Entry<RewardFn>>, u: int, m: nat, k: nat, c: seq<int>)
    requires m < 3 && k < 5 && StageShaped(es, u, m, k) && |c| == 3
    ensures WellFormedEntries(es, PickPlaceEvents(), |c|)
  {
    StageKnown(k, ModuleColour(m));
    ModuleEvents(m);
    EventsIntact();
  }

  /** When the module's counter pattern fails, no entry of the stage applies. */
  lemma ResolveBlocked(es: seq<Entry<RewardFn>>, u: int, m: nat, k: nat, c: seq<int>, props: set<string>)
    requires m < 3 && k < 5 && StageShaped(es, u, m, k) && |c| == 3 && !Matches(ModulePattern(m), c)
    ensures Resolve(u, es, PickPlaceEvents(), props, c) == Err(NoTransition(u))
  {
    StageWellFormed(es, u, m, k, c);
    ResolveWellFormed(u, es, PickPlaceEvents(), props, c);
    assert forall j :: 0 <= j < |es| ==> !GuardHolds(es[j].guard, props, c);
  }

  /** When the module's counter pattern holds, some entry of the stage applies, and the first
      one is the exit exactly when the exit fires. */
  lemma OpenFirst(es: seq<Entry<RewardFn>>, u: int, m: nat, k: nat, c: seq<int>, props: set<string>)
    requires m < 3 && k < 5 && StageShaped(es, u, m, k) && |c| == 3 && Matches(ModulePattern(m), c)
    ensures FirstHolding(es, props, c).Some?
    ensures FirstHolding(es, props, c).value == ExitIndex(k) <==> ExitFires(k, ModuleColour(m), props)
  {
    var fs := StageFormulas(k, ModuleColour(m));
    assert forall j :: 0 <= j < |es| ==> (GuardHolds(es[j].guard, props, c) <==> Holds(fs[j], props));
    StageCovers(k, ModuleColour(m), props);
  }

  /** When the module's counter pattern holds, the first formula that holds decides: the exit
      moves on, every other entry stays. */
  lemma ResolveOpen(es: seq<Entry<RewardFn>>, u: int, m: nat, k: nat, c: seq<int>, props: set<string>)
    requires m < 3 && k < 5 && StageShaped(es, u, m, k) && |c| == 3 && Matches(ModulePattern(m), c)
    ensures var r := Resolve(u, es, PickPlaceEvents(), props, c);
            r.Ok?
            && (!ExitFires(k, ModuleColour(m), props) ==> r.value.0 == u && r.value.1 == c)
            && (ExitFires(k, ModuleColour(m), props) && k < 4 ==> r.value.0 == u - 1 && r.value.1 == c)
            && (ExitFires(k, ModuleColour(m), props) && k == 4 ==>
                  r.value.0 == 0 && ApplyDelta(c, DropDelta(ModuleColour(m)).value) == Ok(r.value.1))
  {
    StageWellFormed(es, u, m, k, c);
    ResolveWellFormed(u, es, PickPlaceEvents(), props, c);
    OpenFirst(es, u, m, k, c, props);
    var x := FirstHolding(es, props, c).value;
    if x == ExitIndex(k) && k == 4 {
      assert |DropDelta(ModuleColour(m)).value| == 3;
    } else {
      ZeroDeltaKeeps(c, es[x].delta);
    }
  }


  /** The outcome `r` of a step from module state `u`: defined exactly while the module's
      counter pattern holds; the exit leads to the next stage, the drop stage's exit (taken from
      the module's entry state) back to `0` with the drop applied, every other entry keeps
      state and counters. */
  predicate ModuleMove(u: int, c: seq<int>, props: set<string>, r: Result<(int, seq<int>, RewardFn), TransitionError>)
    requires 1 <= u <= 15 && |c| == 3
  {
    var m, k := StateModule(u), StageOf(IndexOf(u));
    (r.Ok? <==> Matches(ModulePattern(m), c))
    && (r.Err? ==> r.error == NoTransition(u))
    && (r.Ok? && !ExitFires(k, ModuleColour(m), props) ==> r.value.0 == u && r.value.1 == c)
    && (r.Ok? && ExitFires(k, ModuleColour(m), props) && k < 4 ==> r.value.0 == u - 1 && r.value.1 == c)
    && (r.Ok? && ExitFires(k, ModuleColour(m), props) && k == 4 ==>
          u == ModuleStart(m) && r.value.0 == 0 && ApplyDelta(c, DropDelta(ModuleColour(m)).value) == Ok(r.value.1))
  }

  /** A module state moves only while its counter pattern holds and is undefined otherwise; its
      exit leads to the next stage, the drop stage's exit back to `0` with the drop applied, every
      other entry keeps state and counters. */
  lemma StepModule(t: Dict<int, seq<Entry<RewardFn>>>, u: int, c: seq<int>, props: set<string>)
    requires IsTable(t) && 1 <= u <= 15 && |c| == 3
    ensures ModuleMove(u, c, props, Step(t, u, c, PickPlaceEvents(), props))
  {
    var i := IndexOf(u);
    ModuleEntries(i);
    ResolveStage(EntriesAt(i), u, ModuleOf(i), StageOf(i), c, props);
    assert Step(t, u, c, PickPlaceEvents(), props) == Resolve(u, EntriesAt(i), PickPlaceEvents(), props, c) by {
      TableAt(t, u);
    }
  }

  // ---------------------------------------------------------------------------------------
  // The reachable configurations.

  /** The blocks still to pack. */
  function Total(c: seq<int>): int
    requires |c| == 3
  {
    c[0] + c[1] + c[2]
  }

  /** A configuration the machine can be in: three non-negative counters; a module state only
      while its colour is the first with blocks left; the terminal state only once every block
      is packed. */
  predicate Consistent(u: int, c: seq<int>) {
    |c| == 3 && NonNegative(c) && 0 <= u <= 16
    && (1 <= u <= 15 ==> Matches(ModulePattern(StateModule(u)), c))
    && (u == 16 ==> c == [0, 0, 0])
  }

  /** A drop in a module whose pattern holds packs exactly one block and leaves every counter
      non-negative. */
  lemma DropPacksOne(m: nat, c: seq<int>)
    requires m < 3 && |c| == 3 && NonNegative(c) && Matches(ModulePattern(m), c)
    ensures var r := ApplyDelta(c, DropDelta(ModuleColour(m)).value);
            r.Ok? && |r.value| == 3 && NonNegative(r.value) && Total(r.value) == Total(c) - 1
  {
    var d := DropDelta(ModuleColour(m)).value;
    DropMatchesPattern(m);
    NoUnderflow(ModulePattern(m), c, d);
    var c' := ApplyDelta(c, d).value;
    assert forall i :: 0 <= i < 3 ==> c'[i] == c[i] + d[i];
  }

  /** From the decision state a configuration with non-negative counters moves, whatever the
      events, to a consistent configuration with the same counters. */
  lemma DecisionConsistent(t: Dict<int, seq<Entry<RewardFn>>>, c: seq<int>, props: set<string>)
    requires IsTable(t) && Consistent(0, c)
    ensures var r := Step(t, 0, c, PickPlaceEvents(), props);
            r.Ok? && Consistent(r.value.0, r.value.1) && r.value.1 == c
  {
    StepDecision(t, c, props);
    var j := DecisionClass(c);
    if j == 0 {
      assert c == [0, 0, 0];
    } else {
      assert IndexOf(DecisionTarget(j)) == [0, 11, 6, 1][j];
    }
  }

  /** From a consistent module state the machine moves, whatever the events, to a consistent
      configuration; the counters only change on a drop, which returns to the decision state
      with exactly one block fewer. */
  lemma ModuleConsistent(t: Dict<int, seq<Entry<RewardFn>>>, u: int, c: seq<int>, props: set<string>)
    requires IsTable(t) && Consistent(u, c) && 1 <= u <= 15
    ensures var r := Step(t, u, c, PickPlaceEvents(), props);
            r.Ok? && Consistent(r.value.0, r.value.1)
            && (r.value.1 == c || (r.value.0 == 0 && Total(r.value.1) == Total(c) - 1))
  {
    StepModule(t, u, c, props);
    MoveConsistent(u, c, props, Step(t, u, c, PickPlaceEvents(), props));
  }

  /** A module move from a consistent configuration reaches a consistent one. */
  lemma MoveConsistent(u: int, c: seq<int>, props: set<string>, r: Result<(int, seq<int>, RewardFn), TransitionError>)
    requires Consistent(u, c) && 1 <= u <= 15 && ModuleMove(u, c, props, r)
    ensures r.Ok? && Consistent(r.value.0, r.value.1)
            && (r.value.1 == c || (r.value.0 == 0 && Total(r.value.1) == Total(c) - 1))
  {
    var m, k := StateModule(u), StageOf(IndexOf(u));
    assert r.Ok?;
    if ExitFires(k, ModuleColour(m), props) && k == 4 {
      DropPacksOne(m, c);
      assert Consistent(0, r.value.1);
    } else if ExitFires(k, ModuleColour(m), props) {
      NextStageSameModule(u);
      assert r.value == (u - 1, c, r.value.2);
    } else {
      assert r.value == (u, c, r.value.2);
    }
  }

  /** Every stage but the drop stage is followed by a stage of the same module. */
  lemma NextStageSameModule(u: int)
    requires 1 <= u <= 15 && StageOf(IndexOf(u)) < 4
    ensures 2 <= u && StateModule(u - 1) == StateModule(u)
  {
  }

  /** Outside the terminal state a consistent configuration always has a transition, whatever
      the events, and it leads to a consistent configuration; the counters only change on a drop,
      which returns to the decision state with exactly one block fewer. */
  lemma StepConsistent(t: Dict<int, seq<Entry<RewardFn>>>, u: int, c: seq<int>, props: set<string>)
    requires IsTable(t) && Consistent(u, c) && u != 16
    ensures var r := Step(t, u, c, PickPlaceEvents(), props);
            r.Ok? && Consistent(r.value.0, r.value.1)
            && (r.value.1 == c || (u != 0 && r.value.0 == 0 && Total(r.value.1) == Total(c) - 1))
  {
    if u == 0 {
      DecisionConsistent(t, c, props);
    } else {
      ModuleConsistent(t, u, c, props);
    }
  }

  /** The terminal state has no transitions: a run that reaches it is over. */
  lemma StepTerminal(t: Dict<int, seq<Entry<RewardFn>>>, c: seq<int>, props: set<string>)
    requires IsTable(t)
    ensures Step(t, 16, c, PickPlaceEvents(), props) == Err(UndefinedState(16))
  {
    TableMissing(t, 16);
  }

  /** The sentinel becomes 16. */
  lemma SentinelTarget()
    ensures RawU() != [] && TerminalState(RawU()) == 16
  {
    TerminalIs16();
    RawUKeys();
  }

  /** What construction relies on: the raw state table lists every state, its terminal state
      is 16, and the raw tables compile. */
  lemma Assembled()
    ensures RawU() != [] && Keys(RawU()) == AllStates() && TerminalState(RawU()) == 16
    ensures var r := BuildTable(TableU(), RawC(), RawR(), Scale, Compile); r.Ok? && IsTable(r.value)
  {
    SentinelTarget();
    TableBuilt();
  }

  /** The raw tables compile into the machine's table. */
  lemma TableBuilt()
    ensures var r := BuildTable(TableU(), RawC(), RawR(), Scale, Compile); r.Ok? && IsTable(r.value)
  {
    TablesFlat();
    Built();
  }

  // ---------------------------------------------------------------------------------------
  // Sampled counter configurations (the random draws are a parameter).

  /** Vector `n` of `product(range(3), repeat=3)`: the base-3 digits of `n`, most significant first. */
  function GridVector(n: nat): (v: seq<int>)
    requires n < 27
    ensures |v| == 3 && forall k :: 0 <= k < 3 ==> 0 <= v[k] < 3
    ensures 9 * v[0] + 3 * v[1] + v[2] == n
  {
    [n / 9, n / 3 % 3, n % 3]
  }

  /** Row `i` of the 15 random draws after the slicing assignments: counter 0 is cleared from
      row 5 on, counter 1 from row 10 on. */
  function ZeroedDraw(row: seq<int>, i: nat): (v: seq<int>)
    requires |row| == 3
  {
    [if i >= 5 then 0 else row[0], if i >= 10 then 0 else row[1], row[2]]
  }

  /** `sample_counter_configurations`: the 27 vectors of {0,1,2}^3 in product order, then the
      15 drawn rows with their prefixes cleared. */
  function Samples(draws: seq<seq<int>>): (r: seq<seq<int>>)
    requires |draws| == 15 && forall i :: 0 <= i < 15 ==> |draws[i]| == 3
    ensures |r| == 42 && forall i :: 0 <= i < 42 ==> |r[i]| == 3
    ensures forall i :: 27 <= i < 42 ==> r[i][2] == draws[i - 27][2]
    ensures forall i :: 27 <= i < 42 ==> r[i][0] == (if i < 32 then draws[i - 27][0] else 0)
    ensures forall i :: 27 <= i < 42 ==> r[i][1] == (if i < 37 then draws[i - 27][1] else 0)
  {
    seq(27, n requires 0 <= n < 27 => GridVector(n)) + seq(15, i requires 0 <= i < 15 => ZeroedDraw(draws[i], i))
  }

  /** The first 27 samples are exactly the vectors over {0,1,2}: each lies in the grid, and
      each grid vector is the sample at its base-3 position. */
  lemma SamplesGrid(draws: seq<seq<int>>)
    requires |draws| == 15 && forall i :: 0 <= i < 15 ==> |draws[i]| == 3
    ensures forall i :: 0 <= i < 27 ==> forall k :: 0 <= k < 3 ==> 0 <= Samples(draws)[i][k] < 3
    ensures forall x, y, z :: 0 <= x < 3 && 0 <= y < 3 && 0 <= z < 3 ==> Samples(draws)[9 * x + 3 * y + z] == [x, y, z]
  {
    forall i | 0 <= i < 27
      ensures forall k :: 0 <= k < 3 ==> 0 <= Samples(draws)[i][k] < 3
    {
      SampleAt(draws, i);
    }
    forall x, y, z | 0 <= x < 3 && 0 <= y < 3 && 0 <= z < 3
      ensures Samples(draws)[9 * x + 3 * y + z] == [x, y, z]
    {
      SampleDigits(draws, x, y, z);
    }
  }

  /** The sample at base-3 position `xyz` is `[x, y, z]`. */
  lemma SampleDigits(draws: seq<seq<int>>, x: int, y: int, z: int)
    requires |draws| == 15 && forall i :: 0 <= i < 15 ==> |draws[i]| == 3
    requires 0 <= x < 3 && 0 <= y < 3 && 0 <= z < 3
    ensures Samples(draws)[9 * x + 3 * y + z] == [x, y, z]
  {
    var n := 9 * x + 3 * y + z;
    SampleAt(draws, n);
    var v := GridVector(n);
    Base3Unique(x, y, z, v[0], v[1], v[2]);
  }


  /** Sample `n` of the grid part is the vector of `n`'s base-3 digits. */
  lemma SampleAt(draws: seq<seq<int>>, n: nat)
    requires |draws| == 15 && forall i :: 0 <= i < 15 ==> |draws[i]| == 3
    requires n < 27
    ensures Samples(draws)[n] == GridVector(n)
  {
  }

  /** Base-3 digits are unique. */
  lemma Base3Unique(x: int, y: int, z: int, a: int, b: int, c: int)
    requires 0 <= x < 3 && 0 <= y < 3 && 0 <= z < 3 && 0 <= a < 3 && 0 <= b < 3 && 0 <= c < 3
    requires 9 * x + 3 * y + z == 9 * a + 3 * b + c
    ensures [x, y, z] == [a, b, c]
  {
  }


  /** Draws in `[0, 100000)` give samples in `[0, 100000)`: every sample is a consistent
      counter vector for the decision state. */
  lemma SamplesInRange(draws: seq<seq<int>>)
    requires |draws| == 15 && forall i :: 0 <= i < 15 ==> |draws[i]| == 3
    requires forall i, k :: 0 <= i < 15 && 0 <= k < 3 ==> 0 <= draws[i][k] < 100000
    ensures forall i, k :: 0 <= i < 42 && 0 <= k < 3 ==> 0 <= Samples(draws)[i][k] < 100000
    ensures forall i :: 0 <= i < 42 ==> Consistent(0, Samples(draws)[i])
  {
    var r := Samples(draws);
    forall i, k | 0 <= i < 42 && 0 <= k < 3
      ensures 0 <= r[i][k] < 100000
    {
      if i < 27 {
        assert r[i] == GridVector(i);
      } else {
        assert r[i] == ZeroedDraw(draws[i - 27], i - 27);
      }
    }
  }

  // ---------------------------------------------------------------------------------------
  // The machine object.

  /** `ContextSensitiveCRM`: the raw tables the builders fill in place, the states `U`, the
      terminal states `F` and the compiled table. */
  class Machine {
    const c0: seq<int>
    const u0: int := 0
    var rawU: Dict<int, Dict<string, int>>
    var rawC: Dict<int, Dict<string, seq<int>>>
    var rawR: Dict<int, Dict<string, RewardFn>>
    var states: seq<int>
    var terminal: seq<int>
    var table: Dict<int, seq<Entry<RewardFn>>>

    /** Builds the three raw tables, replaces the sentinel, records `U` and `F`, and compiles
        the table; the defaults give three blocks of each colour. */
    constructor (c0: seq<int>)
      ensures this.c0 == c0 && rawU == TableU() && rawC == RawC() && rawR == RawR()
      ensures states == AllStates() && terminal == [16] && IsTable(table)
    {
      this.c0 := c0;
      rawU, rawC, rawR := [], [], [];
      states, terminal, table := [], [], [];
      new;
      Build();
    }

    /** The body of construction: the three builders, then the sentinel, `U`, `F` and the table. */
    method Build()
      modifies this
      ensures rawU == TableU() && rawC == RawC() && rawR == RawR()
      ensures states == AllStates() && terminal == [16] && IsTable(table)
    {
      FillRawTables();
      Assembled();
      Finish();
    }

    /** The three builders in the order `__init__` calls them. */
    method FillRawTables()
      modifies this
      ensures rawU == RawU() && rawC == RawC() && rawR == RawR()
      ensures states == old(states) && terminal == old(terminal) && table == old(table)
    {
      GetStateTransitionFunction();
      GetCounterTransitionFunction();
      GetRewardTransitionFunction();
    }

    /** The rest of construction: replace the sentinel (the terminal state is one past the
        largest state), record `U` and `F`, compile the table. */
    method Finish()
      requires rawU != []
      modifies this
      ensures rawU == ReplaceSentinel(old(rawU), TerminalState(old(rawU))) && rawC == old(rawC) && rawR == old(rawR)
      ensures states == Keys(old(rawU)) && terminal == [TerminalState(old(rawU))]
      ensures var built := BuildTable(rawU, rawC, rawR, Scale, Compile);
              table == (if built.Ok? then built.value else old(table))
    {
      ghost var u0 := rawU;
      ReplaceTerminalState();
      states := Keys(rawU);
      assert states == Keys(u0);
      terminal := [MaxState(states) + 1];
      assert terminal == [TerminalState(u0)];
      var _ := InitTransitionFunctions();
    }

    /** `_init_transition_functions`: every formula text of every state is compiled and paired
        with its next state, counter delta and (scaled) reward; a failure leaves the table as it
        was and reports the error. */
    method InitTransitionFunctions() returns (r: Result<(), BuildError>)
      modifies this
      ensures var built := BuildTable(rawU, rawC, rawR, Scale, Compile);
              (r.Ok? <==> built.Ok?) && (r.Err? ==> r.error == built.error)
              && table == (if built.Ok? then built.value else old(table))
      ensures rawU == old(rawU) && rawC == old(rawC) && rawR == old(rawR) && states == old(states) && terminal == old(terminal)
    {
      var built := InitTransitions(rawU, rawC, rawR, Scale, Compile);
      if built.Err? {
        return Err(built.error);
      }
      table := built.value;
      r := Ok(());
    }

    /** `_add_block_module_delta_u`: merges the next states of a module into the state table. */
    method AddBlockModuleDeltaU(uStart: int, cs: string, colour: string)
      modifies this
      ensures rawU == Merge(old(rawU), ModuleU(uStart, cs, colour))
      ensures rawC == old(rawC) && rawR == old(rawR) && states == old(states) && terminal == old(terminal) && table == old(table)
    {
      rawU := MergeRows(rawU, ModuleU(uStart, cs, colour));
    }

    /** `_add_block_module_delta_c`: rejects an unknown colour, otherwise merges the counter
        updates of a module, the drop decrementing the colour's counter. */
    method AddBlockModuleDeltaC(uStart: int, cs: string, colour: string) returns (r: Result<(), BuildError>)
      modifies this
      ensures r.Ok? <==> KnownColour(colour)
      ensures r.Ok? ==> rawC == Merge(old(rawC), ModuleC(uStart, cs, colour, DropDelta(colour).value))
      ensures r.Err? ==> r.error == InvalidColour(colour) && rawC == old(rawC)
      ensures rawU == old(rawU) && rawR == old(rawR) && states == old(states) && terminal == old(terminal) && table == old(table)
    {
      var drop := DropDelta(colour);
      if drop.None? {
        return Err(InvalidColour(colour));
      }
      rawC := MergeRows(rawC, ModuleC(uStart, cs, colour, drop.value));
      return Ok(());
    }

    /** `_add_block_module_delta_r`: rejects an unknown colour, otherwise merges the rewards of a
        module. */
    method AddBlockModuleDeltaR(uStart: int, cs: string, colour: string) returns (r: Result<(), BuildError>)
      modifies this
      ensures r.Ok? <==> KnownColour(colour)
      ensures r.Ok? ==> rawR == Merge(old(rawR), ModuleR(uStart, cs, colour))
      ensures r.Err? ==> r.error == InvalidColour(colour) && rawR == old(rawR)
      ensures rawU == old(rawU) && rawC == old(rawC) && states == old(states) && terminal == old(terminal) && table == old(table)
    {
      if !KnownColour(colour) {
        return Err(InvalidColour(colour));
      }
      rawR := MergeRows(rawR, ModuleR(uStart, cs, colour));
      return Ok(());
    }

    /** `_get_state_transition_function`: the decision state, then the blue, green and red
        modules. */
    method GetStateTransitionFunction()
      modifies this
      ensures rawU == RawU()
      ensures rawC == old(rawC) && rawR == old(rawR) && states == old(states) && terminal == old(terminal) && table == old(table)
    {
      rawU := DecisionU();
      AddBlockModuleDeltaU(ModuleStart(0), ModuleCounters(0), ModuleColour(0));
      AddBlockModuleDeltaU(ModuleStart(1), ModuleCounters(1), ModuleColour(1));
      AddBlockModuleDeltaU(ModuleStart(2), ModuleCounters(2), ModuleColour(2));
    }

    /** `_get_counter_transition_function`. */
    method GetCounterTransitionFunction()
      modifies this
      ensures rawC == RawC()
      ensures rawU == old(rawU) && rawR == old(rawR) && states == old(states) && terminal == old(terminal) && table == old(table)
    {
      rawC := DecisionC();
      var _ := AddBlockModuleDeltaC(ModuleStart(0), ModuleCounters(0), ModuleColour(0));
      var _ := AddBlockModuleDeltaC(ModuleStart(1), ModuleCounters(1), ModuleColour(1));
      var _ := AddBlockModuleDeltaC(ModuleStart(2), ModuleCounters(2), ModuleColour(2));
    }

    /** `_get_reward_transition_function`. */
    method GetRewardTransitionFunction()
      modifies this
      ensures rawR == RawR()
      ensures rawU == old(rawU) && rawC == old(rawC) && states == old(states) && terminal == old(terminal) && table == old(table)
    {
      rawR := DecisionR();
      var _ := AddBlockModuleDeltaR(ModuleStart(0), ModuleCounters(0), ModuleColour(0));
      var _ := AddBlockModuleDeltaR(ModuleStart(1), ModuleCounters(1), ModuleColour(1));
      var _ := AddBlockModuleDeltaR(ModuleStart(2), ModuleCounters(2), ModuleColour(2));
    }

    /** `_replace_terminal_state`: every sentinel next state becomes one past the largest state. */
    method ReplaceTerminalState()
      requires rawU != []
      modifies this
      ensures rawU == ReplaceSentinel(old(rawU), TerminalState(old(rawU)))
      ensures rawC == old(rawC) && rawR == old(rawR) && states == old(states) && terminal == old(terminal) && table == old(table)
    {
      rawU := ReplaceSentinel(rawU, TerminalState(rawU));
    }

    /** `transition`: a state without entries is an error; otherwise the entries are tried in
        order and the first whose formula holds fires. */
    method Transition(u: int, c: seq<int>, props: set<string>) returns (r: Result<(int, seq<int>, RewardFn), TransitionError>)
      ensures r == Step(table, u, c, PickPlaceEvents(), props)
    {
      var found := Get(table, u);
      if found.None? {
        return Err(UndefinedState(u));
      }
      var es := found.value;
      var i := 0;
      while i < |es|
        invariant 0 <= i <= |es|
        invariant Resolve(u, es, PickPlaceEvents(), props, c) == Resolve(u, es[i..], PickPlaceEvents(), props, c)
      {
        var fires := Evaluate(es[i], PickPlaceEvents(), props, c);
        if fires.Err? {
          return Err(fires.error);
        }
        if fires.value {
          var next := ApplyDelta(c, es[i].delta);
          if next.Err? {
            return Err(next.error);
          }
          return Ok((es[i].next, next.value, es[i].reward));
        }
        assert es[i..][1..] == es[i + 1..];
        i := i + 1;
      }
      return Err(NoTransition(u));
    }
  }
}
