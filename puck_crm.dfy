/**
 * The counting reward machine of the PuckWorld example (examples/continuous/core/machine.py):
 * three literal tables over three counters, one state per target. State `s` waits for target
 * `s + 1`; reaching it while counter `s` is zero moves on, reaching it while counter `s` is not
 * zero counts the counter down, and every other event keeps the state and pays the shaped
 * navigation reward towards that target. The last target leads to the terminal state.
 */
module PuckWorldCrm {
  import opened Wrappers
  import opened Text
  import opened Compiler
  import opened Dicts
  import opened Automaton

  /** The reward of an entry: a constant, or the shaped reward `_create_nav_t_k_reward()` that
      steers the agent towards target `k`; the latter is a closure over the observation and is
      kept as an identifier. */
  datatype PuckReward = Constant(value: int) | Navigate(target: nat)

  /** The proposition that target `k + 1` is reached: "T_1", "T_2" or "T_3". */
  function TargetName(k: nat): string
    requires k < 3
  {
    if k == 0 then "T_1" else if k == 1 then "T_2" else "T_3"
  }

  /** The propositions the tables name; the label enum itself is not part of this model, so every
      lemma takes an alphabet that holds at least these. */
  function Propositions(): set<string> {
    {"T_1", "T_2", "T_3", "A"}
  }

  // ---------------------------------------------------------------------------------------
  // The three tables, as the machine writes them.

  /** `_get_state_transition_function`. */
  function U(): Dict<int, Dict<string, int>> {
    [ (0, [("T_1 / (Z,-,-)", 1), ("T_1 / (NZ,-,-)", 0), ("T_2 / (-,-,-)", 0),
           ("T_3 / (-,-,-)", 0), ("A / (-,-,-)", 0), ("/ (-,-,-)", 0)]),
      (1, [("T_1 / (-,-,-)", 1), ("T_2 / (-,Z,-)", 2), ("T_2 / (-,NZ,-)", 1),
           ("T_3 / (-,-,-)", 1), ("A / (-,-,-)", 1), ("/ (-,-,-)", 1)]),
      (2, [("T_1 / (-,-,-)", 2), ("T_2 / (-,-,-)", 2), ("T_3 / (-,-,Z)", Sentinel),
           ("T_3 / (-,-,NZ)", 2), ("A / (-,-,-)", 2), ("/ (-,-,-)", 2)]) ]
  }

  /** `_get_counter_transition_function`. */
  function C(): Dict<int, Dict<string, seq<int>>> {
    [ (0, [("T_1 / (Z,-,-)", [0, 0, 0]), ("T_1 / (NZ,-,-)", [-1, 0, 0]), ("T_2 / (-,-,-)", [0, 0, 0]),
           ("T_3 / (-,-,-)", [0, 0, 0]), ("A / (-,-,-)", [0, 0, 0]), ("/ (-,-,-)", [0, 0, 0])]),
      (1, [("T_1 / (-,-,-)", [0, 0, 0]), ("T_2 / (-,Z,-)", [0, 0, 0]), ("T_2 / (-,NZ,-)", [0, -1, 0]),
           ("T_3 / (-,-,-)", [0, 0, 0]), ("A / (-,-,-)", [0, 0, 0]), ("/ (-,-,-)", [0, 0, 0])]),
      (2, [("T_1 / (-,-,-)", [0, 0, 0]), ("T_2 / (-,-,-)", [0, 0, 0]), ("T_3 / (-,-,Z)", [0, 0, 0]),
           ("T_3 / (-,-,NZ)", [0, 0, -1]), ("A / (-,-,-)", [0, 0, 0]), ("/ (-,-,-)", [0, 0, 0])]) ]
  }

  /** `_get_reward_transition_function`. */
  function R(): Dict<int, Dict<string, PuckReward>> {
    [ (0, [("T_1 / (Z,-,-)", Constant(100)), ("T_1 / (NZ,-,-)", Constant(100)), ("T_2 / (-,-,-)", Navigate(1)),
           ("T_3 / (-,-,-)", Navigate(1)), ("A / (-,-,-)", Navigate(1)), ("/ (-,-,-)", Navigate(1))]),
      (1, [("T_1 / (-,-,-)", Navigate(2)), ("T_2 / (-,Z,-)", Constant(100)), ("T_2 / (-,NZ,-)", Constant(100)),
           ("T_3 / (-,-,-)", Navigate(2)), ("A / (-,-,-)", Navigate(2)), ("/ (-,-,-)", Navigate(2))]),
      (2, [("T_1 / (-,-,-)", Navigate(3)), ("T_2 / (-,-,-)", Navigate(3)), ("T_3 / (-,-,Z)", Constant(10000)),
           ("T_3 / (-,-,NZ)", Constant(100)), ("A / (-,-,-)", Navigate(3)), ("/ (-,-,-)", Navigate(3))]) ]
  }

  /** `u_0`. */
  const U0: int := 0

  /** `c_0`. */
  function C0(): seq<int> {
    [0, 0, 0]
  }

  /** `sample_counter_configurations`: the single configuration `_get_possible_counter_configurations`
      lists. */
  function Samples(): seq<seq<int>> {
    [[0, 0, 0]]
  }

  // ---------------------------------------------------------------------------------------
  // What the tables say, entry by entry.

  /** The pattern that leaves every counter free. */
  function Free(): seq<CounterTest> {
    [Any, Any, Any]
  }

  /** The pattern that tests counter `k` with `t` and leaves the others free. */
  function Test(k: nat, t: CounterTest): (p: seq<CounterTest>)
    requires k < 3
    ensures |p| == 3 && p[k] == t && forall i :: 0 <= i < 3 && i != k ==> p[i] == Any
  {
    Free()[k := t]
  }

  /** Every state lists the targets in order, its own target twice (counter `s` zero, then not
      zero), then "A", then the catch-all "/ (-,-,-)". */
  function GuardAt(s: nat, j: nat): Guard
    requires s < 3 && j < 6
  {
    if j < s then Guard(Prop(TargetName(j)), Free())
    else if j == s then Guard(Prop(TargetName(s)), Test(s, Zero))
    else if j == s + 1 then Guard(Prop(TargetName(s)), Test(s, NonZero))
    else if j < 4 then Guard(Prop(TargetName(j - 1)), Free())
    else if j == 4 then Guard(Prop("A"), Free())
    else Guard(True, Free())
  }

  /** Only the first entry on the state's own target moves on. */
  function NextAt(s: nat, j: nat): int
    requires s < 3 && j < 6
  {
    if j == s then s + 1 else s
  }

  /** Only the second entry on the state's own target changes a counter: it counts counter `s`
      down by one. */
  function DeltaAt(s: nat, j: nat): (d: seq<int>)
    requires s < 3 && j < 6
    ensures |d| == 3
  {
    if j == s + 1 then [0, 0, 0][s := -1] else [0, 0, 0]
  }

  /** Reaching the target pays 100, 10000 for the last target with its counter at zero; every
      other entry pays the navigation reward towards the state's target. */
  function RewardAt(s: nat, j: nat): PuckReward
    requires s < 3 && j < 6
  {
    if j == s then Constant(if s == 2 then 10000 else 100)
    else if j == s + 1 then Constant(100)
    else Navigate(s + 1)
  }

  // ---------------------------------------------------------------------------------------
  // Compiling the expressions.

  /** The text "X / (..)" of a proposition under a pattern. */
  lemma TargetText(x: string, p: seq<CounterTest>)
    ensures Expression(Prop(x), p) == x + " / " + Listing(p)
  {
    assert RenderAt(Prop(x), 0) == x;
    assert EventPart(Prop(x)) == x + " ";
    assert (x + " ") + "/" + (" " + Listing(p)) == x + " / " + Listing(p);
  }

  /** The text "/ (..)" of the constant-true formula under a pattern. */
  lemma CatchAllText(p: seq<CounterTest>)
    ensures Expression(True, p) == "/ " + Listing(p)
  {
    assert EventPart(True) == "";
    assert "" + "/" + (" " + Listing(p)) == "/ " + Listing(p);
  }

  /** `sep.join` of three parts. */
  lemma JoinThree(a: string, b: string, c: string, sep: char)
    ensures Join([a, b, c], sep) == a + [sep] + b + [sep] + c
  {
    assert [a, b, c][1..] == [b, c];
    assert [b, c][1..] == [c];
    assert Join([c], sep) == c;
    assert Join([b, c], sep) == b + [sep] + c;
    assert Join([a, b, c], sep) == a + [sep] + (b + [sep] + c);
  }

  /** The text of a three-counter pattern, "(a,b,c)". */
  lemma ListingOfThree(p: seq<CounterTest>, a: string, b: string, c: string)
    requires |p| == 3 && EntryName(p[0]) == a && EntryName(p[1]) == b && EntryName(p[2]) == c
    ensures Listing(p) == "(" + a + "," + b + "," + c + ")"
  {
    assert EntryNames(p) == [a, b, c];
    JoinThree(a, b, c, ',');
  }

  /** The text the machine writes for expression `j` of state `s`. */
  function TextAt(s: nat, j: nat): string
    requires s < 3 && j < 6
  {
    Expression(GuardAt(s, j).wff, GuardAt(s, j).pattern)
  }

  /** Every expression is the text of its guard, so it compiles to that guard. */
  lemma TextCompiles(s: nat, j: nat)
    requires s < 3 && j < 6
    ensures Compile(TextAt(s, j)) == Ok(GuardAt(s, j))
  {
    var g := GuardAt(s, j);
    if g.wff != True {
      assert IsPropositionName("T_1") && IsPropositionName("T_2") && IsPropositionName("T_3") && IsPropositionName("A");
    }
    CompileExpression(g.wff, g.pattern);
  }

  lemma ListingFree()
    ensures Listing(Free()) == "(-,-,-)"
  {
    ListingOfThree(Free(), "-", "-", "-");
  }

  lemma ListingZero0()
    ensures Listing(Test(0, Zero)) == "(Z,-,-)"
  {
    ListingOfThree(Test(0, Zero), "Z", "-", "-");
  }

  lemma ListingNonZero0()
    ensures Listing(Test(0, NonZero)) == "(NZ,-,-)"
  {
    ListingOfThree(Test(0, NonZero), "NZ", "-", "-");
  }

  lemma ListingZero1()
    ensures Listing(Test(1, Zero)) == "(-,Z,-)"
  {
    ListingOfThree(Test(1, Zero), "-", "Z", "-");
  }

  lemma ListingNonZero1()
    ensures Listing(Test(1, NonZero)) == "(-,NZ,-)"
  {
    ListingOfThree(Test(1, NonZero), "-", "NZ", "-");
  }

  lemma ListingZero2()
    ensures Listing(Test(2, Zero)) == "(-,-,Z)"
  {
    ListingOfThree(Test(2, Zero), "-", "-", "Z");
  }

  lemma ListingNonZero2()
    ensures Listing(Test(2, NonZero)) == "(-,-,NZ)"
  {
    ListingOfThree(Test(2, NonZero), "-", "-", "NZ");
  }

  // The text of each distinct expression, one lemma each.

  lemma TextT1Zero()
    ensures Expression(Prop("T_1"), Test(0, Zero)) == "T_1 / (Z,-,-)"
  {
    ListingZero0();
    TargetText("T_1", Test(0, Zero));
  }

  lemma TextT1NonZero()
    ensures Expression(Prop("T_1"), Test(0, NonZero)) == "T_1 / (NZ,-,-)"
  {
    ListingNonZero0();
    TargetText("T_1", Test(0, NonZero));
  }

  lemma TextT1Free()
    ensures Expression(Prop("T_1"), Free()) == "T_1 / (-,-,-)"
  {
    ListingFree();
    TargetText("T_1", Free());
  }

  lemma TextT2Zero()
    ensures Expression(Prop("T_2"), Test(1, Zero)) == "T_2 / (-,Z,-)"
  {
    ListingZero1();
    TargetText("T_2", Test(1, Zero));
  }

  lemma TextT2NonZero()
    ensures Expression(Prop("T_2"), Test(1, NonZero)) == "T_2 / (-,NZ,-)"
  {
    ListingNonZero1();
    TargetText("T_2", Test(1, NonZero));
  }

  lemma TextT2Free()
    ensures Expression(Prop("T_2"), Free()) == "T_2 / (-,-,-)"
  {
    ListingFree();
    TargetText("T_2", Free());
  }

  lemma TextT3Zero()
    ensures Expression(Prop("T_3"), Test(2, Zero)) == "T_3 / (-,-,Z)"
  {
    ListingZero2();
    TargetText("T_3", Test(2, Zero));
  }

  lemma TextT3NonZero()
    ensures Expression(Prop("T_3"), Test(2, NonZero)) == "T_3 / (-,-,NZ)"
  {
    ListingNonZero2();
    TargetText("T_3", Test(2, NonZero));
  }

  lemma TextT3Free()
    ensures Expression(Prop("T_3"), Free()) == "T_3 / (-,-,-)"
  {
    ListingFree();
    TargetText("T_3", Free());
  }

  lemma TextAFree()
    ensures Expression(Prop("A"), Free()) == "A / (-,-,-)"
  {
    ListingFree();
    TargetText("A", Free());
  }

  lemma TextCatchAll()
    ensures Expression(True, Free()) == "/ (-,-,-)"
  {
    ListingFree();
    CatchAllText(Free());
  }

  /** The expressions of state 0 are the texts of its guards. */
  lemma TextsRead0()
    ensures U()[0].1[0].0 == TextAt(0, 0) && U()[0].1[1].0 == TextAt(0, 1) && U()[0].1[2].0 == TextAt(0, 2)
    ensures U()[0].1[3].0 == TextAt(0, 3) && U()[0].1[4].0 == TextAt(0, 4) && U()[0].1[5].0 == TextAt(0, 5)
  {
    TextT1Zero();
    TextT1NonZero();
    TextT2Free();
    TextT3Free();
    TextAFree();
    TextCatchAll();
  }

  /** The expressions of state 1 are the texts of its guards. */
  lemma TextsRead1()
    ensures U()[1].1[0].0 == TextAt(1, 0) && U()[1].1[1].0 == TextAt(1, 1) && U()[1].1[2].0 == TextAt(1, 2)
    ensures U()[1].1[3].0 == TextAt(1, 3) && U()[1].1[4].0 == TextAt(1, 4) && U()[1].1[5].0 == TextAt(1, 5)
  {
    TextT1Free();
    TextT2Zero();
    TextT2NonZero();
    TextT3Free();
    TextAFree();
    TextCatchAll();
  }

  /** The expressions of state 2 are the texts of its guards. */
  lemma TextsRead2()
    ensures U()[2].1[0].0 == TextAt(2, 0) && U()[2].1[1].0 == TextAt(2, 1) && U()[2].1[2].0 == TextAt(2, 2)
    ensures U()[2].1[3].0 == TextAt(2, 3) && U()[2].1[4].0 == TextAt(2, 4) && U()[2].1[5].0 == TextAt(2, 5)
  {
    TextT1Free();
    TextT2Free();
    TextT3Zero();
    TextT3NonZero();
    TextAFree();
    TextCatchAll();
  }

  /** No two expressions of a state are the same text. */
  lemma TextsDistinct(s: nat)
    requires s < 3
    ensures Distinct(Keys(U()[s].1))
  {
    var ks := Keys(U()[s].1);
    assert |ks| == 6 && ks[4][0] == 'A' && ks[5][0] == '/';
    assert ks[0][0] == 'T' && ks[1][0] == 'T' && ks[2][0] == 'T' && ks[3][0] == 'T';
    if s == 0 {
      assert ks[0][2] == '1' && ks[1][2] == '1' && ks[2][2] == '2' && ks[3][2] == '3';
      assert ks[0][7] == 'Z' && ks[1][7] == 'N';
    } else if s == 1 {
      assert ks[0][2] == '1' && ks[1][2] == '2' && ks[2][2] == '2' && ks[3][2] == '3';
      assert ks[1][9] == 'Z' && ks[2][9] == 'N';
    } else {
      assert ks[0][2] == '1' && ks[1][2] == '2' && ks[2][2] == '3' && ks[3][2] == '3';
      assert ks[2][11] == 'Z' && ks[3][11] == 'N';
    }
  }

  /** The states are 0, 1 and 2, in the three tables alike; the terminal state is 3. */
  lemma StatesRead()
    ensures Keys(U()) == [0, 1, 2] && Keys(C()) == [0, 1, 2] && Keys(R()) == [0, 1, 2]
    ensures TerminalState(U()) == 3
  {
  }

  /** The only entry that names the terminal sentinel is "T_3 / (-,-,Z)" of state 2. */
  lemma SentinelOnly(s: nat, j: nat)
    requires s < 3 && j < 6
    ensures |U()[s].1| == 6 && (U()[s].1[j].1 == Sentinel <==> s == 2 && j == 2)
    ensures U()[2].1[2].0 == "T_3 / (-,-,Z)"
  {
  }

  // ---------------------------------------------------------------------------------------
  // Construction.

  /** The state table once the sentinel is rewritten to the terminal state. */
  function Final(): Dict<int, Dict<string, int>> {
    ReplaceSentinel(U(), TerminalState(U()))
  }

  /** The base class keeps the rewards the tables declare. */
  function Keep(u: int, expr: string, next: int, r: PuckReward): PuckReward {
    r
  }

  /** Read entry by entry, state `s` of three tables: six distinct expressions, the texts of
      the state's guards in order, with the next state, counter update and reward the rules
      give. */
  predicate RowsRead(u: Dict<int, Dict<string, int>>, c: Dict<int, Dict<string, seq<int>>>, r: Dict<int, Dict<string, PuckReward>>, s: nat)
    requires s < 3
  {
    |u| == 3 && |c| == 3 && |r| == 3 && u[s].0 == s && c[s].0 == s && r[s].0 == s
    && |u[s].1| == 6 && |c[s].1| == 6 && |r[s].1| == 6 && Distinct(Keys(u[s].1))
    && forall j :: 0 <= j < 6 ==>
         u[s].1[j] == (TextAt(s, j), NextAt(s, j)) && c[s].1[j] == (TextAt(s, j), DeltaAt(s, j))
         && r[s].1[j] == (TextAt(s, j), RewardAt(s, j))
  }

  /** The next state as the source writes it: the sentinel in place of the terminal state. */
  function RawNext(s: nat, j: nat): int
    requires s < 3 && j < 6
  {
    if NextAt(s, j) == 3 then Sentinel else NextAt(s, j)
  }

  /** State `s` of a state table, entry by entry. */
  predicate RawRow(u: Dict<int, Dict<string, int>>, s: nat)
    requires s < 3
  {
    |u| == 3 && u[s].0 == s && |u[s].1| == 6 && Distinct(Keys(u[s].1))
    && u[s].1[0] == (TextAt(s, 0), RawNext(s, 0))
    && u[s].1[1] == (TextAt(s, 1), RawNext(s, 1))
    && u[s].1[2] == (TextAt(s, 2), RawNext(s, 2))
    && u[s].1[3] == (TextAt(s, 3), RawNext(s, 3))
    && u[s].1[4] == (TextAt(s, 4), RawNext(s, 4))
    && u[s].1[5] == (TextAt(s, 5), RawNext(s, 5))
  }

  /** State `s` of a counter table, entry by entry. */
  predicate DeltaRow(c: Dict<int, Dict<string, seq<int>>>, s: nat)
    requires s < 3
  {
    |c| == 3 && c[s].0 == s && |c[s].1| == 6
    && c[s].1[0] == (TextAt(s, 0), DeltaAt(s, 0))
    && c[s].1[1] == (TextAt(s, 1), DeltaAt(s, 1))
    && c[s].1[2] == (TextAt(s, 2), DeltaAt(s, 2))
    && c[s].1[3] == (TextAt(s, 3), DeltaAt(s, 3))
    && c[s].1[4] == (TextAt(s, 4), DeltaAt(s, 4))
    && c[s].1[5] == (TextAt(s, 5), DeltaAt(s, 5))
  }

  /** State `s` of a reward table, entry by entry. */
  predicate RewardRow(r: Dict<int, Dict<string, PuckReward>>, s: nat)
    requires s < 3
  {
    |r| == 3 && r[s].0 == s && |r[s].1| == 6
    && r[s].1[0] == (TextAt(s, 0), RewardAt(s, 0))
    && r[s].1[1] == (TextAt(s, 1), RewardAt(s, 1))
    && r[s].1[2] == (TextAt(s, 2), RewardAt(s, 2))
    && r[s].1[3] == (TextAt(s, 3), RewardAt(s, 3))
    && r[s].1[4] == (TextAt(s, 4), RewardAt(s, 4))
    && r[s].1[5] == (TextAt(s, 5), RewardAt(s, 5))
  }

  /** State 0 of `_get_state_transition_function`. */
  lemma StateRow0()
    ensures RawRow(U(), 0)
  {
    TextsRead0();
    TextsDistinct(0);
  }

  /** State 1 of `_get_state_transition_function`. */
  lemma StateRow1()
    ensures RawRow(U(), 1)
  {
    TextsRead1();
    TextsDistinct(1);
  }

  /** State 2 of `_get_state_transition_function`. */
  lemma StateRow2()
    ensures RawRow(U(), 2)
  {
    TextsRead2();
    TextsDistinct(2);
  }

  /** The counter updates that count one counter down, as the source lists them. */
  lemma Decrements()
    ensures DeltaAt(0, 1) == [-1, 0, 0] && DeltaAt(1, 2) == [0, -1, 0] && DeltaAt(2, 3) == [0, 0, -1]
  {
    assert [0, 0, 0][0 := -1] == [-1, 0, 0];
    assert [0, 0, 0][1 := -1] == [0, -1, 0];
    assert [0, 0, 0][2 := -1] == [0, 0, -1];
  }

  /** State 0 of `_get_counter_transition_function`. */
  lemma CounterRow0()
    ensures DeltaRow(C(), 0)
  {
    Decrements();
    TextT1Zero();
    TextT1NonZero();
    TextT2Free();
    TextT3Free();
    TextAFree();
    TextCatchAll();
  }

  /** State 1 of `_get_counter_transition_function`. */
  lemma CounterRow1()
    ensures DeltaRow(C(), 1)
  {
    Decrements();
    TextT1Free();
    TextT2Zero();
    TextT2NonZero();
    TextT3Free();
    TextAFree();
    TextCatchAll();
  }

  /** State 2 of `_get_counter_transition_function`. */
  lemma CounterRow2()
    ensures DeltaRow(C(), 2)
  {
    Decrements();
    TextT1Free();
    TextT2Free();
    TextT3Zero();
    TextT3NonZero();
    TextAFree();
    TextCatchAll();
  }

  /** State 0 of `_get_reward_transition_function`. */
  lemma RewardRowRead0()
    ensures RewardRow(R(), 0)
  {
    TextT1Zero();
    TextT1NonZero();
    TextT2Free();
    TextT3Free();
    TextAFree();
    TextCatchAll();
  }

  /** State 1 of `_get_reward_transition_function`. */
  lemma RewardRowRead1()
    ensures RewardRow(R(), 1)
  {
    TextT1Free();
    TextT2Zero();
    TextT2NonZero();
    TextT3Free();
    TextAFree();
    TextCatchAll();
  }

  /** State 2 of `_get_reward_transition_function`. */
  lemma RewardRowRead2()
    ensures RewardRow(R(), 2)
  {
    TextT1Free();
    TextT2Free();
    TextT3Zero();
    TextT3NonZero();
    TextAFree();
    TextCatchAll();
  }

  /** A state read entry by entry reads as the rules once the sentinel is rewritten. */
  lemma ReadRow(u: Dict<int, Dict<string, int>>, c: Dict<int, Dict<string, seq<int>>>, r: Dict<int, Dict<string, PuckReward>>, s: nat)
    requires s < 3 && RawRow(u, s) && DeltaRow(c, s) && RewardRow(r, s)
    ensures RowsRead(ReplaceSentinel(u, 3), c, r, s)
  {
    var f := ReplaceSentinel(u, 3);
    assert f[s].1 == ReplaceInRow(u[s].1, 3);
    assert Keys(f[s].1) == Keys(u[s].1);
    forall j | 0 <= j < 6
      ensures f[s].1[j] == (TextAt(s, j), NextAt(s, j)) && c[s].1[j] == (TextAt(s, j), DeltaAt(s, j))
              && r[s].1[j] == (TextAt(s, j), RewardAt(s, j))
    {
      assert Keys(f[s].1)[j] == f[s].1[j].0;
      assert Keys(u[s].1)[j] == u[s].1[j].0;
      assert j == 0 || j == 1 || j == 2 || j == 3 || j == 4 || j == 5;
    }
  }

  /** The guards the expressions compile to, state by state. */
  function Guards(): (gs: seq<seq<Guard>>)
    ensures |gs| == 3 && forall s :: 0 <= s < 3 ==> |gs[s]| == 6 && forall j :: 0 <= j < 6 ==> gs[s][j] == GuardAt(s, j)
  {
    seq(3, s requires 0 <= s < 3 => seq(6, j requires 0 <= j < 6 => GuardAt(s, j)))
  }

  /** The entries of state `s`, as the rules read. */
  function EntriesAt(s: nat): (es: seq<Entry<PuckReward>>)
    requires s < 3
    ensures |es| == 6
    ensures forall j :: 0 <= j < 6 ==> es[j] == Entry(TextAt(s, j), GuardAt(s, j), NextAt(s, j), DeltaAt(s, j), RewardAt(s, j))
  {
    seq(6, j requires 0 <= j < 6 => Entry(TextAt(s, j), GuardAt(s, j), NextAt(s, j), DeltaAt(s, j), RewardAt(s, j)))
  }

  /** A compiled table of the machine: states 0, 1 and 2 in order, each with its entries. */
  predicate IsTable(t: Dict<int, seq<Entry<PuckReward>>>) {
    Keys(t) == [0, 1, 2] && forall s :: 0 <= s < 3 ==> t[s].1 == EntriesAt(s)
  }

  /** Tables that read as the rules are aligned. */
  lemma RowsAligned(u: Dict<int, Dict<string, int>>, c: Dict<int, Dict<string, seq<int>>>, r: Dict<int, Dict<string, PuckReward>>)
    requires forall s :: 0 <= s < 3 ==> RowsRead(u, c, r, s)
    ensures Aligned(u, c, r) && Keys(u) == [0, 1, 2]
  {
    assert RowsRead(u, c, r, 0) && RowsRead(u, c, r, 1) && RowsRead(u, c, r, 2);
    forall s | 0 <= s < 3
      ensures Keys(c[s].1) == Keys(u[s].1) && Keys(r[s].1) == Keys(u[s].1)
    {
      assert RowsRead(u, c, r, s);
    }
  }

  /** Every expression of tables that read as the rules compiles to its guard. */
  lemma RowsCompile(u: Dict<int, Dict<string, int>>, c: Dict<int, Dict<string, seq<int>>>, r: Dict<int, Dict<string, PuckReward>>)
    requires forall s :: 0 <= s < 3 ==> RowsRead(u, c, r, s)
    ensures |u| == 3 && forall s :: 0 <= s < 3 ==> |Guards()[s]| == |u[s].1|
    ensures forall s, j :: 0 <= s < 3 && 0 <= j < |u[s].1| ==> Compile(u[s].1[j].0) == Ok(Guards()[s][j])
  {
    assert RowsRead(u, c, r, 0);
    forall s | 0 <= s < 3
      ensures |Guards()[s]| == |u[s].1|
    {
      assert RowsRead(u, c, r, s);
    }
    forall s, j | 0 <= s < 3 && 0 <= j < |u[s].1|
      ensures Compile(u[s].1[j].0) == Ok(Guards()[s][j])
    {
      assert RowsRead(u, c, r, s);
      TextCompiles(s, j);
    }
  }

  /** A state that reads as the rules yields the entries the rules describe. */
  lemma RowEntries(u: Dict<int, Dict<string, int>>, c: Dict<int, Dict<string, seq<int>>>, r: Dict<int, Dict<string, PuckReward>>, s: nat)
    requires s < 3 && RowsRead(u, c, r, s)
    ensures AlignedEntries(u[s].0, u[s].1, c[s].1, r[s].1, Guards()[s], Keep) == EntriesAt(s)
  {
    var a, e := AlignedEntries(u[s].0, u[s].1, c[s].1, r[s].1, Guards()[s], Keep), EntriesAt(s);
    forall j | 0 <= j < 6
      ensures a[j] == e[j]
    {
      assert u[s].1[j] == (TextAt(s, j), NextAt(s, j));
      assert c[s].1[j] == (TextAt(s, j), DeltaAt(s, j)) && r[s].1[j] == (TextAt(s, j), RewardAt(s, j));
      assert a[j] == Entry(u[s].1[j].0, Guards()[s][j], u[s].1[j].1, c[s].1[j].1, Keep(s, u[s].1[j].0, u[s].1[j].1, r[s].1[j].1));
    }
  }

  /** Tables that read as the rules compile into the table the rules describe. */
  lemma BuildRows(u: Dict<int, Dict<string, int>>, c: Dict<int, Dict<string, seq<int>>>, r: Dict<int, Dict<string, PuckReward>>)
    requires forall s :: 0 <= s < 3 ==> RowsRead(u, c, r, s)
    ensures var b := BuildTable(u, c, r, Keep, Compile); b.Ok? && IsTable(b.value)
  {
    RowsAligned(u, c, r);
    RowsCompile(u, c, r);
    BuildAligned(u, c, r, Guards(), Keep, Compile);
    RowEntries(u, c, r, 0);
    RowEntries(u, c, r, 1);
    RowEntries(u, c, r, 2);
  }

  /** The three tables, once the sentinel is rewritten, read as the rules. */
  lemma FinalRead()
    ensures forall s :: 0 <= s < 3 ==> RowsRead(Final(), C(), R(), s)
  {
    forall s | 0 <= s < 3
      ensures RowsRead(Final(), C(), R(), s)
    {
      FinalRow(s);
    }
  }

  /** One state of the final tables. */
  lemma FinalRow(s: nat)
    requires s < 3
    ensures RowsRead(Final(), C(), R(), s)
  {
    StatesRead();
    if s == 0 {
      StateRow0();
      CounterRow0();
      RewardRowRead0();
    } else if s == 1 {
      StateRow1();
      CounterRow1();
      RewardRowRead1();
    } else {
      StateRow2();
      CounterRow2();
      RewardRowRead2();
    }
    ReadRow(U(), C(), R(), s);
  }

  /** Construction succeeds and yields the table the rules describe. */
  lemma Built()
    ensures var b := BuildTable(Final(), C(), R(), Keep, Compile); b.Ok? && IsTable(b.value)
  {
    FinalRead();
    BuildRows(Final(), C(), R());
  }

  // ---------------------------------------------------------------------------------------
  // Transitions.

  /** Looking up a state of the compiled table gives its entries. */
  lemma TableAt(t: Dict<int, seq<Entry<PuckReward>>>, s: nat)
    requires IsTable(t) && s < 3
    ensures Get(t, s) == Some(EntriesAt(s))
  {
    assert Keys(t)[s] == t[s].0;
    GetAt(t, s);
  }

  /** Every guard of a state names known propositions and reads at most three counters. */
  lemma EntriesWellFormed(s: nat, alphabet: set<string>)
    requires s < 3 && Propositions() <= alphabet
    ensures WellFormedEntries(EntriesAt(s), alphabet, 3)
  {
    forall j | 0 <= j < 6
      ensures WellFormed(EntriesAt(s)[j].guard, alphabet, 3)
    {
      assert TargetName(0) in Propositions() && TargetName(1) in Propositions() && TargetName(2) in Propositions();
    }
  }

  /** The state's own target is among the events and no earlier target is. */
  predicate Advances(s: nat, props: set<string>)
    requires s < 3
  {
    TargetName(s) in props && forall k :: 0 <= k < s ==> TargetName(k) !in props
  }

  /** What the machine is meant to do in state `s` with counters `c` on events `props`: on the
      state's target with its counter at zero it moves on, paying 100 (10000 for the last
      target); on the target with the counter above zero it counts the counter down, paying 100;
      otherwise it stays and pays the navigation reward towards the state's target. */
  function Expected(s: nat, c: seq<int>, props: set<string>): (int, seq<int>, PuckReward)
    requires s < 3 && |c| == 3
  {
    if !Advances(s, props) then (s, c, Navigate(s + 1))
    else if c[s] == 0 then (s + 1, c, Constant(if s == 2 then 10000 else 100))
    else (s, c[s := c[s] - 1], Constant(100))
  }

  /** The counter update of the entry that counts counter `s` down. */
  lemma CountDown(s: nat, c: seq<int>)
    requires s < 3 && |c| == 3
    ensures ApplyDelta(c, DeltaAt(s, s + 1)) == Ok(c[s := c[s] - 1])
  {
    var d := DeltaAt(s, s + 1);
    assert d[s] == -1 && forall i :: 0 <= i < 3 && i != s ==> d[i] == 0;
    var r := ApplyDelta(c, d).value;
    assert forall i :: 0 <= i < 3 ==> r[i] == c[i] + d[i];
    assert forall i :: 0 <= i < 3 ==> r[i] == c[s := c[s] - 1][i];
    assert r == c[s := c[s] - 1];
  }

  /** A pattern that tests one counter holds exactly when that counter passes the test. */
  lemma TestMatches(k: nat, t: CounterTest, c: seq<int>)
    requires k < 3 && |c| == 3
    ensures Matches(Test(k, t), c) <==> Accepts(t, c, k)
  {
    var p := Test(k, t);
    if Accepts(t, c, k) {
      forall i | 0 <= i < 3
        ensures Accepts(p[i], c, i)
      {
      }
    }
  }

  /** The free pattern holds for any three counters. */
  lemma FreeMatches(c: seq<int>)
    requires |c| == 3
    ensures Matches(Free(), c)
  {
    forall i | 0 <= i < 3
      ensures Accepts(Free()[i], c, i)
    {
    }
  }

  /** When guard `j` of state `s` holds, in plain terms. */
  predicate HoldsAt(s: nat, j: nat, props: set<string>, c: seq<int>)
    requires s < 3 && j < 6 && |c| == 3
  {
    if j < s then TargetName(j) in props
    else if j == s then TargetName(s) in props && c[s] == 0
    else if j == s + 1 then TargetName(s) in props && c[s] != 0
    else if j < 4 then TargetName(j - 1) in props
    else if j == 4 then "A" in props
    else true
  }

  /** Guard `j` of state `s` holds exactly when `HoldsAt` says. */
  lemma GuardAtHolds(s: nat, j: nat, props: set<string>, c: seq<int>)
    requires s < 3 && j < 6 && |c| == 3
    ensures GuardHolds(GuardAt(s, j), props, c) <==> HoldsAt(s, j, props, c)
  {
    if j == s {
      TestMatches(s, Zero, c);
    } else if j == s + 1 {
      TestMatches(s, NonZero, c);
    } else {
      FreeMatches(c);
    }
  }

  /** Which entry fires, and what it does: the table the rules describe realises `Expected`. */
  lemma FireExpected(s: nat, c: seq<int>, props: set<string>, x: nat)
    requires s < 3 && |c| == 3 && x < 6
    requires HoldsAt(s, x, props, c)
    requires forall j :: 0 <= j < x ==> !HoldsAt(s, j, props, c)
    ensures Fire(EntriesAt(s)[x], c) == Ok(Expected(s, c, props))
  {
    FireEntry(s, c, x);
    ExpectedEntry(s, c, props, x);
  }

  /** Firing entry `x` of state `s` moves to its next state and pays its reward; only the entry
      that counts down changes the counters. */
  lemma FireEntry(s: nat, c: seq<int>, x: nat)
    requires s < 3 && |c| == 3 && x < 6
    ensures Fire(EntriesAt(s)[x], c) == Ok((NextAt(s, x), if x == s + 1 then c[s := c[s] - 1] else c, RewardAt(s, x)))
  {
    assert EntriesAt(s)[x].delta == DeltaAt(s, x);
    if x == s + 1 {
      CountDown(s, c);
    } else {
      assert IsZero(DeltaAt(s, x));
      ZeroDeltaKeeps(c, DeltaAt(s, x));
    }
  }

  /** The outcome `Expected` names is the one of the first entry whose guard holds. */
  lemma ExpectedEntry(s: nat, c: seq<int>, props: set<string>, x: nat)
    requires s < 3 && |c| == 3 && x < 6
    requires HoldsAt(s, x, props, c)
    requires forall j :: 0 <= j < x ==> !HoldsAt(s, j, props, c)
    ensures Expected(s, c, props) == (NextAt(s, x), if x == s + 1 then c[s := c[s] - 1] else c, RewardAt(s, x))
  {
    if x >= s {
      forall k | 0 <= k < s
        ensures TargetName(k) !in props
      {
        assert !HoldsAt(s, k, props, c);
      }
    }
    if x == s + 1 {
      assert !HoldsAt(s, s, props, c);
    } else if x < s {
      assert TargetName(x) in props;
    } else if x > s + 1 {
      assert !HoldsAt(s, s, props, c) && !HoldsAt(s, s + 1, props, c);
    }
  }

  /** `transition` of the machine in a state of its table: the first entry whose guard holds
      fires, and the outcome is exactly `Expected`; the catch-all means it never fails. */
  lemma Transition(t: Dict<int, seq<Entry<PuckReward>>>, s: nat, c: seq<int>, alphabet: set<string>, props: set<string>)
    requires IsTable(t) && s < 3 && |c| == 3 && Propositions() <= alphabet
    ensures Step(t, s, c, alphabet, props) == Ok(Expected(s, c, props))
  {
    TableAt(t, s);
    var es := EntriesAt(s);
    EntriesWellFormed(s, alphabet);
    ResolveWellFormed(s, es, alphabet, props, c);
    GuardAtHolds(s, 5, props, c);
    var x := FirstHolding(es, props, c).value;
    forall j | 0 <= j <= x
      ensures GuardHolds(GuardAt(s, j), props, c) <==> HoldsAt(s, j, props, c)
    {
      GuardAtHolds(s, j, props, c);
    }
    FireExpected(s, c, props, x);
  }

  /** The terminal state has no entries: a step from it is an error. */
  lemma TerminalUndefined(t: Dict<int, seq<Entry<PuckReward>>>, c: seq<int>, alphabet: set<string>, props: set<string>)
    requires IsTable(t)
    ensures Step(t, 3, c, alphabet, props) == Err(UndefinedState(3))
  {
  }

  /** The scenario the machine is built for: at the last target with its counter at zero the
      machine reaches the terminal state and pays 10000. */
  lemma LastTarget(t: Dict<int, seq<Entry<PuckReward>>>, alphabet: set<string>)
    requires IsTable(t) && Propositions() <= alphabet
    ensures Step(t, 2, C0(), alphabet, {"T_3"}) == Ok((3, C0(), Constant(10000)))
  {
    Transition(t, 2, C0(), alphabet, {"T_3"});
    assert TargetName(0) != "T_3" && TargetName(1) != "T_3";
  }

  /** One step from a state of the table: the machine stays or moves on by one state, counters
      stay non-negative and never go up, a move leaves them as they were and entering the
      terminal state pays 10000. */
  lemma StepBounds(t: Dict<int, seq<Entry<PuckReward>>>, s: nat, c: seq<int>, alphabet: set<string>, props: set<string>)
    requires IsTable(t) && s < 3 && |c| == 3 && NonNegative(c) && Propositions() <= alphabet
    ensures Step(t, s, c, alphabet, props).Ok?
    ensures var (n, d, r) := Step(t, s, c, alphabet, props).value;
            (n == s || n == s + 1) && |d| == 3 && NonNegative(d)
            && (forall i :: 0 <= i < 3 ==> d[i] <= c[i])
            && (n == s + 1 ==> d == c)
            && (n == 3 ==> r == Constant(10000))
  {
    Transition(t, s, c, alphabet, props);
  }

  /** From the initial counters the counters never change: every target is reached with its
      counter at zero. */
  lemma FromInitial(t: Dict<int, seq<Entry<PuckReward>>>, s: nat, alphabet: set<string>, props: set<string>)
    requires IsTable(t) && s < 3 && Propositions() <= alphabet
    ensures Step(t, s, C0(), alphabet, props) == Ok(if Advances(s, props) then (s + 1, C0(), Constant(if s == 2 then 10000 else 100))
                                                   else (s, C0(), Navigate(s + 1)))
  {
    Transition(t, s, C0(), alphabet, props);
  }

  /** Every counter update is zero or counts one counter down, and only under a pattern that
      tests that counter non-zero: the condition under which no counter goes below zero. */
  lemma DecrementsGuarded(s: nat, j: nat)
    requires s < 3 && j < 6
    ensures |DeltaAt(s, j)| == |GuardAt(s, j).pattern| == 3
    ensures forall i :: 0 <= i < 3 ==> DeltaAt(s, j)[i] >= -1 && (DeltaAt(s, j)[i] < 0 ==> GuardAt(s, j).pattern[i] == NonZero)
  {
  }

  /** The machine writes counter parts, so it is a counting reward machine; its declared initial
      counters are accepted as they are. */
  lemma CountingMachine()
    ensures !IsRewardMachine(U())
    ensures InitialCounters(false, Some(C0())) == Ok(C0())
  {
    StateRow0();
    TargetText(TargetName(0), Test(0, Zero));
    ContainsAfter(TargetName(0), " / ", Listing(Test(0, Zero)));
    assert TargetName(0) + " / " + Listing(Test(0, Zero)) == TargetName(0) + " / " + Listing(Test(0, Zero));
    assert Contains(U()[0].1[0].0, " / ");
  }
}
