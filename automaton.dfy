/**
 * The counting-reward-machine core shared by every machine: compiled per-state tables, the
 * first-match transition, numpy-style counter updates, the terminal sentinel and the rule that
 * separates reward machines from counting reward machines.
 *
 * The base class crm/automaton/machine.py is not part of this model; its construction steps are
 * modelled as the machines below use them.
 */
module Automaton {
  import opened Wrappers
  import opened Text
  import opened Compiler
  import opened Dicts

  /** One compiled table entry: its expression, guard, next state, counter delta and reward. */
  datatype Entry<R> = Entry(expr: string, guard: Guard, next: int, delta: seq<int>, reward: R)

  datatype TransitionError =
    | UndefinedState(state: int)
    | GuardRaised(cause: EvalError)
    | ShapeMismatch(counters: nat, delta: nat)
    | NoTransition(state: int)

  datatype BuildError =
    | InvalidExpression(expr: string, cause: CompileError)
    | MissingCounterConfiguration(state: int, expr: string)
    | MissingReward(state: int, expr: string)
    | InvalidColour(colour: string)
    | RewardMachineWithInitialCounters
    | CountingMachineWithoutInitialCounters

  // ---------------------------------------------------------------------------------------
  // Counter updates: `tuple(np.array(c) + np.array(delta))`.

  /** Element `i` of a vector under broadcasting: a one-element vector repeats its element. */
  function Broadcast(s: seq<int>, i: nat): int
    requires |s| == 1 || i < |s|
  {
    if |s| == 1 then s[0] else s[i]
  }

  /** Elementwise sum; numpy broadcasts a one-element side and rejects any other mismatch. */
  function ApplyDelta(c: seq<int>, delta: seq<int>): (r: Result<seq<int>, TransitionError>)
    ensures r.Ok? <==> |c| == |delta| || |c| == 1 || |delta| == 1
    ensures r.Ok? ==> |r.value| == (if |delta| == 1 then |c| else |delta|)
    ensures r.Ok? ==> forall i :: 0 <= i < |r.value| ==> r.value[i] == Broadcast(c, i) + Broadcast(delta, i)
  {
    if |c| == |delta| || |delta| == 1 then Ok(seq(|c|, i requires 0 <= i < |c| => c[i] + Broadcast(delta, i)))
    else if |c| == 1 then Ok(seq(|delta|, i requires 0 <= i < |delta| => c[0] + delta[i]))
    else Err(ShapeMismatch(|c|, |delta|))
  }

  predicate IsZero(delta: seq<int>) {
    forall i :: 0 <= i < |delta| ==> delta[i] == 0
  }

  predicate NonNegative(c: seq<int>) {
    forall i :: 0 <= i < |c| ==> c[i] >= 0
  }

  /** A zero delta of the vector's length, or the one-element `(0,)`, leaves the counters as they are. */
  lemma ZeroDeltaKeeps(c: seq<int>, delta: seq<int>)
    requires IsZero(delta) && (|delta| == |c| || |delta| == 1)
    ensures ApplyDelta(c, delta) == Ok(c)
  {
    var r := ApplyDelta(c, delta).value;
    assert forall i :: 0 <= i < |c| ==> r[i] == c[i];
    assert r == c;
  }

  function Negated(delta: seq<int>): (r: seq<int>)
    ensures |r| == |delta| && forall i :: 0 <= i < |delta| ==> r[i] == -delta[i]
  {
    seq(|delta|, i requires 0 <= i < |delta| => -delta[i])
  }

  /** Adding a delta of the vector's length and then its negation gives the counters back. */
  lemma ApplyDeltaUndo(c: seq<int>, delta: seq<int>)
    requires |c| == |delta|
    ensures ApplyDelta(c, delta).Ok? && ApplyDelta(ApplyDelta(c, delta).value, Negated(delta)) == Ok(c)
  {
    var r := ApplyDelta(c, delta).value;
    var back := ApplyDelta(r, Negated(delta)).value;
    assert forall i :: 0 <= i < |c| ==> back[i] == c[i];
    assert back == c;
  }

  /** Decrements of one, each under a pattern entry "NZ" that the counters satisfy, never take a
      non-negative counter below zero. */
  lemma NoUnderflow(p: seq<CounterTest>, c: seq<int>, delta: seq<int>)
    requires NonNegative(c) && Matches(p, c) && |delta| == |c|
    requires forall i :: 0 <= i < |delta| ==> delta[i] >= -1 && (delta[i] < 0 ==> i < |p| && p[i] == NonZero)
    ensures ApplyDelta(c, delta).Ok? && NonNegative(ApplyDelta(c, delta).value)
  {
    var r := ApplyDelta(c, delta).value;
    forall i | 0 <= i < |c|
      ensures r[i] >= 0
    {
      if delta[i] < 0 {
        assert Accepts(p[i], c, i);
      }
    }
  }

  // ---------------------------------------------------------------------------------------
  // The transition: scan the entries of the state in order, the first guard that holds fires.

  /** Calling an entry's compiled formula; an exception in the formula is an error. */
  function Evaluate<R>(e: Entry<R>, alphabet: set<string>, props: set<string>, c: seq<int>): Result<bool, TransitionError> {
    match EvalGuard(e.guard, alphabet, props, c)
    case Ok(b) => Ok(b)
    case Err(x) => Err(GuardRaised(x))
  }

  /** The for/break scan over the entries of state `u`. */
  function Resolve<R>(u: int, entries: seq<Entry<R>>, alphabet: set<string>, props: set<string>, c: seq<int>): Result<(int, seq<int>, R), TransitionError>
    decreases |entries|
  {
    if entries == [] then Err(NoTransition(u))
    else
      var fires :- Evaluate(entries[0], alphabet, props, c);
      if fires then
        var next :- ApplyDelta(c, entries[0].delta);
        Ok((entries[0].next, next, entries[0].reward))
      else Resolve(u, entries[1..], alphabet, props, c)
  }

  /** `transition(u, c, props)`: a state without a table is an error, otherwise resolve. */
  function Step<R>(table: Dict<int, seq<Entry<R>>>, u: int, c: seq<int>, alphabet: set<string>, props: set<string>): Result<(int, seq<int>, R), TransitionError> {
    match Get(table, u)
    case None => Err(UndefinedState(u))
    case Some(entries) => Resolve(u, entries, alphabet, props, c)
  }

  /** The outcome of firing entry `e`. */
  function Fire<R>(e: Entry<R>, c: seq<int>): Result<(int, seq<int>, R), TransitionError> {
    var next :- ApplyDelta(c, e.delta);
    Ok((e.next, next, e.reward))
  }

  /** Entry `i` is the first whose formula returns true, every earlier one returning false. */
  predicate FirstFiring<R>(entries: seq<Entry<R>>, i: nat, alphabet: set<string>, props: set<string>, c: seq<int>) {
    i < |entries| && Evaluate(entries[i], alphabet, props, c) == Ok(true)
    && forall j :: 0 <= j < i ==> Evaluate(entries[j], alphabet, props, c) == Ok(false)
  }

  /** The first entry that fires supplies next state, counter update and reward together. */
  lemma {:induction false} ResolveFirst<R>(u: int, entries: seq<Entry<R>>, i: nat, alphabet: set<string>, props: set<string>, c: seq<int>)
    requires FirstFiring(entries, i, alphabet, props, c)
    ensures Resolve(u, entries, alphabet, props, c) == Fire(entries[i], c)
  {
    if i > 0 {
      assert Evaluate(entries[0], alphabet, props, c) == Ok(false);
      assert FirstFiring(entries[1..], i - 1, alphabet, props, c) by {
        forall j | 0 <= j < i - 1
          ensures Evaluate(entries[1..][j], alphabet, props, c) == Ok(false)
        {
          assert entries[1..][j] == entries[j + 1];
        }
      }
      ResolveFirst(u, entries[1..], i - 1, alphabet, props, c);
    }
  }

  /** Every successful transition comes from the first entry that fires. */
  lemma {:induction false} ResolveSound<R>(u: int, entries: seq<Entry<R>>, alphabet: set<string>, props: set<string>, c: seq<int>)
    requires Resolve(u, entries, alphabet, props, c).Ok?
    ensures exists i: nat :: FirstFiring(entries, i, alphabet, props, c) && Resolve(u, entries, alphabet, props, c) == Fire(entries[i], c)
    decreases |entries|
  {
    if Evaluate(entries[0], alphabet, props, c) == Ok(true) {
      assert FirstFiring(entries, 0, alphabet, props, c);
    } else {
      ResolveSound(u, entries[1..], alphabet, props, c);
      var i: nat :| FirstFiring(entries[1..], i, alphabet, props, c) && Resolve(u, entries[1..], alphabet, props, c) == Fire(entries[1..][i], c);
      assert FirstFiring(entries, i + 1, alphabet, props, c) by {
        forall j | 0 <= j < i + 1
          ensures Evaluate(entries[j], alphabet, props, c) == Ok(false)
        {
          if j > 0 { assert entries[j] == entries[1..][j - 1]; }
        }
      }
    }
  }

  /** When every formula returns false the transition is undefined for the configuration. */
  lemma {:induction false} ResolveNone<R>(u: int, entries: seq<Entry<R>>, alphabet: set<string>, props: set<string>, c: seq<int>)
    requires forall j :: 0 <= j < |entries| ==> Evaluate(entries[j], alphabet, props, c) == Ok(false)
    ensures Resolve(u, entries, alphabet, props, c) == Err(NoTransition(u))
    decreases |entries|
  {
    if entries != [] {
      assert forall j :: 0 <= j < |entries| - 1 ==> entries[1..][j] == entries[j + 1];
      ResolveNone(u, entries[1..], alphabet, props, c);
    }
  }

  /** Every guard names only known propositions and reads at most `arity` counters. */
  predicate WellFormedEntries<R>(entries: seq<Entry<R>>, alphabet: set<string>, arity: nat) {
    forall j :: 0 <= j < |entries| ==> WellFormed(entries[j].guard, alphabet, arity)
  }

  /** The first entry whose guard holds, in the reference semantics of guards. */
  function FirstHolding<R>(entries: seq<Entry<R>>, props: set<string>, c: seq<int>): (r: Option<nat>)
    ensures r.Some? ==> r.value < |entries| && GuardHolds(entries[r.value].guard, props, c)
    ensures r.Some? ==> forall j :: 0 <= j < r.value ==> !GuardHolds(entries[j].guard, props, c)
    ensures r.None? ==> forall j :: 0 <= j < |entries| ==> !GuardHolds(entries[j].guard, props, c)
    decreases |entries|
  {
    if entries == [] then None
    else if GuardHolds(entries[0].guard, props, c) then Some(0)
    else
      var r := FirstHolding(entries[1..], props, c);
      assert forall j :: 0 <= j < |entries| - 1 ==> entries[1..][j] == entries[j + 1];
      if r.Some? then Some(r.value + 1) else None
  }

  /** For well-formed guards the scan is total: it fires the first entry whose guard holds, and
      fails with `NoTransition` exactly when no guard holds. */
  lemma ResolveWellFormed<R>(u: int, entries: seq<Entry<R>>, alphabet: set<string>, props: set<string>, c: seq<int>)
    requires WellFormedEntries(entries, alphabet, |c|)
    ensures Resolve(u, entries, alphabet, props, c)
         == match FirstHolding(entries, props, c)
            case None => Err(NoTransition(u))
            case Some(i) => Fire(entries[i], c)
  {
    forall j | 0 <= j < |entries|
      ensures Evaluate(entries[j], alphabet, props, c) == Ok(GuardHolds(entries[j].guard, props, c))
    {
      GuardTotal(entries[j].guard, alphabet, props, c);
    }
    match FirstHolding(entries, props, c)
    case None =>
      ResolveNone(u, entries, alphabet, props, c);
    case Some(i) =>
      ResolveFirst(u, entries, i, alphabet, props, c);
  }

  // ---------------------------------------------------------------------------------------
  // Construction: compiling the three raw tables into one table of entries.

  /** Compiling expression `expr` of state `u`: the formula, then its counter delta (a missing one
      is reported), then its reward (a missing one is a `KeyError`), through the machine's reward
      rule `scale`. */
  function CompileEntry<R>(u: int, expr: string, next: int, deltas: Dict<string, seq<int>>, rewards: Dict<string, R>,
                           scale: (int, string, int, R) -> R, compile: string -> Result<Guard, CompileError>): (r: Result<Entry<R>, BuildError>)
    ensures r.Ok? <==> compile(expr).Ok? && expr in Keys(deltas) && expr in Keys(rewards)
    ensures r.Ok? ==> r.value.expr == expr && r.value.next == next && compile(expr) == Ok(r.value.guard)
                      && Get(deltas, expr) == Some(r.value.delta) && r.value.reward == scale(u, expr, next, Get(rewards, expr).value)
  {
    match compile(expr)
    case Err(e) => Err(InvalidExpression(expr, e))
    case Ok(guard) =>
      match Get(deltas, expr)
      case None => Err(MissingCounterConfiguration(u, expr))
      case Some(delta) =>
        match Get(rewards, expr)
        case None => Err(MissingReward(u, expr))
        case Some(reward) => Ok(Entry(expr, guard, next, delta, scale(u, expr, next, reward)))
  }

  /** The entries of state `u`, one per expression in declaration order; the first expression
      that fails stops construction. */
  function CompileEntries<R>(u: int, rows: Dict<string, int>, deltas: Dict<string, seq<int>>, rewards: Dict<string, R>,
                             scale: (int, string, int, R) -> R, compile: string -> Result<Guard, CompileError>): (r: Result<seq<Entry<R>>, BuildError>)
    ensures r.Ok? ==> |r.value| == |rows|
    decreases |rows|
  {
    if rows == [] then Ok([])
    else
      var init := CompileEntries(u, rows[..|rows| - 1], deltas, rewards, scale, compile);
      var last := EntryAt(u, rows, |rows| - 1, deltas, rewards, scale, compile);
      if init.Err? then init
      else if last.Err? then Err(last.error)
      else Ok(init.value + [last.value])
  }

  /** The entries are compiled exactly when every expression compiles, and entry `i` is the
      compilation of expression `i`. */
  lemma {:induction false} CompileEntriesOk<R>(u: int, rows: Dict<string, int>, deltas: Dict<string, seq<int>>, rewards: Dict<string, R>,
                                               scale: (int, string, int, R) -> R, compile: string -> Result<Guard, CompileError>)
    ensures var r := CompileEntries(u, rows, deltas, rewards, scale, compile);
            r.Ok? <==> forall i :: 0 <= i < |rows| ==> EntryAt(u, rows, i, deltas, rewards, scale, compile).Ok?
    ensures var r := CompileEntries(u, rows, deltas, rewards, scale, compile);
            r.Ok? ==> forall i :: 0 <= i < |rows| ==> EntryAt(u, rows, i, deltas, rewards, scale, compile) == Ok(r.value[i])
    decreases |rows|
  {
    if rows != [] {
      var n := |rows| - 1;
      var init := rows[..n];
      CompileEntriesOk(u, init, deltas, rewards, scale, compile);
      EntriesPrefix(u, rows, n, deltas, rewards, scale, compile);
      var ri := CompileEntries(u, init, deltas, rewards, scale, compile);
      var last := EntryAt(u, rows, n, deltas, rewards, scale, compile);
      if ri.Err? {
        var i :| 0 <= i < n && !EntryAt(u, init, i, deltas, rewards, scale, compile).Ok?;
        assert !EntryAt(u, rows, i, deltas, rewards, scale, compile).Ok?;
      } else if last.Err? {
      } else {
        var v := ri.value + [last.value];
        assert CompileEntries(u, rows, deltas, rewards, scale, compile) == Ok(v);
        forall i | 0 <= i < |rows|
          ensures EntryAt(u, rows, i, deltas, rewards, scale, compile) == Ok(v[i])
        {
          if i < n {
            assert v[i] == ri.value[i];
          }
        }
      }
    }
  }

  /** The expressions before `n` compile as they do in the whole row. */
  lemma EntriesPrefix<R>(u: int, rows: Dict<string, int>, n: nat, deltas: Dict<string, seq<int>>, rewards: Dict<string, R>,
                         scale: (int, string, int, R) -> R, compile: string -> Result<Guard, CompileError>)
    requires n <= |rows|
    ensures forall i :: 0 <= i < n ==> EntryAt(u, rows[..n], i, deltas, rewards, scale, compile) == EntryAt(u, rows, i, deltas, rewards, scale, compile)
  {
  }

  /** The compilation of expression `i` of a state. */
  function EntryAt<R>(u: int, rows: Dict<string, int>, i: nat, deltas: Dict<string, seq<int>>, rewards: Dict<string, R>,
                      scale: (int, string, int, R) -> R, compile: string -> Result<Guard, CompileError>): Result<Entry<R>, BuildError>
    requires i < |rows|
  {
    CompileEntry(u, rows[i].0, rows[i].1, deltas, rewards, scale, compile)
  }

  /** `_init_transition_functions`: every state's expressions compiled, states in table order. */
  function BuildTable<R>(table: Dict<int, Dict<string, int>>, deltaC: Dict<int, Dict<string, seq<int>>>,
                         deltaR: Dict<int, Dict<string, R>>, scale: (int, string, int, R) -> R, compile: string -> Result<Guard, CompileError>): (r: Result<Dict<int, seq<Entry<R>>>, BuildError>)
    ensures r.Ok? ==> Keys(r.value) == Keys(table)
    decreases |table|
  {
    if table == [] then Ok([])
    else
      var u := table[|table| - 1].0;
      var init := BuildTable(table[..|table| - 1], deltaC, deltaR, scale, compile);
      var last := States(table, deltaC, deltaR, scale, compile, |table| - 1);
      if init.Err? then init
      else if last.Err? then Err(last.error)
      else
        assert Keys(init.value + [(u, last.value)]) == Keys(table[..|table| - 1]) + [u];
        assert Keys(table) == Keys(table[..|table| - 1]) + [u];
        Ok(init.value + [(u, last.value)])
  }

  /** The table is built exactly when every state compiles, and state `i` of the table holds the
      entries compiled from the expressions of state `i`. */
  lemma {:induction false} BuildTableOk<R>(table: Dict<int, Dict<string, int>>, deltaC: Dict<int, Dict<string, seq<int>>>,
                                           deltaR: Dict<int, Dict<string, R>>, scale: (int, string, int, R) -> R, compile: string -> Result<Guard, CompileError>)
    ensures var r := BuildTable(table, deltaC, deltaR, scale, compile);
            r.Ok? <==> forall i :: 0 <= i < |table| ==> States(table, deltaC, deltaR, scale, compile, i).Ok?
    ensures var r := BuildTable(table, deltaC, deltaR, scale, compile);
            r.Ok? ==> forall i :: 0 <= i < |table| ==> States(table, deltaC, deltaR, scale, compile, i) == Ok(r.value[i].1)
    decreases |table|
  {
    if table != [] {
      var n := |table| - 1;
      var init := table[..n];
      BuildTableOk(init, deltaC, deltaR, scale, compile);
      StatesPrefix(table, deltaC, deltaR, scale, compile, n);
      var ri := BuildTable(init, deltaC, deltaR, scale, compile);
      var last := States(table, deltaC, deltaR, scale, compile, n);
      if ri.Err? {
        assert BuildTable(table, deltaC, deltaR, scale, compile) == ri;
        var i :| 0 <= i < n && !States(init, deltaC, deltaR, scale, compile, i).Ok?;
        assert !States(table, deltaC, deltaR, scale, compile, i).Ok?;
      } else if last.Err? {
        assert BuildTable(table, deltaC, deltaR, scale, compile) == Err(last.error);
      } else {
        var v := ri.value + [(table[n].0, last.value)];
        assert BuildTable(table, deltaC, deltaR, scale, compile) == Ok(v);
        forall i | 0 <= i < |table|
          ensures States(table, deltaC, deltaR, scale, compile, i) == Ok(v[i].1)
        {
          if i < n {
            assert v[i] == ri.value[i];
          }
        }
      }
    }
  }

  /** The entries of a state do not depend on the states listed after it. */
  lemma StatesPrefix<R>(table: Dict<int, Dict<string, int>>, deltaC: Dict<int, Dict<string, seq<int>>>,
                        deltaR: Dict<int, Dict<string, R>>, scale: (int, string, int, R) -> R, compile: string -> Result<Guard, CompileError>, n: nat)
    requires n <= |table|
    ensures forall i :: 0 <= i < n ==> States(table[..n], deltaC, deltaR, scale, compile, i) == States(table, deltaC, deltaR, scale, compile, i)
  {
  }

  /** The entries compiled for state `i` of the table. */
  function States<R>(table: Dict<int, Dict<string, int>>, deltaC: Dict<int, Dict<string, seq<int>>>,
                     deltaR: Dict<int, Dict<string, R>>, scale: (int, string, int, R) -> R, compile: string -> Result<Guard, CompileError>, i: nat): Result<seq<Entry<R>>, BuildError>
    requires i < |table|
  {
    CompileEntries(table[i].0, table[i].1, GetOr(deltaC, table[i].0, []), GetOr(deltaR, table[i].0, []), scale, compile)
  }

  /** Three raw tables that list the same states, and state by state the same expressions, in
      the same order, as tables written from one list of transitions do. */
  predicate Aligned<C, R>(table: Dict<int, Dict<string, int>>, deltaC: Dict<int, Dict<string, C>>, deltaR: Dict<int, Dict<string, R>>) {
    Keys(deltaC) == Keys(table) && Keys(deltaR) == Keys(table) && Distinct(Keys(table))
    && forall i :: 0 <= i < |table| ==>
         Keys(deltaC[i].1) == Keys(table[i].1) && Keys(deltaR[i].1) == Keys(table[i].1) && Distinct(Keys(table[i].1))
  }

  /** The entries of one state of aligned tables whose expressions compile to `guards`. */
  function AlignedEntries<R>(u: int, rows: Dict<string, int>, deltas: Dict<string, seq<int>>, rewards: Dict<string, R>,
                             guards: seq<Guard>, scale: (int, string, int, R) -> R): (es: seq<Entry<R>>)
    requires |deltas| == |rows| && |rewards| == |rows| && |guards| == |rows|
    ensures |es| == |rows|
  {
    seq(|rows|, j requires 0 <= j < |rows| => Entry(rows[j].0, guards[j], rows[j].1, deltas[j].1, scale(u, rows[j].0, rows[j].1, rewards[j].1)))
  }

  /** One state of aligned tables compiles to one entry per expression, in order, carrying the
      expression's next state, counter delta and scaled reward. */
  lemma CompileAligned<R>(u: int, rows: Dict<string, int>, deltas: Dict<string, seq<int>>, rewards: Dict<string, R>,
                          guards: seq<Guard>, scale: (int, string, int, R) -> R, compile: string -> Result<Guard, CompileError>)
    requires Keys(deltas) == Keys(rows) && Keys(rewards) == Keys(rows) && Distinct(Keys(rows))
    requires |guards| == |rows| && forall j :: 0 <= j < |rows| ==> compile(rows[j].0) == Ok(guards[j])
    ensures CompileEntries(u, rows, deltas, rewards, scale, compile) == Ok(AlignedEntries(u, rows, deltas, rewards, guards, scale))
  {
    var es := AlignedEntries(u, rows, deltas, rewards, guards, scale);
    forall j | 0 <= j < |rows|
      ensures EntryAt(u, rows, j, deltas, rewards, scale, compile) == Ok(es[j])
    {
      assert Keys(deltas)[j] == rows[j].0 && Keys(rewards)[j] == rows[j].0;
      GetAt(deltas, j);
      GetAt(rewards, j);
    }
    CompileEntriesOk(u, rows, deltas, rewards, scale, compile);
    var r := CompileEntries(u, rows, deltas, rewards, scale, compile);
    assert r.value == es;
  }

  /** Aligned tables whose every expression compiles build, state by state in table order, into
      the aligned entries of each state. */
  lemma BuildAligned<R>(table: Dict<int, Dict<string, int>>, deltaC: Dict<int, Dict<string, seq<int>>>, deltaR: Dict<int, Dict<string, R>>,
                        guards: seq<seq<Guard>>, scale: (int, string, int, R) -> R, compile: string -> Result<Guard, CompileError>)
    requires Aligned(table, deltaC, deltaR) && |guards| == |table|
    requires forall i :: 0 <= i < |table| ==> |guards[i]| == |table[i].1|
    requires forall i, j :: 0 <= i < |table| && 0 <= j < |table[i].1| ==> compile(table[i].1[j].0) == Ok(guards[i][j])
    ensures var r := BuildTable(table, deltaC, deltaR, scale, compile);
            r.Ok? && Keys(r.value) == Keys(table)
            && forall i :: 0 <= i < |table| ==>
                 r.value[i].1 == AlignedEntries(table[i].0, table[i].1, deltaC[i].1, deltaR[i].1, guards[i], scale)
  {
    forall i | 0 <= i < |table|
      ensures States(table, deltaC, deltaR, scale, compile, i)
           == Ok(AlignedEntries(table[i].0, table[i].1, deltaC[i].1, deltaR[i].1, guards[i], scale))
    {
      assert Keys(deltaC)[i] == table[i].0 && Keys(deltaR)[i] == table[i].0;
      GetAt(deltaC, i);
      GetAt(deltaR, i);
      CompileAligned(table[i].0, table[i].1, deltaC[i].1, deltaR[i].1, guards[i], scale, compile);
    }
    BuildTableOk(table, deltaC, deltaR, scale, compile);
  }

  /** Compiling one more expression of a state extends its entries, or stops with its error. */
  lemma CompileEntriesSnoc<R>(u: int, rows: Dict<string, int>, j: nat, deltas: Dict<string, seq<int>>, rewards: Dict<string, R>,
                              scale: (int, string, int, R) -> R, compile: string -> Result<Guard, CompileError>)
    requires j < |rows| && CompileEntries(u, rows[..j], deltas, rewards, scale, compile).Ok?
    ensures var e := EntryAt(u, rows, j, deltas, rewards, scale, compile);
            CompileEntries(u, rows[..j + 1], deltas, rewards, scale, compile)
            == if e.Ok? then Ok(CompileEntries(u, rows[..j], deltas, rewards, scale, compile).value + [e.value]) else Err(e.error)
  {
    assert rows[..j + 1][..j] == rows[..j];
  }

  /** Once a prefix of the expressions fails, construction of the state fails with its error. */
  lemma {:induction false} CompileEntriesPrefix<R>(u: int, rows: Dict<string, int>, n: nat, deltas: Dict<string, seq<int>>, rewards: Dict<string, R>,
                                                   scale: (int, string, int, R) -> R, compile: string -> Result<Guard, CompileError>)
    requires n <= |rows| && CompileEntries(u, rows[..n], deltas, rewards, scale, compile).Err?
    ensures CompileEntries(u, rows, deltas, rewards, scale, compile) == CompileEntries(u, rows[..n], deltas, rewards, scale, compile)
    decreases |rows|
  {
    if n < |rows| {
      var init := rows[..|rows| - 1];
      assert init[..n] == rows[..n];
      CompileEntriesPrefix(u, init, n, deltas, rewards, scale, compile);
    } else {
      assert rows[..n] == rows;
    }
  }

  /** Building one more state extends the table, or stops with its error. */
  lemma BuildTableSnoc<R>(table: Dict<int, Dict<string, int>>, deltaC: Dict<int, Dict<string, seq<int>>>,
                          deltaR: Dict<int, Dict<string, R>>, scale: (int, string, int, R) -> R, compile: string -> Result<Guard, CompileError>, i: nat)
    requires i < |table| && BuildTable(table[..i], deltaC, deltaR, scale, compile).Ok?
    ensures var s := States(table, deltaC, deltaR, scale, compile, i);
            BuildTable(table[..i + 1], deltaC, deltaR, scale, compile)
            == if s.Ok? then Ok(BuildTable(table[..i], deltaC, deltaR, scale, compile).value + [(table[i].0, s.value)]) else Err(s.error)
  {
    assert table[..i + 1][..i] == table[..i];
  }

  /** Once a prefix of the states fails, construction fails with its error. */
  lemma {:induction false} BuildTablePrefix<R>(table: Dict<int, Dict<string, int>>, deltaC: Dict<int, Dict<string, seq<int>>>,
                                               deltaR: Dict<int, Dict<string, R>>, scale: (int, string, int, R) -> R, compile: string -> Result<Guard, CompileError>, n: nat)
    requires n <= |table| && BuildTable(table[..n], deltaC, deltaR, scale, compile).Err?
    ensures BuildTable(table, deltaC, deltaR, scale, compile) == BuildTable(table[..n], deltaC, deltaR, scale, compile)
    decreases |table|
  {
    if n < |table| {
      var init := table[..|table| - 1];
      assert init[..n] == table[..n];
      BuildTablePrefix(init, deltaC, deltaR, scale, compile, n);
    } else {
      assert table[..n] == table;
    }
  }

  /** `_init_transition_functions`: for every state in table order, for every expression in
      declaration order, compile it and look up its counter delta and reward; the first failure
      is raised. */
  method InitTransitions<R>(table: Dict<int, Dict<string, int>>, deltaC: Dict<int, Dict<string, seq<int>>>,
                            deltaR: Dict<int, Dict<string, R>>, scale: (int, string, int, R) -> R, compile: string -> Result<Guard, CompileError>)
    returns (r: Result<Dict<int, seq<Entry<R>>>, BuildError>)
    ensures r == BuildTable(table, deltaC, deltaR, scale, compile)
  {
    var built: Dict<int, seq<Entry<R>>> := [];
    var i := 0;
    while i < |table|
      invariant 0 <= i <= |table|
      invariant BuildTable(table[..i], deltaC, deltaR, scale, compile) == Ok(built)
    {
      var (u, rows) := table[i];
      var deltas, rewards := GetOr(deltaC, u, []), GetOr(deltaR, u, []);
      var entries: seq<Entry<R>> := [];
      var j := 0;
      while j < |rows|
        invariant 0 <= j <= |rows|
        invariant CompileEntries(u, rows[..j], deltas, rewards, scale, compile) == Ok(entries)
      {
        var e := CompileEntry(u, rows[j].0, rows[j].1, deltas, rewards, scale, compile);
        CompileEntriesSnoc(u, rows, j, deltas, rewards, scale, compile);
        if e.Err? {
          CompileEntriesPrefix(u, rows, j + 1, deltas, rewards, scale, compile);
          BuildTableSnoc(table, deltaC, deltaR, scale, compile, i);
          BuildTablePrefix(table, deltaC, deltaR, scale, compile, i + 1);
          return Err(e.error);
        }
        entries := entries + [e.value];
        j := j + 1;
      }
      assert rows[..j] == rows;
      BuildTableSnoc(table, deltaC, deltaR, scale, compile, i);
      built := built + [(u, entries)];
      i := i + 1;
    }
    assert table[..i] == table;
    return Ok(built);
  }

  /** An expression of the state table with no counter delta in its state stops construction:
      the `KeyError` is re-raised as a `ValueError`. */
  lemma MissingDeltaRejected<R>(table: Dict<int, Dict<string, int>>, deltaC: Dict<int, Dict<string, seq<int>>>,
                                deltaR: Dict<int, Dict<string, R>>, scale: (int, string, int, R) -> R, compile: string -> Result<Guard, CompileError>,
                                i: nat, j: nat)
    requires i < |table| && j < |table[i].1|
    requires table[i].1[j].0 !in Keys(GetOr(deltaC, table[i].0, []))
    ensures BuildTable(table, deltaC, deltaR, scale, compile).Err?
  {
    var u, rows := table[i].0, table[i].1;
    var deltas, rewards := GetOr(deltaC, u, []), GetOr(deltaR, u, []);
    assert EntryAt(u, rows, j, deltas, rewards, scale, compile).Err?;
    CompileEntriesOk(u, rows, deltas, rewards, scale, compile);
    BuildTableOk(table, deltaC, deltaR, scale, compile);
  }

  // ---------------------------------------------------------------------------------------
  // The terminal sentinel: `-1` as a next state is rewritten to one past the largest state.

  const Sentinel := -1

  /** The largest state of a non-empty list of states. */
  function MaxState(states: seq<int>): (m: int)
    requires states != []
    ensures m in states && forall i :: 0 <= i < |states| ==> states[i] <= m
    decreases |states|
  {
    if |states| == 1 then states[0]
    else
      var m := MaxState(states[1..]);
      assert forall i :: 1 <= i < |states| ==> states[i] == states[1..][i - 1];
      if states[0] >= m then states[0] else m
  }

  /** One state's next-state column with every sentinel rewritten to `terminal`. */
  function ReplaceInRow(row: Dict<string, int>, terminal: int): (r: Dict<string, int>)
    ensures Keys(r) == Keys(row)
    ensures forall i :: 0 <= i < |row| ==> r[i].1 == if row[i].1 == Sentinel then terminal else row[i].1
  {
    seq(|row|, i requires 0 <= i < |row| => (row[i].0, if row[i].1 == Sentinel then terminal else row[i].1))
  }

  /** The state-transition table with every sentinel rewritten to `terminal`. */
  function ReplaceSentinel(table: Dict<int, Dict<string, int>>, terminal: int): (r: Dict<int, Dict<string, int>>)
    ensures Keys(r) == Keys(table)
    ensures forall i :: 0 <= i < |table| ==> r[i].1 == ReplaceInRow(table[i].1, terminal)
  {
    seq(|table|, i requires 0 <= i < |table| => (table[i].0, ReplaceInRow(table[i].1, terminal)))
  }

  lemma ReplaceSentinelAppend(x: Dict<int, Dict<string, int>>, y: Dict<int, Dict<string, int>>, terminal: int)
    ensures ReplaceSentinel(x + y, terminal) == ReplaceSentinel(x, terminal) + ReplaceSentinel(y, terminal)
  {
    var l, r := ReplaceSentinel(x + y, terminal), ReplaceSentinel(x, terminal) + ReplaceSentinel(y, terminal);
    forall i | 0 <= i < |x + y|
      ensures l[i] == r[i]
    {
      if i >= |x| { assert (x + y)[i] == y[i - |x|]; }
    }
  }

  /** A table without sentinels is left as it is. */
  lemma ReplaceSentinelAbsent(table: Dict<int, Dict<string, int>>, terminal: int)
    requires forall i, j :: 0 <= i < |table| && 0 <= j < |table[i].1| ==> table[i].1[j].1 != Sentinel
    ensures ReplaceSentinel(table, terminal) == table
  {
    var r := ReplaceSentinel(table, terminal);
    forall i | 0 <= i < |table|
      ensures r[i] == table[i]
    {
      assert r[i].1 == table[i].1;
    }
  }

  /** The terminal state of a table: one past its largest state. */
  function TerminalState(table: Dict<int, Dict<string, int>>): (t: int)
    requires table != []
    ensures t !in Keys(table) && forall i :: 0 <= i < |table| ==> table[i].0 < t
  {
    MaxState(Keys(table)) + 1
  }

  /** Every next state of the table is one of its states. */
  predicate Closed(table: Dict<int, Dict<string, int>>, terminal: int) {
    forall i, j :: 0 <= i < |table| && 0 <= j < |table[i].1| ==> table[i].1[j].1 in Keys(table) || table[i].1[j].1 == terminal
  }

  /** After the rewrite no sentinel is left, every other next state is unchanged, and a table
      whose next states were states or the sentinel now only leads to states or the terminal. */
  lemma ReplaceSentinelClosed(table: Dict<int, Dict<string, int>>)
    requires table != [] && forall i :: 0 <= i < |table| ==> table[i].0 >= 0
    requires forall i, j :: 0 <= i < |table| && 0 <= j < |table[i].1| ==> table[i].1[j].1 in Keys(table) || table[i].1[j].1 == Sentinel
    ensures var r := ReplaceSentinel(table, TerminalState(table));
            forall i, j :: 0 <= i < |r| && 0 <= j < |r[i].1| ==> r[i].1[j].1 != Sentinel
    ensures Closed(ReplaceSentinel(table, TerminalState(table)), TerminalState(table))
  {
    var t := TerminalState(table);
    var r := ReplaceSentinel(table, t);
    forall i, j | 0 <= i < |r| && 0 <= j < |r[i].1|
      ensures r[i].1[j].1 != Sentinel && (r[i].1[j].1 in Keys(r) || r[i].1[j].1 == t)
    {
      assert r[i].1 == ReplaceInRow(table[i].1, t);
      assert t > table[0].0 >= 0;
      if table[i].1[j].1 != Sentinel {
        var k :| 0 <= k < |table| && table[k].0 == table[i].1[j].1;
        assert Keys(table)[k] == table[k].0;
        assert Keys(table)[k] == table[k].0;
      }
    }
  }

  // ---------------------------------------------------------------------------------------
  // Reward machines and counting reward machines.

  /** A reward machine writes no counter part: no expression holds " / ". */
  predicate IsRewardMachine(table: Dict<int, Dict<string, int>>) {
    forall i, j :: 0 <= i < |table| && 0 <= j < |table[i].1| ==> !Contains(table[i].1[j].0, " / ")
  }

  /** The initial counters of a machine: a reward machine may not declare them and gets `(0,)`;
      a counting reward machine must declare them. */
  function InitialCounters(rewardMachine: bool, declared: Option<seq<int>>): (r: Result<seq<int>, BuildError>)
    ensures r.Ok? <==> (rewardMachine <==> declared.None?)
    ensures r.Ok? && rewardMachine ==> r.value == [0]
    ensures r.Ok? && !rewardMachine ==> r.value == declared.value
    ensures r.Err? ==> r.error == if rewardMachine then RewardMachineWithInitialCounters else CountingMachineWithoutInitialCounters
  {
    match declared
    case None => if rewardMachine then Ok([0]) else Err(CountingMachineWithoutInitialCounters)
    case Some(c) => if rewardMachine then Err(RewardMachineWithInitialCounters) else Ok(c)
  }

  /** The counter table a reward machine runs with once it is normalised to the single dummy
      counter: every expression of every state adds `(0,)`. */
  function RewardMachineDeltas(table: Dict<int, Dict<string, int>>): (r: Dict<int, Dict<string, seq<int>>>)
    ensures |r| == |table| && Keys(r) == Keys(table)
    ensures forall i :: 0 <= i < |table| ==> |r[i].1| == |table[i].1| && Keys(r[i].1) == Keys(table[i].1)
    ensures forall i, j :: 0 <= i < |table| && 0 <= j < |table[i].1| ==> r[i].1[j].1 == [0]
  {
    seq(|table|, i requires 0 <= i < |table| => (table[i].0, seq(|table[i].1|, j requires 0 <= j < |table[i].1| => (table[i].1[j].0, [0]))))
  }

  /** The dummy counter never moves: a delta `(0,)` keeps `(0,)`. */
  lemma DummyCounterKept()
    ensures ApplyDelta([0], [0]) == Ok([0])
  {
    ZeroDeltaKeeps([0], [0]);
  }
}
