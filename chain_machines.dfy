/**
 * Reward machines written in the legacy syntax as a chain of states. State `s` lists two
 * expressions: its target proposition, which moves on to `s + 1` (the last state to the
 * terminal sentinel), and "DEFAULT", which stays. Neither expression has a "/", so each
 * compiles under the implicit pattern "(Z)", and the machine runs on the single dummy counter
 * `(0,)` with every counter update `(0,)`. Both reward machines among the examples have this
 * shape; their modules show that their literal tables are such a chain.
 */
module ChainMachines {
  import opened Wrappers
  import opened Text
  import opened Compiler
  import opened Dicts
  import opened Automaton

  /** The expression of the self-loop. It is an ordinary proposition word: it holds only when
      the labelling function emits it. */
  const Default: string := "DEFAULT"

  /** One target per state, each a proposition name other than "DEFAULT". */
  predicate ValidTargets(targets: seq<string>) {
    targets != [] && forall k :: 0 <= k < |targets| ==> IsPropositionName(targets[k]) && targets[k] != Default
  }

  /** The next state the tables write for the target of state `s` of an `n`-state chain. */
  function ChainNext(n: nat, s: nat): int {
    if s + 1 == n then Sentinel else s + 1
  }

  /** State `s` of a state table and a reward table, entry by entry. */
  predicate ChainRow<V(==)>(u: Dict<int, Dict<string, int>>, r: Dict<int, Dict<string, V>>,
                        targets: seq<string>, progress: seq<V>, idle: seq<V>, s: nat)
    requires s < |targets| && |progress| == |targets| && |idle| == |targets|
  {
    |u| == |targets| && |r| == |targets| && u[s].0 == s && r[s].0 == s
    && u[s].1 == [(targets[s], ChainNext(|targets|, s)), (Default, s)]
    && r[s].1 == [(targets[s], progress[s]), (Default, idle[s])]
  }

  /** The two tables form a chain over `targets`, paying `progress[s]` for the target of state
      `s` and `idle[s]` for its self-loop. */
  predicate Chain<V(==)>(u: Dict<int, Dict<string, int>>, r: Dict<int, Dict<string, V>>,
                     targets: seq<string>, progress: seq<V>, idle: seq<V>) {
    ValidTargets(targets) && |progress| == |targets| && |idle| == |targets| && |u| == |targets| && |r| == |targets|
    && forall s :: 0 <= s < |targets| ==> ChainRow(u, r, targets, progress, idle, s)
  }

  /** The base class keeps the rewards the table declares. */
  function Keep<V(==)>(u: int, expr: string, next: int, v: V): V {
    v
  }

  /** The compiled entries of state `s`: the target first, then "DEFAULT". */
  function ChainEntries<V(==)>(targets: seq<string>, progress: seq<V>, idle: seq<V>, s: nat): seq<Entry<V>>
    requires s < |targets| && |progress| == |targets| && |idle| == |targets|
  {
    [Entry(targets[s], Guard(Prop(targets[s]), [Zero]), s + 1, [0], progress[s]),
     Entry(Default, Guard(Prop(Default), [Zero]), s, [0], idle[s])]
  }

  /** A compiled table of the chain: state `s` at position `s`, with its two entries. */
  predicate IsChainTable<V(==)>(t: Dict<int, seq<Entry<V>>>, targets: seq<string>, progress: seq<V>, idle: seq<V>)
    requires |progress| == |targets| && |idle| == |targets|
  {
    |t| == |targets| && forall s :: 0 <= s < |t| ==> t[s].0 == s && t[s].1 == ChainEntries(targets, progress, idle, s)
  }

  /** The table of a chain after the sentinel is rewritten. */
  function Final(u: Dict<int, Dict<string, int>>): Dict<int, Dict<string, int>>
    requires u != []
  {
    ReplaceSentinel(u, TerminalState(u))
  }

  /** The states of a chain are 0 .. n - 1, so its terminal state is n. */
  lemma ChainTerminal<V>(u: Dict<int, Dict<string, int>>, r: Dict<int, Dict<string, V>>,
                         targets: seq<string>, progress: seq<V>, idle: seq<V>)
    requires Chain(u, r, targets, progress, idle)
    ensures TerminalState(u) == |targets|
  {
    var n := |targets|;
    assert ChainRow(u, r, targets, progress, idle, n - 1);
    var m := MaxState(Keys(u));
    forall i | 0 <= i < n
      ensures Keys(u)[i] == i
    {
      assert ChainRow(u, r, targets, progress, idle, i);
    }
    assert Keys(u)[n - 1] <= m;
  }

  /** After the rewrite, state `s` of a chain moves on to `s + 1` on its target. */
  lemma FinalRow<V>(u: Dict<int, Dict<string, int>>, r: Dict<int, Dict<string, V>>,
                    targets: seq<string>, progress: seq<V>, idle: seq<V>, s: nat)
    requires Chain(u, r, targets, progress, idle) && s < |targets|
    ensures Final(u)[s] == (s, [(targets[s], s + 1), (Default, s)])
  {
    ChainTerminal(u, r, targets, progress, idle);
    assert ChainRow(u, r, targets, progress, idle, s);
    var row := u[s].1;
    var f := Final(u);
    assert f[s].0 == Keys(f)[s] == Keys(u)[s] == s;
    var nr := ReplaceInRow(row, |targets|);
    assert f[s].1 == nr;
    assert |nr| == 2 && Keys(nr) == Keys(row);
    assert nr[0].0 == Keys(nr)[0] == targets[s] && nr[1].0 == Keys(nr)[1] == Default;
    assert nr[0].1 == s + 1 && nr[1].1 == s;
    assert nr == [(targets[s], s + 1), (Default, s)];
  }

  /** The guards the expressions of a chain compile to. */
  function ChainGuards(targets: seq<string>): (gs: seq<seq<Guard>>)
    ensures |gs| == |targets|
    ensures forall s :: 0 <= s < |targets| ==> gs[s] == [Guard(Prop(targets[s]), [Zero]), Guard(Prop(Default), [Zero])]
  {
    seq(|targets|, s requires 0 <= s < |targets| => [Guard(Prop(targets[s]), [Zero]), Guard(Prop(Default), [Zero])])
  }

  /** "DEFAULT" is a proposition name. */
  lemma DefaultIsName()
    ensures IsPropositionName(Default)
  {
    assert forall k :: 0 <= k < |Default| ==> IsWordChar(Default[k]);
  }

  /** Every expression of a chain compiles to its proposition under the pattern "(Z)". */
  lemma TargetsCompile(targets: seq<string>)
    requires ValidTargets(targets)
    ensures Compile(Default) == Ok(Guard(Prop(Default), [Zero]))
    ensures forall s :: 0 <= s < |targets| ==> Compile(targets[s]) == Ok(Guard(Prop(targets[s]), [Zero]))
  {
    DefaultIsName();
    CompileWord(Default);
    forall s | 0 <= s < |targets|
      ensures Compile(targets[s]) == Ok(Guard(Prop(targets[s]), [Zero]))
    {
      CompileWord(targets[s]);
    }
  }

  /** Every state of a chain, after the rewrite, and of its reward table. */
  lemma FinalRows<V>(u: Dict<int, Dict<string, int>>, r: Dict<int, Dict<string, V>>,
                     targets: seq<string>, progress: seq<V>, idle: seq<V>)
    requires Chain(u, r, targets, progress, idle)
    ensures |Final(u)| == |targets|
    ensures forall s :: 0 <= s < |targets| ==> Final(u)[s] == (s, [(targets[s], s + 1), (Default, s)])
    ensures forall s :: 0 <= s < |targets| ==> r[s] == (s, [(targets[s], progress[s]), (Default, idle[s])])
  {
    forall s | 0 <= s < |targets|
      ensures Final(u)[s] == (s, [(targets[s], s + 1), (Default, s)])
      ensures r[s] == (s, [(targets[s], progress[s]), (Default, idle[s])])
    {
      FinalRow(u, r, targets, progress, idle, s);
      assert ChainRow(u, r, targets, progress, idle, s);
    }
  }

  /** Tables laid out as a chain after the rewrite are aligned with the dummy counter table. */
  lemma RowsAligned<V>(f: Dict<int, Dict<string, int>>, r: Dict<int, Dict<string, V>>,
                       targets: seq<string>, progress: seq<V>, idle: seq<V>)
    requires ValidTargets(targets) && |progress| == |targets| && |idle| == |targets|
    requires |f| == |targets| && |r| == |targets|
    requires forall s :: 0 <= s < |targets| ==> f[s] == (s, [(targets[s], s + 1), (Default, s)])
    requires forall s :: 0 <= s < |targets| ==> r[s] == (s, [(targets[s], progress[s]), (Default, idle[s])])
    ensures Aligned(f, RewardMachineDeltas(f), r)
  {
    assert Keys(r) == Keys(f);
    forall i | 0 <= i < |f|
      ensures Keys(r[i].1) == Keys(f[i].1) && Distinct(Keys(f[i].1))
    {
      assert Keys(f[i].1) == [targets[i], Default];
    }
  }

  /** State `s` of tables laid out as a chain compiles to the chain's entries. */
  lemma RowEntries<V>(f: Dict<int, Dict<string, int>>, r: Dict<int, Dict<string, V>>,
                      targets: seq<string>, progress: seq<V>, idle: seq<V>, s: nat)
    requires |progress| == |targets| && |idle| == |targets| && s < |targets|
    requires |f| == |targets| && |r| == |targets|
    requires f[s] == (s, [(targets[s], s + 1), (Default, s)])
    requires r[s] == (s, [(targets[s], progress[s]), (Default, idle[s])])
    ensures var d := RewardMachineDeltas(f);
            AlignedEntries(f[s].0, f[s].1, d[s].1, r[s].1, ChainGuards(targets)[s], Keep) == ChainEntries(targets, progress, idle, s)
  {
    var d := RewardMachineDeltas(f);
    var a := AlignedEntries(f[s].0, f[s].1, d[s].1, r[s].1, ChainGuards(targets)[s], Keep);
    var e := ChainEntries(targets, progress, idle, s);
    assert a[0] == e[0] && a[1] == e[1];
  }

  /** Every expression of a state table laid out as a chain compiles to its guard. */
  lemma RowsCompile(f: Dict<int, Dict<string, int>>, targets: seq<string>)
    requires ValidTargets(targets) && |f| == |targets|
    requires forall s :: 0 <= s < |targets| ==> f[s] == (s, [(targets[s], s + 1), (Default, s)])
    ensures forall i :: 0 <= i < |f| ==> |ChainGuards(targets)[i]| == |f[i].1|
    ensures forall i, j :: 0 <= i < |f| && 0 <= j < |f[i].1| ==> Compile(f[i].1[j].0) == Ok(ChainGuards(targets)[i][j])
  {
    var gs := ChainGuards(targets);
    TargetsCompile(targets);
    forall i | 0 <= i < |f|
      ensures |gs[i]| == |f[i].1| == 2
      ensures Compile(f[i].1[0].0) == Ok(gs[i][0]) && Compile(f[i].1[1].0) == Ok(gs[i][1])
    {
      assert f[i] == (i, [(targets[i], i + 1), (Default, i)]);
    }
    assert forall i, j :: 0 <= i < |f| && 0 <= j < |f[i].1| ==> Compile(f[i].1[j].0) == Ok(gs[i][j]) by {
      forall i, j | 0 <= i < |f| && 0 <= j < |f[i].1|
        ensures Compile(f[i].1[j].0) == Ok(gs[i][j])
      {
        assert j == 0 || j == 1;
      }
    }
  }

  /** Tables laid out as a chain, with the dummy counter table, build the chain's table. */
  lemma BuildRows<V>(f: Dict<int, Dict<string, int>>, r: Dict<int, Dict<string, V>>,
                     targets: seq<string>, progress: seq<V>, idle: seq<V>)
    requires ValidTargets(targets) && |progress| == |targets| && |idle| == |targets|
    requires |f| == |targets| && |r| == |targets|
    requires forall s :: 0 <= s < |targets| ==> f[s] == (s, [(targets[s], s + 1), (Default, s)])
    requires forall s :: 0 <= s < |targets| ==> r[s] == (s, [(targets[s], progress[s]), (Default, idle[s])])
    ensures var b := BuildTable(f, RewardMachineDeltas(f), r, Keep, Compile);
            b.Ok? && IsChainTable(b.value, targets, progress, idle)
  {
    var d := RewardMachineDeltas(f);
    var gs := ChainGuards(targets);
    RowsAligned(f, r, targets, progress, idle);
    RowsCompile(f, targets);
    BuildAligned(f, d, r, gs, Keep, Compile);
    var t := BuildTable(f, d, r, Keep, Compile).value;
    forall s | 0 <= s < |t|
      ensures t[s].0 == s && t[s].1 == ChainEntries(targets, progress, idle, s)
    {
      assert Keys(t)[s] == Keys(f)[s];
      RowEntries(f, r, targets, progress, idle, s);
    }
  }

  /** Construction of a chain succeeds: with the dummy counter table, every expression
      compiles, and state `s` gets its target entry and its "DEFAULT" entry, in that order. */
  lemma ChainBuilds<V>(u: Dict<int, Dict<string, int>>, r: Dict<int, Dict<string, V>>,
                       targets: seq<string>, progress: seq<V>, idle: seq<V>)
    requires Chain(u, r, targets, progress, idle)
    ensures var b := BuildTable(Final(u), RewardMachineDeltas(Final(u)), r, Keep, Compile);
            b.Ok? && IsChainTable(b.value, targets, progress, idle)
  {
    FinalRows(u, r, targets, progress, idle);
    BuildRows(Final(u), r, targets, progress, idle);
  }

  /** A chain writes no counter part, so it is a reward machine: it may not declare initial
      counters and runs from the dummy counter `(0,)`. */
  lemma ChainIsRewardMachine<V>(u: Dict<int, Dict<string, int>>, r: Dict<int, Dict<string, V>>,
                                targets: seq<string>, progress: seq<V>, idle: seq<V>)
    requires Chain(u, r, targets, progress, idle)
    ensures IsRewardMachine(u)
    ensures InitialCounters(true, None) == Ok([0])
    ensures InitialCounters(true, Some([0])) == Err(RewardMachineWithInitialCounters)
  {
    DefaultIsName();
    forall i, j | 0 <= i < |u| && 0 <= j < |u[i].1|
      ensures !Contains(u[i].1[j].0, " / ")
    {
      assert ChainRow(u, r, targets, progress, idle, i);
      var x := u[i].1[j].0;
      assert IsPropositionName(x);
      assert ' ' !in x by {
        forall k | 0 <= k < |x|
          ensures x[k] != ' '
        {
          assert IsWordChar(x[k]);
        }
      }
      NotContainsHead(x, " / ");
    }
  }

  /** The dummy counter satisfies the implicit pattern "(Z)". */
  lemma DummyMatches(events: set<string>, x: string)
    ensures GuardHolds(Guard(Prop(x), [Zero]), events, [0]) <==> x in events
  {
    assert Accepts([Zero][0], [0], 0);
  }

  /** `transition` of a chain from state `s`: its target moves on with the progress reward,
      otherwise "DEFAULT" stays with the idle reward, and with neither among the events no
      expression holds and the step fails. The counter stays `(0,)`. */
  lemma ChainStep<V>(t: Dict<int, seq<Entry<V>>>, targets: seq<string>, progress: seq<V>, idle: seq<V>,
                     s: nat, alphabet: set<string>, events: set<string>)
    requires |progress| == |targets| && |idle| == |targets| && IsChainTable(t, targets, progress, idle)
    requires s < |targets| && Default in alphabet && forall k :: 0 <= k < |targets| ==> targets[k] in alphabet
    requires forall k :: 0 <= k < |targets| ==> !Garbled(targets[k])
    ensures Step(t, s, [0], alphabet, events)
         == if targets[s] in events then Ok((s + 1, [0], progress[s]))
            else if Default in events then Ok((s, [0], idle[s]))
            else Err(NoTransition(s))
  {
    assert Get(t, s) == Some(ChainEntries(targets, progress, idle, s)) by {
      assert Distinct(Keys(t));
      GetAt(t, s);
    }
    ChainResolve(targets, progress, idle, s, alphabet, events);
  }

  /** The scan of the two entries of state `s`: the target first, then "DEFAULT". */
  lemma ChainResolve<V>(targets: seq<string>, progress: seq<V>, idle: seq<V>, s: nat, alphabet: set<string>, events: set<string>)
    requires |progress| == |targets| && |idle| == |targets|
    requires s < |targets| && Default in alphabet && forall k :: 0 <= k < |targets| ==> targets[k] in alphabet
    requires forall k :: 0 <= k < |targets| ==> !Garbled(targets[k])
    ensures Resolve(s, ChainEntries(targets, progress, idle, s), alphabet, events, [0])
         == if targets[s] in events then Ok((s + 1, [0], progress[s]))
            else if Default in events then Ok((s, [0], idle[s]))
            else Err(NoTransition(s))
  {
    var es := ChainEntries(targets, progress, idle, s);
    CapitalsIntact(Default);
    assert WellFormedEntries(es, alphabet, 1);
    ResolveWellFormed(s, es, alphabet, events, [0]);
    DummyMatches(events, targets[s]);
    DummyMatches(events, Default);
    DummyCounterKept();
  }

  /** The terminal state has no entries: a step from it is an error. */
  lemma ChainTerminalUndefined<V>(t: Dict<int, seq<Entry<V>>>, targets: seq<string>, progress: seq<V>, idle: seq<V>,
                                  c: seq<int>, alphabet: set<string>, events: set<string>)
    requires |progress| == |targets| && |idle| == |targets| && IsChainTable(t, targets, progress, idle)
    ensures Step(t, |targets|, c, alphabet, events) == Err(UndefinedState(|targets|))
  {
    assert |targets| !in Keys(t);
  }
}
