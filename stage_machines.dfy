/*
  What the warehouse machines built from stage factories share: `_init_transitions` extends
  `self._transitions` with the result of one factory call after another, and each table
  getter groups that list by `current_state` into a `defaultdict(dict)` and lays the result
  over the decision node with `decision | dict(grouped)`.

  The factories `create_grasp_stage` and `create_drop_stage` are not part of this model: what
  they return is a parameter (`outside`).
*/
module StageMachines {
  import opened Wrappers
  import opened Dicts
  import opened StageHelpers

  datatype Helper = Above | Grasp | Grip | Release | Drop

  /** One call `self._transitions += create_<helper>_stage(...)`; `mods` says whether the call
      passes the two counter modifiers. */
  datatype StageCall = StageCall(helper: Helper, colour: string, cs: string, current: int, success: int, mods: Option<Modifiers>)

  type Factory = StageCall -> Result<seq<Transition>, CallError>

  /** A call into the stage package: above, grip and release as written, grasp and drop by
      `outside`. */
  function Invoke(call: StageCall, outside: Factory): Result<seq<Transition>, CallError> {
    match call.helper
    case Above => AboveStage(call.colour, call.cs, call.current, call.success, call.mods)
    case Grip => GripStage(call.colour, call.cs, call.current, call.success, call.mods)
    case Release => ReleaseStage(call.colour, call.cs, call.current, call.success, call.mods)
    case Grasp => outside(call)
    case Drop => outside(call)
  }

  function Invoking(outside: Factory): Factory {
    call => Invoke(call, outside)
  }

  // ---------------------------------------------------------------------------------------
  // `_init_transitions`: the list `+=` builds, or the exception of the first call that raises.

  function Concat(calls: seq<StageCall>, f: Factory): Result<seq<Transition>, CallError>
    decreases |calls|
  {
    if calls == [] then Ok([])
    else
      var init := Concat(calls[..|calls| - 1], f);
      var part := f(calls[|calls| - 1]);
      if init.Err? then init
      else if part.Err? then Err(part.error)
      else Ok(init.value + part.value)
  }

  /** The calls succeed together or not at all: the list is built iff every call returns. */
  lemma {:induction false} ConcatOk(calls: seq<StageCall>, f: Factory)
    ensures Concat(calls, f).Ok? <==> forall i :: 0 <= i < |calls| ==> f(calls[i]).Ok?
    ensures Concat(calls, f).Ok? ==>
              forall t :: t in Concat(calls, f).value <==> exists i :: 0 <= i < |calls| && t in f(calls[i]).value
    decreases |calls|
  {
    if calls != [] {
      var init := calls[..|calls| - 1];
      ConcatOk(init, f);
      assert forall i :: 0 <= i < |init| ==> init[i] == calls[i];
    }
  }

  /** The exception that escapes is the one of the first call that raises. */
  lemma {:induction false} FirstFailure(calls: seq<StageCall>, f: Factory, i: nat)
    requires i < |calls| && f(calls[i]).Err?
    requires forall j :: 0 <= j < i ==> f(calls[j]).Ok?
    ensures Concat(calls, f) == Err(f(calls[i]).error)
    decreases |calls|
  {
    var init := calls[..|calls| - 1];
    if i < |calls| - 1 {
      FirstFailure(init, f, i);
    } else {
      ConcatOk(init, f);
    }
  }

  /** The state a call's transitions start from is the `current_state` it passes. */
  predicate Honest(f: Factory, calls: seq<StageCall>) {
    forall i, j :: 0 <= i < |calls| && f(calls[i]).Ok? && 0 <= j < |f(calls[i]).value| ==>
      f(calls[i]).value[j].current == calls[i].current
  }

  /** Every built transition starts at the `current_state` of one of the calls. */
  lemma ConcatSources(calls: seq<StageCall>, f: Factory)
    requires Honest(f, calls) && Concat(calls, f).Ok?
    ensures forall t :: t in Concat(calls, f).value ==> exists i :: 0 <= i < |calls| && t.current == calls[i].current
  {
    ConcatOk(calls, f);
    forall t | t in Concat(calls, f).value
      ensures exists i :: 0 <= i < |calls| && t.current == calls[i].current
    {
      var i :| 0 <= i < |calls| && t in f(calls[i]).value;
      var j :| 0 <= j < |f(calls[i]).value| && f(calls[i]).value[j] == t;
    }
  }

  /** The three factories of the package are honest, and return for a call that passes the
      modifiers exactly where they are demanded and a colour they know. */
  predicate WellCalled(call: StageCall) {
    (call.helper == Above ==> call.mods.Some?)
    && (call.helper == Grip || call.helper == Release ==> call.mods.None?)
    && (call.helper in {Above, Grip, Release} ==> StageColour(call.colour))
  }

  lemma InvokeOk(call: StageCall, outside: Factory)
    ensures call.helper in {Above, Grip, Release} ==> (Invoke(call, outside).Ok? <==> WellCalled(call))
    ensures call.helper in {Above, Grip, Release} && Invoke(call, outside).Ok? ==>
              forall t :: t in Invoke(call, outside).value ==> t.current == call.current
  {
  }

  /** With well-formed calls, the list is built iff the grasp and drop calls return. */
  lemma WellCalledOk(calls: seq<StageCall>, outside: Factory)
    requires forall i :: 0 <= i < |calls| ==> WellCalled(calls[i])
    ensures Concat(calls, Invoking(outside)).Ok? <==>
              forall i :: 0 <= i < |calls| && calls[i].helper in {Grasp, Drop} ==> outside(calls[i]).Ok?
  {
    ConcatOk(calls, Invoking(outside));
    forall i | 0 <= i < |calls|
      ensures Invoking(outside)(calls[i]).Ok? <==> (calls[i].helper in {Grasp, Drop} ==> outside(calls[i]).Ok?)
    {
      InvokeOk(calls[i], outside);
    }
  }

  /** When the grasp and drop factories are honest, so is the whole package. */
  lemma InvokingHonest(calls: seq<StageCall>, outside: Factory)
    requires Honest(outside, calls)
    ensures Honest(Invoking(outside), calls)
  {
    forall i, j | 0 <= i < |calls| && Invoking(outside)(calls[i]).Ok? && 0 <= j < |Invoking(outside)(calls[i]).value|
      ensures Invoking(outside)(calls[i]).value[j].current == calls[i].current
    {
      InvokeOk(calls[i], outside);
    }
  }

  // ---------------------------------------------------------------------------------------
  // The getters: `grouped[t.current_state][t.formula] = value(t)` over the list, in order.

  function Grouped<V>(ts: seq<Transition>, value: Transition -> V): Dict<int, Dict<string, V>>
    decreases |ts|
  {
    if ts == [] then []
    else
      var g := Grouped(ts[..|ts| - 1], value);
      var t := ts[|ts| - 1];
      Put(g, t.current, Put(GetOr(g, t.current, []), t.formula, value(t)))
  }

  /** The reference meaning of the grouping: the value of the last transition of the list with
      that state and formula, since a later assignment overwrites an earlier one. */
  function Lookup<V>(ts: seq<Transition>, value: Transition -> V, u: int, formula: string): Option<V>
    decreases |ts|
  {
    if ts == [] then None
    else if ts[|ts| - 1].current == u && ts[|ts| - 1].formula == formula then Some(value(ts[|ts| - 1]))
    else Lookup(ts[..|ts| - 1], value, u, formula)
  }

  lemma {:induction false} LookupLast<V>(ts: seq<Transition>, value: Transition -> V, u: int, formula: string)
    ensures Lookup(ts, value, u, formula).Some? <==> exists i :: 0 <= i < |ts| && ts[i].current == u && ts[i].formula == formula
    ensures Lookup(ts, value, u, formula).Some? ==>
              exists i :: 0 <= i < |ts| && ts[i].current == u && ts[i].formula == formula
                          && Lookup(ts, value, u, formula).value == value(ts[i])
                          && forall j :: i < j < |ts| ==> !(ts[j].current == u && ts[j].formula == formula)
    decreases |ts|
  {
    if ts != [] {
      var init := ts[..|ts| - 1];
      LookupLast(init, value, u, formula);
      assert forall i :: 0 <= i < |init| ==> init[i] == ts[i];
    }
  }

  lemma {:induction false} GroupedDistinct<V>(ts: seq<Transition>, value: Transition -> V)
    ensures Distinct(Keys(Grouped(ts, value)))
    decreases |ts|
  {
    if ts != [] {
      var g := Grouped(ts[..|ts| - 1], value);
      var t := ts[|ts| - 1];
      GroupedDistinct(ts[..|ts| - 1], value);
      DistinctPut(g, t.current, Put(GetOr(g, t.current, []), t.formula, value(t)));
    }
  }

  /** The grouped table has a row for exactly the states some transition starts from. */
  lemma {:induction false} GroupedStates<V>(ts: seq<Transition>, value: Transition -> V, u: int)
    ensures Get(Grouped(ts, value), u).Some? <==> exists i :: 0 <= i < |ts| && ts[i].current == u
    decreases |ts|
  {
    if ts != [] {
      var init := ts[..|ts| - 1];
      var g := Grouped(init, value);
      var t := ts[|ts| - 1];
      GroupedStates(init, value, u);
      var row := Put(GetOr(g, t.current, []), t.formula, value(t));
      assert Grouped(ts, value) == Put(g, t.current, row);
      assert Keys(Put(g, t.current, row)) == if t.current in Keys(g) then Keys(g) else Keys(g) + [t.current];
      assert u in Keys(Grouped(ts, value)) <==> u in Keys(g) || u == t.current;
      StartsSplit(ts, init, u);
    }
  }

  /** Some transition of a non-empty list starts at `u` exactly when one of all but the last
      does, or the last does. */
  lemma StartsSplit(ts: seq<Transition>, init: seq<Transition>, u: int)
    requires ts != [] && init == ts[..|ts| - 1]
    ensures (exists i :: 0 <= i < |ts| && ts[i].current == u)
            <==> (exists i :: 0 <= i < |init| && init[i].current == u) || ts[|ts| - 1].current == u
  {
    if exists i :: 0 <= i < |ts| && ts[i].current == u {
      var i :| 0 <= i < |ts| && ts[i].current == u;
      if i < |init| {
        assert init[i].current == u;
      }
    }
  }

  lemma {:induction false} GroupedLookup<V>(ts: seq<Transition>, value: Transition -> V, u: int, formula: string)
    ensures Get(GetOr(Grouped(ts, value), u, []), formula) == Lookup(ts, value, u, formula)
    decreases |ts|
  {
    if ts != [] {
      var init := ts[..|ts| - 1];
      var g := Grouped(init, value);
      var t := ts[|ts| - 1];
      var row := Put(GetOr(g, t.current, []), t.formula, value(t));
      GroupedLookup(init, value, u, formula);
      GetPut(g, t.current, row, u);
      if u == t.current {
        GetPut(GetOr(g, t.current, []), t.formula, value(t), formula);
      }
    }
  }

  /** The outline of a nested table: its states and, state by state, its formulas. */
  function Outline<V>(g: Dict<int, Dict<string, V>>): (o: seq<(int, seq<string>)>)
    ensures |o| == |g|
  {
    if g == [] then [] else [(g[0].0, Keys(g[0].1))] + Outline(g[1..])
  }

  lemma {:induction false} OutlineRow<V, W>(g: Dict<int, Dict<string, V>>, h: Dict<int, Dict<string, W>>, u: int)
    requires Outline(g) == Outline(h)
    ensures Keys(GetOr(g, u, [])) == Keys(GetOr(h, u, []))
    decreases |g|
  {
    if g != [] {
      assert Outline(g)[0] == (g[0].0, Keys(g[0].1)) && Outline(g)[1..] == Outline(g[1..]);
      assert Outline(h)[0] == (h[0].0, Keys(h[0].1)) && Outline(h)[1..] == Outline(h[1..]);
      if g[0].0 != u {
        OutlineRow(g[1..], h[1..], u);
        assert GetOr(g, u, []) == GetOr(g[1..], u, []);
        assert GetOr(h, u, []) == GetOr(h[1..], u, []);
      }
    }
  }

  lemma {:induction false} OutlinePut<V, W>(g: Dict<int, Dict<string, V>>, h: Dict<int, Dict<string, W>>, u: int,
                                           row: Dict<string, V>, row': Dict<string, W>)
    requires Outline(g) == Outline(h) && Keys(row) == Keys(row')
    ensures Outline(Put(g, u, row)) == Outline(Put(h, u, row'))
    decreases |g|
  {
    if g != [] {
      assert Outline(g)[0] == (g[0].0, Keys(g[0].1)) && Outline(g)[1..] == Outline(g[1..]);
      assert Outline(h)[0] == (h[0].0, Keys(h[0].1)) && Outline(h)[1..] == Outline(h[1..]);
      if g[0].0 != u {
        OutlinePut(g[1..], h[1..], u, row, row');
        assert Put(g, u, row)[1..] == Put(g[1..], u, row);
        assert Put(h, u, row')[1..] == Put(h[1..], u, row');
      } else {
        assert Put(g, u, row)[1..] == g[1..];
        assert Put(h, u, row')[1..] == h[1..];
      }
    }
  }

  /** Tables grouped from the same list share their states and, state by state, their
      formulas in the same order, whatever value each one stores. */
  lemma {:induction false} GroupedAligned<V, W>(ts: seq<Transition>, value: Transition -> V, other: Transition -> W)
    ensures Outline(Grouped(ts, value)) == Outline(Grouped(ts, other))
    decreases |ts|
  {
    if ts != [] {
      var init := ts[..|ts| - 1];
      var g, h := Grouped(init, value), Grouped(init, other);
      var t := ts[|ts| - 1];
      GroupedAligned(init, value, other);
      OutlineRow(g, h, t.current);
      OutlinePut(g, h, t.current, Put(GetOr(g, t.current, []), t.formula, value(t)),
                 Put(GetOr(h, t.current, []), t.formula, other(t)));
    }
  }

  /** `decision | dict(grouped)`: a state no transition starts from keeps its decision row,
      every other state gets its grouped row. */
  lemma LaidOver<V>(decision: Dict<int, Dict<string, V>>, ts: seq<Transition>, value: Transition -> V, u: int)
    ensures Get(Update(decision, Grouped(ts, value)), u) ==
            if exists i :: 0 <= i < |ts| && ts[i].current == u then Get(Grouped(ts, value), u) else Get(decision, u)
  {
    GroupedDistinct(ts, value);
    GetUpdate(decision, Grouped(ts, value), u);
    GroupedStates(ts, value, u);
  }

  // ---------------------------------------------------------------------------------------
  // The reward getter sets `t.reward_fn._intercept = -t.current_state` on every transition.

  function WithIntercept(t: Transition): Transition {
    t.(reward := t.reward.(intercept := -t.current))
  }

  function Reintercepted(ts: seq<Transition>): (r: seq<Transition>)
    ensures |r| == |ts|
    ensures forall i :: 0 <= i < |ts| ==> r[i] == WithIntercept(ts[i])
  {
    seq(|ts|, i requires 0 <= i < |ts| => WithIntercept(ts[i]))
  }

  /** Rewriting the intercepts changes nothing else, and doing it twice is doing it once. */
  lemma ReinterceptedKeeps(ts: seq<Transition>)
    ensures Reintercepted(Reintercepted(ts)) == Reintercepted(ts)
    ensures forall i :: 0 <= i < |ts| ==>
              Reintercepted(ts)[i].reward.intercept == -ts[i].current && Reintercepted(ts)[i].reward.kind == ts[i].reward.kind
              && Reintercepted(ts)[i].(reward := ts[i].reward) == ts[i]
  {
  }

  /** The value a reward table stores: a plain number at the decision node, a reward function
      in the modules. */
  datatype RewardValue = Fixed(value: int) | Function(fn: Reward)

  function RewardOf(t: Transition): RewardValue {
    Function(t.reward)
  }

  /** After the reward getter, every reward function of the grouped table has the negated
      state it hangs under as intercept. */
  lemma InterceptIsState(ts: seq<Transition>, u: int, formula: string)
    requires Lookup(Reintercepted(ts), RewardOf, u, formula).Some?
    ensures Lookup(Reintercepted(ts), RewardOf, u, formula).value.Function?
    ensures Lookup(Reintercepted(ts), RewardOf, u, formula).value.fn.intercept == -u
  {
    LookupLast(Reintercepted(ts), RewardOf, u, formula);
  }

  // ---------------------------------------------------------------------------------------
  // The machine object.

  class StageMachine {
    var transitions: seq<Transition>

    constructor ()
      ensures transitions == []
    {
      transitions := [];
    }

    /** `_init_transitions`: the list is rebuilt from the calls, or the first exception
        escapes. */
    method InitTransitions(calls: seq<StageCall>, f: Factory) returns (r: Result<(), CallError>)
      modifies this
      ensures var all := Concat(calls, f);
              (r.Ok? <==> all.Ok?) && (all.Err? ==> r == Err(all.error)) && (all.Ok? ==> transitions == all.value)
    {
      transitions := [];
      var i := 0;
      while i < |calls|
        invariant 0 <= i <= |calls|
        invariant Concat(calls[..i], f) == Ok(transitions)
      {
        var part := f(calls[i]);
        assert calls[..i + 1][..i] == calls[..i];
        if part.Err? {
          r := Err(part.error);
          FailureExtends(calls, f, i + 1);
          return;
        }
        transitions := transitions + part.value;
        i := i + 1;
      }
      assert calls[..i] == calls;
      r := Ok(());
    }

    /** The grouping loop of one getter. */
    static method Group<V>(ts: seq<Transition>, value: Transition -> V) returns (g: Dict<int, Dict<string, V>>)
      ensures g == Grouped(ts, value)
    {
      g := [];
      for i := 0 to |ts|
        invariant g == Grouped(ts[..i], value)
      {
        var t := ts[i];
        g := Put(g, t.current, Put(GetOr(g, t.current, []), t.formula, value(t)));
        assert ts[..i + 1][..i] == ts[..i];
      }
      assert ts[..|ts|] == ts;
    }

    method GetStateTransitionFunction(decision: Dict<int, Dict<string, int>>) returns (table: Dict<int, Dict<string, int>>)
      ensures table == Update(decision, Grouped(transitions, (t: Transition) => t.next))
    {
      var grouped := Group(transitions, (t: Transition) => t.next);
      table := Update(decision, grouped);
    }

    method GetCounterTransitionFunction(decision: Dict<int, Dict<string, seq<int>>>) returns (table: Dict<int, Dict<string, seq<int>>>)
      ensures table == Update(decision, Grouped(transitions, (t: Transition) => t.modifier))
    {
      var grouped := Group(transitions, (t: Transition) => t.modifier);
      table := Update(decision, grouped);
    }

    /** The reward getter rewrites the intercept of every transition's reward function in
        place before grouping. */
    method GetRewardTransitionFunction(decision: Dict<int, Dict<string, RewardValue>>) returns (table: Dict<int, Dict<string, RewardValue>>)
      modifies this
      ensures transitions == Reintercepted(old(transitions))
      ensures table == Update(decision, Grouped(transitions, RewardOf))
    {
      var ts := transitions;
      for i := 0 to |ts|
        invariant |transitions| == |ts|
        invariant forall j :: 0 <= j < i ==> transitions[j] == WithIntercept(ts[j])
        invariant forall j :: i <= j < |ts| ==> transitions[j] == ts[j]
      {
        transitions := transitions[i := WithIntercept(ts[i])];
      }
      var grouped := Group(transitions, RewardOf);
      table := Update(decision, grouped);
    }
  }

  /** Once a prefix of the calls fails, so does every longer prefix. */
  lemma {:induction false} FailureExtends(calls: seq<StageCall>, f: Factory, n: nat)
    requires 0 < n <= |calls| && Concat(calls[..n - 1], f).Ok? && f(calls[n - 1]).Err?
    ensures Concat(calls, f) == Err(f(calls[n - 1]).error)
  {
    ConcatOk(calls[..n - 1], f);
    assert forall j :: 0 <= j < n - 1 ==> calls[..n - 1][j] == calls[j];
    FirstFailure(calls, f, n - 1);
  }
}
