/**
 * The five-state block module that the warehouse counting reward machines repeat once per block
 * colour: move above the block, grasp it, grip it, carry it to the release position and drop
 * it. Stage `k` of a module that starts at `u_start` is state `u_start + 4 - k`; the module is
 * entered at `u_start + 4` and its drop stage returns to the decision state `0`.
 *
 * The same three tables are written out in experiments/warehouse/lib/machines/contextfree.py
 * and experiments/warehouse_exp/lib/machines/context_sensitive.py; only the counter update of
 * the drop and the accepted colours differ, and those are parameters here.
 */
module Blocks {
  import opened Wrappers
  import opened Text
  import opened Compiler
  import opened Dicts

  /** The reward functions of the warehouse machines, named by the factory that makes them. */
  datatype RewardFn =
    | Constant(value: int)                       // `_create_f_c(value)`
    | UnscaledConstant(value: int)               // `_create_unscaled_f_c(value)`
    | Waypoint(name: string)                     // `_create_f_w(waypoint)`
    | PenalisedWaypoint(name: string)            // `_create_f_pw(waypoint)`
    | Scaled(base: RewardFn, u: int, maxU: int)  // `_create_scaled_reward_function(base, u, max_u)`

  /** `f"{wff} / {counter_state}"`. */
  function Row(wff: string, cs: string): string {
    wff + " / " + cs
  }

  // ---------------------------------------------------------------------------------------
  // The stages: their event texts, the formulas those texts denote, and the rendering link.

  /** The shapes the event texts take: `not x`, `x and y`, `not (x and y)`, `x and not y`. */
  function NotText(x: string): string {
    "not " + x
  }

  function AndText(x: string, y: string): string {
    x + " and " + y
  }

  function NotAndText(x: string, y: string): string {
    "not (" + x + " and " + y + ")"
  }

  function AndNotText(x: string, y: string): string {
    x + " and not " + y
  }

  /** The event texts of stage `k` of a module for `colour`, in declaration order. */
  function StageTexts(k: nat, colour: string): (ts: seq<string>)
    requires k < 5
    ensures |ts| == if k == 0 then 3 else 4
  {
    var goae := "GRIPPER_OPEN_ACTION_EXECUTED";
    if k == 0 then
      [NotText(goae), AndText("ABOVE_" + colour, "VELOCITY_LOW"), NotAndText("ABOVE_" + colour, "VELOCITY_LOW")]
    else if k == 1 then
      [NotText(goae), NotText("SAFE_REGION_" + colour), AndText("GRASP_" + colour, "VELOCITY_LOW"),
       NotAndText("GRASP_" + colour, "VELOCITY_LOW")]
    else if k == 2 then
      [goae, NotText("TIGHT_REGION_" + colour), AndText("TIGHT_REGION_" + colour, "GRIPPER_CLOSED"),
       AndNotText("TIGHT_REGION_" + colour, "GRIPPER_CLOSED")]
    else if k == 3 then
      [goae, NotText("RELEASE_REGION_" + colour), AndText("RELEASE_" + colour, "VELOCITY_LOW"),
       NotAndText("RELEASE_" + colour, "VELOCITY_LOW")]
    else
      [NotText(goae), NotText("RELEASE_REGION_" + colour), AndNotText("RELEASE_REGION_" + colour, "GRIPPER_CLOSED"),
       AndText("RELEASE_REGION_" + colour, "GRIPPER_CLOSED")]
  }

  /** The formulas the texts of stage `k` denote. */
  function StageFormulas(k: nat, colour: string): (fs: seq<Formula>)
    requires k < 5
    ensures |fs| == |StageTexts(k, colour)|
  {
    var goae := Prop("GRIPPER_OPEN_ACTION_EXECUTED");
    var low := Prop("VELOCITY_LOW");
    var closed := Prop("GRIPPER_CLOSED");
    if k == 0 then
      var above := And(Prop("ABOVE_" + colour), low);
      [Not(goae), above, Not(above)]
    else if k == 1 then
      var grasp := And(Prop("GRASP_" + colour), low);
      [Not(goae), Not(Prop("SAFE_REGION_" + colour)), grasp, Not(grasp)]
    else if k == 2 then
      var tight := Prop("TIGHT_REGION_" + colour);
      [goae, Not(tight), And(tight, closed), And(tight, Not(closed))]
    else if k == 3 then
      var release := And(Prop("RELEASE_" + colour), low);
      [goae, Not(Prop("RELEASE_REGION_" + colour)), release, Not(release)]
    else
      var region := Prop("RELEASE_REGION_" + colour);
      [Not(goae), Not(region), And(region, Not(closed)), And(region, closed)]
  }

  /** A colour is a word, as the enum member names built from it require. */
  predicate IsColour(colour: string) {
    IsWord(colour)
  }

  lemma PrefixedName(prefix: string, colour: string)
    requires IsWord(prefix) && 'A' <= prefix[0] <= 'Z' && |prefix| >= 6 && IsColour(colour)
    ensures IsPropositionName(prefix + colour)
  {
    var w := prefix + colour;
    forall k | 0 <= k < |w|
      ensures IsWordChar(w[k])
    {
      if k >= |prefix| { assert w[k] == colour[k - |prefix|]; }
    }
    assert |w| > 5;
  }

  lemma RenderNot(x: string)
    requires IsPropositionName(x)
    ensures Printable(Not(Prop(x))) && Render(Not(Prop(x))) == NotText(x)
  {
    assert RenderAt(Not(Prop(x)), 0) == "not " + RenderAt(Prop(x), 2);
  }

  lemma RenderAnd(x: string, y: string)
    requires IsPropositionName(x) && IsPropositionName(y)
    ensures Printable(And(Prop(x), Prop(y))) && Render(And(Prop(x), Prop(y))) == AndText(x, y)
  {
    assert RenderAt(And(Prop(x), Prop(y)), 0) == RenderAt(Prop(x), 1) + " and " + RenderAt(Prop(y), 2);
  }

  lemma RenderNotAnd(x: string, y: string)
    requires IsPropositionName(x) && IsPropositionName(y)
    ensures Printable(Not(And(Prop(x), Prop(y)))) && Render(Not(And(Prop(x), Prop(y)))) == NotAndText(x, y)
  {
    var g := And(Prop(x), Prop(y));
    assert RenderAt(g, 1) == x + " and " + y;
    assert RenderAt(g, 2) == "(" + RenderAt(g, 1) + ")";
    assert Render(Not(g)) == "not " + RenderAt(g, 2);
  }

  lemma RenderAndNot(x: string, y: string)
    requires IsPropositionName(x) && IsPropositionName(y)
    ensures Printable(And(Prop(x), Not(Prop(y)))) && Render(And(Prop(x), Not(Prop(y)))) == AndNotText(x, y)
  {
    assert RenderAt(And(Prop(x), Not(Prop(y))), 0) == RenderAt(Prop(x), 1) + " and " + RenderAt(Not(Prop(y)), 2);
    assert " and " + "not " + y == " and not " + y;
  }

  /** Every text of a stage is the rendering of its formula, and every formula has a text. */
  lemma StageRender(k: nat, colour: string)
    requires k < 5 && IsColour(colour)
    ensures forall j :: 0 <= j < |StageTexts(k, colour)| ==>
              Printable(StageFormulas(k, colour)[j]) && StageTexts(k, colour)[j] == Render(StageFormulas(k, colour)[j])
  {
    if k == 0 {
      AboveRender(colour);
    } else if k == 1 {
      GraspRender(colour);
    } else if k == 2 {
      GripRender(colour);
    } else if k == 3 {
      ReleaseRender(colour);
    } else {
      DropRender(colour);
    }
  }

  /** The fixed propositions of the stages are proposition names; the first is rendered negated. */
  lemma FixedNames()
    ensures IsPropositionName("GRIPPER_OPEN_ACTION_EXECUTED") && IsPropositionName("VELOCITY_LOW")
    ensures IsPropositionName("GRIPPER_CLOSED")
    ensures Render(Not(Prop("GRIPPER_OPEN_ACTION_EXECUTED"))) == NotText("GRIPPER_OPEN_ACTION_EXECUTED")
  {
    assert IsWord("GRIPPER_OPEN_ACTION_EXECUTED") && |"GRIPPER_OPEN_ACTION_EXECUTED"| > 5;
    assert IsWord("VELOCITY_LOW") && |"VELOCITY_LOW"| > 5;
    assert IsWord("GRIPPER_CLOSED") && |"GRIPPER_CLOSED"| > 5;
    RenderNot("GRIPPER_OPEN_ACTION_EXECUTED");
  }

  lemma AboveRender(colour: string)
    requires IsColour(colour)
    ensures forall j :: 0 <= j < |StageTexts(0, colour)| ==>
              Printable(StageFormulas(0, colour)[j]) && StageTexts(0, colour)[j] == Render(StageFormulas(0, colour)[j])
  {
    FixedNames();
    PrefixedName("ABOVE_", colour);
    RenderAnd("ABOVE_" + colour, "VELOCITY_LOW");
    RenderNotAnd("ABOVE_" + colour, "VELOCITY_LOW");
  }

  lemma GraspRender(colour: string)
    requires IsColour(colour)
    ensures forall j :: 0 <= j < |StageTexts(1, colour)| ==>
              Printable(StageFormulas(1, colour)[j]) && StageTexts(1, colour)[j] == Render(StageFormulas(1, colour)[j])
  {
    FixedNames();
    PrefixedName("SAFE_REGION_", colour);
    PrefixedName("GRASP_", colour);
    RenderNot("SAFE_REGION_" + colour);
    RenderAnd("GRASP_" + colour, "VELOCITY_LOW");
    RenderNotAnd("GRASP_" + colour, "VELOCITY_LOW");
  }

  lemma GripRender(colour: string)
    requires IsColour(colour)
    ensures forall j :: 0 <= j < |StageTexts(2, colour)| ==>
              Printable(StageFormulas(2, colour)[j]) && StageTexts(2, colour)[j] == Render(StageFormulas(2, colour)[j])
  {
    FixedNames();
    PrefixedName("TIGHT_REGION_", colour);
    RenderNot("TIGHT_REGION_" + colour);
    RenderAnd("TIGHT_REGION_" + colour, "GRIPPER_CLOSED");
    RenderAndNot("TIGHT_REGION_" + colour, "GRIPPER_CLOSED");
  }

  lemma ReleaseRender(colour: string)
    requires IsColour(colour)
    ensures forall j :: 0 <= j < |StageTexts(3, colour)| ==>
              Printable(StageFormulas(3, colour)[j]) && StageTexts(3, colour)[j] == Render(StageFormulas(3, colour)[j])
  {
    FixedNames();
    PrefixedName("RELEASE_REGION_", colour);
    PrefixedName("RELEASE_", colour);
    RenderNot("RELEASE_REGION_" + colour);
    RenderAnd("RELEASE_" + colour, "VELOCITY_LOW");
    RenderNotAnd("RELEASE_" + colour, "VELOCITY_LOW");
  }

  lemma DropRender(colour: string)
    requires IsColour(colour)
    ensures forall j :: 0 <= j < |StageTexts(4, colour)| ==>
              Printable(StageFormulas(4, colour)[j]) && StageTexts(4, colour)[j] == Render(StageFormulas(4, colour)[j])
  {
    FixedNames();
    PrefixedName("RELEASE_REGION_", colour);
    RenderNot("RELEASE_REGION_" + colour);
    RenderAndNot("RELEASE_REGION_" + colour, "GRIPPER_CLOSED");
    RenderAnd("RELEASE_REGION_" + colour, "GRIPPER_CLOSED");
  }

  // ---------------------------------------------------------------------------------------
  // Compiling the texts of a stage.

  /** A row "F / (..)" compiles to the formula and the pattern of its parts. */
  lemma CompileRow(f: Formula, cs: string, p: seq<CounterTest>)
    requires Printable(f) && |p| >= 1 && SpacedListing(cs, p)
    ensures Compile(Row(Render(f), cs)) == Ok(Guard(f, p))
  {
    RowText(f, cs);
    CompileSpaced(f, cs, p);
  }

  lemma RowText(f: Formula, cs: string)
    requires f != True
    ensures Row(Render(f), cs) == EventPart(f) + "/ " + cs
  {
    assert " / " == " " + "/ ";
  }

  /** Every row of stage `k` compiles to its formula and the module's pattern. */
  lemma StageCompiles(k: nat, colour: string, cs: string, p: seq<CounterTest>)
    requires k < 5 && IsColour(colour) && |p| >= 1 && SpacedListing(cs, p)
    ensures forall j :: 0 <= j < |StageTexts(k, colour)| ==>
              Compile(Row(StageTexts(k, colour)[j], cs)) == Ok(Guard(StageFormulas(k, colour)[j], p))
  {
    StageRender(k, colour);
    forall j | 0 <= j < |StageTexts(k, colour)|
      ensures Compile(Row(StageTexts(k, colour)[j], cs)) == Ok(Guard(StageFormulas(k, colour)[j], p))
    {
      CompileRow(StageFormulas(k, colour)[j], cs, p);
    }
  }

  /** No formula occurs twice in a stage. */
  lemma StageFormulasDistinct(k: nat, colour: string)
    requires k < 5
    ensures var fs := StageFormulas(k, colour);
            forall i, j :: 0 <= i < j < |fs| ==> fs[i] != fs[j]
  {
    assert ("SAFE_REGION_" + colour)[0] == 'S';
    assert ("RELEASE_REGION_" + colour)[0] == 'R';
  }

  /** The rows of a stage have distinct texts, as the keys of a dict literal must. */
  lemma StageTextsDistinct(k: nat, colour: string, cs: string, p: seq<CounterTest>)
    requires k < 5 && IsColour(colour) && |p| >= 1 && SpacedListing(cs, p)
    ensures var ts := StageTexts(k, colour);
            forall i, j :: 0 <= i < j < |ts| ==> Row(ts[i], cs) != Row(ts[j], cs)
  {
    StageCompiles(k, colour, cs, p);
    StageFormulasDistinct(k, colour);
  }

  /** Whatever the events, some formula of every stage holds: the stages cover every event set. */
  lemma StageCovers(k: nat, colour: string, events: set<string>)
    requires k < 5
    ensures exists j :: 0 <= j < |StageFormulas(k, colour)| && Holds(StageFormulas(k, colour)[j], events)
  {
    var fs := StageFormulas(k, colour);
    if k == 2 || k == 4 {
      var region := if k == 2 then "TIGHT_REGION_" + colour else "RELEASE_REGION_" + colour;
      var closed := Prop("GRIPPER_CLOSED");
      assert fs[1] == Not(Prop(region));
      assert {fs[2], fs[3]} == {And(Prop(region), closed), And(Prop(region), Not(closed))};
      if region !in events {
        assert Holds(fs[1], events);
      } else if Holds(closed, events) {
        assert Holds(And(Prop(region), closed), events);
      } else {
        assert Holds(Not(closed), events);
        assert Holds(And(Prop(region), Not(closed)), events);
      }
    } else {
      var last := |fs| - 1;
      if Holds(fs[last - 1], events) {
        assert Holds(fs[last - 1], events);
      } else {
        assert Holds(fs[last], events);
      }
    }
  }

  /** Position `i` of a table holds a row whose expressions compile to the guards at position
      `i` of a list of guards. */
  lemma RowCompilesAt<V>(flat: seq<(int, Dict<string, V>)>, guards: seq<seq<Guard>>, i: nat, row: Dict<string, V>, gs: seq<Guard>)
    requires i < |flat| && i < |guards| && flat[i].1 == row && guards[i] == gs
    requires |gs| == |row| && forall j :: 0 <= j < |row| ==> Compile(row[j].0) == Ok(gs[j])
    ensures |guards[i]| == |flat[i].1| && forall j :: 0 <= j < |flat[i].1| ==> Compile(flat[i].1[j].0) == Ok(guards[i][j])
  {
  }

  // ---------------------------------------------------------------------------------------
  // The three tables of a module.

  /** The rows of stage `k`: each text with the module's counter text, paired with its value. */
  function StageRows<V>(k: nat, colour: string, cs: string, values: seq<V>): (d: Dict<string, V>)
    requires k < 5 && |values| == |StageTexts(k, colour)|
    ensures |d| == |values|
    ensures forall j :: 0 <= j < |values| ==> d[j] == (Row(StageTexts(k, colour)[j], cs), values[j])
  {
    seq(|values|, j requires 0 <= j < |values| => (Row(StageTexts(k, colour)[j], cs), values[j]))
  }

  /** The next states of stage `k` of the module whose entry state is `b`: every expression
      stays, except the exit, which moves on (from the drop stage, back to the decision state). */
  function StageNext(b: int, k: nat): seq<int>
    requires k < 5
  {
    if k == 0 then [b, b - 1, b] else [b - k, b - k, if k < 4 then b - k - 1 else 0, b - k]
  }

  /** `_add_block_module_delta_u`: the next state of every expression of the module. */
  function ModuleU(uStart: int, cs: string, colour: string): Dict<int, Dict<string, int>> {
    var b := uStart + 4;
    seq(5, k requires 0 <= k < 5 => (b - k, StageRows(k, colour, cs, StageNext(b, k))))
  }

  /** The counter updates of stage `k`: the broadcast `(0,)` everywhere but the exit of the
      drop stage, which adds `drop`. */
  function StageDeltas(k: nat, drop: seq<int>): seq<seq<int>>
    requires k < 5
  {
    if k == 0 then [[0], [0], [0]] else if k < 4 then [[0], [0], [0], [0]] else [[0], [0], drop, [0]]
  }

  /** `_add_block_module_delta_c` once the colour has chosen `drop`, the counter update of a
      completed drop; every other expression adds the broadcast `(0,)`. */
  function ModuleC(uStart: int, cs: string, colour: string, drop: seq<int>): Dict<int, Dict<string, seq<int>>> {
    var b := uStart + 4;
    seq(5, k requires 0 <= k < 5 => (b - k, StageRows(k, colour, cs, StageDeltas(k, drop))))
  }

  /** The rewards of stage `k`: a step cost, a waypoint reward (penalised while the exit is not
      taken), the bonus of 500 for the exit (unscaled on the drop) and the waypoint reward. */
  function StageRewards(k: nat, colour: string): seq<RewardFn>
    requires k < 5
  {
    if k == 0 then [UnscaledConstant(-2), Constant(500), Waypoint("ABOVE_" + colour)]
    else
      var name := if k < 3 then "GRASP_" + colour else "RELEASE_" + colour;
      [UnscaledConstant(-2), PenalisedWaypoint(name), if k < 4 then Constant(500) else UnscaledConstant(500), Waypoint(name)]
  }

  /** `_add_block_module_delta_r` once the colour has been accepted; waypoints are named by their
      constant in the waypoint module. */
  function ModuleR(uStart: int, cs: string, colour: string): Dict<int, Dict<string, RewardFn>> {
    var b := uStart + 4;
    seq(5, k requires 0 <= k < 5 => (b - k, StageRows(k, colour, cs, StageRewards(k, colour))))
  }

  /** The entry of stage `k` that leaves it: "ABOVE and VELOCITY_LOW" in the first stage, the
      third entry in every other. */
  function ExitIndex(k: nat): nat {
    if k == 0 then 1 else 2
  }

  /** The module occupies `u_start .. u_start + 4`, stage `k` at `u_start + 4 - k`, and its three
      tables have the same states and, state by state, the same expressions in the same order. */
  lemma ModuleShape(uStart: int, cs: string, colour: string, drop: seq<int>)
    ensures var m, c, r := ModuleU(uStart, cs, colour), ModuleC(uStart, cs, colour, drop), ModuleR(uStart, cs, colour);
            Keys(m) == [uStart + 4, uStart + 3, uStart + 2, uStart + 1, uStart] && Keys(c) == Keys(m) && Keys(r) == Keys(m)
            && forall k :: 0 <= k < 5 ==>
                 (Keys(m[k].1) == Keys(c[k].1) == Keys(r[k].1) && |m[k].1| == |StageTexts(k, colour)|
                  && forall j :: 0 <= j < |m[k].1| ==> m[k].1[j].0 == Row(StageTexts(k, colour)[j], cs))
  {
  }

  /** Every entry of stage `k` stays in the stage except the exit entry, which moves to the next
      stage, and from the drop stage back to the decision state `0`. */
  lemma ModuleNext(uStart: int, cs: string, colour: string)
    ensures var m := ModuleU(uStart, cs, colour);
            forall k, j :: 0 <= k < 5 && 0 <= j < |m[k].1| ==>
              m[k].1[j].1 == if j != ExitIndex(k) then uStart + 4 - k else if k < 4 then uStart + 3 - k else 0
  {
  }

  /** Every counter update is the broadcast zero, except the exit of the drop stage. */
  lemma ModuleDeltas(uStart: int, cs: string, colour: string, drop: seq<int>)
    ensures var c := ModuleC(uStart, cs, colour, drop);
            forall k, j :: 0 <= k < 5 && 0 <= j < |c[k].1| ==>
              c[k].1[j].1 == if k == 4 && j == ExitIndex(k) then drop else [0]
  {
  }

  // ---------------------------------------------------------------------------------------
  // The event alphabets.

  /** The members of the event enums that belong to one block colour. */
  function BlockEvents(colour: string): set<string> {
    {"ABOVE_" + colour, "GRASP_" + colour, "RELEASE_" + colour, "SAFE_REGION_" + colour, "TIGHT_REGION_" + colour,
     "RELEASE_REGION_" + colour}
  }

  /** The members of the event enums that concern the gripper and the velocity. */
  function GripperEvents(): set<string> {
    {"GRIPPER_OPEN_ACTION_EXECUTED", "GRIPPER_CLOSED", "GRIPPER_OPEN", "VELOCITY_LOW"}
  }

  /** `WarehouseEvent`, by member name. */
  function WarehouseEvents(): set<string> {
    BlockEvents("GREEN") + BlockEvents("RED") + BlockEvents("BLUE") + GripperEvents()
  }

  /** `PickPlaceEvent`: the members of `WarehouseEvent` and two debug waypoints. */
  function PickPlaceEvents(): set<string> {
    WarehouseEvents() + {"DEBUG_WAYPOINT_ONE", "DEBUG_WAYPOINT_TWO"}
  }

  /** A name written in capitals and underscores only. */
  predicate Capitals(w: string) {
    forall k :: 0 <= k < |w| ==> IsUpperOrUnderscore(w[k])
  }

  lemma CapitalsConcat(a: string, b: string)
    requires Capitals(a) && Capitals(b)
    ensures Capitals(a + b)
  {
    forall k | 0 <= k < |a + b|
      ensures IsUpperOrUnderscore((a + b)[k])
    {
      if k < |a| { assert (a + b)[k] == a[k]; } else { assert (a + b)[k] == b[k - |a|]; }
    }
  }

  /** The block events of a colour written in capitals are not split by the rewrite. */
  lemma BlockEventsIntact(colour: string)
    requires Capitals(colour)
    ensures forall x :: x in BlockEvents(colour) ==> !Garbled(x)
  {
    assert Capitals("ABOVE_") && Capitals("GRASP_") && Capitals("RELEASE_");
    assert Capitals("SAFE_REGION_") && Capitals("TIGHT_REGION_") && Capitals("RELEASE_REGION_");
    CapitalsConcat("ABOVE_", colour);
    CapitalsConcat("GRASP_", colour);
    CapitalsConcat("RELEASE_", colour);
    CapitalsConcat("SAFE_REGION_", colour);
    CapitalsConcat("TIGHT_REGION_", colour);
    CapitalsConcat("RELEASE_REGION_", colour);
    forall x | x in BlockEvents(colour)
      ensures !Garbled(x)
    {
      CapitalsIntact(x);
    }
  }

  /** The gripper, velocity and debug events are not split by the rewrite. */
  lemma OtherEventsIntact()
    ensures forall x :: x in GripperEvents() + {"DEBUG_WAYPOINT_ONE", "DEBUG_WAYPOINT_TWO"} ==> !Garbled(x)
  {
    assert Capitals("GRIPPER_OPEN_ACTION_EXECUTED");
    assert Capitals("GRIPPER_CLOSED") && Capitals("GRIPPER_OPEN") && Capitals("VELOCITY_LOW");
    assert Capitals("DEBUG_WAYPOINT_ONE") && Capitals("DEBUG_WAYPOINT_TWO");
    forall x | x in GripperEvents() + {"DEBUG_WAYPOINT_ONE", "DEBUG_WAYPOINT_TWO"}
      ensures !Garbled(x)
    {
      CapitalsIntact(x);
    }
  }

  /** No member name of the event enums is split by the compiler's rewrite. */
  lemma EventsIntact()
    ensures forall x :: x in PickPlaceEvents() ==> !Garbled(x)
  {
    assert Capitals("GREEN") && Capitals("RED") && Capitals("BLUE");
    BlockEventsIntact("GREEN");
    BlockEventsIntact("RED");
    BlockEventsIntact("BLUE");
    OtherEventsIntact();
  }

  /** The formulas of a stage name only events of its colour, the gripper and the velocity. */
  lemma StageKnown(k: nat, colour: string)
    requires k < 5
    ensures forall j :: 0 <= j < |StageFormulas(k, colour)| ==> Props(StageFormulas(k, colour)[j]) <= BlockEvents(colour) + GripperEvents()
  {
    var fs := StageFormulas(k, colour);
    var known := BlockEvents(colour) + GripperEvents();
    forall j | 0 <= j < |fs|
      ensures Props(fs[j]) <= known
    {
      var f := fs[j];
      if f.Not? && f.arg.And? {
        assert Props(f.arg.left) <= known && Props(f.arg.right) <= known;
      } else if f.And? && f.right.Not? {
        assert Props(f.left) <= known && Props(f.right.arg) <= known;
      } else if f.And? {
        assert Props(f.left) <= known && Props(f.right) <= known;
      } else if f.Not? {
        assert Props(f.arg) <= known;
      }
    }
  }
}
