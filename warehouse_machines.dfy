/*
  The warehouse machines that build their block modules from stage factories:
  `WarehouseCountingRewardMachine` (one counter, red only), the three classes `RegularCRM`,
  `ContextFreeCRM` and `ContextSensitiveCRM` beside it, and the later `ContextSensitiveCRM`
  whose factories take `base_counter_modifier` and `success_counter_modifier`.

  Each class is its list of factory calls, its decision node at state 0, `c_0` and its
  counter samples; the shared code (building the list, grouping it, laying it over the
  decision node) is `StageMachines`.
*/
module WarehouseMachines {
  import opened Wrappers
  import opened Text
  import opened Compiler
  import opened Dicts
  import opened Automaton
  import opened StageHelpers
  import opened StageMachines
  import ContextSensitive

  /** The five stages of a block module, in the order the calls are written. */
  function StageHelperAt(k: nat): Helper
    requires k < 5
  {
    [Above, Grasp, Grip, Release, Drop][k]
  }

  /** One block module: five calls from `top` down, the drop stage back to state 0. */
  function ModuleCalls(colour: string, css: seq<string>, top: int, mods: seq<Option<Modifiers>>): (calls: seq<StageCall>)
    requires |css| == 5 && |mods| == 5
    ensures |calls| == 5
    ensures calls[0].current == top && calls[4].success == 0
    ensures forall i :: 0 <= i < 5 ==> calls[i].current == top - i
    ensures forall i :: 0 <= i < 4 ==> calls[i].success == top - i - 1
    ensures forall i :: 0 <= i < 5 ==> calls[i].colour == colour && calls[i].cs == css[i] && calls[i].mods == mods[i]
    ensures [calls[0].helper, calls[1].helper, calls[2].helper, calls[3].helper, calls[4].helper]
            == [Above, Grasp, Grip, Release, Drop]
  {
    [StageCall(Above, colour, css[0], top, top - 1, mods[0]),
     StageCall(Grasp, colour, css[1], top - 1, top - 2, mods[1]),
     StageCall(Grip, colour, css[2], top - 2, top - 3, mods[2]),
     StageCall(Release, colour, css[3], top - 3, top - 4, mods[3]),
     StageCall(Drop, colour, css[4], top - 4, 0, mods[4])]
  }

  function Same(cs: string): seq<string> {
    [cs, cs, cs, cs, cs]
  }

  /** No modifiers passed at all. */
  function NoMods(): seq<Option<Modifiers>> {
    [None, None, None, None, None]
  }

  /** Modifiers passed to every call: `zero` except the drop stage's progress. */
  function Mods(zero: seq<int>, drop: seq<int>): seq<Option<Modifiers>> {
    var m := Some(Modifiers(zero, zero));
    [m, m, m, m, Some(Modifiers(zero, drop))]
  }

  // ---------------------------------------------------------------------------------------
  // The call lists, as written.

  /** `WarehouseCountingRewardMachine._init_transitions`. */
  function WarehouseCalls(): seq<StageCall> {
    ModuleCalls("RED", Same("(NZ)"), 5, NoMods())
  }

  /** `RegularCRM._init_transitions`. */
  function RegularCalls(): seq<StageCall> {
    ModuleCalls("RED", Same("(NZ)"), 5, Mods([0], [-1]))
  }

  /** `ContextFreeCRM._init_transitions`: red 10..6, green 5..1. */
  function ContextFreeCalls(): seq<StageCall> {
    ContextFreeRed() + ContextFreeGreen()
  }

  function ContextFreeRed(): seq<StageCall> {
    ModuleCalls("RED", Same("(NZ,-)"), 10, Mods([0, 0], [-1, 0]))
  }

  function ContextFreeGreen(): seq<StageCall> {
    ModuleCalls("GREEN", Same("(Z,NZ)"), 5, Mods([0, 0], [0, -1]))
  }

  /** `ContextSensitiveCRM._init_transitions` beside them: red 15..11, green 10..6, blue 5..1,
      with the counter texts exactly as written. */
  function ContextSensitiveCalls(): seq<StageCall> {
    ContextSensitiveRed() + (ContextSensitiveGreen() + BlueCalls())
  }

  function ContextSensitiveRed(): seq<StageCall> {
    ModuleCalls("RED", ["(NZ,-, -)", "(NZ,-, -)", "(NZ,-, -)", "(NZ,-, -)", "(NZ,-,-)"], 15, Mods([0, 0, 0], [-1, 0, 0]))
  }

  function ContextSensitiveGreen(): seq<StageCall> {
    ModuleCalls("GREEN", ["(Z,NZ,-)", "(Z,NZ,-)", "(Z,NZ,-)", "(Z,NZ)", "(Z,NZ,-)"], 10, Mods([0, 0, 0], [0, -1, 0]))
  }

  function BlueCalls(): seq<StageCall> {
    ModuleCalls("BLUE", Same("(Z,Z,NZ)"), 5, Mods([0, 0, 0], [0, 0, -1]))
  }

  /** The later `ContextSensitiveCRM._init_transitions`; its `base_counter_modifier` and
      `success_counter_modifier` are the two modifiers. */
  function BaseSuccessCalls(): seq<StageCall> {
    BaseSuccessRed() + (BaseSuccessGreen() + BlueCalls())
  }

  function BaseSuccessRed(): seq<StageCall> {
    ModuleCalls("RED", Same("(NZ,-,-)"), 15, Mods([0, 0, 0], [-1, 0, 0]))
  }

  function BaseSuccessGreen(): seq<StageCall> {
    ModuleCalls("GREEN", Same("(Z,NZ,-)"), 10, Mods([0, 0, 0], [0, -1, 0]))
  }

  // ---------------------------------------------------------------------------------------
  // Module layout: the modules tile the states 5n down to 1, five stages each, every module
  // entered at its top and left from its bottom state back to 0.

  predicate Tiled(calls: seq<StageCall>, n: nat) {
    |calls| == 5 * n
    && forall i :: 0 <= i < |calls| ==>
         calls[i].current == 5 * n - i && calls[i].helper == StageHelperAt(i % 5)
         && calls[i].success == if i % 5 == 4 then 0 else calls[i].current - 1
  }

  /** The `current_state` of each call, in order. */
  function States(calls: seq<StageCall>): (r: seq<int>)
    ensures |r| == |calls| && forall i :: 0 <= i < |calls| ==> r[i] == calls[i].current
  {
    seq(|calls|, i requires 0 <= i < |calls| => calls[i].current)
  }

  /** The calls start at the states 1 .. 5n, each state exactly once. */
  lemma TiledStates(calls: seq<StageCall>, n: nat)
    requires Tiled(calls, n)
    ensures forall u :: u in States(calls) <==> 1 <= u <= 5 * n
    ensures forall i, j :: 0 <= i < j < |calls| ==> calls[i].current != calls[j].current
  {
    var states := States(calls);
    forall u | 1 <= u <= 5 * n
      ensures u in states
    {
      assert states[5 * n - u] == u;
    }
  }

  /** A module on top of a tiling extends it. */
  lemma {:induction false} TiledCons(colour: string, css: seq<string>, mods: seq<Option<Modifiers>>, rest: seq<StageCall>, n: nat)
    requires |css| == 5 && |mods| == 5 && Tiled(rest, n)
    ensures Tiled(ModuleCalls(colour, css, 5 * n + 5, mods) + rest, n + 1)
  {
    var m := ModuleCalls(colour, css, 5 * n + 5, mods);
    var calls := m + rest;
    forall i | 0 <= i < |calls|
      ensures calls[i].current == 5 * (n + 1) - i && calls[i].helper == StageHelperAt(i % 5)
              && calls[i].success == if i % 5 == 4 then 0 else calls[i].current - 1
    {
      if i >= 5 {
        assert calls[i] == rest[i - 5];
        assert (i - 5) % 5 == i % 5;
      }
    }
  }

  lemma TiledModule(colour: string, css: seq<string>, mods: seq<Option<Modifiers>>)
    requires |css| == 5 && |mods| == 5
    ensures Tiled(ModuleCalls(colour, css, 5, mods), 1)
  {
    TiledCons(colour, css, mods, [], 0);
    assert ModuleCalls(colour, css, 5, mods) + [] == ModuleCalls(colour, css, 5, mods);
  }

  lemma WarehouseTiled()
    ensures Tiled(WarehouseCalls(), 1)
  {
    TiledModule("RED", Same("(NZ)"), NoMods());
  }

  lemma RegularTiled()
    ensures Tiled(RegularCalls(), 1)
  {
    TiledModule("RED", Same("(NZ)"), Mods([0], [-1]));
  }

  lemma ContextFreeTiled()
    ensures Tiled(ContextFreeCalls(), 2)
  {
    TiledModule("GREEN", Same("(Z,NZ)"), Mods([0, 0], [0, -1]));
    TiledCons("RED", Same("(NZ,-)"), Mods([0, 0], [-1, 0]), ContextFreeGreen(), 1);
  }

  lemma ContextSensitiveTiled()
    ensures Tiled(ContextSensitiveCalls(), 3)
  {
    TiledModule("BLUE", Same("(Z,Z,NZ)"), Mods([0, 0, 0], [0, 0, -1]));
    TiledCons("GREEN", ["(Z,NZ,-)", "(Z,NZ,-)", "(Z,NZ,-)", "(Z,NZ)", "(Z,NZ,-)"], Mods([0, 0, 0], [0, -1, 0]), BlueCalls(), 1);
    TiledCons("RED", ["(NZ,-, -)", "(NZ,-, -)", "(NZ,-, -)", "(NZ,-, -)", "(NZ,-,-)"], Mods([0, 0, 0], [-1, 0, 0]),
              ContextSensitiveGreen() + BlueCalls(), 2);
  }

  lemma BaseSuccessTiled()
    ensures Tiled(BaseSuccessCalls(), 3)
  {
    TiledModule("BLUE", Same("(Z,Z,NZ)"), Mods([0, 0, 0], [0, 0, -1]));
    TiledCons("GREEN", Same("(Z,NZ,-)"), Mods([0, 0, 0], [0, -1, 0]), BlueCalls(), 1);
    TiledCons("RED", Same("(NZ,-,-)"), Mods([0, 0, 0], [-1, 0, 0]), BaseSuccessGreen() + BlueCalls(), 2);
  }

  // ---------------------------------------------------------------------------------------
  // Drop stages: the only decrement, under a pattern that asserts NZ on that counter.

  /** The drop call of a module decrements counter `k` by one and nothing else, and its counter
      text denotes a pattern `p` that requires counter `k` to be non-zero. */
  predicate DropGuarded(call: StageCall, p: seq<CounterTest>, k: nat) {
    call.helper == Drop && call.mods.Some? && |p| >= 1 && SpacedListing(call.cs, p)
    && k < |p| && p[k] == NonZero && |call.mods.value.progress| == |p|
    && forall j :: 0 <= j < |p| ==> call.mods.value.progress[j] == (if j == k then -1 else 0)
  }

  /** All other modifiers of a module are zero. */
  predicate OthersZero(call: StageCall) {
    call.mods.Some? && IsZero(call.mods.value.remain) && (call.helper != Drop ==> IsZero(call.mods.value.progress))
  }

  /** A guarded drop never takes a non-negative counter vector below zero. */
  lemma DropSafe(call: StageCall, p: seq<CounterTest>, k: nat, c: seq<int>)
    requires DropGuarded(call, p, k) && Matches(p, c) && NonNegative(c) && |c| == |p|
    ensures ApplyDelta(c, call.mods.value.progress).Ok? && NonNegative(ApplyDelta(c, call.mods.value.progress).value)
    ensures ApplyDelta(c, call.mods.value.progress).value == c[k := c[k] - 1]
  {
    NoUnderflow(p, c, call.mods.value.progress);
    var r := ApplyDelta(c, call.mods.value.progress).value;
    assert forall j :: 0 <= j < |c| ==> r[j] == c[k := c[k] - 1][j];
  }

  /** "(..)" with no spaces is a listing of its own pattern. */
  lemma ListingSpaced(p: seq<CounterTest>)
    requires |p| >= 1
    ensures SpacedListing(Listing(p), p)
  {
    var body := Join(EntryNames(p), ',');
    JoinedNamesChars(p);
    RemoveAbsent(body, ' ');
    RemoveAppend("(" + body, ")", ' ');
    RemoveAppend("(", body, ' ');
  }

  /** Every modifier of a module with zero modifiers but the drop's progress is zero. */
  lemma ModuleOthersZero(colour: string, css: seq<string>, top: int, zero: seq<int>, drop: seq<int>)
    requires |css| == 5 && IsZero(zero)
    ensures forall call :: call in ModuleCalls(colour, css, top, Mods(zero, drop)) ==> OthersZero(call)
    ensures ModuleCalls(colour, css, top, Mods(zero, drop))[4].mods == Some(Modifiers(zero, drop))
  {
  }

  /** The drop call of a module whose drop text spells `p` and whose drop modifier decrements
      exactly counter `k` is guarded. */
  lemma ModuleDropGuarded(colour: string, css: seq<string>, top: int, zero: seq<int>, drop: seq<int>,
                          p: seq<CounterTest>, k: nat)
    requires |css| == 5 && |p| >= 1 && SpacedListing(css[4], p)
    requires k < |p| && p[k] == NonZero && |drop| == |p|
    requires forall j :: 0 <= j < |p| ==> drop[j] == (if j == k then -1 else 0)
    ensures DropGuarded(ModuleCalls(colour, css, top, Mods(zero, drop))[4], p, k)
  {
  }

  lemma RegularListing()
    ensures SpacedListing("(NZ)", [NonZero])
  {
    assert "(NZ)" == Listing([NonZero]);
    ListingSpaced([NonZero]);
  }

  lemma PairListings()
    ensures SpacedListing("(NZ,-)", [NonZero, Any])
    ensures SpacedListing("(Z,NZ)", [Zero, NonZero])
  {
    assert "(NZ,-)" == Listing([NonZero, Any]);
    ListingSpaced([NonZero, Any]);
    assert "(Z,NZ)" == Listing([Zero, NonZero]);
    ListingSpaced([Zero, NonZero]);
  }

  lemma BlueListing()
    ensures SpacedListing("(Z,Z,NZ)", [Zero, Zero, NonZero])
  {
    assert "(Z,Z,NZ)" == Listing([Zero, Zero, NonZero]);
    ListingSpaced([Zero, Zero, NonZero]);
  }

  lemma RedListing()
    ensures Listing([NonZero, Any, Any]) == "(NZ,-,-)"
    ensures SpacedListing("(NZ,-,-)", [NonZero, Any, Any])
  {
    assert "(NZ,-,-)" == Listing([NonZero, Any, Any]);
    ListingSpaced([NonZero, Any, Any]);
  }

  lemma GreenListing()
    ensures SpacedListing("(Z,NZ,-)", [Zero, NonZero, Any])
  {
    assert "(Z,NZ,-)" == Listing([Zero, NonZero, Any]);
    ListingSpaced([Zero, NonZero, Any]);
  }

  lemma RegularDrop()
    ensures DropGuarded(RegularCalls()[4], [NonZero], 0)
  {
    RegularListing();
    ModuleDropGuarded("RED", Same("(NZ)"), 5, [0], [-1], [NonZero], 0);
  }

  lemma RegularDrops()
    ensures DropGuarded(RegularCalls()[4], [NonZero], 0)
    ensures forall call :: call in RegularCalls() ==> OthersZero(call)
  {
    RegularDrop();
    ModuleOthersZero("RED", Same("(NZ)"), 5, [0], [-1]);
  }

  lemma ContextFreeRedDrop()
    ensures DropGuarded(ContextFreeRed()[4], [NonZero, Any], 0)
  {
    PairListings();
    ModuleDropGuarded("RED", Same("(NZ,-)"), 10, [0, 0], [-1, 0], [NonZero, Any], 0);
  }

  lemma ContextFreeRedDrops()
    ensures DropGuarded(ContextFreeRed()[4], [NonZero, Any], 0)
    ensures forall call :: call in ContextFreeRed() ==> OthersZero(call)
  {
    ContextFreeRedDrop();
    ModuleOthersZero("RED", Same("(NZ,-)"), 10, [0, 0], [-1, 0]);
  }

  lemma ContextFreeGreenDrop()
    ensures DropGuarded(ContextFreeGreen()[4], [Zero, NonZero], 1)
  {
    PairListings();
    ModuleDropGuarded("GREEN", Same("(Z,NZ)"), 5, [0, 0], [0, -1], [Zero, NonZero], 1);
  }

  lemma ContextFreeGreenDrops()
    ensures DropGuarded(ContextFreeGreen()[4], [Zero, NonZero], 1)
    ensures forall call :: call in ContextFreeGreen() ==> OthersZero(call)
  {
    ContextFreeGreenDrop();
    ModuleOthersZero("GREEN", Same("(Z,NZ)"), 5, [0, 0], [0, -1]);
  }

  lemma ContextFreeDrops()
    ensures DropGuarded(ContextFreeRed()[4], [NonZero, Any], 0)
    ensures DropGuarded(ContextFreeGreen()[4], [Zero, NonZero], 1)
    ensures forall call :: call in ContextFreeCalls() ==> OthersZero(call)
  {
    ContextFreeRedDrops();
    ContextFreeGreenDrops();
  }

  lemma BlueDrop()
    ensures DropGuarded(BlueCalls()[4], [Zero, Zero, NonZero], 2)
  {
    BlueListing();
    ModuleDropGuarded("BLUE", Same("(Z,Z,NZ)"), 5, [0, 0, 0], [0, 0, -1], [Zero, Zero, NonZero], 2);
  }

  lemma BlueDrops()
    ensures DropGuarded(BlueCalls()[4], [Zero, Zero, NonZero], 2)
    ensures forall call :: call in BlueCalls() ==> OthersZero(call)
  {
    BlueDrop();
    ModuleOthersZero("BLUE", Same("(Z,Z,NZ)"), 5, [0, 0, 0], [0, 0, -1]);
  }

  lemma ContextSensitiveRedDrop()
    ensures DropGuarded(ContextSensitiveRed()[4], [NonZero, Any, Any], 0)
  {
    var css := ["(NZ,-, -)", "(NZ,-, -)", "(NZ,-, -)", "(NZ,-, -)", "(NZ,-,-)"];
    RedListing();
    ModuleDropGuarded("RED", css, 15, [0, 0, 0], [-1, 0, 0], [NonZero, Any, Any], 0);
  }

  lemma ContextSensitiveRedDrops()
    ensures DropGuarded(ContextSensitiveRed()[4], [NonZero, Any, Any], 0)
    ensures forall call :: call in ContextSensitiveRed() ==> OthersZero(call)
  {
    var css := ["(NZ,-, -)", "(NZ,-, -)", "(NZ,-, -)", "(NZ,-, -)", "(NZ,-,-)"];
    ContextSensitiveRedDrop();
    ModuleOthersZero("RED", css, 15, [0, 0, 0], [-1, 0, 0]);
  }

  lemma ContextSensitiveGreenDrop()
    ensures DropGuarded(ContextSensitiveGreen()[4], [Zero, NonZero, Any], 1)
  {
    var css := ["(Z,NZ,-)", "(Z,NZ,-)", "(Z,NZ,-)", "(Z,NZ)", "(Z,NZ,-)"];
    GreenListing();
    ModuleDropGuarded("GREEN", css, 10, [0, 0, 0], [0, -1, 0], [Zero, NonZero, Any], 1);
  }

  lemma ContextSensitiveGreenDrops()
    ensures DropGuarded(ContextSensitiveGreen()[4], [Zero, NonZero, Any], 1)
    ensures forall call :: call in ContextSensitiveGreen() ==> OthersZero(call)
  {
    var css := ["(Z,NZ,-)", "(Z,NZ,-)", "(Z,NZ,-)", "(Z,NZ)", "(Z,NZ,-)"];
    ContextSensitiveGreenDrop();
    ModuleOthersZero("GREEN", css, 10, [0, 0, 0], [0, -1, 0]);
  }

  lemma ContextSensitiveDrops()
    ensures DropGuarded(ContextSensitiveRed()[4], [NonZero, Any, Any], 0)
    ensures DropGuarded(ContextSensitiveGreen()[4], [Zero, NonZero, Any], 1)
    ensures DropGuarded(BlueCalls()[4], [Zero, Zero, NonZero], 2)
    ensures forall call :: call in ContextSensitiveCalls() ==> OthersZero(call)
  {
    ContextSensitiveRedDrops();
    ContextSensitiveGreenDrops();
    BlueDrops();
    InThree(ContextSensitiveRed(), ContextSensitiveGreen(), BlueCalls());
  }

  lemma BaseSuccessRedDrop()
    ensures DropGuarded(BaseSuccessRed()[4], [NonZero, Any, Any], 0)
  {
    RedListing();
    ModuleDropGuarded("RED", Same("(NZ,-,-)"), 15, [0, 0, 0], [-1, 0, 0], [NonZero, Any, Any], 0);
  }

  lemma BaseSuccessRedDrops()
    ensures DropGuarded(BaseSuccessRed()[4], [NonZero, Any, Any], 0)
    ensures forall call :: call in BaseSuccessRed() ==> OthersZero(call)
  {
    BaseSuccessRedDrop();
    ModuleOthersZero("RED", Same("(NZ,-,-)"), 15, [0, 0, 0], [-1, 0, 0]);
  }

  lemma BaseSuccessGreenDrop()
    ensures DropGuarded(BaseSuccessGreen()[4], [Zero, NonZero, Any], 1)
  {
    GreenListing();
    ModuleDropGuarded("GREEN", Same("(Z,NZ,-)"), 10, [0, 0, 0], [0, -1, 0], [Zero, NonZero, Any], 1);
  }

  lemma BaseSuccessGreenDrops()
    ensures DropGuarded(BaseSuccessGreen()[4], [Zero, NonZero, Any], 1)
    ensures forall call :: call in BaseSuccessGreen() ==> OthersZero(call)
  {
    BaseSuccessGreenDrop();
    ModuleOthersZero("GREEN", Same("(Z,NZ,-)"), 10, [0, 0, 0], [0, -1, 0]);
  }

  lemma BaseSuccessDrops()
    ensures DropGuarded(BaseSuccessRed()[4], [NonZero, Any, Any], 0)
    ensures DropGuarded(BaseSuccessGreen()[4], [Zero, NonZero, Any], 1)
    ensures DropGuarded(BlueCalls()[4], [Zero, Zero, NonZero], 2)
    ensures forall call :: call in BaseSuccessCalls() ==> OthersZero(call)
  {
    BaseSuccessRedDrops();
    BaseSuccessGreenDrops();
    BlueDrops();
    InThree(BaseSuccessRed(), BaseSuccessGreen(), BlueCalls());
  }

  /** A call of three concatenated modules is a call of one of them. */
  lemma InThree(a: seq<StageCall>, b: seq<StageCall>, c: seq<StageCall>)
    ensures forall call :: call in a + (b + c) ==> call in a || call in b || call in c
  {
  }

  /** The red above, grasp, grip and release calls write "(NZ,-, -)": the same pattern as the
      drop's "(NZ,-,-)". */
  lemma RedSpacing()
    ensures SpacedListing("(NZ,-, -)", [NonZero, Any, Any])
  {
    var a, b := "(NZ,-,", "-)";
    assert "(NZ,-, -)" == a + " " + b;
    RemoveAppend(a + " ", b, ' ');
    RemoveAppend(a, " ", ' ');
    RemoveAbsent(a, ' ');
    RemoveAbsent(b, ' ');
    assert " "[1..] == [];
    assert a + b == "(NZ,-,-)";
    RedListing();
  }

  /** The green release stage's "(Z,NZ)" has two entries on a three-counter machine: the
      compiler accepts it, it leaves counter 2 unconstrained, and so it matches exactly the
      vectors the module's "(Z,NZ,-)" matches. */
  lemma GreenReleaseText(c: seq<int>, d: seq<int>)
    requires |c| == 3 && |d| == 3 && d[0] == c[0] && d[1] == c[1]
    ensures SpacedListing("(Z,NZ)", [Zero, NonZero])
    ensures Matches([Zero, NonZero], c) <==> Matches([Zero, NonZero, Any], c)
    ensures Matches([Zero, NonZero], c) <==> Matches([Zero, NonZero], d)
  {
    assert "(Z,NZ)" == Listing([Zero, NonZero]);
    ListingSpaced([Zero, NonZero]);
    var p2, p3 := [Zero, NonZero], [Zero, NonZero, Any];
    assert Matches(p2, c) <==> Accepts(p2[0], c, 0) && Accepts(p2[1], c, 1);
    assert Matches(p2, d) <==> Accepts(p2[0], d, 0) && Accepts(p2[1], d, 1);
    assert Matches(p3, c) <==> Accepts(p3[0], c, 0) && Accepts(p3[1], c, 1) && Accepts(p3[2], c, 2);
  }

  // ---------------------------------------------------------------------------------------
  // Building the lists as written.

  /** `WarehouseCountingRewardMachine()` raises a `TypeError` at its first call, whatever the
      grasp and drop factories do: the above stage demands the modifiers it does not pass. */
  lemma WarehouseFails(outside: Factory)
    ensures Concat(WarehouseCalls(), Invoking(outside)) == Err(MissingModifiers)
  {
    FirstFailure(WarehouseCalls(), Invoking(outside), 0);
  }

  /** The classes beside it pass modifiers to the grip stage, which accepts none: the
      constructor raises the grasp factory's exception or, failing that, a `TypeError` at the
      grip call. */
  lemma RegularFails(outside: Factory)
    ensures var calls := RegularCalls();
            Concat(calls, Invoking(outside)) == if outside(calls[1]).Err? then Err(outside(calls[1]).error) else Err(UnexpectedModifiers)
  {
    GripFirstFailure(RegularCalls(), outside);
  }

  lemma ContextFreeFails(outside: Factory)
    ensures var calls := ContextFreeCalls();
            Concat(calls, Invoking(outside)) == if outside(calls[1]).Err? then Err(outside(calls[1]).error) else Err(UnexpectedModifiers)
  {
    GripFirstFailure(ContextFreeCalls(), outside);
  }

  lemma ContextSensitiveFails(outside: Factory)
    ensures var calls := ContextSensitiveCalls();
            Concat(calls, Invoking(outside)) == if outside(calls[1]).Err? then Err(outside(calls[1]).error) else Err(UnexpectedModifiers)
  {
    GripFirstFailure(ContextSensitiveCalls(), outside);
  }

  /** A list that opens with an above call the factory accepts, a grasp call and a grip call
      that passes modifiers fails at the grasp call or the grip call. */
  lemma GripFirstFailure(calls: seq<StageCall>, outside: Factory)
    requires |calls| >= 3 && calls[0].helper == Above && calls[0].mods.Some? && StageColour(calls[0].colour)
    requires calls[1].helper == Grasp && calls[2].helper == Grip && calls[2].mods.Some?
    ensures Concat(calls, Invoking(outside)) == if outside(calls[1]).Err? then Err(outside(calls[1]).error) else Err(UnexpectedModifiers)
  {
    if outside(calls[1]).Err? {
      GraspFailure(calls, outside);
    } else {
      GripFailure(calls, outside);
    }
  }

  lemma GraspFailure(calls: seq<StageCall>, outside: Factory)
    requires |calls| >= 3 && calls[0].helper == Above && calls[0].mods.Some? && StageColour(calls[0].colour)
    requires calls[1].helper == Grasp && outside(calls[1]).Err?
    ensures Concat(calls, Invoking(outside)) == Err(outside(calls[1]).error)
  {
    FirstFailure(calls, Invoking(outside), 1);
  }

  lemma GripFailure(calls: seq<StageCall>, outside: Factory)
    requires |calls| >= 3 && calls[0].helper == Above && calls[0].mods.Some? && StageColour(calls[0].colour)
    requires calls[1].helper == Grasp && outside(calls[1]).Ok? && calls[2].helper == Grip && calls[2].mods.Some?
    ensures Concat(calls, Invoking(outside)) == Err(UnexpectedModifiers)
  {
    FirstFailure(calls, Invoking(outside), 2);
  }

  // ---------------------------------------------------------------------------------------
  // The lists corrected: the above stage given the modifiers, grip and release called
  // without them.

  function Corrected(call: StageCall, zero: seq<int>): (r: StageCall)
    ensures r.(mods := call.mods) == call
  {
    match call.helper
    case Above => if call.mods.Some? then call else call.(mods := Some(Modifiers(zero, zero)))
    case Grip => call.(mods := None)
    case Release => call.(mods := None)
    case _ => call
  }

  function CorrectedCalls(calls: seq<StageCall>, zero: seq<int>): (r: seq<StageCall>)
    ensures |r| == |calls| && forall i :: 0 <= i < |calls| ==> r[i] == Corrected(calls[i], zero)
  {
    seq(|calls|, i requires 0 <= i < |calls| => Corrected(calls[i], zero))
  }

  /** Corrected calls on known colours build the list exactly when the grasp and drop
      factories return, and, when those are honest, no transition starts at state 0: the
      decision node survives `decision | dict(grouped)` in every table. */
  lemma CorrectedBuilds<V>(calls: seq<StageCall>, zero: seq<int>, n: nat, outside: Factory,
                           decision: Dict<int, Dict<string, V>>, value: Transition -> V)
    requires Tiled(calls, n) && forall i :: 0 <= i < |calls| ==> StageColour(calls[i].colour)
    ensures var fixed := CorrectedCalls(calls, zero);
            Concat(fixed, Invoking(outside)).Ok? <==>
              forall i :: 0 <= i < |fixed| && (i % 5 == 1 || i % 5 == 4) ==> outside(fixed[i]).Ok?
    ensures var fixed := CorrectedCalls(calls, zero);
            Concat(fixed, Invoking(outside)).Ok? && Honest(outside, fixed) ==>
              Get(Update(decision, Grouped(Concat(fixed, Invoking(outside)).value, value)), 0) == Get(decision, 0)
  {
    var fixed := CorrectedCalls(calls, zero);
    CorrectedWellCalled(calls, zero);
    WellCalledOk(fixed, outside);
    CorrectedHelpers(calls, zero, n);
    if Concat(fixed, Invoking(outside)).Ok? && Honest(outside, fixed) {
      assert forall i :: 0 <= i < |fixed| ==> fixed[i].current == calls[i].current;
      InvokingHonest(fixed, outside);
      DecisionKept(fixed, Invoking(outside), decision, value);
    }
  }

  lemma CorrectedWellCalled(calls: seq<StageCall>, zero: seq<int>)
    requires forall i :: 0 <= i < |calls| ==> StageColour(calls[i].colour)
    ensures forall i :: 0 <= i < |calls| ==> WellCalled(CorrectedCalls(calls, zero)[i])
  {
  }

  /** In a tiling the grasp and drop calls are the second and fifth of every module. */
  lemma CorrectedHelpers(calls: seq<StageCall>, zero: seq<int>, n: nat)
    requires Tiled(calls, n)
    ensures var fixed := CorrectedCalls(calls, zero);
            forall i :: 0 <= i < |fixed| ==> (fixed[i].helper in {Grasp, Drop} <==> i % 5 == 1 || i % 5 == 4)
  {
    var fixed := CorrectedCalls(calls, zero);
    forall i | 0 <= i < |fixed|
      ensures fixed[i].helper in {Grasp, Drop} <==> i % 5 == 1 || i % 5 == 4
    {
      assert fixed[i].helper == calls[i].helper == StageHelperAt(i % 5);
    }
  }

  /** A list whose calls all start above state 0 leaves the decision node's row alone. */
  lemma DecisionKept<V>(calls: seq<StageCall>, f: Factory, decision: Dict<int, Dict<string, V>>, value: Transition -> V)
    requires Concat(calls, f).Ok? && Honest(f, calls)
    requires forall i :: 0 <= i < |calls| ==> calls[i].current >= 1
    ensures Get(Update(decision, Grouped(Concat(calls, f).value, value)), 0) == Get(decision, 0)
  {
    var ts := Concat(calls, f).value;
    ConcatSources(calls, f);
    forall i | 0 <= i < |ts|
      ensures ts[i].current != 0
    {
      assert ts[i] in ts;
    }
    LaidOver(decision, ts, value, 0);
  }

  /** The later `ContextSensitiveCRM` calls factories of its own package for every stage: its
      list is built iff each of them returns, and honest factories leave state 0 to the
      decision node. */
  lemma BaseSuccessBuilds<V>(outside: Factory, decision: Dict<int, Dict<string, V>>, value: Transition -> V)
    ensures Concat(BaseSuccessCalls(), outside).Ok? <==>
              forall i :: 0 <= i < |BaseSuccessCalls()| ==> outside(BaseSuccessCalls()[i]).Ok?
    ensures Concat(BaseSuccessCalls(), outside).Ok? && Honest(outside, BaseSuccessCalls()) ==>
              Get(Update(decision, Grouped(Concat(BaseSuccessCalls(), outside).value, value)), 0) == Get(decision, 0)
  {
    ConcatOk(BaseSuccessCalls(), outside);
    BaseSuccessTiled();
    if Concat(BaseSuccessCalls(), outside).Ok? && Honest(outside, BaseSuccessCalls()) {
      DecisionKept(BaseSuccessCalls(), outside, decision, value);
    }
  }

  /** `WarehouseCountingRewardMachine` with the above stage given `(0,)` and `(0,)`: built
      exactly when the grasp and drop calls return, its decision node then intact. */
  lemma WarehouseCorrected(outside: Factory)
    ensures var fixed := CorrectedCalls(WarehouseCalls(), [0]);
            Concat(fixed, Invoking(outside)).Ok? <==> outside(fixed[1]).Ok? && outside(fixed[4]).Ok?
    ensures var fixed := CorrectedCalls(WarehouseCalls(), [0]);
            Concat(fixed, Invoking(outside)).Ok? && Honest(outside, fixed) ==>
              Get(Update(SingleDecisionU(), Grouped(Concat(fixed, Invoking(outside)).value, (t: Transition) => t.next)), 0)
              == Get(SingleDecisionU(), 0)
  {
    WarehouseTiled();
    CorrectedBuilds(WarehouseCalls(), [0], 1, outside, SingleDecisionU(), (t: Transition) => t.next);
    OneModuleReturns(outside, CorrectedCalls(WarehouseCalls(), [0]));
  }

  /** In a list of five calls, the grasp and drop calls are the second and the fifth. */
  lemma OneModuleReturns(outside: Factory, calls: seq<StageCall>)
    requires |calls| == 5
    ensures (forall i :: 0 <= i < |calls| && (i % 5 == 1 || i % 5 == 4) ==> outside(calls[i]).Ok?)
            <==> outside(calls[1]).Ok? && outside(calls[4]).Ok?
  {
    assert 1 % 5 == 1 && 4 % 5 == 4;
  }

  /** `ContextSensitiveCRM` of the same file, corrected likewise: built exactly when the
      grasp and drop calls of every module return. */
  lemma ContextSensitiveCorrected(outside: Factory)
    ensures var fixed := CorrectedCalls(ContextSensitiveCalls(), [0, 0, 0]);
            Concat(fixed, Invoking(outside)).Ok? <==> forall m :: 0 <= m < 3 ==> ModuleReturns(outside, fixed, m)
    ensures var fixed := CorrectedCalls(ContextSensitiveCalls(), [0, 0, 0]);
            Concat(fixed, Invoking(outside)).Ok? && Honest(outside, fixed) ==>
              Get(Update(ContextSensitive.DecisionU(), Grouped(Concat(fixed, Invoking(outside)).value, (t: Transition) => t.next)), 0)
              == Get(ContextSensitive.DecisionU(), 0)
  {
    ContextSensitiveTiled();
    CorrectedBuilds(ContextSensitiveCalls(), [0, 0, 0], 3, outside, ContextSensitive.DecisionU(), (t: Transition) => t.next);
    ModulesReturn(outside, CorrectedCalls(ContextSensitiveCalls(), [0, 0, 0]), 3);
  }

  /** The grasp and drop calls of module `m` return. */
  predicate ModuleReturns(outside: Factory, calls: seq<StageCall>, m: nat)
    requires 5 * m + 4 < |calls|
  {
    outside(calls[5 * m + 1]).Ok? && outside(calls[5 * m + 4]).Ok?
  }

  lemma ModulesReturn(outside: Factory, calls: seq<StageCall>, n: nat)
    requires |calls| == 5 * n
    ensures (forall i :: 0 <= i < |calls| && (i % 5 == 1 || i % 5 == 4) ==> outside(calls[i]).Ok?)
            <==> forall m :: 0 <= m < n ==> ModuleReturns(outside, calls, m)
  {
    if forall m :: 0 <= m < n ==> ModuleReturns(outside, calls, m) {
      forall i | 0 <= i < |calls| && (i % 5 == 1 || i % 5 == 4)
        ensures outside(calls[i]).Ok?
      {
        var m := i / 5;
        assert i == 5 * m + i % 5;
        assert ModuleReturns(outside, calls, m);
      }
    }
    if forall i :: 0 <= i < |calls| && (i % 5 == 1 || i % 5 == 4) ==> outside(calls[i]).Ok? {
      forall m | 0 <= m < n
        ensures ModuleReturns(outside, calls, m)
      {
        assert (5 * m + 1) % 5 == 1 && (5 * m + 4) % 5 == 4;
      }
    }
  }

  // ---------------------------------------------------------------------------------------
  // The decision nodes.

  /** A decision node's expressions "/ (..)", each with its value. */
  function DecisionRows<V>(counters: seq<string>, values: seq<V>): (d: Dict<string, V>)
    requires |counters| == |values|
    ensures |d| == |values| && forall j :: 0 <= j < |d| ==> d[j] == ("/ " + counters[j], values[j])
  {
    seq(|values|, j requires 0 <= j < |values| => ("/ " + counters[j], values[j]))
  }

  /** The one-counter decision node: no block left, or some. */
  function SingleCounters(): seq<string> {
    ["(Z)", "(NZ)"]
  }

  function SinglePattern(j: nat): seq<CounterTest>
    requires j < 2
  {
    if j == 0 then [Zero] else [NonZero]
  }

  /** `{0: {"/ (Z)": -1, "/ (NZ)": 5}}`. */
  function SingleDecisionU(): Dict<int, Dict<string, int>> {
    [(0, DecisionRows(SingleCounters(), [Sentinel, 5]))]
  }

  function SingleDecisionC(): Dict<int, Dict<string, seq<int>>> {
    [(0, DecisionRows(SingleCounters(), [[0], [0]]))]
  }

  /** `WarehouseCountingRewardMachine` pays 500.0 on "/ (Z)", `RegularCRM` 10.0. */
  function SingleDecisionR(packed: int): Dict<int, Dict<string, RewardValue>> {
    [(0, DecisionRows(SingleCounters(), [Fixed(packed), Fixed(0)]))]
  }

  /** `ContextFreeCRM`'s decision node: all packed, red blocks left, green blocks left. */
  function PairCounters(): seq<string> {
    ["(Z, Z)", "(NZ, -)", "(Z, NZ)"]
  }

  function PairPattern(j: nat): seq<CounterTest>
    requires j < 3
  {
    if j == 0 then [Zero, Zero] else if j == 1 then [NonZero, Any] else [Zero, NonZero]
  }

  function PairDecisionU(): Dict<int, Dict<string, int>> {
    [(0, DecisionRows(PairCounters(), [Sentinel, 10, 5]))]
  }

  function PairDecisionC(): Dict<int, Dict<string, seq<int>>> {
    [(0, DecisionRows(PairCounters(), [[0, 0], [0, 0], [0, 0]]))]
  }

  lemma SingleListing(j: nat)
    requires j < 2
    ensures SpacedListing(SingleCounters()[j], SinglePattern(j))
  {
    if j == 0 {
      assert "(Z)" == SpacedText([Zero]);
    } else {
      assert "(NZ)" == SpacedText([NonZero]);
    }
    SpacedTextListing(SinglePattern(j));
  }

  lemma PairListing(j: nat)
    requires j < 3
    ensures SpacedListing(PairCounters()[j], PairPattern(j))
  {
    if j == 0 {
      assert "(Z, Z)" == SpacedText([Zero, Zero]);
    } else if j == 1 {
      assert "(NZ, -)" == SpacedText([NonZero, Any]);
    } else {
      assert "(Z, NZ)" == SpacedText([Zero, NonZero]);
    }
    SpacedTextListing(PairPattern(j));
  }

  /** The one-counter decision expressions compile to constant-true guards, exactly one of
      which holds for each counter value: "(Z)" once all blocks are packed, "(NZ)" before. */
  lemma SingleDecision(c: seq<int>)
    requires |c| == 1
    ensures forall j :: 0 <= j < 2 ==> Compile("/ " + SingleCounters()[j]) == Ok(Guard(True, SinglePattern(j)))
    ensures forall j :: 0 <= j < 2 ==> (Matches(SinglePattern(j), c) <==> (j == 1 <==> c[0] != 0))
  {
    forall j | 0 <= j < 2
      ensures Matches(SinglePattern(j), c) <==> (j == 1 <==> c[0] != 0)
    {
      assert Matches(SinglePattern(j), c) <==> Accepts(SinglePattern(j)[0], c, 0);
    }
    SingleCompiles();
  }

  lemma SingleCompiles()
    ensures forall j :: 0 <= j < 2 ==> Compile("/ " + SingleCounters()[j]) == Ok(Guard(True, SinglePattern(j)))
  {
    forall j | 0 <= j < 2
      ensures Compile("/ " + SingleCounters()[j]) == Ok(Guard(True, SinglePattern(j)))
    {
      SingleListing(j);
      ContextSensitive.CompileCounters(SingleCounters()[j], SinglePattern(j));
    }
  }

  function PairClass(c: seq<int>): nat
    requires |c| == 2
  {
    if c[0] != 0 then 1 else if c[1] != 0 then 2 else 0
  }

  /** The two-counter decision expressions compile to constant-true guards whose patterns
      partition the counter vectors: red blocks first, then green, then done. */
  lemma PairDecision(c: seq<int>)
    requires |c| == 2
    ensures forall j :: 0 <= j < 3 ==> Compile("/ " + PairCounters()[j]) == Ok(Guard(True, PairPattern(j)))
    ensures forall j :: 0 <= j < 3 ==> (Matches(PairPattern(j), c) <==> j == PairClass(c))
  {
    forall j | 0 <= j < 3
      ensures Matches(PairPattern(j), c) <==> j == PairClass(c)
    {
      var p := PairPattern(j);
      assert Matches(p, c) <==> Accepts(p[0], c, 0) && Accepts(p[1], c, 1);
    }
    PairCompiles();
  }

  lemma PairCompiles()
    ensures forall j :: 0 <= j < 3 ==> Compile("/ " + PairCounters()[j]) == Ok(Guard(True, PairPattern(j)))
  {
    forall j | 0 <= j < 3
      ensures Compile("/ " + PairCounters()[j]) == Ok(Guard(True, PairPattern(j)))
    {
      PairListing(j);
      ContextSensitive.CompileCounters(PairCounters()[j], PairPattern(j));
    }
  }

  /** The tables of a decision node share its expressions, whatever their values. */
  lemma RowsAligned<V, W>(counters: seq<string>, a: seq<V>, b: seq<W>)
    requires |counters| == |a| == |b|
    ensures Keys(DecisionRows(counters, a)) == Keys(DecisionRows(counters, b))
  {
  }

  // ---------------------------------------------------------------------------------------
  // Initial counters and samples.

  function WarehouseC0(): seq<int> { [1] }
  function RegularC0(): seq<int> { [3] }
  function ContextFreeC0(): seq<int> { [3, 3] }
  function ContextSensitiveC0(): seq<int> { [3, 3, 3] }

  /** `[(1,)]`: the one configuration is the initial one. */
  function WarehouseSamples(): (r: seq<seq<int>>)
    ensures forall v :: v in r <==> v == WarehouseC0()
  {
    [[1]]
  }

  /** `[(3,), (2,), (1,)]`: every count of blocks still to pack, from `c_0` down. */
  function RegularSamples(): (r: seq<seq<int>>)
    ensures |r| == RegularC0()[0] && forall i :: 0 <= i < |r| ==> r[i] == [RegularC0()[0] - i]
  {
    [[3], [2], [1]]
  }

  /** The samples are the one-counter vectors between 1 and `c_0`. */
  lemma RegularSamplesExactly(v: seq<int>)
    ensures v in RegularSamples() <==> |v| == 1 && 1 <= v[0] <= RegularC0()[0]
  {
    if |v| == 1 && 1 <= v[0] <= 3 {
      assert v == [v[0]];
    }
  }

  function Power(n: nat, k: nat): nat {
    if k == 0 then 1 else n * Power(n, k - 1)
  }

  /** `[x] + v` for every `v` of `vs`. */
  function Prefixed(x: int, vs: seq<seq<int>>): (r: seq<seq<int>>)
    ensures |r| == |vs| && forall i :: 0 <= i < |vs| ==> r[i] == [x] + vs[i]
  {
    seq(|vs|, i requires 0 <= i < |vs| => [x] + vs[i])
  }

  /** The vectors `[x] + v` for `x` from `lo` up to `n - 1`, `x` varying slowest. */
  function Rows(lo: nat, n: nat, vs: seq<seq<int>>): seq<seq<int>>
    decreases n - lo
  {
    if lo >= n then [] else Prefixed(lo, vs) + Rows(lo + 1, n, vs)
  }

  /** `list(product(range(n), repeat=k))`, in its order: the last position varies fastest. */
  function Product(n: nat, k: nat): seq<seq<int>> {
    if k == 0 then [[]] else Rows(0, n, Product(n, k - 1))
  }

  predicate InBox(v: seq<int>, n: nat, k: nat) {
    |v| == k && forall j :: 0 <= j < k ==> 0 <= v[j] < n
  }

  predicate AllDifferent(r: seq<seq<int>>) {
    forall i, j :: 0 <= i < j < |r| ==> r[i] != r[j]
  }

  lemma {:induction false} RowsExactly(lo: nat, n: nat, vs: seq<seq<int>>, v: seq<int>)
    ensures v in Rows(lo, n, vs) <==> |v| >= 1 && lo <= v[0] < n && v[1..] in vs
    decreases n - lo
  {
    if lo < n {
      RowsExactly(lo + 1, n, vs, v);
      if |v| >= 1 && v[0] == lo && v[1..] in vs {
        var i :| 0 <= i < |vs| && vs[i] == v[1..];
        assert Prefixed(lo, vs)[i] == v;
      }
    }
  }

  lemma {:induction false} RowsLength(lo: nat, n: nat, vs: seq<seq<int>>)
    requires lo <= n
    ensures |Rows(lo, n, vs)| == (n - lo) * |vs|
    decreases n - lo
  {
    if lo < n {
      RowsLength(lo + 1, n, vs);
      assert (n - lo) * |vs| == |vs| + (n - (lo + 1)) * |vs|;
    }
  }

  lemma {:induction false} RowsDifferent(lo: nat, n: nat, vs: seq<seq<int>>)
    requires AllDifferent(vs)
    ensures AllDifferent(Rows(lo, n, vs))
    decreases n - lo
  {
    if lo < n {
      var head, rest := Prefixed(lo, vs), Rows(lo + 1, n, vs);
      RowsDifferent(lo + 1, n, vs);
      var r := head + rest;
      forall i, j | 0 <= i < j < |r|
        ensures r[i] != r[j]
      {
        if j < |head| {
          assert r[i][1..] == vs[i] && r[j][1..] == vs[j];
        } else if i < |head| {
          RowsExactly(lo + 1, n, vs, r[j]);
          assert r[j] in rest;
        }
      }
    }
  }

  /** The product is exactly the vectors of length `k` with entries in `0 .. n-1`, each once,
      `n` to the `k` of them. */
  lemma {:induction false} ProductExactly(n: nat, k: nat)
    ensures forall v :: v in Product(n, k) <==> InBox(v, n, k)
    ensures AllDifferent(Product(n, k)) && |Product(n, k)| == Power(n, k)
  {
    if k > 0 {
      var prev := Product(n, k - 1);
      ProductExactly(n, k - 1);
      RowsDifferent(0, n, prev);
      RowsLength(0, n, prev);
      forall v
        ensures v in Product(n, k) <==> InBox(v, n, k)
      {
        RowsExactly(0, n, prev, v);
        if |v| >= 1 {
          assert InBox(v, n, k) <==> 0 <= v[0] < n && InBox(v[1..], n, k - 1);
        }
      }
    }
  }

  /** `ContextFreeCRM` and `ContextSensitiveCRM` beside `RegularCRM` sample every vector
      between zero and `c_0`, each once. */
  lemma ProductSamples(v: seq<int>)
    ensures v in Product(4, 2) <==> |v| == 2 && forall j :: 0 <= j < 2 ==> 0 <= v[j] <= ContextFreeC0()[j]
    ensures v in Product(4, 3) <==> |v| == 3 && forall j :: 0 <= j < 3 ==> 0 <= v[j] <= ContextSensitiveC0()[j]
    ensures AllDifferent(Product(4, 2)) && |Product(4, 2)| == 16
    ensures AllDifferent(Product(4, 3)) && |Product(4, 3)| == 64
  {
    BoxSamples(v, 2, ContextFreeC0());
    BoxSamples(v, 3, ContextSensitiveC0());
  }

  /** Sampling `product(range(4), repeat=k)` below a `c_0` of threes gives every vector between
      zero and `c_0`, each once. */
  lemma BoxSamples(v: seq<int>, k: nat, c0: seq<int>)
    requires |c0| == k && forall j :: 0 <= j < k ==> c0[j] == 3
    ensures v in Product(4, k) <==> |v| == k && forall j :: 0 <= j < k ==> 0 <= v[j] <= c0[j]
    ensures AllDifferent(Product(4, k)) && |Product(4, k)| == Power(4, k)
  {
    ProductExactly(4, k);
  }
}
