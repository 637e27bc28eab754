/**
 * The logging wrapper of the context-sensitive warehouse product: 24 subtask flags, raised by
 * the machine configuration after each step and never cleared, `reset` included. Each update
 * matches the configuration against the stage flags and then against the colour flags, the
 * first matching case of each raising its flag.
 */
module ContextSensitiveLogging {
  import opened Wrappers

  /** The flag families: the four stages of a block module, the drop, and a colour done. */
  datatype Task = Above | Grasp | Grip | Release | Drop | RedDone | GreenDone | BlueDone

  /** `<task>_complete_<n>`. */
  datatype Milestone = Milestone(task: Task, n: int)

  /** The 24 flags: every family with n from 1 to 3. */
  predicate IsMilestone(m: Milestone) {
    1 <= m.n <= 3
  }

  /** The first `match` of `_update_subtask_info`: states 14, 13, 12 and 11 with counters
      (3,3,3), (2,3,3), (1,3,3) complete above, grasp, grip and release for 3, 2 and 1, and
      state 0 with (2,3,3), (1,3,3), (0,3,3) completes the drop for 3, 2 and 1. */
  function StageMatch(u: int, c: seq<int>): Option<Milestone> {
    if u == 14 && c == [3, 3, 3] then Some(Milestone(Above, 3))
    else if u == 14 && c == [2, 3, 3] then Some(Milestone(Above, 2))
    else if u == 14 && c == [1, 3, 3] then Some(Milestone(Above, 1))
    else if u == 13 && c == [3, 3, 3] then Some(Milestone(Grasp, 3))
    else if u == 13 && c == [2, 3, 3] then Some(Milestone(Grasp, 2))
    else if u == 13 && c == [1, 3, 3] then Some(Milestone(Grasp, 1))
    else if u == 12 && c == [3, 3, 3] then Some(Milestone(Grip, 3))
    else if u == 12 && c == [2, 3, 3] then Some(Milestone(Grip, 2))
    else if u == 12 && c == [1, 3, 3] then Some(Milestone(Grip, 1))
    else if u == 11 && c == [3, 3, 3] then Some(Milestone(Release, 3))
    else if u == 11 && c == [2, 3, 3] then Some(Milestone(Release, 2))
    else if u == 11 && c == [1, 3, 3] then Some(Milestone(Release, 1))
    else if u == 0 && c == [2, 3, 3] then Some(Milestone(Drop, 3))
    else if u == 0 && c == [1, 3, 3] then Some(Milestone(Drop, 2))
    else if u == 0 && c == [0, 3, 3] then Some(Milestone(Drop, 1))
    else None
  }

  /** The second `match`: at state 0, (2,3,3), (1,3,3), (0,3,3) complete red for 3, 2, 1;
      (0,2,3), (0,1,3), (0,0,3) complete green; (0,0,2), (0,0,1), (0,0,0) complete blue. */
  function ColourMatch(u: int, c: seq<int>): Option<Milestone> {
    if u == 0 && c == [2, 3, 3] then Some(Milestone(RedDone, 3))
    else if u == 0 && c == [1, 3, 3] then Some(Milestone(RedDone, 2))
    else if u == 0 && c == [0, 3, 3] then Some(Milestone(RedDone, 1))
    else if u == 0 && c == [0, 2, 3] then Some(Milestone(GreenDone, 3))
    else if u == 0 && c == [0, 1, 3] then Some(Milestone(GreenDone, 2))
    else if u == 0 && c == [0, 0, 3] then Some(Milestone(GreenDone, 1))
    else if u == 0 && c == [0, 0, 2] then Some(Milestone(BlueDone, 3))
    else if u == 0 && c == [0, 0, 1] then Some(Milestone(BlueDone, 2))
    else if u == 0 && c == [0, 0, 0] then Some(Milestone(BlueDone, 1))
    else None
  }

  /** The module state of a stage family. */
  function StageState(t: Task): Option<int> {
    match t
    case Above => Some(14)
    case Grasp => Some(13)
    case Grip => Some(12)
    case Release => Some(11)
    case _ => None
  }

  /** The stage match, stated per family: a stage flag n needs its module state with counters
      (n, 3, 3), and the drop flag n needs state 0 with counters (n - 1, 3, 3). */
  lemma StageMatchExact(u: int, c: seq<int>, m: Milestone)
    ensures StageMatch(u, c) == Some(m) <==>
      IsMilestone(m) &&
      ((StageState(m.task) == Some(u) && c == [m.n, 3, 3]) || (m.task == Drop && u == 0 && c == [m.n - 1, 3, 3]))
  {
  }

  /** The colour match, stated per family: at state 0, red n needs (n - 1, 3, 3), green n needs
      (0, n - 1, 3) and blue n needs (0, 0, n - 1). */
  lemma ColourMatchExact(u: int, c: seq<int>, m: Milestone)
    ensures ColourMatch(u, c) == Some(m) <==>
      IsMilestone(m) && u == 0 &&
      ((m.task == RedDone && c == [m.n - 1, 3, 3]) ||
       (m.task == GreenDone && c == [0, m.n - 1, 3]) ||
       (m.task == BlueDone && c == [0, 0, m.n - 1]))
  {
  }

  function OptionSet(o: Option<Milestone>): (r: set<Milestone>)
    ensures |r| <= 1
    ensures forall m :: m in r <==> o == Some(m)
  {
    match o
    case None => {}
    case Some(m) => {m}
  }

  /** `_update_subtask_info`: the flags raised after the update. */
  function Raise(raised: set<Milestone>, u: int, c: seq<int>): set<Milestone> {
    raised + OptionSet(StageMatch(u, c)) + OptionSet(ColourMatch(u, c))
  }

  /** No flag is cleared, at most one stage flag and one colour flag are raised, and every
      raised flag is one of the 24. */
  lemma RaiseBounds(raised: set<Milestone>, u: int, c: seq<int>)
    ensures raised <= Raise(raised, u, c)
    ensures |Raise(raised, u, c) - raised| <= 2
    ensures (forall m :: m in raised ==> IsMilestone(m)) ==> forall m :: m in Raise(raised, u, c) ==> IsMilestone(m)
  {
    var s, k := OptionSet(StageMatch(u, c)), OptionSet(ColourMatch(u, c));
    assert Raise(raised, u, c) - raised <= s + k;
    SubsetSize(Raise(raised, u, c) - raised, s + k);
    forall m | m in s + k
      ensures IsMilestone(m)
    {
      if m in s {
        StageMatchExact(u, c, m);
      } else {
        ColourMatchExact(u, c, m);
      }
    }
  }

  lemma SubsetSize<T>(a: set<T>, b: set<T>)
    requires a <= b
    ensures |a| <= |b|
  {
    assert b == a + (b - a);
  }

  /** The drop of the third block and the third red block complete together at (0, (2,3,3)). */
  lemma ThirdRedDrop(raised: set<Milestone>)
    ensures Raise(raised, 0, [2, 3, 3]) == raised + {Milestone(Drop, 3), Milestone(RedDone, 3)}
  {
  }

  /** (0, (0,0,0)) completes the last blue block and nothing else. */
  lemma LastBlue(raised: set<Milestone>)
    ensures Raise(raised, 0, [0, 0, 0]) == raised + {Milestone(BlueDone, 1)}
  {
  }

  function FlagInt(b: bool): (r: int)
    ensures r == 0 || r == 1
    ensures r == 1 <==> b
  {
    if b then 1 else 0
  }

  /** `_get_subtask_info`: every one of the 24 flags as 0 or 1. */
  function SubtaskInfo(raised: set<Milestone>): (r: map<Milestone, int>)
    ensures forall m :: m in r <==> IsMilestone(m) && m.task in {Above, Grasp, Grip, Release, Drop, RedDone, GreenDone, BlueDone}
    ensures forall m :: m in r ==> (r[m] == 1 <==> m in raised) && (r[m] == 0 <==> m !in raised)
  {
    map t, n | t in {Above, Grasp, Grip, Release, Drop, RedDone, GreenDone, BlueDone} && 1 <= n <= 3 :: Milestone(t, n) := FlagInt(Milestone(t, n) in raised)
  }

  /** `ContextSensitiveLoggingWrapper`: the raised flags and the configuration copied from the
      product. */
  class ContextSensitiveLoggingWrapper {
    var raised: set<Milestone>
    var u: int
    var c: seq<int>

    /** Every raised flag is one of the 24. */
    ghost predicate Valid()
      reads this
    {
      forall m :: m in raised ==> IsMilestone(m)
    }

    /** `__init__`: all 24 flags false. */
    constructor ()
      ensures Valid() && raised == {}
    {
      raised := {};
    }

    /** `reset`: copies the product's configuration after its reset; the flags stay. */
    method Reset(u: int, c: seq<int>) returns (info: map<Milestone, int>)
      modifies this
      ensures this.u == u && this.c == c && raised == old(raised)
      ensures info == SubtaskInfo(raised)
    {
      this.u := u;
      this.c := c;
      info := SubtaskInfo(raised);
    }

    /** `step`: copies the product's configuration after its step and raises the flags it
        matches. */
    method Step(u: int, c: seq<int>) returns (info: map<Milestone, int>)
      requires Valid()
      modifies this
      ensures Valid()
      ensures this.u == u && this.c == c
      ensures raised == Raise(old(raised), u, c)
      ensures info == SubtaskInfo(raised)
    {
      this.u := u;
      this.c := c;
      RaiseBounds(raised, u, c);
      ghost var before := raised;
      var stage := StageMatch(this.u, this.c);
      if stage.Some? {
        raised := raised + {stage.value};
      }
      assert raised == before + OptionSet(stage);
      var colour := ColourMatch(this.u, this.c);
      if colour.Some? {
        raised := raised + {colour.value};
      }
      assert raised == before + OptionSet(stage) + OptionSet(colour);
      info := SubtaskInfo(raised);
    }
  }
}
