/**
 * The cross product of the plain warehouse experiments: its observation is the ground
 * observation, the machine state and the counters divided by a memory scale, and the first 7
 * entries give the ground observation back.
 */
module ScaledCrossProduct {
  import opened CrossProducts

  /** The default `memory_scale`. */
  const DefaultMemoryScale: real := 1.0

  /** The default step budget. */
  const DefaultMaxSteps: int := 400

  /** `c / memory_scale`, entry by entry. */
  function Scaled(c: seq<int>, scale: real): (r: seq<real>)
    requires scale != 0.0
    ensures |r| == |c|
    ensures forall i :: 0 <= i < |r| ==> r[i] * scale == c[i] as real
  {
    seq(|c|, i requires 0 <= i < |c| => (c[i] as real) / scale)
  }

  /** `_get_obs`: ground ++ [u] ++ c / memory_scale. */
  function ScaledObs(g: Obs, u: int, c: seq<int>, scale: real): Obs
    requires scale != 0.0
  {
    g + [u as real] + Scaled(c, scale)
  }

  /** The declared shape 7 + 1 + |c_0|: a 7-long ground observation and counters as many as the
      initial ones give an observation of that length, and only those. */
  lemma ScaledLength(g: Obs, u: int, c: seq<int>, c0: seq<int>, scale: real)
    requires scale != 0.0 && |g| == 7
    ensures |ScaledObs(g, u, c, scale)| == 7 + 1 + |c0| <==> |c| == |c0|
  {
  }

  /** `to_ground_obs` gives a 7-long ground observation back. */
  lemma ScaledGround(g: Obs, u: int, c: seq<int>, scale: real)
    requires scale != 0.0 && |g| == 7
    ensures WarehouseGround(ScaledObs(g, u, c, scale)) == g
  {
    assert ScaledObs(g, u, c, scale)[..7] == g;
  }

  /** The machine state and the counters can be read back as well: entry 7 is u, and entry
      8 + i times the scale is counter i. */
  lemma ScaledConfiguration(g: Obs, u: int, c: seq<int>, scale: real, i: nat)
    requires scale != 0.0 && |g| == 7 && i < |c|
    ensures ScaledObs(g, u, c, scale)[7] == u as real
    ensures ScaledObs(g, u, c, scale)[8 + i] * scale == c[i] as real
  {
    var obs := ScaledObs(g, u, c, scale);
    assert obs[8 + i] == (c[i] as real) / scale;
  }

  /** With the default memory scale 1.0 the counter block is the counters themselves. */
  lemma DefaultScaleKeepsCounters(g: Obs, u: int, c: seq<int>)
    ensures ScaledObs(g, u, c, DefaultMemoryScale)[|g| + 1..] == seq(|c|, i requires 0 <= i < |c| => c[i] as real)
  {
    assert ScaledObs(g, u, c, DefaultMemoryScale)[|g| + 1..] == Scaled(c, DefaultMemoryScale);
  }
}
