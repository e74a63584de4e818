/** Hourly productivity against load level.

    The truck capacity and the cycle time are fixed. The operator picks a load
    percentage on a slider (10 % to 100 % in steps of 10); the chart plots one
    point per tenth of load from 0.1 up to the selected level, each at the
    tonnes per hour the truck moves at that load, and annotates the last
    point. A load level is held exactly as its number of tenths `k`, so the
    level is `k / 10`. */
module Productivity {

  import opened Options
  import opened RealSeq
  import CycleTime

  /** Truck capacity in tonnes. */
  const TruckCapacity: real := 240.0

  /** Cycle time in minutes, as entered for this chart. */
  const FixedCycleMinutes: real := 25.4

  /** The positions the load slider can take, in percent. */
  predicate ValidSlider(p: int)
  {
    10 <= p <= 100 && p % 10 == 0
  }

  /** Number of load levels plotted for slider percentage `p`: the whole
      tenths in `p / 100`. */
  function LevelCount(p: nat): nat
  {
    p / 10
  }

  /** The load level `k` tenths stands for. */
  function Level(k: int): real
  {
    k as real / 10.0
  }

  /** The load levels plotted: 0.1, 0.2, ... up to the selected level. */
  function LoadLevels(p: nat): (levels: seq<real>)
    ensures |levels| == LevelCount(p)
    ensures |levels| > 0 ==> levels[0] == 0.1
    ensures forall i :: 0 < i < |levels| ==> levels[i] == levels[i - 1] + 0.1
  {
    seq(LevelCount(p), i => Level(i + 1))
  }

  /** Tonnes per hour moved at a given load level. */
  function Hourly(level: real): (t: real)
    ensures level > 0.0 ==> t > 0.0
    ensures level == 0.0 ==> t == 0.0
  {
    TruckCapacity * level / (FixedCycleMinutes / 60.0)
  }

  /** Productivity at level `level` is `240 * level * 60 / 25.4`, linear and
      strictly increasing in the level. */
  lemma HourlyLinear(a: real, b: real, c: real)
    ensures Hourly(a) == TruckCapacity * a * 60.0 / FixedCycleMinutes
    ensures Hourly(a + b) == Hourly(a) + Hourly(b)
    ensures Hourly(c * a) == c * Hourly(a)
    ensures a < b ==> Hourly(a) < Hourly(b)
  {
  }

  /** The productivity curve: one value per plotted load level, in order. */
  function Curve(p: nat): (values: seq<real>)
    ensures |values| == |LoadLevels(p)|
    ensures forall i :: 0 <= i < |values| ==> values[i] == Hourly(LoadLevels(p)[i])
    ensures StrictlyAscending(values)
  {
    var levels := LoadLevels(p);
    seq(|levels|, i requires 0 <= i < |levels| => Hourly(levels[i]))
  }

  /** For every slider position the levels are non-empty, strictly ascending,
      within (0, 1], and end at the selected fraction `p / 100`; so indexing
      the last one is safe. */
  lemma {:induction false} LoadLevelsShape(p: nat)
    requires ValidSlider(p)
    ensures |LoadLevels(p)| == p / 10 > 0
    ensures StrictlyAscending(LoadLevels(p))
    ensures forall i :: 0 <= i < |LoadLevels(p)| ==> 0.0 < LoadLevels(p)[i] <= 1.0
    ensures LoadLevels(p)[|LoadLevels(p)| - 1] == p as real / 100.0
  {
    var levels := LoadLevels(p);
    forall i | 0 <= i < |levels|
      ensures levels[i] == Level(i + 1)
    {
    }
    assert (p / 10) as real / 10.0 == p as real / 100.0 by {
      assert p == 10 * (p / 10);
    }
  }

  /** The annotated point: the last load level and its productivity, or
      nothing when no level is plotted. */
  function Annotation(p: nat): (point: Option<(real, real)>)
    ensures point.None? <==> p < 10
    ensures point.Some? ==> point.value.0 == Level(LevelCount(p))
    ensures point.Some? ==> point.value.1 == Hourly(point.value.0)
    ensures point.Some? ==> point.value.1 == Max(Curve(p))
  {
    var levels, values := LoadLevels(p), Curve(p);
    if |levels| == 0 then None
    else
      MaxOfAscendingIsLast(values);
      Some((levels[|levels| - 1], values[|values| - 1]))
  }

  /** At every slider position the annotation exists and sits at the selected fraction. */
  lemma AnnotationAtSlider(p: nat)
    requires ValidSlider(p)
    ensures Annotation(p) == Some((p as real / 100.0, Hourly(p as real / 100.0)))
  {
    var k := LevelCount(p);
    assert p == 10 * k;
    assert Level(k) == p as real / 100.0;
    var point := Annotation(p);
    assert point.Some? && point.value.0 == p as real / 100.0;
  }

  /** At 50 % the chart has five points, ending at 240 * 0.5 * 60 / 25.4 t/h. */
  lemma HalfLoadScenario()
    ensures LoadLevels(50) == [0.1, 0.2, 0.3, 0.4, 0.5]
    ensures |Curve(50)| == 5
    ensures Annotation(50) == Some((0.5, 240.0 * 0.5 * 60.0 / 25.4))
  {
    AnnotationAtSlider(50);
  }

  /** The cycle time fixed for this chart is the one the cycle-time model
      gives for the form's starting distances. */
  lemma FixedCycleMatchesProfile()
    ensures FixedCycleMinutes == CycleTime.CycleMinutes(1.0, 3.0, 0.8)
  {
    CycleTime.DefaultProfileScenario();
  }
}
