/** The 50-year climate projection: two arithmetic sequences, temperature and
    sea-level offsets, whose starting points grow linearly with the world-wide
    annual emission total. */
module Projections {
  import opened Categories

  /** Number of projected years. */
  const Years: nat := 50

  /** The emission total is divided by 10^15 before it shifts the baselines. */
  const EmissionScale: real := 1_000_000_000_000_000.0

  /** Yearly rise of the temperature offset (degrees C) and of the sea level (m). */
  const TempStep: real := 0.02
  const SeaStep: real := 0.003

  /** The two projected series, indexed by year 0 .. 49. */
  datatype Projection = Projection(temp: seq<real>, sea: seq<real>)

  /** Temperature offset in year 0 for a world-wide annual emission `total`. */
  function BaseTemp(total: real): real {
    1.2 + total / EmissionScale * 0.1
  }

  /** Sea-level offset in year 0 for a world-wide annual emission `total`. */
  function BaseSea(total: real): real {
    0.2 + total / EmissionScale * 0.01
  }

  /** An arithmetic sequence: it starts at `start` and each entry is `step` above the one before. */
  predicate Arithmetic(s: seq<real>, start: real, step: real) {
    |s| > 0 && s[0] == start &&
    forall i :: 0 <= i < |s| - 1 ==> s[i + 1] - s[i] == step
  }

  /** The calculator's projection step, over the sum of the four global figures:
      both series have exactly 50 entries, start at their baseline, and rise by a
      fixed step every year. */
  function CalculateProjections(global: Breakdown): (p: Projection)
    ensures |p.temp| == Years && |p.sea| == Years
    ensures Arithmetic(p.temp, BaseTemp(global.Total()), TempStep)
    ensures Arithmetic(p.sea, BaseSea(global.Total()), SeaStep)
  {
    var total := global.Total();
    var baseTemp := BaseTemp(total);
    var baseSea := BaseSea(total);
    Projection(
      seq(Years, i => baseTemp + TempStep * i as real),
      seq(Years, i => baseSea + SeaStep * i as real))
  }

  /** Every entry of an arithmetic sequence is its start plus `i` steps. */
  lemma {:induction false} ArithmeticAt(s: seq<real>, start: real, step: real, i: nat)
    requires Arithmetic(s, start, step)
    requires i < |s|
    ensures s[i] == start + step * i as real
  {
    if i > 0 {
      ArithmeticAt(s, start, step, i - 1);
      assert s[i] - s[i - 1] == step;
    }
  }

  /** Closed form of the projection in year `i`, from the series' recurrence. */
  lemma ProjectionAt(global: Breakdown, i: nat)
    requires i < Years
    ensures CalculateProjections(global).temp[i]
         == 1.2 + global.Total() / EmissionScale * 0.1 + 0.02 * i as real
    ensures CalculateProjections(global).sea[i]
         == 0.2 + global.Total() / EmissionScale * 0.01 + 0.003 * i as real
  {
    var p := CalculateProjections(global);
    ArithmeticAt(p.temp, BaseTemp(global.Total()), TempStep, i);
    ArithmeticAt(p.sea, BaseSea(global.Total()), SeaStep, i);
  }

  /** With a non-negative total, no projected value falls below the offsets
      1.2 degrees C and 0.2 m. */
  lemma ProjectionBounds(global: Breakdown, i: nat)
    requires global.Total() >= 0.0
    requires i < Years
    ensures CalculateProjections(global).temp[i] >= 1.2
    ensures CalculateProjections(global).sea[i] >= 0.2
  {
    ProjectionAt(global, i);
  }

  /** Both series rise strictly year by year, whatever the total. */
  lemma ProjectionRises(global: Breakdown, i: nat, j: nat)
    requires i < j < Years
    ensures CalculateProjections(global).temp[i] < CalculateProjections(global).temp[j]
    ensures CalculateProjections(global).sea[i] < CalculateProjections(global).sea[j]
  {
    ProjectionAt(global, i);
    ProjectionAt(global, j);
  }

  /** A larger world-wide total shifts both series upwards, year by year. */
  lemma ProjectionMonotone(a: Breakdown, b: Breakdown, i: nat)
    requires a.Total() <= b.Total()
    requires i < Years
    ensures CalculateProjections(a).temp[i] <= CalculateProjections(b).temp[i]
    ensures CalculateProjections(a).sea[i] <= CalculateProjections(b).sea[i]
  {
    ProjectionAt(a, i);
    ProjectionAt(b, i);
  }
}
