/** The tree-offset comparison: how many trees absorb one person's annual
    emissions, rounded as JavaScript's `Math.round` rounds, and how many the
    whole population would need. */
module Comparison {
  import opened Emissions

  /** kg of CO2 one tree absorbs per year. */
  const TreeAbsorption: real := 22.0

  /** JavaScript's `Math.round`: the nearest integer, halves rounded up (towards +infinity). */
  function JsRound(x: real): (n: int)
    ensures n as real - 0.5 <= x < n as real + 0.5
  {
    (x + 0.5).Floor
  }

  /** Exactly one integer lies in the half-open window JsRound picks from. */
  lemma JsRoundUnique(x: real, m: int)
    ensures m as real - 0.5 <= x < m as real + 0.5 <==> m == JsRound(x)
  {
    var n := JsRound(x);
    if m as real - 0.5 <= x < m as real + 0.5 {
      assert m as real - n as real < 1.0 && n as real - m as real < 1.0;
    }
  }

  /** Halves go up, also for negative values: 2.5 rounds to 3 and -2.5 to -2. */
  lemma JsRoundHalves()
    ensures JsRound(2.5) == 3 && JsRound(-2.5) == -2
  {
  }

  /** Trees needed to offset one person's annual emission `totalIndividual` (kg). */
  function TreesPerPerson(totalIndividual: real): (n: int)
    ensures n as real - 0.5 <= totalIndividual / TreeAbsorption < n as real + 0.5
  {
    JsRound(totalIndividual / TreeAbsorption)
  }

  /** Trees needed world-wide: the per-person count times the population. The
      count is a whole number of trees per person, and it differs from the exact
      world-wide requirement by at most half a tree per person. */
  function TotalTrees(totalIndividual: real): (n: int)
    ensures n % GlobalPopulation == 0
    ensures var exact := totalIndividual * GlobalPopulation as real / TreeAbsorption;
            n as real - 0.5 * GlobalPopulation as real <= exact < n as real + 0.5 * GlobalPopulation as real
  {
    TreesPerPerson(totalIndividual) * GlobalPopulation
  }

  /** Example: 2200 kg per person needs 100 trees per person and
      800 billion trees world-wide. */
  lemma TreesExample()
    ensures TreesPerPerson(2200.0) == 100
    ensures TotalTrees(2200.0) == 800_000_000_000
  {
  }

  /** A non-negative emission never needs a negative number of trees, and a
      larger emission never needs fewer. */
  lemma TreesMonotone(a: real, b: real)
    requires 0.0 <= a <= b
    ensures 0 <= TreesPerPerson(a) <= TreesPerPerson(b)
  {
  }
}
