/** The emissions calculator: daily usage figures to annual per-person and
    world-wide CO2 figures, by a fixed linear conversion per category. */
module Emissions {
  import opened Categories

  /** Estimated world population used to extrapolate one person's emissions. */
  const GlobalPopulation: nat := 8_000_000_000

  /** Days per year used to annualise daily usage. */
  const DaysPerYear: real := 365.0

  /** kg of CO2 per unit of daily usage, per category. */
  function Factor(c: Category): (f: real)
    ensures f > 0.0
  {
    match c
    case Water => 0.0003
    case Electricity => 0.5
    case Food => 2.5
    case Car => 0.2
  }

  /** Annual emissions for one person and for the whole population. */
  datatype EmissionResult = EmissionResult(individual: Breakdown, global: Breakdown)

  /** One person's annual emission in category `c` for a daily usage of `usage`. */
  function Annual(c: Category, usage: real): real {
    usage * Factor(c) * DaysPerYear
  }

  /** The calculator's emissions step. Each per-person figure is the usage times
      its factor times 365; each global figure is that per-person figure times
      the population and depends on nothing else. */
  function CalculateEmissions(inputs: Breakdown): (r: EmissionResult)
    ensures forall c: Category :: r.individual.Get(c) == inputs.Get(c) * Factor(c) * 365.0
    ensures forall c: Category :: r.global.Get(c) == r.individual.Get(c) * GlobalPopulation as real
  {
    var individual := Breakdown(
      Annual(Water, inputs.water),
      Annual(Electricity, inputs.electricity),
      Annual(Food, inputs.food),
      Annual(Car, inputs.car));
    var pop := GlobalPopulation as real;
    var global := Breakdown(
      individual.water * pop,
      individual.electricity * pop,
      individual.food * pop,
      individual.car * pop);
    EmissionResult(individual, global)
  }

  /** The per-person figures determine the inputs: the conversion is invertible,
      so two different input sets never yield the same emissions. */
  lemma InputRecoverable(inputs: Breakdown, c: Category)
    ensures inputs.Get(c) == CalculateEmissions(inputs).individual.Get(c) / (Factor(c) * 365.0)
  {
    var e := CalculateEmissions(inputs).individual.Get(c);
    var k := Factor(c) * 365.0;
    assert k > 0.0;
    assert e == inputs.Get(c) * k;
  }

  /** Distinct input sets give distinct emission results. */
  lemma EmissionsInjective(a: Breakdown, b: Breakdown)
    requires CalculateEmissions(a) == CalculateEmissions(b)
    ensures a == b
  {
    forall c: Category ensures a.Get(c) == b.Get(c) {
      InputRecoverable(a, c);
      InputRecoverable(b, c);
    }
    assert a.water == b.water && a.electricity == b.electricity;
    assert a.food == b.food && a.car == b.car;
  }

  /** Nothing but the per-person figures feed the global ones: equal per-person
      figures give equal global figures. */
  lemma GlobalDeterminedByIndividual(a: Breakdown, b: Breakdown)
    requires CalculateEmissions(a).individual == CalculateEmissions(b).individual
    ensures CalculateEmissions(a).global == CalculateEmissions(b).global
  {
  }

  /** The global total is the per-person total scaled by the population. */
  lemma GlobalTotalIsScaledIndividual(inputs: Breakdown)
    ensures CalculateEmissions(inputs).global.Total()
         == CalculateEmissions(inputs).individual.Total() * GlobalPopulation as real
  {
    var r := CalculateEmissions(inputs);
    TotalScales(r.individual, GlobalPopulation as real);
  }

  /** Non-negative usage gives non-negative emissions, and more usage in one
      category never lowers that category's emission. */
  lemma EmissionsMonotone(a: Breakdown, b: Breakdown, c: Category)
    requires a.Get(c) <= b.Get(c)
    ensures CalculateEmissions(a).individual.Get(c) <= CalculateEmissions(b).individual.Get(c)
    ensures CalculateEmissions(a).global.Get(c) <= CalculateEmissions(b).global.Get(c)
    ensures 0.0 <= a.Get(c) ==> 0.0 <= CalculateEmissions(a).individual.Get(c)
    ensures 0.0 <= a.Get(c) ==> 0.0 <= CalculateEmissions(a).global.Get(c)
  {
  }

  /** Example: 100 units of water and 10 of electricity give
      10.95 kg and 1825 kg per person and year. */
  lemma ExampleHousehold()
    ensures CalculateEmissions(Breakdown(100.0, 10.0, 2.0, 5.0)).individual
         == Breakdown(10.95, 1825.0, 1825.0, 365.0)
  {
  }
}
