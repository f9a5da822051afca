/** The calculator's pipeline on one set of already-coerced inputs: the
    all-zero guard, then emissions, projection, totals, tree estimate, main
    category and its suggestions. */
module Impact {
  import opened Categories
  import opened Emissions
  import opened Projections
  import opened MainProblem
  import opened Comparison
  import opened Solutions

  /** The one error the calculator reports. */
  datatype ImpactError = AllZeroInput

  datatype Result<T> = Ok(value: T) | Err(error: ImpactError)

  /** Everything one calculation produces for display. */
  datatype Report = Report(
    emissions: EmissionResult,
    projections: Projection,
    totalIndividual: real,
    totalGlobal: real,
    treesPerPerson: int,
    totalTrees: int,
    mainCategory: string,
    solutions: seq<string>)

  /** Every input equals zero. */
  predicate AllZero(inputs: Breakdown) {
    inputs.water == 0.0 && inputs.electricity == 0.0 && inputs.food == 0.0 && inputs.car == 0.0
  }

  /** One run of the calculator. All-zero input is refused before anything is
      computed; any other input, negative figures included, yields a report
      whose parts are the calculator's steps applied to it. */
  function CalculateImpact(inputs: Breakdown): (r: Result<Report>)
    ensures r.Err? <==> forall c: Category :: inputs.Get(c) == 0.0
    ensures r.Err? ==> r.error == AllZeroInput
    ensures r.Ok? ==>
      && r.value.emissions == CalculateEmissions(inputs)
      && r.value.projections == CalculateProjections(r.value.emissions.global)
      && r.value.totalIndividual == r.value.emissions.individual.Total()
      && r.value.totalGlobal == r.value.emissions.global.Total()
      && r.value.totalGlobal == r.value.totalIndividual * GlobalPopulation as real
      && r.value.treesPerPerson == TreesPerPerson(r.value.totalIndividual)
      && r.value.mainCategory == MainCategory(r.value.emissions.individual).Name()
      && |r.value.solutions| == 3
      && r.value.solutions == SolutionsFor(r.value.mainCategory)
      && r.value.solutions != GenericSolutions
      && r.value.totalTrees == r.value.treesPerPerson * GlobalPopulation
  {
    if AllZero(inputs) then
      Err(AllZeroInput)
    else
      var emissions := CalculateEmissions(inputs);
      var projections := CalculateProjections(emissions.global);
      var totalIndividual := emissions.individual.Total();
      var totalGlobal := emissions.global.Total();
      var main := MainCategory(emissions.individual).Name();
      GlobalTotalIsScaledIndividual(inputs);
      Ok(Report(
        emissions, projections, totalIndividual, totalGlobal,
        TreesPerPerson(totalIndividual), TotalTrees(totalIndividual),
        main, SolutionsFor(main)))
  }

  /** Any single non-zero input, negative or positive, lets the calculation proceed. */
  lemma NonZeroProceeds(inputs: Breakdown, c: Category)
    requires inputs.Get(c) != 0.0
    ensures CalculateImpact(inputs).Ok?
  {
  }

  /** Example: {water 100, electricity 10, food 2, car 5}
      gives 10.95 kg for water and 1825 kg for electricity per person; food ties
      electricity at 1825 kg, so electricity, declared first, is the main
      category and its own three tips are shown. The per-person total of
      4025.95 kg needs 183 trees per person. */
  lemma EndToEndExample()
    ensures var r := CalculateImpact(Breakdown(100.0, 10.0, 2.0, 5.0));
      && r.Ok?
      && r.value.emissions.individual.water == 10.95
      && r.value.emissions.individual.electricity == 1825.0
      && r.value.mainCategory == "electricity"
      && r.value.totalIndividual == 4025.95
      && r.value.treesPerPerson == 183
      && r.value.solutions == SolutionTable["electricity"]
  {
    var b := Breakdown(10.95, 1825.0, 1825.0, 365.0);
    ExampleHousehold();
    MainCategoryUnique(b, Electricity);
  }
}
