# Household carbon calculator — Dafny model

This project models the calculation core of a browser-based carbon estimator
(`script.js`). The user enters four daily usage figures: water, electricity,
food and car. The calculator then does the following:

- It refuses input whose four figures are all zero.
- It converts each figure to one person's annual CO2 emission (usage × factor × 365).
- It scales each emission to 8,000,000,000 people.
- It projects two 50-year series, temperature and sea level, from the world-wide total.
- It estimates the trees needed to offset the emissions (22 kg of CO2 per tree per year).
- It names the "main" category, the one with the largest per-person emission.
- It shows three suggestions for that category.

All arithmetic is exact (`real`). `Math.round` is modelled as `(x + 0.5).Floor`,
JavaScript's round-half-up. The per-category records are the datatype
`Categories.Breakdown`. Inputs are the figures after `parseFloat(...) || 0`
coercion.

The calculator picks the main category as the head of a stable descending sort
of the record's entries. The model computes it by a left-to-right scan that
replaces the current best only on a strictly greater value
(`MainProblem.ScanMax`). It specifies "stable descending sort" abstractly:
a permutation, descending, with entries of equal value in their original
order. It then proves that ANY such sort starts with the scan's result. This
holds whatever algorithm the JavaScript engine uses. An insertion sort proves
that such a sort exists.

Two consequences of the code worth knowing:

- Negative inputs are not normalised to 0: `parseFloat("-5") || 0` is −5, and
  any input that is not all-zero proceeds (`Impact.NonZeroProceeds`).
- For {100, 10, 2, 5}, food (2 × 2.5 × 365) ties with electricity at 1825 kg.
  Electricity is the main category because it is declared first, not because
  it is the strict maximum (`Impact.EndToEndExample`).

Modules: `Categories` (keys and the per-category record), `Emissions`,
`Projections`, `MainProblem`, `Comparison` (tree estimate), `Solutions`
(suggestion lookup), `Impact` (guard and pipeline).

## Model

| member | source | states |
|---|---|---|
| Categories.Breakdown.Total | script.js:61-62 | the total of a record is the left-to-right sum, starting at 0, over the four keys in declaration order |
| Emissions.Factor | script.js:3-8 | every emission factor is positive (the four values 0.0003, 0.5, 2.5 and 0.2 are pinned down by Emissions.ExampleHousehold, not by this contract) |
| Emissions.CalculateEmissions | script.js:42-58 | for every category, per-person emission = usage × factor × 365, and global emission = per-person emission × 8,000,000,000 |
| Emissions.InputRecoverable | script.js:43-48 | each input is its per-person emission divided by factor × 365, because every factor is positive |
| Emissions.EmissionsInjective | script.js:42-58 | different input sets never give the same emission result |
| Emissions.GlobalDeterminedByIndividual | script.js:50-55 | the global figures depend only on the per-person figures |
| Emissions.GlobalTotalIsScaledIndividual | script.js:61-62 | the global total is the per-person total × 8,000,000,000 |
| Emissions.EmissionsMonotone | script.js:43-55 | more usage in a category never lowers that category's per-person or global emission, and non-negative usage gives non-negative emissions |
| Emissions.ExampleHousehold | script.js:42-48 | {100, 10, 2, 5} gives 10.95, 1825, 1825 and 365 kg per person and year |
| Projections.CalculateProjections | script.js:105-114 | both series have exactly 50 entries, start at 1.2 + total/1e15 × 0.1 and 0.2 + total/1e15 × 0.01, and consecutive entries differ by exactly 0.02 and 0.003 |
| Projections.ArithmeticAt | script.js:111-112 | in a sequence with a fixed start and a fixed step, entry i is the start plus i steps (proof by induction on i) |
| Projections.ProjectionAt | script.js:106-112 | closed form: temp[i] = 1.2 + total/1e15 × 0.1 + 0.02·i and sea[i] = 0.2 + total/1e15 × 0.01 + 0.003·i, where total is the sum of the four global figures |
| Projections.ProjectionBounds | script.js:107-112 | for a non-negative total, every temp entry is ≥ 1.2 and every sea entry is ≥ 0.2 |
| Projections.ProjectionRises | script.js:111-112 | both series rise strictly from year to year |
| Projections.ProjectionMonotone | script.js:106-108 | a larger global total never lowers any projected entry |
| MainProblem.Entries | script.js:171 | the entry list has one `[key, value]` pair per category, at the category's position in declaration order |
| MainProblem.ScanMax | script.js:170-171 | the left-to-right scan that replaces only on strictly greater returns the first index holding the maximum value |
| MainProblem.ArgMax | script.js:171 | the first maximum of any non-empty entry list |
| MainProblem.MainCategory | script.js:170-171 | the main category's emission is ≥ every category's, and every category declared before it emits strictly less |
| MainProblem.MainCategoryUnique | script.js:170-171 | exactly one category satisfies the main-category rule: a category satisfies it if and only if it is the one returned |
| MainProblem.StableSortHead | script.js:171 | every stable descending sort of a non-empty list starts with the list's first maximum |
| MainProblem.InsertionSortIsStable | script.js:171 | the insertion sort is a stable descending sort: a permutation, descending, with equal values in their original order |
| MainProblem.MainCategoryIsSortHead | script.js:170-171 | the key at the head of any stable descending sort of the entries is the scan's main category |
| MainProblem.MainCategoryExamples | script.js:170-171 | {10, 50, 5, 1} gives electricity; the tie {10, 10, 0, 0} gives water |
| Comparison.JsRound | script.js:93 | the result n satisfies n − 0.5 ≤ x < n + 0.5, so a value exactly halfway rounds up |
| Comparison.JsRoundUnique | script.js:93 | an integer lies in that window if and only if it is the rounded value |
| Comparison.JsRoundHalves | script.js:93 | 2.5 rounds to 3 and −2.5 rounds to −2 |
| Comparison.TreesPerPerson | script.js:93 | trees per person is total/22 rounded half up |
| Comparison.TotalTrees | script.js:94 | the world-wide tree count is a multiple of the population and within half a tree per person of the exact requirement |
| Comparison.TreesExample | script.js:93-94 | 2200 kg gives 100 trees per person and 800,000,000,000 trees world-wide |
| Comparison.TreesMonotone | script.js:93 | a non-negative emission needs a non-negative tree count, and a larger one never needs fewer |
| Solutions.SolutionsFor | script.js:149-155 | always exactly 3 suggestions; the generic list is returned if and only if the key names none of the four categories |
| Solutions.SolutionsDistinct | script.js:150-154 | two categories share their suggestion list if and only if they are the same category |
| Impact.CalculateImpact | script.js:22-40 | the error AllZeroInput is returned if and only if all four inputs are 0; otherwise the result holds the emissions, the projection over the global figures, the per-person and global totals as the sums of the four figures (the global one equal to the per-person total × population), the trees per person as that total / 22 rounded half up and the world-wide tree count, the main category's key and its own 3 suggestions |
| Impact.NonZeroProceeds | script.js:30-33 | any single non-zero input, negative included, lets the calculation proceed |
| Impact.EndToEndExample | script.js:35-39 | {100, 10, 2, 5} gives water 10.95 kg and electricity 1825 kg, a per-person total of 4025.95 kg needing 183 trees per person, main category electricity, and the electricity suggestions |

## Left out

- DOM reads and `parseFloat(...) || 0` coercion (script.js:24-27): string parsing in the browser. Inputs are already-coerced reals.
- HTML building, `toLocaleString` formatting and the `innerHTML` writes (script.js:60-90, 96-102, 157-167, 174-180): presentation only. This includes the display of global figures divided by 10^12.
- The chart (script.js:9, 116-147): construction, the `climateChart` destroy-then-replace global and the year labels 2025–2074. It is a thin wrapper over a charting library that is not part of this model.
- The `DOMContentLoaded` listener wiring and console logging (script.js:12-20).
- IEEE-754 doubles: rounding error, `Infinity`, `NaN` and `-0`. The model uses exact real arithmetic, so figures such as 100 × 0.0003 × 365 are exact here and only approximate in the browser.
- Solutions.SolutionsFor: a key inherited from `Object.prototype` (such as `"toString"`) would be found by the JavaScript lookup and not fall back to the generic list. The model treats every key outside the four categories as absent. The calculator only ever passes one of the four category keys.
- Comparison.TotalTrees: the product is an exact integer here. In the browser it is a double, exact only up to 2^53.
