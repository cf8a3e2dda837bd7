# Statistics teaching demos — computational core

The page `script.js` runs three interactive demos. This project models the
calculations underneath them. The DOM and charting glue is left out.

- **Central Limit Theorem (coin flips).** `simulateCoinFlipMean(n)` returns the
  fraction of heads in `n` fair flips. `addSamplesCLT` appends `count` such
  means to the session list `sampleMeansCLT`, and `resetCLT` empties the list
  (module `Clt`, file `clt.dfy`). `Math.random() < 0.5` is injected as a
  sequence of booleans, one per draw.
- **Interactive linear regression.** `addPointRegression` grows two parallel
  lists `xDataReg`/`yDataReg`, but only when both fields parse. `resetRegression`
  empties both. `computeRegression` fits an ordinary-least-squares line using
  population formulas and two degenerate-case policies: slope 0 when every x is
  equal, and R² = 1 when every y is equal. It returns null below two points
  (module `Regression`, file `regression.dfy`).
- **Binomial versus Poisson.** `factorial` returns a NaN sentinel for a negative
  argument. `choose`, `binomialPMF` and `poissonPMF` are built on it. The k-loop
  of `plotBinomPoisson` tabulates both laws for k = 0..maxK, where
  maxK = min(n, tail) (module `BinomialPoisson`, file `binomial.dfy`).

Shared definitions live in `numbers.dfy` (module `Numbers`):
- an `Option` for form fields that may fail to parse;
- `Number`, a JavaScript number taken as an exact `real` or NaN;
- the left-to-right `Sum` that `reduce((a, b) => a + b, 0)` computes.

Where the code leaves its inputs unchecked, the model follows the code. For
example, `simulateCoinFlipMean(0)` yields NaN (0/0), and a negative sample size
yields 0. The model does not add a precondition n ≥ 1 for these.

Everything that mutates state is imperative Dafny, as in the source:
- the heads-counting loop;
- the two accumulation loops of `computeRegression`;
- the factorial product loop;
- the k-loop that fills the three series;
- the two session objects, each a `class` with `seq` fields.

Each method's contract ties its result or new state to a specification
function. The lemmas then prove what the page promises about those functions.

## Model

| member | source | states |
|---|---|---|
| `Clt.Heads` | script.js:15-19 | the head count never exceeds the number of draws |
| `Clt.HeadsIsMultiplicity` | script.js:15-19 | the count equals the number of `true` draws (their multiplicity) |
| `Clt.FractionOfHeads` | script.js:14-21 | NaN exactly when n = 0; for n ≥ 1 the mean lies in [0, 1] and mean·n is the number of heads among the first n draws |
| `Clt.CoinFlipMean` | script.js:14-21 | the loop returns headsCount / n for the injected draws, a finite value in [0, 1] whenever n ≥ 1 |
| `Clt.Session.constructor` | script.js:4 | the session starts with no sample means |
| `Clt.Session.AddSamples` | script.js:24-30 | exactly max(count, 0) means are appended, the earlier list is an unchanged prefix, and the i-th new mean is that of sample i |
| `Clt.Session.Reset` | script.js:82-83 | the list of sample means is empty afterwards |
| `Numbers.Sum` | script.js:125-126 | the left-to-right total `reduce((a, b) => a + b, 0)` computes, starting from 0 |
| `Regression.Mean` | script.js:125-126 | the sum of a non-empty list divided by its length |
| `Regression.Slope` | script.js:128-137 | Σdx·dy / Σdx², and exactly 0 when Σdx² = 0 |
| `Regression.Intercept` | script.js:138 | meanY − slope·meanX, so the line passes through the point of means |
| `Regression.Ols` | script.js:120-152 | the fit is absent exactly when there are fewer than two points |
| `Regression.ComputeRegression` | script.js:120-152 | the means-then-two-passes computation returns exactly the least-squares fit `Ols`, or null below two points |
| `Regression.CrossSums` | script.js:129-136 | the first loop accumulates Σdx·dy and Σdx² about the given means |
| `Regression.ResidualSums` | script.js:141-147 | the second loop accumulates the squared error of the line and Σ(y − meanY)² |
| `Regression.OlsFromSums` | script.js:124-151 | the fit built from the accumulated sums is the fit `Ols` defines |
| `Regression.Session.constructor` | script.js:97-98 | both coordinate lists start empty and of equal length |
| `Regression.Session.AddPoint` | script.js:109-116 | both lists grow by the parsed values, or neither changes when either field fails to parse; their lengths stay equal |
| `Regression.Session.CurrentFit` | script.js:165-168 | the fit shown is `Ols` of the current points, and is absent exactly below two points |
| `Regression.Session.Reset` | script.js:207-209 | both lists are empty afterwards |
| `Regression.OlsMinimizesSquaredError` | script.js:128-138 | no line y = a·x + c has a smaller squared error than the fitted line |
| `Regression.SquaredErrorGap` | script.js:128-138 | any line's squared error is the fitted line's plus the squared distance between the two lines over the data |
| `Regression.ResidualsOrthogonal` | script.js:128-138 | the fitted residuals sum to zero and are orthogonal to the x deviations |
| `Regression.SlopeSolvesNormalEquation` | script.js:128-137 | slope · Σdx² = Σdx·dy, including the zero-variance case where the slope is 0 |
| `Regression.ResidualsWithinTotal` | script.js:141-147 | 0 ≤ ssRes ≤ ssTot |
| `Regression.SpreadZeroIffConstant` | script.js:135-137 | Σ(s − mean)² is zero exactly when every element is the same |
| `Regression.FitProperties` | script.js:137-149 | whenever there are ≥ 2 points: a fit exists; R² lies in [0, 1] and equals 1 exactly when the line has no error; MSE ≥ 0; the line passes through (meanX, meanY); all-equal x gives slope 0; all-equal y gives slope 0 and R² = 1 |
| `Regression.ExactLineRecovered` | script.js:128-146 | points on a non-vertical line y = m·x + b give slope m, intercept b and zero squared error |
| `Regression.ExactLine` | script.js:120-151 | points on y = m·x + b with at least two distinct x yield the fit (m, b, MSE 0, R² 1) |
| `Regression.DoublingExample` | script.js:120-151 | (1,2), (2,4), (3,6) yield slope 2, intercept 0, MSE 0, R² 1 |
| `BinomialPoisson.Fact` | script.js:231-239 | n! is at least 1 |
| `BinomialPoisson.FactorialValue` | script.js:231-239 | NaN exactly for a negative argument, 1 at 0, and otherwise a value ≥ 1 |
| `BinomialPoisson.Factorial` | script.js:231-239 | the sentinel, zero case and running product return exactly `FactorialValue` |
| `BinomialPoisson.FactorialRecurrence` | script.js:234-237 | factorial(k) = k · factorial(k − 1) for k ≥ 1 |
| `BinomialPoisson.PascalPositive` | script.js:240-242 | every coefficient with 0 ≤ k ≤ n is at least 1 |
| `BinomialPoisson.PascalFactorials` | script.js:240-242 | Pascal(n, k) · k! · (n − k)! = n! |
| `BinomialPoisson.Choose` | script.js:240-242 | choose is finite exactly when 0 ≤ k ≤ n |
| `BinomialPoisson.ChooseIsPascal` | script.js:240-242 | for 0 ≤ k ≤ n the quotient of factorials is exactly the positive integer Pascal(n, k) |
| `BinomialPoisson.Pow` | script.js:244-247 | `Math.pow(x, k)` for a natural exponent k, as the k-fold product of x |
| `BinomialPoisson.BinomialPMF` | script.js:243-245 | the PMF is finite exactly when 0 ≤ k ≤ n |
| `BinomialPoisson.BinomialAtZero` | script.js:243-245 | with p = 0 the PMF is 1 at k = 0 and 0 at every other k in 0..n |
| `BinomialPoisson.BinomialAtOne` | script.js:243-245 | with p = 1 the PMF is 1 at k = n and 0 at every other k in 0..n |
| `BinomialPoisson.FourTrialsExample` | script.js:243-245 | binomialPMF(2, 4, 0.5) = 0.375 |
| `BinomialPoisson.PoissonPMF` | script.js:246-248 | the PMF is finite exactly when k ≥ 0 |
| `BinomialPoisson.PoissonRecurrence` | script.js:246-248 | successive Poisson values differ by the factor λ/(k + 1) |
| `BinomialPoisson.RowRecurrence` | script.js:243-245 | row n of the expansion of (p + q)^n is row n − 1 multiplied by (p + q) |
| `BinomialPoisson.BinomialTheorem` | script.js:243-245 | the terms C(n, k)·p^k·q^(n−k) over k = 0..n sum to (p + q)^n |
| `BinomialPoisson.BinomialMasses` | script.js:265-267 | the listed masses are the finite binomialPMF values for k = 0..m |
| `BinomialPoisson.MassesAreRow` | script.js:243-245 | with q = 1 − p the binomial probabilities over 0..n are row n of the expansion |
| `BinomialPoisson.BinomialSumsToOne` | script.js:243-245 | the binomial PMF sums to 1 over k = 0..n, for every p |
| `BinomialPoisson.MassesNonNegative` | script.js:243-245 | for 0 ≤ p ≤ 1 every binomial probability is non-negative |
| `BinomialPoisson.MassesWithinOne` | script.js:243-245 | for 0 ≤ p ≤ 1 each probability of 0..m successes lies in [0, 1] and together they sum to at most 1 |
| `BinomialPoisson.MaxK` | script.js:260 | maxK ≤ nVal and maxK ≤ tail, and it is one of the two |
| `BinomialPoisson.Passes` | script.js:260-265 | the k-loop runs maxK + 1 times, and none when maxK is negative |
| `BinomialPoisson.Ks` | script.js:261-266 | the k column has one entry per pass |
| `BinomialPoisson.ValidInput` | script.js:254 | the guard passes exactly when both fields parse, nVal ≥ 1 and 0 ≤ pVal ≤ 1 |
| `BinomialPoisson.BinomialColumn` | script.js:262-267 | `binomVals` after `count` passes, one entry per pass |
| `BinomialPoisson.PoissonColumn` | script.js:263-268 | `poisVals` after `count` passes, one entry per pass |
| `BinomialPoisson.PlottedSeries` | script.js:256-269 | the three columns have one entry per pass and λ = n·p |
| `BinomialPoisson.PlotBinomPoisson` | script.js:251-269 | nothing is drawn exactly when a field fails to parse, n < 1 or p ∉ [0, 1]; otherwise the loop yields exactly `PlottedSeries` |
| `BinomialPoisson.PlottedSeriesProperties` | script.js:256-269 | for valid input every k is in 0..n, so choose is never called out of range; each binomial value is a probability in [0, 1]; the values sum to at most 1, and to exactly 1 when maxK reaches n; every Poisson value is defined |
| `BinomialPoisson.PlotBinomPoissonAsWritten` | script.js:251-269 | as written, nothing is drawn exactly for invalid input |
| `BinomialPoisson.AsWrittenNeverDraws` | script.js:260-267 | as written, since tail ≥ 10, valid input always ends in the ReferenceError |
| `BinomialPoisson.AsWrittenCounterexample` | script.js:267 | n = 10, p = 0.5 throws as written, while the intended loop tabulates 11 probabilities summing to 1 |

## Left out

- DOM lookups, event listeners, `innerHTML` and `toFixed` formatting, and every `Plotly.newPlot` call. These are user interface, not computation.
- The regression line's two endpoints (`Math.min`/`Math.max` of the x values, script.js:172-175). They are only a rendering hint.
- The normal-curve overlay of `plotCLT`. It is floating-point numerics over `Math.sqrt`, `Math.exp` and `Math.PI`.
- `Math.random`. Each draw is an injected boolean, so the model says nothing about the distribution of the draws.
- `Math.exp(-lambda)` in `poissonPMF`. It is an injected real `expNegLambda`.
- `Math.floor(lambda + 4 * Math.sqrt(lambda) + 10)`. It is an injected integer `tail`; only maxK = min(n, tail) ≤ n is modelled.
- `parseInt`/`parseFloat`. The regression and binomial fields arrive as options, `None` where parsing gives NaN. The CLT fields arrive as integers.
- Clt.Session.AddSamples: does not model a CLT field that fails to parse. A NaN count adds no means. A NaN sample size adds NaN means.
- IEEE-754 doubles. Numbers are exact reals with an explicit NaN. Rounding, overflow to Infinity and signed zero are not modelled. A negative sample size gives −0 in the program and 0 here.
- BinomialPoisson.PlottedSeriesProperties: holds for exact reals only. In the program `factorial(171)` and beyond is Infinity, so for nVal ≥ 171 `choose` and every binomial value in the table is NaN or Infinity rather than a probability in [0, 1].
- BinomialPoisson.PlotBinomPoisson: models the loop calling the defined `binomialPMF`, as intended. The undefined `binomPMF` of the script as written is modelled separately (see Findings).

## Findings

| source | as written | input that shows it | evidently intended | confidence | as-written member | corrected member |
|---|---|---|---|---|---|---|
| script.js:267 | the k-loop calls `binomPMF`, a name the script never defines (the function is `binomialPMF`, script.js:243), so the first pass throws a ReferenceError and no chart is drawn | n = 10, p = 0.5 (tail = 23, maxK = 10) | call `binomialPMF(k, nVal, pVal)`, tabulating a binomial column for k = 0..maxK | high (not executed) | `BinomialPoisson.AsWrittenCounterexample` | `BinomialPoisson.PlotBinomPoisson` |
