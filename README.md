# DAMPC flood-control decision rules in Dafny

This project models the hand-written decision rules around the model-predictive
flood-control loop for the Jingdian Lake (JDH) and Qinting Lake (QTH) network:

- **Priority** (`JdhMpc.calculatePriority` and its helpers). It ranks the three
  sub-basins: 1 is the Jiefang stream (JFX_1480), 2 is the Yangting stream (YTX_x3),
  both draining into JDH, and 3 is the Qinting Lake inflow. Each gets a weighted
  score built from three ratios: storage pressure, lead time and downstream
  resilience. The result is the label of the sub-basin whose objective the
  single-objective optimiser minimises. The seven simulated series are passed in
  as an `Observations` value. When the source throws on a missing value, the
  classifier returns `None`.
- **Horizon** (the bookkeeping in `JdhMpc.main`). It covers the number of control
  periods, Java's truncating division of the parameters, and half-up rounding to
  two decimals of each optimiser setting over the device scale 4.5. That rounding
  is the array-filling `Quantise` loop. It also covers the whole control loop.
  There the simulator and optimiser are a `Plan`: given the decisions committed
  so far, it returns the next optimiser output, or `None` when the period throws.
  The first such exception ends the run.
- **Fitness** (the lambdas and constants of `OptMethod.MOEA` and `OptMethod.jdhGA`).
  It covers the decision-vector length, the gene bounds, the three-objective
  fitness with its all-zero fallback, and the priority-selected single objective
  with its null fallback. The simulator fitness call is a function parameter that
  returns an objective array or throws.
- **Series**: stream maximum and sum, and the last position of a value.

Source doubles are modelled as exact reals. Everything that depends on rounding
or on NaN/Infinity is listed below.

Where the documented intent and the code disagree, the model follows the code.
In `ResilienceRatios`, the code gives 1.0 to the sub-basins of the reservoir with
the *larger* resilience value, not the lower one. In `MoeaFitness`, a failed
simulation scores all zeros. `FailedCandidateIsParetoBest` proves that this is the
best possible score, not a worst-case sentinel. The remaining-capacity clamp is
listed under Findings.

## Model

| member | source | states |
|---|---|---|
| Series.Max | JdhMpc.java:199 | the stream maximum is an element of the series and no element exceeds it |
| Series.Sum | JdhMpc.java:79-81 | the sum of a series of non-negative values is non-negative |
| Series.SumConcat | JdhMpc.java:79-81 | the sum of two consecutive stretches is the sum of the whole series |
| Series.LastMaxIndex | JdhMpc.java:199-205 | the index the scan ends with holds the maximum and every later element is strictly below it |
| Priority.Resilience | JdhMpc.java:183-195 | 223.24 exactly when r is 12.5 and the maximum exceeds 12.5; 2842.77 exactly when r is 5.5 and the maximum exceeds 5.5; 0 otherwise |
| Priority.LeadTime | JdhMpc.java:197-211 | the time to peak is at least 0.01, so the lead-time divisions never divide by zero |
| Priority.LeadTimeOfPeak | JdhMpc.java:197-211 | 0.01 exactly when every later value stays below the first one; otherwise 5 times the last index holding the maximum |
| Priority.CalculateTime | JdhMpc.java:197-211 | the scanning loop that overwrites `index` returns the lead time of the array |
| Priority.RemainingCapacityAsWritten | JdhMpc.java:84-92 | as written: rated minus initial volume, replaced by 0.00001 only when strictly negative, so exactly 0 is kept |
| Priority.AsWrittenCapacityCanBeZero | JdhMpc.java:84-97 | a reservoir that is exactly full (JDH at 96852, QTH at 569015.25) leaves a zero divisor for the storage ratios |
| Priority.RemainingCapacity | JdhMpc.java:84-92 | corrected clamp: the capacity is always positive and equals the free capacity whenever there is some |
| Priority.CapacityFixOnlyAtZero | JdhMpc.java:87-92 | the corrected and written clamps differ only when rated and initial volume are equal |
| Priority.FloodVolume | JdhMpc.java:79-81 | the flood volume of non-negative inflows is non-negative |
| Priority.FloodVolumeSplit | JdhMpc.java:79-81 | the flood volume is additive: a series split in two carries the volumes of both parts |
| Priority.StorageRatios | JdhMpc.java:79-97 | each ratio times its reservoir's corrected remaining capacity is the flood volume (sum of inflows times 300 s); JFX and YTX share the JDH capacity, so JFX's ratio exceeds YTX's exactly when its flood volume does; non-negative inflows give non-negative ratios |
| Priority.LeadTimeDefined | JdhMpc.java:99-109 | both heads must be non-empty; complete series always suffice, and with both reservoirs at or below their safety levels no inflow series is needed |
| Priority.GatedLeadRatio | JdhMpc.java:103-109 | zero unless the head exceeds its threshold, and then positive and the inflow lead time over the head lead time |
| Priority.LeadTimeRatios | JdhMpc.java:99-109 | p21 and p22 are positive iff max JDH head > 12.5, p23 iff max QTH head > 5.5, else 0; when open they are the lead-time quotients |
| Priority.ResilienceRatios | JdhMpc.java:111-125 | p31 = p32, all in [0,1], one of them 1.0 unless all are 0; the exact triple for each of the four stressed/unstressed combinations |
| Priority.Score | JdhMpc.java:127-132 | the weights sum to 1 (equal indicators give that value) and non-negative indicators give a non-negative score |
| Priority.ScoreMonotone | JdhMpc.java:127-132 | the score rises strictly with each indicator |
| Priority.Evaluable | JdhMpc.java:79-109 | holds for complete series; when it holds, both heads and volumes are non-empty, and each inflow whose lead time is computed is non-empty |
| Priority.Scores | JdhMpc.java:127-132 | JFX and YTX differ only by their weighted storage and lead-time ratios (their risk ratios cancel); non-negative inflows give non-negative scores |
| Priority.Label | JdhMpc.java:134-140 | the label is in {1,2,3}; 2 iff p2 > p1 and p2 > p3; else 3 iff p3 > p1; the chosen score is at least each of the three |
| Priority.ClassifyPriority | JdhMpc.java:68-141 | fails exactly when a series the source indexes or maximises is empty; otherwise returns a label in {1,2,3} whose score is maximal |
| Priority.QuietReservoirsRankByStorage | JdhMpc.java:99-140 | with both reservoirs at or below their safety levels the label is decided by the storage ratios alone |
| Horizon.JavaDiv | JdhMpc.java:35 | Java integer division: the magnitude is the quotient of magnitudes, truncated toward zero, with sign from the operands |
| Horizon.PredictionSteps | JdhMpc.java:35 | for non-negative horizon and positive ratio, the number of whole resampling ratios that fit into the horizon, exact when the ratio divides it |
| Horizon.IterationCount | JdhMpc.java:37 | the loop count plus the prediction steps reaches the marker count, exactly when the loop runs at all |
| Horizon.DefaultIterationCount | JdhMpc.java:34-37 | with {120,10,10,5} there are 12 prediction steps, T - 12 iterations, and none when T <= 12 |
| Horizon.HalfUpHundredths | JdhMpc.java:55 | rounding to hundredths: nearest integer, ties away from zero (ROUND_HALF_UP) |
| Horizon.RoundToCents | JdhMpc.java:54-55 | a whole number of hundredths within 0.005 of the input, and in [0,1] for inputs in [0,1] |
| Horizon.Quantised | JdhMpc.java:54-55 | a setting is a multiple of 0.01 within 0.005 of output/4.5, and in [0,1] for output in [0,4.5] |
| Horizon.Quantise | JdhMpc.java:52-56 | a newly allocated array with the same length as `output`, each element the quantised setting of that position |
| Horizon.Committed | JdhMpc.java:37-65 | n periods commit at most n decisions, and fewer only when the plan fails on what was committed |
| Horizon.CommittedStep | JdhMpc.java:37-65 | period k commits the quantised plan for the decisions before it, which succeeded; later periods never revise earlier ones |
| Horizon.CommittedAfterFailure | JdhMpc.java:37-65 | once a period's plan fails, no later period commits anything |
| Horizon.CommittedWithoutFailure | JdhMpc.java:37-65 | when the plan never fails, n periods commit exactly n decisions |
| Horizon.RunControlLoop | JdhMpc.java:37-65 | periods i = 0, 1, ..., at most IterationCount of them, each committing the quantised optimiser output given the earlier decisions; the first failing period ends the run, and without failure all IterationCount periods are committed |
| Fitness.DecisionLength | OptMethod.java:39 | for non-negative parameters and a positive ratio, the largest n with n times the ratio at most devices times horizon (Java's truncating division) |
| Fitness.DefaultDecisionLength | OptMethod.java:39 | `parameters[3] * parameters[0] / parameters[1]` is 60 for {120,10,10,5} |
| Fitness.DecisionLengthPerDevice | OptMethod.java:96 | when the horizon divides evenly, the length is devices times prediction steps |
| Fitness.LowerBound | OptMethod.java:117 | the lower gene bound is below the upper bound 4.5 and non-negative, and positive exactly for the single-objective search |
| Fitness.InCodecDomain | OptMethod.java:39-41 | every codec candidate's genes lie in [0, 4.5], the device range |
| Fitness.SingleObjectiveDomainWithinMulti | OptMethod.java:117 | single-objective genes in [0.1,4.5] are also multi-objective genes in [0.0,4.5], but not the other way round |
| Fitness.CodecDecisionsQuantiseToUnitInterval | OptMethod.java:41 | every codec candidate of either optimiser quantises to settings in [0,1], and single-objective candidates to at least 0.02 |
| Fitness.MoeaFitness | OptMethod.java:50-58 | always three objectives: the simulator's first three, or all zeros when it throws; a shorter result makes the fitness throw |
| Fitness.FailedCandidateIsParetoBest | OptMethod.java:43-57 | under minimisation the zero fallback dominates every other non-negative objective vector, and none dominates it |
| Fitness.ObjectiveIndex | OptMethod.java:102-108 | priority 1 selects the first objective, 2 the second, any other value the third |
| Fitness.GaFitness | OptMethod.java:97-115 | the objective selected by priority, or null when the simulator throws or returns too few objectives |
| Fitness.SingleAndMultiAgree | OptMethod.java:50-115 | on success the single objective is the priority-selected component of the three-objective vector; on failure one is null and the other zeros |
| Fitness.ClassifiedPriorityObjective | OptMethod.java:102-108 | a classified priority l selects objective l - 1, that sub-basin's own objective |

## Left out

- Simulator and file I/O are not modelled: SWMM `initialize`/`simulate`, `ReadAllResult.readOutFile`, `readSWMMResult`, `readDateList`, `UpdateInpFile`, `RewriteInpFile` and `CreatInpFile`. The read series are inputs, and the simulator-plus-optimiser per period is the `Plan` parameter.
- The two `rewriteMpcInp` calls (with `parameters[3]` and with 5) and `createInpFile` are file rewriting and are not modelled. The committed decisions are the model's output.
- The evolutionary engine is not modelled: population, mutators, crossovers, tournament and NSGA-II selection, the steady-fitness and generation limits, and Pareto-set collection. These are a third-party library and randomised.
- The `jdhGA` statistics `peek` that appends to `fitList` is not modelled. It is logging inside the library stream.
- Result parsing in `MOEA` (slicing the codec's text form into `matrix`) is not modelled. It depends on an unseen `toString` format and ignores the computed front.
- `EntropyWeight.java` is not part of this model. It is floating-point work on `Math.log`, and its claims hold only up to rounding.
- `TestSWMM.java` is not part of this model. It is a demo driver for the simulator.
- Timing, console output and logging are not modelled.
- Doubles are exact reals. `BigDecimal.valueOf(double)`, the conversion back by `doubleValue()`, compensated summation in `sum()`, NaN and Infinity are not modelled.
- Horizon.JavaDiv and Fitness.DecisionLength: `int` is unbounded, so a 32-bit overflow of `parameters[3] * parameters[0]` is not modelled. The parameters in use do not overflow.
- Horizon.PredictionSteps, Horizon.IterationCount and Fitness.DecisionLength require a non-zero `parameters[1]`. The source would throw, but it uses a fixed constant.
- Priority.CalculateTime requires a non-empty array. The source throws on an empty one. `ClassifyPriority` models that exception as `None`.
- Priority.StorageRatios and Priority.ClassifyPriority use the corrected capacity clamp (see Findings). For an exactly full reservoir the source divides by zero, and the model does not.

## Findings

| source | as written | input that shows it | evidently intended | confidence | as-written member | corrected member |
|---|---|---|---|---|---|---|
| JdhMpc.java:87-92 | remaining capacity is clamped to 0.00001 only when `< 0`, so a capacity of exactly 0 reaches the divisions at lines 95-97 (Infinity or NaN in the scores) | initial JDH volume 96852 (or QTH volume 569015.25); shown by `Priority.AsWrittenCapacityCanBeZero` | clamp when `<= 0`, so the divisor is always positive | medium, not executed | Priority.RemainingCapacityAsWritten | Priority.RemainingCapacity |
