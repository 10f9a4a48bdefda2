# EGT traffic-signal optimizer — Dafny model

The repository tunes the four green times (west, south, north, east) of the traffic
light "J0" with an evolutionary game-theory loop around the SUMO simulator. Each
generation of `egt_so2.py` and `egt_so3.py` does four things:

- writes the green times into the network's phase durations;
- simulates;
- attributes each trip's time loss to the approach its departure lane belongs to;
- turns the per-approach mean delays into payoffs, and moves each green time by a
  payoff-proportional gain and a random mutation, clamped to [10, 60] seconds.

`egt_so4.py` collects richer per-step metrics: vehicle delays, halting queues,
throughput, and a global `max_metrics` table. It runs a baseline and then generations
whose exceptions are skipped. `parse_tripinfo.py` prints per-approach time-loss
statistics of a trip file.

The model has six modules:

- `Common` (common.dfy) holds the pieces shared by all scripts:
  - the four approaches and their edge table;
  - the `lane.split('_')[0]` edge extraction;
  - the first-match approach lookup;
  - appending values to per-approach lists;
  - means, maxima, minima and sums;
  - Python's `int()` truncation and the `max(lo, min(hi, x))` clamp.
- `TripStats` (trips.dfy) covers trip attribution and the statistics of `egt_so2.py`,
  `egt_so3.py` and `parse_tripinfo.py`. The attribution loop is a method proved
  against a function over the trip sequence.
- `Evolution` (evolution.dfy) has the payoffs and the strategy update rule. It is one
  engine with two configurations, `So2` (K = 2) and `So3` (K = 8). The strategy
  dictionary is a class whose `Evolve` method updates it in place, approach by
  approach.
- `PhaseWrite` (phases.dfy) models `update_traffic_light_phases` as an update of the
  phase sequence of program "J0".
- `StepMetrics` (step_metrics.dfy) covers `get_approach_metrics` and
  `run_simulation` of `egt_so4.py`: the queue scans, the step accumulation, the
  throughput count, the final statistics and the `max_metrics` class.
- `Optimizer` (optimizer.dfy) has the generation loops:
  - unguarded for `egt_so2.py` and `egt_so3.py`, where the first exception ends the
    run;
  - baseline-then-skip for `egt_so4.py`.

Everything the simulator reports is an input: trip records, per-step vehicle samples
and lane halting counts, and whether a run failed. The random draws are inputs too:
the value of `random.random()` and the index `random.choice` picks.

Reals stand for Python floats. The exponential of `egt_so3.py` is a parameter
`exp: real -> real`. Lemmas that need it assume it is positive and increasing.

## Model

| member | source | states |
|---|---|---|
| Common.StartEdge | parse_tripinfo.py:25 | The edge is the longest prefix of the lane without `'_'`. It stops just before the first `'_'`, or is the whole lane when there is none. |
| Common.PrefixMatchesStartEdge | egt_so4.py:132-134 | For an edge without `'_'`, `lane.startswith(edge + "_")` holds exactly when the lane has a `'_'` and its start edge is that edge. So the queue scan and the delay attribution pick the same lanes. |
| Common.StartEdgeOfLane | parse_tripinfo.py:25 | A lane named `edge + "_" + suffix`, for an edge without `'_'`, splits back to that edge. |
| Common.FirstMatch | egt_so2.py:76-79 | The approach found lists the edge, and no approach earlier in table order lists it. None exactly when no approach lists the edge. |
| Common.RoutedIsFilter | parse_tripinfo.py:28-31 | Appending each value to its approach's list gives, per approach, exactly the values routed to it, in input order. |
| Common.RoutedConservesEntries | egt_so3.py:98-102 | Every entry lands in exactly one list or is dropped: list lengths plus dropped entries equal the number of entries. |
| Common.Max | parse_tripinfo.py:38 | `max` of a non-empty list is an element that no element exceeds. |
| Common.Min | parse_tripinfo.py:39 | `min` of a non-empty list is an element that exceeds no element. |
| Common.MeanBetweenMinAndMax | parse_tripinfo.py:37-39 | `sum / len` of a non-empty list lies between its minimum and its maximum. |
| Common.MaxOr0 | egt_so4.py:130-138 | The running `max(max_queue, queue)` from 0 bounds every element and is 0 or one of them. |
| Common.NatSnoc | egt_so4.py:137-138 | Adding one queue reading adds it to the sum and raises the running maximum to it if it is larger. |
| Common.MaxOr0AtMostSum | egt_so4.py:137-138 | For non-negative counts the largest is at most the total. |
| Common.SumNatBelow | egt_so4.py:206 | A sum of counts each at most b is at most length times b. |
| Common.Trunc | egt_so2.py:107 | `int()` rounds toward zero: it is within 1 of x, on the side of zero. |
| Common.Clamp | egt_so2.py:114 | `max(lo, min(hi, x))` lies in [lo, hi]. It is x when x is in range, lo below and hi above. |
| TripStats.AttributeTrips | egt_so3.py:93-102 | The attribution loop with its `break` builds the per-approach lists of the attribution function. Each counter equals its list's length. |
| TripStats.AttributeTrip | egt_so3.py:95-102 | For one trip, the inner loop with `break` appends the delay to the first matching approach and raises its counter. When no approach lists the start edge, nothing changes. |
| TripStats.AttributedIsDelaysOf | egt_so2.py:71-79 | An approach's list holds exactly the time losses of the trips whose start edge first matches that approach, in trip order. |
| TripStats.EachTripCountedAtMostOnce | egt_so3.py:93-102 | Attributed trips plus dropped trips equal the number of trip records, so the counts add up to at most the number of records. |
| TripStats.MissingAttributes | parse_tripinfo.py:23-24 | A missing `departLane` leaves the trip unattributed. A missing `timeLoss` reads as 0. |
| TripStats.EastLaneGoesEast | parse_tripinfo.py:4-9 | A trip departing on "143870423_0" goes to east and to no other approach. |
| TripStats.MeanOrZero | egt_so2.py:84 | 0 for an empty list. Otherwise between minimum and maximum, and not negative when no delay is. |
| TripStats.Summary | parse_tripinfo.py:35-47 | "No data" (None) exactly for an empty list. Otherwise the count is the length, min ≤ mean ≤ max, min and max are elements and bound all delays. |
| TripStats.CountedStats | egt_so3.py:104-120 | With count 0 all four statistics are 0. Otherwise the count is the length, min ≤ mean ≤ max, and min and max are elements bounding all delays. |
| TripStats.MeanDelays | egt_so2.py:82-84 | An approach with no delays gets 0. Otherwise it gets the mean of its delays, which lies between their minimum and maximum. |
| TripStats.StatsTable | egt_so3.py:105-120 | An approach with a zero trip count gets all-zero statistics. Otherwise it gets the count, min ≤ mean ≤ max, min and max are delays of that approach, and they bound all its delays. |
| TripStats.NoTripsNoData | egt_so2.py:69-84 | With no trips every list is empty, every mean delay is 0 and every statistic is 0. |
| Evolution.InversePayoffDecreasing | egt_so2.py:100 | For delays ≥ 0, `1/(d+1e-6)` is positive and strictly decreasing. |
| Evolution.ExpDecayPayoffDecreasing | egt_so3.py:139 | For a positive increasing exponential, `exp(-d/10)` is positive and strictly decreasing. |
| Evolution.Payoffs | egt_so2.py:100 | The exponential payoffs always exist. The inverse payoffs fail (ZeroDivisionError) exactly when some mean delay is -1e-6. |
| Evolution.InversePayoffsPositive | egt_so2.py:100-105 | With non-negative mean delays all inverse payoffs are positive, so the total is above 0 and the gain is always applied. |
| Evolution.Mutation | egt_so2.py:110-111 | Below the rate the delta is one of the variant's deltas; otherwise no change. |
| Evolution.MutationDeltas | egt_so3.py:159-160 | egt_so2.py mutates by -2, 0 or +2. egt_so3.py mutates by -5 or +5, never 0. |
| Evolution.NextValue | egt_so3.py:153-163 | Gain, then mutation, then clamp leaves a value in [10, 60]. |
| Evolution.NextGreen | egt_so2.py:104-114 | After every update each green time lies in [10, 60]. |
| Evolution.UpdateUsesOneSnapshot | egt_so2.py:100-107 | An approach's new value depends only on its own old value, its own draws and the shared payoffs, not on the other approaches. |
| Evolution.AdjustmentWithinK | egt_so2.py:105-107 | With non-negative payoffs each gain `int(K * p / total)` is in [0, K]. |
| Evolution.AdjustmentsSumAtMostK | egt_so3.py:153-156 | With non-negative payoffs the four gains add up to at most K. |
| Evolution.NoMutationNeverDecreases | egt_so2.py:104-114 | Without a mutation an in-range value never decreases. |
| Evolution.BelowThresholdOnlyMutation | egt_so3.py:153-163 | With a total at most the threshold, the new value is the clamp of old value plus mutation. |
| Evolution.So3Scenario | egt_so3.py:154-156 | Payoffs 0.5/0.2/0.2/0.1 without mutation turn 30s into 34/31/31/30. |
| Evolution.So3ClampsAt60 | egt_so3.py:159-163 | 58 with a +5 mutation ends at 60. |
| Evolution.Strategies.constructor | egt_so2.py:17-22 | All four green times start at 30. |
| Evolution.Strategies.Evolve | egt_so3.py:146-163 | The in-place loop over approaches leaves the strategies at NextGreen of the old strategies, a single total, and in [10, 60]. |
| PhaseWrite.SetGreenTimes | egt_so2.py:41-46 | Phases 0, 2, 4, 6 get west, south, north, east and every other phase is unchanged. IndexError (None) exactly when there are fewer than 7 phases. |
| PhaseWrite.WritePhases | egt_so4.py:87-93 | Every "J0" program gets the green times and every other program is copied. The write fails exactly when some "J0" program has fewer than 7 phases. The base network is a value and is not changed. |
| PhaseWrite.WriteIntoJ0 | egt_so3.py:63-69 | For an 8-phase "J0", phases 0/2/4/6 hold the four green times and 1/3/5/7 are untouched. |
| StepMetrics.VehicleEntry | egt_so4.py:111-125 | A vehicle's delay is recorded only for a valid lane and a known time loss, and then for the first approach listing the lane's start edge, with that time loss. Conversely, a vehicle on a valid lane whose start edge some approach lists, and whose time loss is known, is recorded with that approach and its time loss. |
| StepMetrics.ScanQueues | egt_so4.py:128-142 | `queue_sum` is the total and `max_queue` the largest of 0 and the halting counts of the lanes starting with `edge + "_"`. Also `max_queue ≤ queue_sum`. |
| StepMetrics.CollectDelays | egt_so4.py:111-125 | The vehicle loop builds the per-approach delay lists of the step. |
| StepMetrics.GetApproachMetrics | egt_so4.py:102-144 | Per approach: the step's delays, `queues == [queue_sum]`, and `max_queue ≤ queue_sum`. |
| StepMetrics.AccumulateRun | egt_so4.py:158-175 | `queues` gains exactly one entry per step, namely that step's `max_queue`. The delay list is the concatenation of the step lists. `max_queue` equals the largest of 0 and all entries. |
| StepMetrics.AbsorbExtends | egt_so4.py:166-175 | Absorbing one more step's metrics extends the entry accumulated over the earlier steps: delays appended, one queue entry added, running maximum raised. |
| StepMetrics.RunQueuesAt | egt_so4.py:170 | Entry i of an approach's `queues` list is the `max_queue` of step i. |
| StepMetrics.ThroughputAsWritten | egt_so4.py:180-192 | The throughput loop as written: a trip counts only when the scan of the `"lanes"` lists finds its approach. A KeyError skips the trip. |
| StepMetrics.ThroughputAsWrittenIsZero | egt_so4.py:33-38 | With the approach table as written (only `"edges"`), the throughput as written is 0 for every approach. |
| StepMetrics.Throughput | egt_so4.py:180-192 | Corrected loop: a trip on a valid lane counts for the first approach listing its depart lane's start edge. |
| StepMetrics.ThroughputCountsAttributedTrips | egt_so4.py:180-192 | When every depart lane is valid, the corrected throughput of an approach is the number of trips the delay attribution gives it. |
| StepMetrics.ThroughputDiscrepancy | egt_so4.py:186 | A trip on the valid lane "143870423_0" counts 0 as written and 1 for east when corrected. |
| StepMetrics.FinalStats | egt_so4.py:202-208 | Mean and max delay are 0 for an empty list. Otherwise min ≤ mean ≤ max, and max is an element bounding all delays. Mean queue is 0 for an empty list. |
| StepMetrics.MeanQueueAtMostMaxQueue | egt_so4.py:206-207 | With `max_queue` the running maximum, 0 ≤ mean queue ≤ max queue. |
| StepMetrics.MaxMetrics.constructor | egt_so4.py:47-51 | `max_metrics` starts at 100, 1000, 20. |
| StepMetrics.MaxMetrics.Raise | egt_so4.py:210-212 | Each entry becomes the larger of itself and the statistic: it never decreases and ends ≥ the statistic. |
| StepMetrics.LiftAllApproaches | egt_so4.py:198-212 | Raising the entries with each approach in turn equals raising them once with the table's peak. |
| StepMetrics.MaxMetrics.RaiseAll | egt_so4.py:198-212 | After the loop over approaches, each entry is exactly max(old value, peak of the table). So it is ≥ its old value and ≥ the statistic of every approach. |
| StepMetrics.StatsFromMetrics | egt_so4.py:196-208 | Each approach's statistics are the final statistics of its accumulated metrics, with its throughput filled in. |
| StepMetrics.ComputeStats | egt_so4.py:196-208 | The statistics table is the final statistics of each approach's run metrics. |
| StepMetrics.RunSimulation | egt_so4.py:146-214 | The returned statistics are those of the run. Each entry of `max_metrics` becomes exactly max(old value, the run's peak). So it never decreases and ends ≥ each approach's max delay, throughput and max queue. |
| Optimizer.Generation | egt_so2.py:89-114 | A generation fails exactly when the phase write, the simulator or the payoff division raises. Otherwise the new strategies are in [10, 60]. |
| Optimizer.RunSpec | egt_so3.py:125-163 | A run that did not abort completed every generation; an aborted one completed fewer. |
| Optimizer.RunOptimizer | egt_so2.py:89-114 | The generation loop leaves the strategies object and the completed count equal to the run function. The first exception ends the run. Strategies that start in [10, 60] end in range. |
| Optimizer.StatsMeansAreMeanDelays | egt_so3.py:104-120 | The `mean` column of egt_so3.py's statistics equals egt_so2.py's mean-or-zero delays. |
| Optimizer.AbortIsFinal | egt_so2.py:89-96 | Once a generation has raised, later generations change nothing. |
| Optimizer.RunSpecAbortsAfter | egt_so3.py:125-132 | A generation that raises ends the run with the strategies of the previous generation. |
| Optimizer.RunKeepsBounds | egt_so3.py:162-163 | Starting in range, the strategies stay in [10, 60] over any run. |
| Optimizer.So2StaysInBounds | egt_so2.py:17-24 | egt_so2.py's run from 30 s of green everywhere keeps every green time in [10, 60]. |
| Optimizer.So3StaysInBounds | egt_so3.py:20-28 | egt_so3.py's run from 30 s of green everywhere keeps every green time in [10, 60]. |
| Optimizer.FirstCrashAborts | egt_so2.py:93-96 | A failing first simulation ends the run with 0 generations done and the strategies unchanged. |
| Optimizer.So4Failure | egt_so4.py:240-257 | A generation fails in the phase write exactly when the write raises. It fails in the simulator exactly when the write succeeds and the simulation fails. Otherwise it fails at the undefined payoff step. |
| StepMetrics.PeakOf | egt_so4.py:210-212 | No approach's max delay, throughput or max queue exceeds the peak. |
| Optimizer.PeakIsReached | egt_so4.py:210-212 | Values at least every approach's statistics are at least the peak. |
| Optimizer.PeaksAt | egt_so4.py:237-242 | Entry i of the peaks is the peak of generation i when it simulated, else None. |
| Optimizer.Attempt | egt_so4.py:241-242 | The phase write and simulation run exactly when neither fails. On failure `max_metrics` is unchanged. Otherwise each entry becomes exactly max(old value, the run's peak). |
| Optimizer.LiftAllStep | egt_so4.py:237-242 | One more attempt raises the entries by its peak and nothing else. |
| Optimizer.LiftAllCovers | egt_so4.py:237-242 | After a series of attempts every entry is ≥ its start and ≥ the peak of every attempt that simulated. |
| Optimizer.LiftAllObserved | egt_so4.py:237-242 | After a series of attempts every entry is its start or the peak of some attempt that simulated: `max_metrics` holds only observed values. |
| Optimizer.CoveredPeaksChangeNothing | egt_so4.py:47-51 | Peaks that the start already covers leave every entry as it was. For example, all statistics below 100 s, 1000 and 20 keep `max_metrics` at its initial values. |
| Optimizer.RunGenerations | egt_so4.py:237-257 | Every generation is attempted and skipped with its failure. `max_metrics` ends exactly as raised by the peak of each generation that simulated, in order. So it never decreases and covers each of those peaks. |
| Optimizer.RunSo4 | egt_so4.py:224-257 | A failing baseline ends the run with no generation attempted and `max_metrics` unchanged. Otherwise every generation is attempted and skipped, and `max_metrics` ends exactly as raised by the baseline's peak and then each simulated generation's peak. The strategies never change. |

## Left out

- The SUMO session (`traci.start`, `simulationStep`, `close`, the vehicle and lane
  queries, TraCIException) is not modelled. Its answers are inputs.
  - A failed vehicle or lane query is a missing value.
  - A failed simulation is a `Crashed` or `SimulatorFailed` episode.
- gzip and ElementTree reading and writing of the network and trip files are not
  modelled.
  - The network is a sequence of `TlLogic` values and is never changed.
  - The trip file is a sequence of `TripRecord` values.
  - A `timeLoss` that is present but not a number (a ValueError in `float`) is not
    represented.
- CSV logging (`init_log`, `log_results`) and all printing are left out. They are
  output only.
- `random.random` and `random.choice` become the `Draw` inputs.
- Python floats are modelled as reals.
  - `np.exp` is the parameter `exp`.
  - IEEE rounding, overflow and NaN are not modelled.
- `valid_lanes` is a Python set; the model uses a sequence in the set's iteration
  order.
  - The queue sum and the queue maximum do not depend on that order.
  - A sequence with repeated lanes would count a lane twice, which a set cannot do.
- Optimizer.RunSo4: `calculate_payoffs` and `evolve_strategies` are called by
  egt_so4.py but defined nowhere in it.
  - The model follows the code as written: each generation that gets past the
    simulation ends in NameError and is skipped, so the strategies never change.
  - The weighted payoff (`weights`), `mutation_step = 3` and the unused
    `max_phases`/`min_phases` of egt_so4.py are therefore not modelled.
- Optimizer.RunOptimizer: the number of generations (10 or 20) is the length of the
  input sequence.
- `get_valid_lanes` is a single simulator query. The lanes are part of each episode's
  input.
- TripStats.CountedStats: takes the trip counter as a separate argument that must equal
  the list length. egt_so3.py keeps the two in step, which `AttributeTrips` proves.
- StepMetrics.RunSimulation: counts throughput with the corrected loop (see Findings).
  The code as written is `ThroughputAsWritten`.
- plot_results.py and test_traci.py are not part of this model. They are plotting and
  a simulator smoke test.

## Findings

| source | as written | input that shows it | evidently intended | confidence | as-written member | corrected member |
|---|---|---|---|---|---|---|
| egt_so4.py:185-192 | The throughput scan reads `data["lanes"]`. The approach records (egt_so4.py:33-38) have only `"edges"`, so every scan raises KeyError. `except Exception` swallows it, and throughput stays 0 for every approach. | One trip departing on valid lane "143870423_0" | Count the trip for the approach whose edges hold the depart lane's start edge (east), as the delay attribution does | not executed | StepMetrics.ThroughputAsWritten (StepMetrics.ThroughputAsWrittenIsZero, StepMetrics.ThroughputDiscrepancy) | StepMetrics.Throughput (StepMetrics.ThroughputCountsAttributedTrips) |
