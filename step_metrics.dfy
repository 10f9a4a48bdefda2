/** The per-step metric collection of egt_so4.py: `get_approach_metrics` (vehicle
    delays and queue lengths of one simulation step), the accumulation over all steps
    in `run_simulation`, the throughput count from the trip records, the final
    per-approach statistics, and the global `max_metrics` table that is only raised.
    The simulator's answers are inputs: one StepSample per simulation step. */
module StepMetrics {
  import opened Common
  import opened TripStats

  /** What the simulator reports for one vehicle in one step; None where the query
      (`getLaneID`, `getTimeLoss`) raised TraCIException. */
  datatype VehicleSample = VehicleSample(lane: Option<string>, timeLoss: Option<real>)

  /** One step: the vehicles present and the halting count of each lane whose query
      answered (a lane missing from the map raised TraCIException). */
  datatype StepSample = StepSample(vehicles: seq<VehicleSample>, halting: map<string, nat>)

  // ---------------------------------------------------------------------------
  // Vehicle delays of one step

  /** Where a vehicle's time loss goes: skipped when a query raises or the lane is not
      a valid lane, otherwise to the first approach listing the lane's edge. */
  function VehicleEntry(v: VehicleSample, validLanes: seq<string>, edges: PerApproach<seq<string>>)
    : (r: Option<(Approach, real)>)
    ensures r.Some? ==> v.lane.Some? && v.lane.value in validLanes
    ensures r.Some? ==> FirstMatch(edges, StartEdge(v.lane.value)) == Some(r.value.0)
    ensures r.Some? ==> v.timeLoss == Some(r.value.1)
    ensures v.lane.Some? && v.lane.value in validLanes && v.timeLoss.Some?
            && FirstMatch(edges, StartEdge(v.lane.value)).Some? ==>
              r == Some((FirstMatch(edges, StartEdge(v.lane.value)).value, v.timeLoss.value))
  {
    match v.lane
    case None => None
    case Some(lane) =>
      if lane !in validLanes then None
      else
        match FirstMatch(edges, StartEdge(lane))
        case None => None
        case Some(a) =>
          match v.timeLoss
          case None => None
          case Some(x) => Some((a, x))
  }

  function VehicleEntries(vehicles: seq<VehicleSample>, validLanes: seq<string>, edges: PerApproach<seq<string>>)
    : (r: seq<Option<(Approach, real)>>)
    ensures |r| == |vehicles|
    ensures forall i :: 0 <= i < |vehicles| ==> r[i] == VehicleEntry(vehicles[i], validLanes, edges)
  {
    seq(|vehicles|, i requires 0 <= i < |vehicles| => VehicleEntry(vehicles[i], validLanes, edges))
  }

  /** `metrics[approach]["delay"]` of one step. */
  function StepDelays(vehicles: seq<VehicleSample>, validLanes: seq<string>, edges: PerApproach<seq<string>>)
    : PerApproach<seq<real>>
  {
    Routed(VehicleEntries(vehicles, validLanes, edges))
  }

  // ---------------------------------------------------------------------------
  // Queue lengths of one step

  /** The halting counts read for one edge: every valid lane that starts with
      `edge + "_"` and whose query answers, in lane order. */
  function LaneHalts(edge: string, lanes: seq<string>, halting: map<string, nat>): seq<nat>
    decreases |lanes|
  {
    if lanes == [] then []
    else
      var lane := lanes[|lanes| - 1];
      LaneHalts(edge, lanes[..|lanes| - 1], halting)
      + (if edge + "_" <= lane && lane in halting then [halting[lane]] else [])
  }

  /** The halting counts read for an approach: those of each of its edges in turn. */
  function QueueSamples(edges: seq<string>, lanes: seq<string>, halting: map<string, nat>): seq<nat>
    decreases |edges|
  {
    if edges == [] then []
    else QueueSamples(edges[..|edges| - 1], lanes, halting) + LaneHalts(edges[|edges| - 1], lanes, halting)
  }

  /** The lane loop for one edge, continuing a running total and maximum of the
      halting counts `done` already read. */
  method ScanEdge(edge: string, lanes: seq<string>, halting: map<string, nat>, ghost done: seq<nat>,
                  sum: nat, max: nat)
    returns (queueSum: nat, maxQueue: nat)
    requires sum == SumNat(done) && max == MaxOr0(done)
    ensures queueSum == SumNat(done + LaneHalts(edge, lanes, halting))
    ensures maxQueue == MaxOr0(done + LaneHalts(edge, lanes, halting))
  {
    queueSum, maxQueue := sum, max;
    assert lanes[..0] == [];
    assert done + LaneHalts(edge, lanes[..0], halting) == done;
    for j := 0 to |lanes|
      invariant queueSum == SumNat(done + LaneHalts(edge, lanes[..j], halting))
      invariant maxQueue == MaxOr0(done + LaneHalts(edge, lanes[..j], halting))
    {
      var lane := lanes[j];
      ghost var seen := done + LaneHalts(edge, lanes[..j], halting);
      LaneHaltsStep(edge, lanes, halting, done, j);
      if edge + "_" <= lane {
        if lane in halting {
          var queue := halting[lane];
          NatSnoc(seen, queue);
          queueSum := queueSum + queue;
          maxQueue := if maxQueue >= queue then maxQueue else queue;
        }
      }
    }
    assert lanes[..|lanes|] == lanes;
  }

  /** One more lane adds its halting count to those read when it starts with
      `edge + "_"` and its query answers, and adds nothing otherwise. */
  lemma LaneHaltsStep(edge: string, lanes: seq<string>, halting: map<string, nat>, done: seq<nat>, j: nat)
    requires j < |lanes|
    ensures edge + "_" <= lanes[j] && lanes[j] in halting ==>
              done + LaneHalts(edge, lanes[..j + 1], halting)
              == (done + LaneHalts(edge, lanes[..j], halting)) + [halting[lanes[j]]]
    ensures !(edge + "_" <= lanes[j] && lanes[j] in halting) ==>
              done + LaneHalts(edge, lanes[..j + 1], halting) == done + LaneHalts(edge, lanes[..j], halting)
  {
    assert lanes[..j + 1][..j] == lanes[..j];
  }

  /** The queue scan of one approach: `queue_sum` is the total and `max_queue` the
      largest of 0 and the halting counts read; the largest is never above the total. */
  method ScanQueues(edges: seq<string>, lanes: seq<string>, halting: map<string, nat>)
    returns (queueSum: nat, maxQueue: nat)
    ensures queueSum == SumNat(QueueSamples(edges, lanes, halting))
    ensures maxQueue == MaxOr0(QueueSamples(edges, lanes, halting))
    ensures maxQueue <= queueSum
  {
    queueSum, maxQueue := 0, 0;
    for i := 0 to |edges|
      invariant queueSum == SumNat(QueueSamples(edges[..i], lanes, halting))
      invariant maxQueue == MaxOr0(QueueSamples(edges[..i], lanes, halting))
    {
      queueSum, maxQueue := ScanEdge(edges[i], lanes, halting, QueueSamples(edges[..i], lanes, halting),
                                     queueSum, maxQueue);
      assert edges[..i + 1][..i] == edges[..i];
    }
    assert edges[..|edges|] == edges;
    MaxOr0AtMostSum(QueueSamples(edges, lanes, halting));
  }

  // ---------------------------------------------------------------------------
  // One step: get_approach_metrics

  /** What `get_approach_metrics` returns for one approach: the delays of the step,
      `queues == [queue_sum]` and `max_queue`. */
  datatype StepMetric = StepMetric(delay: seq<real>, queues: seq<nat>, maxQueue: nat)

  function StepMaxQueue(sample: StepSample, validLanes: seq<string>, edges: PerApproach<seq<string>>, a: Approach): nat
  {
    MaxOr0(QueueSamples(edges.Get(a), validLanes, sample.halting))
  }

  /** The vehicle loop of `get_approach_metrics`. */
  method CollectDelays(validLanes: seq<string>, edges: PerApproach<seq<string>>, vehicles: seq<VehicleSample>)
    returns (delays: PerApproach<seq<real>>)
    ensures delays == StepDelays(vehicles, validLanes, edges)
  {
    delays := Uniform([]);
    for i := 0 to |vehicles|
      invariant delays == Routed(VehicleEntries(vehicles[..i], validLanes, edges))
    {
      var v := vehicles[i];
      ghost var entries := VehicleEntries(vehicles[..i], validLanes, edges);
      assert VehicleEntries(vehicles[..i + 1], validLanes, edges) == entries + [VehicleEntry(v, validLanes, edges)];
      assert (entries + [VehicleEntry(v, validLanes, edges)])[..|entries|] == entries;
      if v.lane.Some? {
        var lane := v.lane.value;
        if lane in validLanes {
          var edge := StartEdge(lane);
          var approach := FirstMatch(edges, edge);
          if approach.Some? {
            if v.timeLoss.Some? {
              delays := delays.Set(approach.value, delays.Get(approach.value) + [v.timeLoss.value]);
            }
          }
        }
      }
    }
    assert vehicles[..|vehicles|] == vehicles;
  }

  /** `get_approach_metrics`: per approach, the step's delays, its queue total as the
      single entry of `queues`, and its largest queue, never above the total. */
  method GetApproachMetrics(validLanes: seq<string>, edges: PerApproach<seq<string>>, sample: StepSample)
    returns (m: PerApproach<StepMetric>)
    ensures forall a :: m.Get(a).delay == StepDelays(sample.vehicles, validLanes, edges).Get(a)
    ensures forall a :: m.Get(a).queues == [SumNat(QueueSamples(edges.Get(a), validLanes, sample.halting))]
    ensures forall a :: m.Get(a).maxQueue == StepMaxQueue(sample, validLanes, edges, a)
    ensures forall a :: m.Get(a).maxQueue <= m.Get(a).queues[0]
  {
    var delays := CollectDelays(validLanes, edges, sample.vehicles);
    m := Uniform(StepMetric([], [], 0));
    for i := 0 to |Order|
      invariant forall b :: Rank(b) < i ==> m.Get(b) == StepMetric(delays.Get(b),
        [SumNat(QueueSamples(edges.Get(b), validLanes, sample.halting))], StepMaxQueue(sample, validLanes, edges, b))
      invariant forall b :: Rank(b) < i ==> m.Get(b).maxQueue <= m.Get(b).queues[0]
    {
      var a := Order[i];
      RankOfOrder(i);
      var queueSum, maxQueue := ScanQueues(edges.Get(a), validLanes, sample.halting);
      m := m.Set(a, StepMetric(delays.Get(a), [queueSum], maxQueue));
    }
  }

  // ---------------------------------------------------------------------------
  // The whole run

  /** One approach's entry of `metrics` in `run_simulation`. */
  datatype RunMetrics = RunMetrics(delay: seq<real>, throughput: nat, queues: seq<nat>, maxQueue: nat)

  /** All vehicle delays of an approach over the run: the step lists, concatenated. */
  function RunDelays(steps: seq<StepSample>, validLanes: seq<string>, edges: PerApproach<seq<string>>, a: Approach)
    : seq<real>
    decreases |steps|
  {
    if steps == [] then []
    else
      RunDelays(steps[..|steps| - 1], validLanes, edges, a)
      + StepDelays(steps[|steps| - 1].vehicles, validLanes, edges).Get(a)
  }

  /** The `queues` list of an approach: one entry per step, that step's `max_queue`. */
  function RunQueues(steps: seq<StepSample>, validLanes: seq<string>, edges: PerApproach<seq<string>>, a: Approach)
    : (r: seq<nat>)
    ensures |r| == |steps|
    decreases |steps|
  {
    if steps == [] then []
    else
      RunQueues(steps[..|steps| - 1], validLanes, edges, a)
      + [StepMaxQueue(steps[|steps| - 1], validLanes, edges, a)]
  }

  /** Entry `i` of an approach's `queues` list is the `max_queue` of step `i`. */
  lemma {:induction false} RunQueuesAt(steps: seq<StepSample>, validLanes: seq<string>,
                                       edges: PerApproach<seq<string>>, a: Approach, i: nat)
    requires i < |steps|
    ensures RunQueues(steps, validLanes, edges, a)[i] == StepMaxQueue(steps[i], validLanes, edges, a)
    decreases |steps|
  {
    if i < |steps| - 1 {
      RunQueuesAt(steps[..|steps| - 1], validLanes, edges, a, i);
    }
  }

  /** The step loop's update of one approach's entry. */
  function Absorb(m: RunMetrics, c: StepMetric): RunMetrics
  {
    m.(delay := m.delay + c.delay,
       queues := m.queues + [c.maxQueue],
       maxQueue := if m.maxQueue >= c.maxQueue then m.maxQueue else c.maxQueue)
  }

  /** `for approach in approaches:` — extend, append and raise for every approach. */
  method AbsorbStep(metrics: PerApproach<RunMetrics>, current: PerApproach<StepMetric>)
    returns (r: PerApproach<RunMetrics>)
    ensures forall a :: r.Get(a) == Absorb(metrics.Get(a), current.Get(a))
  {
    r := metrics;
    for i := 0 to |Order|
      invariant forall b :: Rank(b) < i ==> r.Get(b) == Absorb(metrics.Get(b), current.Get(b))
      invariant forall b :: i <= Rank(b) ==> r.Get(b) == metrics.Get(b)
    {
      var a := Order[i];
      RankOfOrder(i);
      var entry := r.Get(a);
      entry := entry.(delay := entry.delay + current.Get(a).delay);
      entry := entry.(queues := entry.queues + [current.Get(a).maxQueue]);
      entry := entry.(maxQueue := if entry.maxQueue >= current.Get(a).maxQueue then entry.maxQueue
                                  else current.Get(a).maxQueue);
      r := r.Set(a, entry);
    }
  }

  /** An approach's entry after the given steps: the concatenated delays, one queue
      entry per step and the running maximum of those entries. */
  ghost predicate Accumulated(m: RunMetrics, steps: seq<StepSample>, validLanes: seq<string>,
                              edges: PerApproach<seq<string>>, a: Approach)
  {
    m.delay == RunDelays(steps, validLanes, edges, a) && m.queues == RunQueues(steps, validLanes, edges, a)
    && m.maxQueue == MaxOr0(m.queues) && m.throughput == 0
  }

  /** Absorbing the metrics of the last step extends an entry accumulated over the
      steps before it. */
  lemma AbsorbExtends(m: RunMetrics, c: StepMetric, steps: seq<StepSample>, validLanes: seq<string>,
                      edges: PerApproach<seq<string>>, a: Approach)
    requires steps != []
    requires Accumulated(m, steps[..|steps| - 1], validLanes, edges, a)
    requires c.delay == StepDelays(steps[|steps| - 1].vehicles, validLanes, edges).Get(a)
    requires c.maxQueue == StepMaxQueue(steps[|steps| - 1], validLanes, edges, a)
    ensures Accumulated(Absorb(m, c), steps, validLanes, edges, a)
  {
    NatSnoc(m.queues, c.maxQueue);
    assert RunDelays(steps, validLanes, edges, a) == m.delay + c.delay;
  }

  /** The step loop of `run_simulation`: over the run, `queues` gains exactly one entry
      per step, the delay list is the concatenation of the step lists, and `max_queue`
      is the largest of 0 and all entries of `queues`. Throughput is not touched here. */
  method AccumulateRun(validLanes: seq<string>, edges: PerApproach<seq<string>>, steps: seq<StepSample>)
    returns (metrics: PerApproach<RunMetrics>)
    ensures forall a :: metrics.Get(a).delay == RunDelays(steps, validLanes, edges, a)
    ensures forall a :: metrics.Get(a).queues == RunQueues(steps, validLanes, edges, a)
    ensures forall a :: |metrics.Get(a).queues| == |steps|
    ensures forall a :: metrics.Get(a).maxQueue == MaxOr0(metrics.Get(a).queues)
    ensures forall a :: metrics.Get(a).throughput == 0
  {
    metrics := Uniform(RunMetrics([], 0, [], 0));
    for t := 0 to |steps|
      invariant forall a :: Accumulated(metrics.Get(a), steps[..t], validLanes, edges, a)
    {
      var current := GetApproachMetrics(validLanes, edges, steps[t]);
      ghost var before := metrics;
      metrics := AbsorbStep(metrics, current);
      assert steps[..t + 1][..t] == steps[..t];
      forall a
        ensures Accumulated(metrics.Get(a), steps[..t + 1], validLanes, edges, a)
      {
        AbsorbExtends(before.Get(a), current.Get(a), steps[..t + 1], validLanes, edges, a);
      }
    }
    assert steps[..|steps|] == steps;
  }

  // ---------------------------------------------------------------------------
  // Throughput

  /** egt_so4.py's approach table: each approach is a record of named lists, and only
      the "edges" list is ever present. */
  const SourceRecords: PerApproach<map<string, seq<string>>> :=
    PerApproach(map["edges" := ApproachEdges.west], map["edges" := ApproachEdges.south],
                map["edges" := ApproachEdges.north], map["edges" := ApproachEdges.east])

  /** The outcome of `next((a for a, data in approaches.items() if lane in data["lanes"]), None)`. */
  datatype LaneScan = KeyMissing | Found(a: Approach) | NotFound

  function ScanLanesFrom(records: PerApproach<map<string, seq<string>>>, lane: string, i: nat): LaneScan
    requires i <= |Order|
    decreases |Order| - i
  {
    if i == |Order| then NotFound
    else if "lanes" !in records.Get(Order[i]) then KeyMissing
    else if lane in records.Get(Order[i])["lanes"] then Found(Order[i])
    else ScanLanesFrom(records, lane, i + 1)
  }

  /** Trips counted for `a` by the throughput loop as written: a valid depart lane and
      a scan of the "lanes" lists that finds `a` (a KeyError skips the trip). */
  function ThroughputAsWrittenCount(trips: seq<TripRecord>, validLanes: seq<string>,
                                    records: PerApproach<map<string, seq<string>>>, a: Approach): nat
    decreases |trips|
  {
    if trips == [] then 0
    else
      var lane := DepartLane(trips[|trips| - 1]);
      ThroughputAsWrittenCount(trips[..|trips| - 1], validLanes, records, a)
      + (if lane in validLanes && ScanLanesFrom(records, lane, 0) == Found(a) then 1 else 0)
  }

  /** The throughput loop of `run_simulation` as written. */
  method ThroughputAsWritten(trips: seq<TripRecord>, validLanes: seq<string>,
                             records: PerApproach<map<string, seq<string>>>)
    returns (throughput: PerApproach<nat>)
    ensures forall a :: throughput.Get(a) == ThroughputAsWrittenCount(trips, validLanes, records, a)
  {
    throughput := Uniform(0);
    for i := 0 to |trips|
      invariant forall a :: throughput.Get(a) == ThroughputAsWrittenCount(trips[..i], validLanes, records, a)
    {
      assert trips[..i + 1][..i] == trips[..i];
      var lane := DepartLane(trips[i]);
      if lane !in validLanes {
        continue;
      }
      var scan := ScanLanesFrom(records, lane, 0);
      if scan.KeyMissing? {
        continue;  // KeyError: 'lanes', swallowed by `except Exception`
      }
      if scan.Found? {
        throughput := throughput.Set(scan.a, throughput.Get(scan.a) + 1);
      }
    }
    assert trips[..|trips|] == trips;
  }

  /** With the approach table of egt_so4.py the scan raises KeyError for every trip, so
      the throughput as written stays 0 for every approach. */
  lemma {:induction false} ThroughputAsWrittenIsZero(trips: seq<TripRecord>, validLanes: seq<string>, a: Approach)
    ensures ThroughputAsWrittenCount(trips, validLanes, SourceRecords, a) == 0
    decreases |trips|
  {
    if trips != [] {
      ThroughputAsWrittenIsZero(trips[..|trips| - 1], validLanes, a);
      assert "lanes" !in SourceRecords.Get(West);
    }
  }

  /** Trips counted for `a` by the corrected loop: a valid depart lane whose start edge
      `a` is the first approach to list. */
  function ThroughputCount(trips: seq<TripRecord>, validLanes: seq<string>,
                           edges: PerApproach<seq<string>>, a: Approach): nat
    decreases |trips|
  {
    if trips == [] then 0
    else
      var lane := DepartLane(trips[|trips| - 1]);
      ThroughputCount(trips[..|trips| - 1], validLanes, edges, a)
      + (if lane in validLanes && FirstMatch(edges, StartEdge(lane)) == Some(a) then 1 else 0)
  }

  /** The throughput loop, with the approach found by edge-prefix matching on the
      depart lane, as everywhere else in the scripts. */
  method Throughput(trips: seq<TripRecord>, validLanes: seq<string>, edges: PerApproach<seq<string>>)
    returns (throughput: PerApproach<nat>)
    ensures forall a :: throughput.Get(a) == ThroughputCount(trips, validLanes, edges, a)
  {
    throughput := Uniform(0);
    for i := 0 to |trips|
      invariant forall a :: throughput.Get(a) == ThroughputCount(trips[..i], validLanes, edges, a)
    {
      assert trips[..i + 1][..i] == trips[..i];
      var lane := DepartLane(trips[i]);
      if lane !in validLanes {
        continue;
      }
      var approach := FirstMatch(edges, StartEdge(lane));
      if approach.Some? {
        throughput := throughput.Set(approach.value, throughput.Get(approach.value) + 1);
      }
    }
    assert trips[..|trips|] == trips;
  }

  /** When every depart lane is valid, the corrected throughput of an approach is the
      number of trips the delay attribution gives it. */
  lemma {:induction false} ThroughputCountsAttributedTrips(trips: seq<TripRecord>, validLanes: seq<string>,
                                                          edges: PerApproach<seq<string>>, a: Approach)
    requires forall t :: t in trips ==> DepartLane(t) in validLanes
    ensures ThroughputCount(trips, validLanes, edges, a) == |DelaysOf(trips, edges, a)|
    decreases |trips|
  {
    if trips != [] {
      var prefix := trips[..|trips| - 1];
      assert forall t :: t in prefix ==> t in trips;
      assert trips[|trips| - 1] in trips;
      ThroughputCountsAttributedTrips(prefix, validLanes, edges, a);
    }
  }

  /** A trip departing on the valid lane "143870423_0": the loop as written counts it
      nowhere, the corrected loop counts it for east. */
  lemma ThroughputDiscrepancy(x: real)
    ensures ThroughputAsWrittenCount([TripRecord(Some(x), Some("143870423_0"))], ["143870423_0"], SourceRecords, East) == 0
    ensures ThroughputCount([TripRecord(Some(x), Some("143870423_0"))], ["143870423_0"], ApproachEdges, East) == 1
  {
    var t := TripRecord(Some(x), Some("143870423_0"));
    ThroughputAsWrittenIsZero([t], ["143870423_0"], East);
    EastLaneEntry(x);
    assert [t][..0] == [];
  }

  // ---------------------------------------------------------------------------
  // Final statistics and max_metrics

  datatype ApproachStats = ApproachStats(meanDelay: real, maxDelay: real, throughput: nat,
                                         meanQueue: real, maxQueue: nat)

  /** `np.mean(queues)` of the per-step queue entries. */
  function MeanQueue(queues: seq<nat>): real
    requires queues != []
  {
    (SumNat(queues) as real) / (|queues| as real)
  }

  /** A total of k counts, each at most `top`, divided by k lies in [0, top]. */
  lemma RatioBounds(total: nat, k: nat, top: nat)
    requires k > 0 && total <= k * top
    ensures 0.0 <= (total as real) / (k as real) <= top as real
  {
    assert (k * top) as real == (k as real) * (top as real);
    QuotientBounds(total as real, k as real, 0.0, top as real);
  }

  /** The mean queue lies between 0 and the largest queue entry. */
  lemma MeanQueueBounds(queues: seq<nat>)
    requires queues != []
    ensures 0.0 <= MeanQueue(queues) <= MaxOr0(queues) as real
  {
    SumNatBelow(queues, MaxOr0(queues));
    RatioBounds(SumNat(queues), |queues|, MaxOr0(queues));
  }

  /** The statistics of one approach: means and maxima, each 0 for an empty list. */
  function FinalStats(m: RunMetrics): (r: ApproachStats)
    ensures m.delay == [] ==> r.meanDelay == 0.0 && r.maxDelay == 0.0
    ensures m.delay != [] ==> Min(m.delay) <= r.meanDelay <= r.maxDelay && r.maxDelay in m.delay
    ensures forall x :: x in m.delay ==> x <= r.maxDelay
    ensures m.queues == [] ==> r.meanQueue == 0.0
    ensures r.throughput == m.throughput && r.maxQueue == m.maxQueue
  {
    var meanQueue := if m.queues != [] then MeanQueue(m.queues) else 0.0;
    if m.delay != [] then
      MeanBetweenMinAndMax(m.delay);
      ApproachStats(Mean(m.delay), Max(m.delay), m.throughput, meanQueue, m.maxQueue)
    else
      ApproachStats(0.0, 0.0, m.throughput, meanQueue, m.maxQueue)
  }

  /** With `max_queue` the running maximum of the queue entries, the mean queue lies
      between 0 and the maximum queue. */
  lemma MeanQueueAtMostMaxQueue(m: RunMetrics)
    requires m.maxQueue == MaxOr0(m.queues)
    ensures 0.0 <= FinalStats(m).meanQueue <= FinalStats(m).maxQueue as real
  {
    if m.queues != [] {
      MeanQueueBounds(m.queues);
    }
  }

  /** The three statistics `max_metrics` follows: a delay, a throughput and a queue.
      The same record holds the table's entries and the peak of a run. */
  datatype Levels = Levels(delay: real, throughput: int, queue: int)

  /** The peak of a statistics table: no approach's statistic exceeds it. */
  function PeakOf(stats: PerApproach<ApproachStats>): (p: Levels)
    ensures forall a :: stats.Get(a).maxDelay <= p.delay && stats.Get(a).throughput <= p.throughput
                        && stats.Get(a).maxQueue <= p.queue
  {
    var w, s, n, x := stats.west, stats.south, stats.north, stats.east;
    Levels(RMax(RMax(w.maxDelay, s.maxDelay), RMax(n.maxDelay, x.maxDelay)),
         IMax(IMax(w.throughput, s.throughput), IMax(n.throughput, x.throughput)),
         IMax(IMax(w.maxQueue, s.maxQueue), IMax(n.maxQueue, x.maxQueue)))
  }

  /** The statistics of one approach that `max_metrics` follows. */
  function StatPeak(s: ApproachStats): Levels
  {
    Levels(s.maxDelay, s.throughput, s.maxQueue)
  }

  /** `max(entry, statistic)` for each of the three entries. */
  function Lift(l: Levels, p: Levels): Levels
  {
    Levels(RMax(l.delay, p.delay), IMax(l.throughput, p.throughput), IMax(l.queue, p.queue))
  }

  /** The entries after raising them with the first `i` approaches in table order. */
  function LiftUpTo(l: Levels, stats: PerApproach<ApproachStats>, i: nat): Levels
    requires i <= |Order|
  {
    if i == 0 then l else Lift(LiftUpTo(l, stats, i - 1), StatPeak(stats.Get(Order[i - 1])))
  }

  /** Raising the entries with every approach in turn is raising them once with the
      peak of the table: the order of the approaches does not matter. */
  lemma LiftAllApproaches(l: Levels, stats: PerApproach<ApproachStats>)
    ensures LiftUpTo(l, stats, |Order|) == Lift(l, PeakOf(stats))
  {
    assert Order[0] == West && Order[1] == South && Order[2] == North && Order[3] == East;
    assert LiftUpTo(l, stats, 0) == l;
    var l1 := LiftUpTo(l, stats, 1);
    var l2 := LiftUpTo(l, stats, 2);
    var l3 := LiftUpTo(l, stats, 3);
    assert l1 == Lift(l, StatPeak(stats.west));
    assert l2 == Lift(l1, StatPeak(stats.south));
    assert l3 == Lift(l2, StatPeak(stats.north));
    assert LiftUpTo(l, stats, 4) == Lift(l3, StatPeak(stats.east));
  }

  /** The global `max_metrics` table: the largest delay, throughput and queue seen so
      far, never lowered. */
  class MaxMetrics {
    var delay: real
    var throughput: int
    var queue: int

    constructor ()
      ensures delay == 100.0 && throughput == 1000 && queue == 20
    {
      delay, throughput, queue := 100.0, 1000, 20;
    }

    function Current(): Levels
      reads this
    {
      Levels(delay, throughput, queue)
    }

    /** Raise each entry to the matching statistic of one approach. */
    method Raise(s: ApproachStats)
      modifies this
      ensures delay >= old(delay) && delay >= s.maxDelay && (delay == old(delay) || delay == s.maxDelay)
      ensures throughput >= old(throughput) && throughput >= s.throughput
      ensures throughput == old(throughput) || throughput == s.throughput
      ensures queue >= old(queue) && queue >= s.maxQueue && (queue == old(queue) || queue == s.maxQueue)
      ensures Current() == Lift(old(Current()), StatPeak(s))
    {
      delay := if delay >= s.maxDelay then delay else s.maxDelay;
      throughput := if throughput >= s.throughput then throughput else s.throughput;
      queue := if queue >= s.maxQueue then queue else s.maxQueue;
    }

    /** The `max_metrics` update of `run_simulation`: raise with every approach's
        statistics in turn. */
    method RaiseAll(stats: PerApproach<ApproachStats>)
      modifies this
      ensures Current() == Lift(old(Current()), PeakOf(stats))
      ensures delay >= old(delay) && throughput >= old(throughput) && queue >= old(queue)
      ensures forall a :: delay >= stats.Get(a).maxDelay && throughput >= stats.Get(a).throughput
                          && queue >= stats.Get(a).maxQueue
    {
      ghost var start := Current();
      for i := 0 to |Order|
        invariant Current() == LiftUpTo(start, stats, i)
      {
        Raise(stats.Get(Order[i]));
      }
      LiftAllApproaches(start, stats);
    }
  }

  /** The metrics of one approach over a run, as a value. */
  function RunMetricsOf(validLanes: seq<string>, edges: PerApproach<seq<string>>, steps: seq<StepSample>,
                        trips: seq<TripRecord>, a: Approach): RunMetrics
  {
    var queues := RunQueues(steps, validLanes, edges, a);
    RunMetrics(RunDelays(steps, validLanes, edges, a), ThroughputCount(trips, validLanes, edges, a),
               queues, MaxOr0(queues))
  }

  /** `for approach in approaches: stats[approach] = {...}`: each approach's statistics
      from its accumulated metrics, with its throughput filled in. */
  method StatsFromMetrics(metrics: PerApproach<RunMetrics>, throughput: PerApproach<nat>)
    returns (stats: PerApproach<ApproachStats>)
    ensures forall a :: stats.Get(a) == FinalStats(metrics.Get(a).(throughput := throughput.Get(a)))
  {
    stats := Uniform(ApproachStats(0.0, 0.0, 0, 0.0, 0));
    for i := 0 to |Order|
      invariant forall b :: Rank(b) < i ==> stats.Get(b) == FinalStats(metrics.Get(b).(throughput := throughput.Get(b)))
    {
      var a := Order[i];
      RankOfOrder(i);
      stats := stats.Set(a, FinalStats(metrics.Get(a).(throughput := throughput.Get(a))));
    }
  }

  /** The statistics of every approach, from the accumulated metrics and the throughput. */
  method ComputeStats(validLanes: seq<string>, edges: PerApproach<seq<string>>, steps: seq<StepSample>,
                      trips: seq<TripRecord>)
    returns (stats: PerApproach<ApproachStats>)
    ensures stats == SimulationStats(validLanes, edges, steps, trips)
  {
    var metrics := AccumulateRun(validLanes, edges, steps);
    var throughput := Throughput(trips, validLanes, edges);
    stats := StatsFromMetrics(metrics, throughput);
    forall a
      ensures stats.Get(a) == SimulationStats(validLanes, edges, steps, trips).Get(a)
    {
      assert metrics.Get(a).(throughput := throughput.Get(a)) == RunMetricsOf(validLanes, edges, steps, trips, a);
    }
    PerApproachEquality(stats, SimulationStats(validLanes, edges, steps, trips));
  }

  /** The metrics of every approach over a run. */
  function RunTable(validLanes: seq<string>, edges: PerApproach<seq<string>>, steps: seq<StepSample>,
                    trips: seq<TripRecord>): (r: PerApproach<RunMetrics>)
    ensures forall a :: r.Get(a) == RunMetricsOf(validLanes, edges, steps, trips, a)
  {
    Tabulate(a => RunMetricsOf(validLanes, edges, steps, trips, a))
  }

  /** The statistics of every approach. */
  function StatsOf(table: PerApproach<RunMetrics>): (r: PerApproach<ApproachStats>)
    ensures forall a :: r.Get(a) == FinalStats(table.Get(a))
  {
    PerApproach(FinalStats(table.west), FinalStats(table.south), FinalStats(table.north), FinalStats(table.east))
  }

  /** The statistics table of a run. */
  function SimulationStats(validLanes: seq<string>, edges: PerApproach<seq<string>>, steps: seq<StepSample>,
                           trips: seq<TripRecord>): PerApproach<ApproachStats>
  {
    StatsOf(RunTable(validLanes, edges, steps, trips))
  }

  /** `run_simulation` after the simulator has answered: accumulate the steps, count the
      throughput, compute each approach's statistics and raise `max_metrics` with them.
      Afterwards no entry of `max_metrics` is lower than before or lower than the
      matching statistic of any approach. */
  method RunSimulation(validLanes: seq<string>, edges: PerApproach<seq<string>>, steps: seq<StepSample>,
                       trips: seq<TripRecord>, observed: MaxMetrics)
    returns (stats: PerApproach<ApproachStats>)
    modifies observed
    ensures stats == SimulationStats(validLanes, edges, steps, trips)
    ensures observed.Current() == Lift(old(observed.Current()), PeakOf(stats))
    ensures observed.delay >= old(observed.delay) && observed.throughput >= old(observed.throughput)
    ensures observed.queue >= old(observed.queue)
    ensures forall a :: observed.delay >= stats.Get(a).maxDelay && observed.throughput >= stats.Get(a).throughput
                        && observed.queue >= stats.Get(a).maxQueue
  {
    stats := ComputeStats(validLanes, edges, steps, trips);
    observed.RaiseAll(stats);
  }
}
