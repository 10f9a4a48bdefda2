/** Attribution of completed trips (the `<tripinfo>` records the simulator writes) to
    approaches, and the per-approach delay statistics computed from them: the trip
    block of `run_simulation` in egt_so2.py and egt_so3.py, and parse_tripinfo.py. */
module TripStats {
  import opened Common

  /** One `<tripinfo>` record; either attribute may be absent. */
  datatype TripRecord = TripRecord(timeLoss: Option<real>, departLane: Option<string>)

  /** `float(trip.get('timeLoss', 0))` */
  function TimeLoss(t: TripRecord): real
  {
    match t.timeLoss
    case Some(x) => x
    case None => 0.0
  }

  /** `trip.get('departLane', '')` */
  function DepartLane(t: TripRecord): string
  {
    match t.departLane
    case Some(lane) => lane
    case None => ""
  }

  /** The approach a trip is counted for, with its delay; None when it is dropped. */
  function TripEntry(t: TripRecord, edges: PerApproach<seq<string>>): Option<(Approach, real)>
  {
    match FirstMatch(edges, StartEdge(DepartLane(t)))
    case None => None
    case Some(a) => Some((a, TimeLoss(t)))
  }

  function TripEntries(trips: seq<TripRecord>, edges: PerApproach<seq<string>>): (r: seq<Option<(Approach, real)>>)
    ensures |r| == |trips|
    ensures forall i :: 0 <= i < |trips| ==> r[i] == TripEntry(trips[i], edges)
  {
    seq(|trips|, i requires 0 <= i < |trips| => TripEntry(trips[i], edges))
  }

  /** `approach_data` after the attribution loop. */
  function Attributed(trips: seq<TripRecord>, edges: PerApproach<seq<string>>): PerApproach<seq<real>>
  {
    Routed(TripEntries(trips, edges))
  }

  /** The inner loop for one trip: the delay goes to the first approach whose edge list
      holds the trip's start edge, whose counter goes up; nothing changes when no
      approach lists it. */
  method AttributeTrip(trip: TripRecord, edges: PerApproach<seq<string>>,
                       delays: PerApproach<seq<real>>, counts: PerApproach<nat>)
    returns (delays': PerApproach<seq<real>>, counts': PerApproach<nat>)
    ensures TripEntry(trip, edges).None? ==> delays' == delays && counts' == counts
    ensures TripEntry(trip, edges).Some? ==>
              var (a, x) := TripEntry(trip, edges).value;
              delays' == delays.Set(a, delays.Get(a) + [x]) && counts' == counts.Set(a, counts.Get(a) + 1)
  {
    delays', counts' := delays, counts;
    var timeLoss := TimeLoss(trip);
    var startEdge := StartEdge(DepartLane(trip));
    var j := 0;
    while j < |Order|
      invariant 0 <= j <= |Order|
      invariant FirstMatch(edges, startEdge) == FirstMatchFrom(edges, startEdge, j)
      invariant delays' == delays && counts' == counts
    {
      var a := Order[j];
      if startEdge in edges.Get(a) {
        delays' := delays'.Set(a, delays'.Get(a) + [timeLoss]);
        counts' := counts'.Set(a, counts'.Get(a) + 1);
        return;
      }
      j := j + 1;
    }
  }

  /** The attribution loop: each trip's delay is appended to the first approach whose
      edge list holds the trip's start edge, and that approach's counter goes up
      (egt_so3.py keeps the counter; egt_so2.py and parse_tripinfo.py use the list
      length, which the counter always equals). */
  method AttributeTrips(trips: seq<TripRecord>, edges: PerApproach<seq<string>>)
    returns (delays: PerApproach<seq<real>>, counts: PerApproach<nat>)
    ensures delays == Attributed(trips, edges)
    ensures forall a :: counts.Get(a) == |delays.Get(a)|
  {
    delays, counts := Uniform([]), Uniform(0);
    for i := 0 to |trips|
      invariant delays == Routed(TripEntries(trips[..i], edges))
      invariant forall a :: counts.Get(a) == |delays.Get(a)|
    {
      ghost var entries := TripEntries(trips[..i], edges);
      assert TripEntries(trips[..i + 1], edges) == entries + [TripEntry(trips[i], edges)];
      assert (entries + [TripEntry(trips[i], edges)])[..|entries|] == entries;
      delays, counts := AttributeTrip(trips[i], edges, delays, counts);
    }
    assert trips[..|trips|] == trips;
  }

  /** The delays of the trips attributed to `a`, in trip order: a reference definition
      that looks at one approach only. */
  function DelaysOf(trips: seq<TripRecord>, edges: PerApproach<seq<string>>, a: Approach): seq<real>
    decreases |trips|
  {
    if trips == [] then []
    else
      var t := trips[|trips| - 1];
      DelaysOf(trips[..|trips| - 1], edges, a)
      + (if FirstMatch(edges, StartEdge(DepartLane(t))) == Some(a) then [TimeLoss(t)] else [])
  }

  /** Trips whose start edge no approach lists. */
  function DroppedTrips(trips: seq<TripRecord>, edges: PerApproach<seq<string>>): nat
    decreases |trips|
  {
    if trips == [] then 0
    else
      DroppedTrips(trips[..|trips| - 1], edges)
      + (if FirstMatch(edges, StartEdge(DepartLane(trips[|trips| - 1]))).None? then 1 else 0)
  }

  /** Trip entries grow one record at a time. */
  lemma TripEntriesSnoc(trips: seq<TripRecord>, edges: PerApproach<seq<string>>)
    requires trips != []
    ensures var entries := TripEntries(trips[..|trips| - 1], edges);
            TripEntries(trips, edges) == entries + [TripEntry(trips[|trips| - 1], edges)]
            && TripEntries(trips, edges)[..|trips| - 1] == entries
  {
  }

  /** An approach's list holds exactly the delays of the trips whose first matching
      approach it is, in the order the trips were read. */
  lemma {:induction false} AttributedIsDelaysOf(trips: seq<TripRecord>, edges: PerApproach<seq<string>>, a: Approach)
    ensures Attributed(trips, edges).Get(a) == DelaysOf(trips, edges, a)
  {
    RoutedIsFilter(TripEntries(trips, edges), a);
    RoutedToIsDelaysOf(trips, edges, a);
  }

  lemma {:induction false} RoutedToIsDelaysOf(trips: seq<TripRecord>, edges: PerApproach<seq<string>>, a: Approach)
    ensures RoutedTo(TripEntries(trips, edges), a) == DelaysOf(trips, edges, a)
    decreases |trips|
  {
    if trips != [] {
      RoutedToIsDelaysOf(trips[..|trips| - 1], edges, a);
      TripEntriesSnoc(trips, edges);
    }
  }

  /** Because of the `break`, every trip lands in one list or is dropped: the counts
      add up to the number of trips less the dropped ones, so never more than the
      number of records. */
  lemma {:induction false} EachTripCountedAtMostOnce(trips: seq<TripRecord>, edges: PerApproach<seq<string>>)
    ensures TotalLength(Attributed(trips, edges)) + DroppedTrips(trips, edges) == |trips|
    ensures TotalLength(Attributed(trips, edges)) <= |trips|
  {
    RoutedConservesEntries(TripEntries(trips, edges));
    DroppedCountIsDroppedTrips(trips, edges);
  }

  lemma {:induction false} DroppedCountIsDroppedTrips(trips: seq<TripRecord>, edges: PerApproach<seq<string>>)
    ensures DroppedCount(TripEntries(trips, edges)) == DroppedTrips(trips, edges)
    decreases |trips|
  {
    if trips != [] {
      DroppedCountIsDroppedTrips(trips[..|trips| - 1], edges);
      TripEntriesSnoc(trips, edges);
    }
  }

  /** A trip without `departLane` has start edge '' which no approach of the table
      lists, so it is dropped; a trip without `timeLoss` counts a delay of 0. */
  lemma MissingAttributes(t: TripRecord)
    ensures t.departLane.None? ==> TripEntry(t, ApproachEdges).None?
    ensures t.timeLoss.None? ==> TimeLoss(t) == 0.0
  {
    if t.departLane.None? {
      assert StartEdge(DepartLane(t)) == "";
      assert forall b :: "" !in ApproachEdges.Get(b) by {
        forall b ensures "" !in ApproachEdges.Get(b) {
          assert |ApproachEdges.Get(b)[0]| > 0;
        }
      }
    }
  }

  /** A trip that departs on lane "143870423_0" is attributed to east and to no
      other approach. */
  lemma EastLaneGoesEast(x: real)
    ensures TripEntry(TripRecord(Some(x), Some("143870423_0")), ApproachEdges) == Some((East, x))
    ensures Attributed([TripRecord(Some(x), Some("143870423_0"))], ApproachEdges)
            == PerApproach([], [], [], [x])
  {
    EastLaneEntry(x);
    SingleTrip(TripRecord(Some(x), Some("143870423_0")), ApproachEdges, East, x);
  }

  lemma EastLaneEntry(x: real)
    ensures TripEntry(TripRecord(Some(x), Some("143870423_0")), ApproachEdges) == Some((East, x))
  {
    EastLaneStartEdge(x);
    EastEdgeIsEast();
  }

  lemma SingleTrip(t: TripRecord, edges: PerApproach<seq<string>>, a: Approach, x: real)
    requires TripEntry(t, edges) == Some((a, x))
    ensures Attributed([t], edges) == Uniform([]).Set(a, [x])
  {
    assert TripEntries([t], edges) == [] + [Some((a, x))];
    RoutedSnoc([], a, x);
    var none: PerApproach<seq<real>> := Uniform([]);
    assert none.Get(a) + [x] == [x];
  }

  lemma EastLaneStartEdge(x: real)
    ensures StartEdge(DepartLane(TripRecord(Some(x), Some("143870423_0")))) == "143870423"
  {
    assert "143870423_0" == "143870423" + "_" + "0";
    StartEdgeOfLane("143870423", "0");
  }

  lemma EastEdgeIsEast()
    ensures FirstMatch(ApproachEdges, "143870423") == Some(East)
  {
  }

  // ---------------------------------------------------------------------------
  // Statistics

  /** The mean delay of egt_so2.py: `sum(delays) / len(delays) if delays else 0`. */
  function MeanOrZero(delays: seq<real>): (r: real)
    ensures delays == [] ==> r == 0.0
    ensures delays != [] ==> Min(delays) <= r <= Max(delays)
    ensures (forall x :: x in delays ==> x >= 0.0) ==> r >= 0.0
  {
    if delays != [] then
      MeanBetweenMinAndMax(delays);
      Mean(delays)
    else 0.0
  }

  datatype DelayStats = DelayStats(mean: real, max: real, min: real, count: nat)

  /** parse_tripinfo.py's report for one approach: None is "No data". */
  function Summary(delays: seq<real>): (r: Option<DelayStats>)
    ensures r.None? <==> delays == []
    ensures r.Some? ==> r.value.count == |delays| && r.value.min <= r.value.mean <= r.value.max
    ensures r.Some? ==> r.value.min in delays && r.value.max in delays
    ensures r.Some? ==> forall x :: x in delays ==> r.value.min <= x <= r.value.max
  {
    if delays != [] then
      MeanBetweenMinAndMax(delays);
      Some(DelayStats(Mean(delays), Max(delays), Min(delays), |delays|))
    else None
  }

  /** egt_so3.py's statistics for one approach, chosen on its trip counter: all zero
      when no trip was attributed. */
  function CountedStats(delays: seq<real>, count: nat): (r: DelayStats)
    requires count == |delays|
    ensures count == 0 ==> r == DelayStats(0.0, 0.0, 0.0, 0)
    ensures count > 0 ==> r.count == |delays| && r.min <= r.mean <= r.max
    ensures count > 0 ==> r.min in delays && r.max in delays
    ensures count > 0 ==> forall x :: x in delays ==> r.min <= x <= r.max
  {
    if count > 0 then
      MeanBetweenMinAndMax(delays);
      DelayStats(Mean(delays), Max(delays), Min(delays), count)
    else DelayStats(0.0, 0.0, 0.0, 0)
  }

  /** egt_so2.py's `mean_delays` dictionary: per approach the mean of its delays, 0
      when it has none. */
  function MeanDelays(delays: PerApproach<seq<real>>): (r: PerApproach<real>)
    ensures forall a :: r.Get(a) == MeanOrZero(delays.Get(a))
    ensures forall a :: delays.Get(a) == [] ==> r.Get(a) == 0.0
    ensures forall a :: delays.Get(a) != [] ==> r.Get(a) == Mean(delays.Get(a))
    ensures forall a :: delays.Get(a) != [] ==> Min(delays.Get(a)) <= r.Get(a) <= Max(delays.Get(a))
  {
    PerApproach(MeanOrZero(delays.west), MeanOrZero(delays.south),
                MeanOrZero(delays.north), MeanOrZero(delays.east))
  }

  /** egt_so3.py's `stats` dictionary: per approach all zero without trips, and
      otherwise the trip count with a mean between the smallest and the largest
      delay, both of which are delays of that approach. */
  function StatsTable(delays: PerApproach<seq<real>>, counts: PerApproach<nat>): (r: PerApproach<DelayStats>)
    requires forall a :: counts.Get(a) == |delays.Get(a)|
    ensures forall a :: r.Get(a) == CountedStats(delays.Get(a), counts.Get(a))
    ensures forall a :: counts.Get(a) == 0 ==> r.Get(a) == DelayStats(0.0, 0.0, 0.0, 0)
    ensures forall a :: counts.Get(a) > 0 ==>
              r.Get(a).count == counts.Get(a) && r.Get(a).min <= r.Get(a).mean <= r.Get(a).max
    ensures forall a :: counts.Get(a) > 0 ==> r.Get(a).min in delays.Get(a) && r.Get(a).max in delays.Get(a)
    ensures forall a :: counts.Get(a) > 0 ==> forall x :: x in delays.Get(a) ==> r.Get(a).min <= x <= r.Get(a).max
  {
    assert counts.west == |delays.west| && counts.south == |delays.south|
        && counts.north == |delays.north| && counts.east == |delays.east|
    by {
      assert counts.Get(West) == |delays.Get(West)| && counts.Get(South) == |delays.Get(South)|;
      assert counts.Get(North) == |delays.Get(North)| && counts.Get(East) == |delays.Get(East)|;
    }
    PerApproach(CountedStats(delays.west, counts.west), CountedStats(delays.south, counts.south),
                CountedStats(delays.north, counts.north), CountedStats(delays.east, counts.east))
  }

  /** With no trips at all, every approach reports zero statistics and a zero mean
      delay, and parse_tripinfo.py reports "No data" for each. */
  lemma NoTripsNoData(edges: PerApproach<seq<string>>)
    ensures Attributed([], edges) == Uniform([])
    ensures MeanDelays(Attributed([], edges)) == Uniform(0.0)
    ensures StatsTable(Attributed([], edges), Uniform(0)) == Uniform(DelayStats(0.0, 0.0, 0.0, 0))
  {
    assert TripEntries([], edges) == [];
  }
}
