/** Vocabulary shared by the optimizer scripts: the four approaches of junction J0,
    per-approach records (the scripts' dictionaries keyed by approach name), lane and
    edge names, and the arithmetic on delay lists. */
module Common {

  datatype Option<T> = None | Some(value: T)

  /** One directional movement into the intersection. */
  datatype Approach = West | South | North | East

  /** The order in which every script iterates its approach dictionaries
      (the insertion order of the dictionary literal). */
  const Order: seq<Approach> := [West, South, North, East]

  /** Position of an approach in Order. */
  function Rank(a: Approach): (i: nat)
    ensures i < |Order| && Order[i] == a
  {
    match a
    case West => 0
    case South => 1
    case North => 2
    case East => 3
  }

  lemma RankOfOrder(i: nat)
    requires i < |Order|
    ensures Rank(Order[i]) == i
  {
  }

  /** A dictionary whose keys are exactly the four approaches. */
  datatype PerApproach<T> = PerApproach(west: T, south: T, north: T, east: T)
  {
    function Get(a: Approach): T
    {
      match a
      case West => west
      case South => south
      case North => north
      case East => east
    }

    /** `d[a] = v`: the entry for `a` changes and no other entry does. */
    function Set(a: Approach, v: T): (r: PerApproach<T>)
      ensures r.Get(a) == v
      ensures forall b :: b != a ==> r.Get(b) == Get(b)
    {
      match a
      case West => this.(west := v)
      case South => this.(south := v)
      case North => this.(north := v)
      case East => this.(east := v)
    }
  }

  /** Two records with the same entry for every approach are equal. */
  lemma PerApproachEquality<T>(x: PerApproach<T>, y: PerApproach<T>)
    requires forall a :: x.Get(a) == y.Get(a)
    ensures x == y
  {
    assert x.Get(West) == y.Get(West) && x.Get(South) == y.Get(South);
    assert x.Get(North) == y.Get(North) && x.Get(East) == y.Get(East);
  }

  /** `{key: v for key in approaches}` */
  function Uniform<T>(v: T): (r: PerApproach<T>)
    ensures forall a :: r.Get(a) == v
  {
    PerApproach(v, v, v, v)
  }

  /** `{key: f(key) for key in approaches}` */
  function Tabulate<T>(f: Approach -> T): (r: PerApproach<T>)
    ensures forall a :: r.Get(a) == f(a)
  {
    PerApproach(f(West), f(South), f(North), f(East))
  }

  /** The edge lists of the approach table shared by all scripts. */
  const ApproachEdges: PerApproach<seq<string>> :=
    PerApproach(["15491645#0"], ["142049043#0"], ["141821921#1"], ["143870423"])

  // ---------------------------------------------------------------------------
  // Lanes and edges

  /** `lane.split('_')[0]`: the text before the first '_', or the whole lane. */
  function StartEdge(lane: string): (e: string)
    ensures e <= lane && '_' !in e
    ensures '_' in lane ==> |e| < |lane| && lane[|e|] == '_'
    ensures '_' !in lane ==> e == lane
  {
    if lane == [] then []
    else if lane[0] == '_' then []
    else [lane[0]] + StartEdge(lane[1..])
  }

  /** A lane named after its edge, `edge + "_" + suffix`, has that edge as start edge. */
  lemma StartEdgeOfLane(edge: string, suffix: string)
    requires '_' !in edge
    ensures StartEdge(edge + "_" + suffix) == edge
  {
    var lane := edge + "_" + suffix;
    var e := StartEdge(lane);
    assert lane[|edge|] == '_';
    assert forall k :: 0 <= k < |edge| ==> lane[k] == edge[k];
    assert |e| == |edge|;
    assert e == lane[..|e|];
  }

  /** For an edge name without '_' (all edges of the approach table), a lane starts
      with `edge + "_"` exactly when the edge is the lane's start edge: the queue
      scan of egt_so4 and the trip attribution pick out the same lanes. */
  lemma {:induction false} PrefixMatchesStartEdge(edge: string, lane: string)
    requires '_' !in edge
    ensures edge + "_" <= lane <==> StartEdge(lane) == edge && '_' in lane
  {
    if edge != [] && lane != [] && lane[0] == edge[0] {
      PrefixMatchesStartEdge(edge[1..], lane[1..]);
      assert edge + "_" == [edge[0]] + (edge[1..] + "_");
      assert lane == [lane[0]] + lane[1..];
    } else if edge == [] && lane != [] {
      assert StartEdge(lane) == [] <==> lane[0] == '_';
    }
  }

  /** The approach the scripts choose for an edge: the first one, in Order, whose edge
      list contains it (`for approach, edges in ...: if edge in edges: ... break` and
      `next((a for a, data in ... if edge in data["edges"]), None)`). */
  function FirstMatchFrom(edges: PerApproach<seq<string>>, edge: string, i: nat): (r: Option<Approach>)
    requires i <= |Order|
    decreases |Order| - i
    ensures r.Some? ==> i <= Rank(r.value) && edge in edges.Get(r.value)
    ensures r.Some? ==> forall b :: i <= Rank(b) < Rank(r.value) ==> edge !in edges.Get(b)
    ensures r.None? ==> forall b :: i <= Rank(b) ==> edge !in edges.Get(b)
  {
    if i == |Order| then None
    else if edge in edges.Get(Order[i]) then Some(Order[i])
    else FirstMatchFrom(edges, edge, i + 1)
  }

  function FirstMatch(edges: PerApproach<seq<string>>, edge: string): (r: Option<Approach>)
    ensures r.Some? ==> edge in edges.Get(r.value)
    ensures r.Some? ==> forall b :: Rank(b) < Rank(r.value) ==> edge !in edges.Get(b)
    ensures r.None? <==> forall b :: edge !in edges.Get(b)
  {
    FirstMatchFrom(edges, edge, 0)
  }

  // ---------------------------------------------------------------------------
  // Routing values to approaches

  /** Each entry either names the approach its value belongs to, or is dropped. The
      result is every approach's list after appending the routed values in order,
      starting from empty lists. */
  function Routed(entries: seq<Option<(Approach, real)>>): (r: PerApproach<seq<real>>)
    decreases |entries|
  {
    if entries == [] then Uniform([])
    else
      var prev := Routed(entries[..|entries| - 1]);
      match entries[|entries| - 1]
      case None => prev
      case Some((a, x)) => prev.Set(a, prev.Get(a) + [x])
  }

  /** Routing one more value appends it to its approach's list only. */
  lemma RoutedSnoc(entries: seq<Option<(Approach, real)>>, a: Approach, x: real)
    ensures Routed(entries + [Some((a, x))]) == Routed(entries).Set(a, Routed(entries).Get(a) + [x])
  {
    assert (entries + [Some((a, x))])[..|entries|] == entries;
  }

  /** The values routed to `a`, in order: an independent, per-approach reading of Routed. */
  function RoutedTo(entries: seq<Option<(Approach, real)>>, a: Approach): seq<real>
    decreases |entries|
  {
    if entries == [] then []
    else
      RoutedTo(entries[..|entries| - 1], a) + ValuesFor(entries[|entries| - 1], a)
  }

  /** What one entry adds to the list of `a`. */
  function ValuesFor(e: Option<(Approach, real)>, a: Approach): seq<real>
  {
    match e
    case Some((b, x)) => if b == a then [x] else []
    case None => []
  }

  /** Number of entries that are dropped. */
  function DroppedCount(entries: seq<Option<(Approach, real)>>): nat
    decreases |entries|
  {
    if entries == [] then 0
    else DroppedCount(entries[..|entries| - 1]) + (if entries[|entries| - 1].None? then 1 else 0)
  }

  /** Sum of the list lengths over all approaches. */
  function TotalLength(d: PerApproach<seq<real>>): nat
  {
    |d.west| + |d.south| + |d.north| + |d.east|
  }

  /** Routing keeps each value in the list of the approach it names and nowhere else. */
  lemma {:induction false} RoutedIsFilter(entries: seq<Option<(Approach, real)>>, a: Approach)
    ensures Routed(entries).Get(a) == RoutedTo(entries, a)
  {
    if entries != [] {
      RoutedIsFilter(entries[..|entries| - 1], a);
    }
  }

  /** Every entry ends up in exactly one list or is dropped: the lists together hold
      as many values as there are entries that were not dropped. */
  lemma {:induction false} RoutedConservesEntries(entries: seq<Option<(Approach, real)>>)
    ensures TotalLength(Routed(entries)) + DroppedCount(entries) == |entries|
  {
    if entries != [] {
      RoutedConservesEntries(entries[..|entries| - 1]);
    }
  }

  // ---------------------------------------------------------------------------
  // Arithmetic on delay lists (Python's sum, max, min, len)

  function Sum(s: seq<real>): real
    decreases |s|
  {
    if s == [] then 0.0 else Sum(s[..|s| - 1]) + s[|s| - 1]
  }

  function RMax(x: real, y: real): real { if x >= y then x else y }

  function IMax(x: int, y: int): int { if x >= y then x else y }

  function RMin(x: real, y: real): real { if x <= y then x else y }

  /** `max(s)`: an element of `s` that no element exceeds. */
  function Max(s: seq<real>): (m: real)
    requires s != []
    decreases |s|
    ensures m in s && forall x :: x in s ==> x <= m
  {
    if |s| == 1 then s[0]
    else
      var prev := s[..|s| - 1];
      assert s == prev + [s[|s| - 1]];
      RMax(Max(prev), s[|s| - 1])
  }

  /** `min(s)`: an element of `s` that no element undercuts. */
  function Min(s: seq<real>): (m: real)
    requires s != []
    decreases |s|
    ensures m in s && forall x :: x in s ==> m <= x
  {
    if |s| == 1 then s[0]
    else
      var prev := s[..|s| - 1];
      assert s == prev + [s[|s| - 1]];
      RMin(Min(prev), s[|s| - 1])
  }

  /** `sum(s) / len(s)` (and numpy's mean). */
  function Mean(s: seq<real>): real
    requires s != []
  {
    Sum(s) / (|s| as real)
  }

  lemma {:induction false} SumBelow(s: seq<real>, b: real)
    requires forall x :: x in s ==> x <= b
    ensures Sum(s) <= (|s| as real) * b
    decreases |s|
  {
    if s != [] {
      var prev := s[..|s| - 1];
      assert forall x :: x in prev ==> x in s;
      SumBelow(prev, b);
      assert s[|s| - 1] in s;
    }
  }

  lemma {:induction false} SumAbove(s: seq<real>, b: real)
    requires forall x :: x in s ==> b <= x
    ensures (|s| as real) * b <= Sum(s)
    decreases |s|
  {
    if s != [] {
      var prev := s[..|s| - 1];
      assert forall x :: x in prev ==> x in s;
      SumAbove(prev, b);
      assert s[|s| - 1] in s;
    }
  }

  /** Dividing a bound on a total by the (positive) count bounds the quotient. */
  lemma QuotientBounds(total: real, n: real, lo: real, hi: real)
    requires n > 0.0 && n * lo <= total <= n * hi
    ensures lo <= total / n <= hi
  {
    var q := total / n;
    assert q * n == total;
    assert (q - hi) * n <= 0.0;
    assert (q - lo) * n >= 0.0;
  }

  /** The mean lies between the smallest and the largest value. */
  lemma MeanBetweenMinAndMax(s: seq<real>)
    requires s != []
    ensures Min(s) <= Mean(s) <= Max(s)
  {
    SumBelow(s, Max(s));
    SumAbove(s, Min(s));
    QuotientBounds(Sum(s), |s| as real, Min(s), Max(s));
  }

  // ---------------------------------------------------------------------------
  // Arithmetic on halting counts

  function SumNat(s: seq<nat>): nat
    decreases |s|
  {
    if s == [] then 0 else SumNat(s[..|s| - 1]) + s[|s| - 1]
  }

  /** `m = 0; for x in s: m = max(m, x)`: the largest of 0 and the elements. */
  function MaxOr0(s: seq<nat>): (m: nat)
    decreases |s|
    ensures forall x :: x in s ==> x <= m
    ensures m == 0 || m in s
  {
    if s == [] then 0
    else
      var prev := s[..|s| - 1];
      assert s == prev + [s[|s| - 1]];
      if MaxOr0(prev) >= s[|s| - 1] then MaxOr0(prev) else s[|s| - 1]
  }

  lemma NatSnoc(s: seq<nat>, x: nat)
    ensures SumNat(s + [x]) == SumNat(s) + x
    ensures MaxOr0(s + [x]) == if MaxOr0(s) >= x then MaxOr0(s) else x
  {
    assert (s + [x])[..|s|] == s;
  }

  lemma {:induction false} SumNatBelow(s: seq<nat>, b: nat)
    requires forall x :: x in s ==> x <= b
    ensures SumNat(s) <= |s| * b
    decreases |s|
  {
    if s != [] {
      var prev := s[..|s| - 1];
      assert forall x :: x in prev ==> x in s;
      SumNatBelow(prev, b);
      assert s[|s| - 1] in s;
      assert SumNat(s) == SumNat(prev) + s[|s| - 1];
      assert |s| * b == |prev| * b + b;
    }
  }

  /** For counts, which are never negative, the largest is at most the total. */
  lemma {:induction false} MaxOr0AtMostSum(s: seq<nat>)
    ensures MaxOr0(s) <= SumNat(s)
    decreases |s|
  {
    if s != [] {
      MaxOr0AtMostSum(s[..|s| - 1]);
    }
  }

  // ---------------------------------------------------------------------------
  // Integer conversions

  /** Python's `int(x)` on a float: truncation toward zero. */
  function Trunc(x: real): (n: int)
    ensures 0.0 <= x ==> 0 <= n && n as real <= x < n as real + 1.0
    ensures x < 0.0 ==> n <= 0 && n as real - 1.0 < x <= n as real
  {
    if x >= 0.0 then x.Floor else -((-x).Floor)
  }

  /** `max(lo, min(hi, x))` */
  function Clamp(lo: int, hi: int, x: int): (r: int)
    requires lo <= hi
    ensures lo <= r <= hi
    ensures lo <= x <= hi ==> r == x
    ensures x < lo ==> r == lo
    ensures hi < x ==> r == hi
  {
    var capped := if hi <= x then hi else x;
    if capped <= lo then lo else capped
  }
}
