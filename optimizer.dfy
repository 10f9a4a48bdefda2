/** The generation loops of the three scripts. egt_so2.py and egt_so3.py run their
    generations unguarded: the first exception ends the script with the strategies it
    had reached. egt_so4.py runs a baseline (whose failure ends the run) and then
    generations whose exceptions are caught and skipped. The simulator's results are
    inputs, one per generation. */
module Optimizer {
  import opened Common
  import opened TripStats
  import opened Evolution
  import opened PhaseWrite
  import opened StepMetrics

  // ---------------------------------------------------------------------------
  // egt_so2.py and egt_so3.py

  /** What a simulation of egt_so2.py or egt_so3.py yields: the trip records, or a
      simulator failure (which raises). */
  datatype Episode = Crashed | Finished(trips: seq<TripRecord>)

  /** Everything a generation reads besides the strategies: the base network, the
      simulation's outcome and the random draws. */
  datatype GenerationInput = GenerationInput(base: seq<TlLogic>, episode: Episode, draws: PerApproach<Draw>)

  /** One script: its update rule, its payoff and its number of generations. */
  datatype Script = Script(variant: Variant, payoff: PayoffModel, generations: nat)

  const So2Script: Script := Script(So2, InverseDelay, 10)

  function So3Script(exp: real -> real): Script
  {
    Script(So3, ExponentialDecay(exp), 20)
  }

  predicate InputsFit(s: Script, inputs: seq<GenerationInput>)
  {
    forall i :: 0 <= i < |inputs| ==> DrawsFit(s.variant, inputs[i].draws)
  }

  /** The mean delays a finished simulation reports per approach. */
  function EpisodeMeans(trips: seq<TripRecord>): PerApproach<real>
  {
    MeanDelays(Attributed(trips, ApproachEdges))
  }

  /** One generation: write the phases, simulate, compute the payoffs and update the
      strategies. None when it raises: the phase write, the simulator or the payoff
      division fails. A generation that completes leaves every green time in range. */
  function Generation(s: Script, green: PerApproach<int>, input: GenerationInput): (r: Option<PerApproach<int>>)
    requires WellFormed(s.variant) && DrawsFit(s.variant, input.draws)
    ensures r.None? <==> WriteFails(input.base) || input.episode.Crashed?
                         || Payoffs(s.payoff, EpisodeMeans(input.episode.trips)).None?
    ensures r.Some? ==> InBounds(r.value)
  {
    if WriteFails(input.base) || input.episode.Crashed? then None
    else
      match Payoffs(s.payoff, EpisodeMeans(input.episode.trips))
      case None => None
      case Some(payoffs) => Some(NextGreen(s.variant, green, payoffs, input.draws))
  }

  /** Where an unguarded run stands: the strategies, the generations completed, and
      whether an exception has ended the script. */
  datatype RunState = RunState(green: PerApproach<int>, completed: nat, aborted: bool)

  function Advance(s: Script, st: RunState, input: GenerationInput): RunState
    requires WellFormed(s.variant) && DrawsFit(s.variant, input.draws)
  {
    if st.aborted then st
    else
      match Generation(s, st.green, input)
      case None => st.(aborted := true)
      case Some(g) => RunState(g, st.completed + 1, false)
  }

  /** The run over the given generations: a run that did not abort completed all of
      them, one that aborted completed fewer. */
  function RunSpec(s: Script, green: PerApproach<int>, inputs: seq<GenerationInput>): (r: RunState)
    requires WellFormed(s.variant) && InputsFit(s, inputs)
    ensures !r.aborted ==> r.completed == |inputs|
    ensures r.aborted ==> r.completed < |inputs|
    decreases |inputs|
  {
    if inputs == [] then RunState(green, 0, false)
    else Advance(s, RunSpec(s, green, inputs[..|inputs| - 1]), inputs[|inputs| - 1])
  }

  /** The generation loop of egt_so2.py (`So2Script`) or egt_so3.py (`So3Script`):
      the strategies object ends in the state of RunSpec, and the number of completed
      generations is returned; fewer than all means the script ended with an exception. */
  method RunOptimizer(s: Script, strategies: Strategies, inputs: seq<GenerationInput>) returns (completed: nat)
    requires WellFormed(s.variant) && InputsFit(s, inputs) && |inputs| == s.generations
    modifies strategies
    ensures RunState(strategies.green, completed, completed < |inputs|) == RunSpec(s, old(strategies.green), inputs)
    ensures InBounds(old(strategies.green)) ==> strategies.Valid()
  {
    ghost var start := strategies.green;
    if InBounds(start) {
      RunKeepsBounds(s, start, inputs);
    }
    completed := 0;
    for i := 0 to |inputs|
      invariant RunSpec(s, start, inputs[..i]) == RunState(strategies.green, completed, false)
    {
      assert inputs[..i + 1][..i] == inputs[..i];
      var input := inputs[i];
      var written := WritePhases(input.base, strategies.green);
      if written.None? || input.episode.Crashed? {
        RunSpecAbortsAfter(s, start, inputs, i);
        return;
      }
      var delays, counts := AttributeTrips(input.episode.trips, ApproachEdges);
      var means := if s.payoff.InverseDelay? then MeanDelays(delays) else StatsMeans(StatsTable(delays, counts));
      StatsMeansAreMeanDelays(delays, counts);
      var payoffs := Payoffs(s.payoff, means);
      if payoffs.None? {
        RunSpecAbortsAfter(s, start, inputs, i);
        return;
      }
      strategies.Evolve(s.variant, payoffs.value, input.draws);
      completed := completed + 1;
    }
    assert inputs[..|inputs|] == inputs;
  }

  /** The `mean` column of egt_so3.py's statistics table. */
  function StatsMeans(stats: PerApproach<DelayStats>): (r: PerApproach<real>)
    ensures forall a :: r.Get(a) == stats.Get(a).mean
  {
    PerApproach(stats.west.mean, stats.south.mean, stats.north.mean, stats.east.mean)
  }

  /** egt_so3.py's counted statistics report the same mean delays as egt_so2.py's
      `sum / len if delays else 0`. */
  lemma StatsMeansAreMeanDelays(delays: PerApproach<seq<real>>, counts: PerApproach<nat>)
    requires forall a :: counts.Get(a) == |delays.Get(a)|
    ensures StatsMeans(StatsTable(delays, counts)) == MeanDelays(delays)
  {
    PerApproachEquality(StatsMeans(StatsTable(delays, counts)), MeanDelays(delays));
  }

  /** When generation `i` raises, the run over the first `i + 1` generations is the
      run over the first `i`, aborted, and nothing after it changes the state. */
  lemma RunSpecAbortsAfter(s: Script, green: PerApproach<int>, inputs: seq<GenerationInput>, i: nat)
    requires WellFormed(s.variant) && InputsFit(s, inputs) && i < |inputs|
    requires !RunSpec(s, green, inputs[..i]).aborted
    requires Generation(s, RunSpec(s, green, inputs[..i]).green, inputs[i]).None?
    ensures RunSpec(s, green, inputs) == RunSpec(s, green, inputs[..i]).(aborted := true)
  {
    var before := RunSpec(s, green, inputs[..i]);
    assert inputs[..i + 1][..i] == inputs[..i];
    assert RunSpec(s, green, inputs[..i + 1]) == before.(aborted := true);
    AbortIsFinal(s, green, inputs, i + 1);
  }

  /** Once a run has aborted, the later generations change nothing. */
  lemma {:induction false} AbortIsFinal(s: Script, green: PerApproach<int>, inputs: seq<GenerationInput>, i: nat)
    requires WellFormed(s.variant) && InputsFit(s, inputs) && i <= |inputs|
    requires RunSpec(s, green, inputs[..i]).aborted
    ensures RunSpec(s, green, inputs) == RunSpec(s, green, inputs[..i])
    decreases |inputs|
  {
    if i < |inputs| {
      var prev := inputs[..|inputs| - 1];
      assert prev[..i] == inputs[..i];
      AbortIsFinal(s, green, prev, i);
    } else {
      assert inputs[..i] == inputs;
    }
  }

  /** Starting in range, the strategies stay in [10, 60] whatever happens. */
  lemma {:induction false} RunKeepsBounds(s: Script, green: PerApproach<int>, inputs: seq<GenerationInput>)
    requires WellFormed(s.variant) && InputsFit(s, inputs)
    requires InBounds(green)
    ensures InBounds(RunSpec(s, green, inputs).green)
    decreases |inputs|
  {
    if inputs != [] {
      RunKeepsBounds(s, green, inputs[..|inputs| - 1]);
    }
  }

  /** egt_so2.py's run, from 30 s of green on every approach, keeps every green time
      within [10, 60]. */
  lemma {:induction false} So2StaysInBounds(inputs: seq<GenerationInput>)
    requires InputsFit(So2Script, inputs)
    ensures InBounds(RunSpec(So2Script, Uniform(InitialGreen), inputs).green)
  {
    RunKeepsBounds(So2Script, Uniform(InitialGreen), inputs);
  }

  /** egt_so3.py's run, from 30 s of green on every approach, keeps every green time
      within [10, 60]. */
  lemma {:induction false} So3StaysInBounds(exp: real -> real, inputs: seq<GenerationInput>)
    requires InputsFit(So3Script(exp), inputs)
    ensures InBounds(RunSpec(So3Script(exp), Uniform(InitialGreen), inputs).green)
  {
    RunKeepsBounds(So3Script(exp), Uniform(InitialGreen), inputs);
  }

  /** A simulator failure in the first generation ends the run at once, with the
      strategies unchanged. */
  lemma FirstCrashAborts(s: Script, green: PerApproach<int>, inputs: seq<GenerationInput>)
    requires WellFormed(s.variant) && InputsFit(s, inputs)
    requires inputs != [] && inputs[0].episode.Crashed?
    ensures RunSpec(s, green, inputs) == RunState(green, 0, true)
  {
    assert inputs[..0] == [];
    RunSpecAbortsAfter(s, green, inputs, 0);
  }

  // ---------------------------------------------------------------------------
  // egt_so4.py

  /** What one simulation of egt_so4.py yields: the valid lanes, the per-step samples
      and the trip records, or a simulator failure. */
  datatype So4Episode = SimulatorFailed | Ran(validLanes: seq<string>, steps: seq<StepSample>, trips: seq<TripRecord>)

  datatype So4Input = So4Input(base: seq<TlLogic>, episode: So4Episode)

  /** Why a generation of egt_so4.py was skipped. `calculate_payoffs` is called but not
      defined in the file, so a generation that gets that far raises NameError. */
  datatype Failure = PhaseWriteFailed | SimulationFailed | PayoffUndefined

  /** The failure of one generation (or of the baseline, which never reaches the
      payoff step). */
  function So4Failure(input: So4Input): (f: Failure)
    ensures f == PhaseWriteFailed <==> WriteFails(input.base)
    ensures f == SimulationFailed <==> !WriteFails(input.base) && input.episode.SimulatorFailed?
  {
    if WriteFails(input.base) then PhaseWriteFailed
    else if input.episode.SimulatorFailed? then SimulationFailed
    else PayoffUndefined
  }

  /** The statistics table an episode that ran reports. */
  function EpisodeStats(e: So4Episode): PerApproach<ApproachStats>
    requires e.Ran?
  {
    SimulationStats(e.validLanes, ApproachEdges, e.steps, e.trips)
  }

  /** The peak statistics of an episode that ran. */
  function EpisodePeak(e: So4Episode): Levels
    requires e.Ran?
  {
    PeakOf(EpisodeStats(e))
  }

  /** `max_metrics` values at least a peak. */
  predicate Covers(delay: real, throughput: int, queue: int, p: Levels)
  {
    delay >= p.delay && throughput >= p.throughput && queue >= p.queue
  }

  /** Values at least every approach's statistic are at least the peak. */
  lemma PeakIsReached(delay: real, throughput: int, queue: int, stats: PerApproach<ApproachStats>)
    requires forall a :: delay >= stats.Get(a).maxDelay && throughput >= stats.Get(a).throughput
                         && queue >= stats.Get(a).maxQueue
    ensures Covers(delay, throughput, queue, PeakOf(stats))
  {
    assert delay >= stats.Get(West).maxDelay && delay >= stats.Get(South).maxDelay;
    assert delay >= stats.Get(North).maxDelay && delay >= stats.Get(East).maxDelay;
  }

  /** One attempt: write the phases, then simulate, which raises `max_metrics`. */
  method Attempt(input: So4Input, green: PerApproach<int>, observed: MaxMetrics) returns (ran: bool, ghost peak: Option<Levels>)
    modifies observed
    ensures ran <==> Simulated(input)
    ensures peak == if ran then Some(EpisodePeak(input.episode)) else None
    ensures observed.Current() == LiftBy(old(observed.Current()), peak)
    ensures peak.Some? ==> Covers(observed.delay, observed.throughput, observed.queue, peak.value)
    ensures !ran ==> observed.delay == old(observed.delay) && observed.throughput == old(observed.throughput)
                     && observed.queue == old(observed.queue)
    ensures observed.delay >= old(observed.delay) && observed.throughput >= old(observed.throughput)
    ensures observed.queue >= old(observed.queue)
    ensures ran ==> Covers(observed.delay, observed.throughput, observed.queue, EpisodePeak(input.episode))
  {
    var written := WritePhases(input.base, green);
    if written.None? || input.episode.SimulatorFailed? {
      return false, None;
    }
    var e := input.episode;
    var stats := RunSimulation(e.validLanes, ApproachEdges, e.steps, e.trips, observed);
    PeakIsReached(observed.delay, observed.throughput, observed.queue, stats);
    return true, Some(PeakOf(stats));
  }

  /** `max_metrics` after an attempt with the given peak; an attempt that did not
      simulate (None) leaves it as it was. */
  function LiftBy(l: Levels, p: Option<Levels>): Levels
  {
    if p.Some? then Lift(l, p.value) else l
  }

  /** `max_metrics` after attempts with the given peaks, in order. */
  function LiftAll(l: Levels, peaks: seq<Option<Levels>>): Levels
    decreases |peaks|
  {
    if peaks == [] then l else LiftBy(LiftAll(l, peaks[..|peaks| - 1]), peaks[|peaks| - 1])
  }

  /** One more attempt raises the entries with its peak. */
  lemma LiftAllStep(l: Levels, peaks: seq<Option<Levels>>, i: nat)
    requires i < |peaks|
    ensures LiftAll(l, peaks[..i + 1]) == LiftBy(LiftAll(l, peaks[..i]), peaks[i])
  {
    assert peaks[..i + 1][..i] == peaks[..i];
  }

  /** After a series of attempts every entry is at least where it started and at least
      the peak of every attempt that simulated. */
  lemma {:induction false} LiftAllCovers(l: Levels, peaks: seq<Option<Levels>>)
    ensures LiftAll(l, peaks).delay >= l.delay && LiftAll(l, peaks).throughput >= l.throughput
    ensures LiftAll(l, peaks).queue >= l.queue
    ensures forall j :: 0 <= j < |peaks| && peaks[j].Some? ==>
              Covers(LiftAll(l, peaks).delay, LiftAll(l, peaks).throughput, LiftAll(l, peaks).queue, peaks[j].value)
    decreases |peaks|
  {
    if peaks != [] {
      var prev := peaks[..|peaks| - 1];
      LiftAllCovers(l, prev);
      assert forall j :: 0 <= j < |prev| ==> peaks[j] == prev[j];
    }
  }

  /** Peaks that the starting entries already cover change nothing: with every
      statistic below 100 s of delay, 1000 vehicles and 20 halting vehicles,
      `max_metrics` keeps its initial values. */
  lemma {:induction false} CoveredPeaksChangeNothing(l: Levels, peaks: seq<Option<Levels>>)
    requires forall j :: 0 <= j < |peaks| && peaks[j].Some? ==> Covers(l.delay, l.throughput, l.queue, peaks[j].value)
    ensures LiftAll(l, peaks) == l
    decreases |peaks|
  {
    if peaks != [] {
      var prev := peaks[..|peaks| - 1];
      assert forall j :: 0 <= j < |prev| ==> prev[j] == peaks[j];
      CoveredPeaksChangeNothing(l, prev);
    }
  }

  /** Each entry ends either where it started or at the peak of some attempt that
      simulated: `max_metrics` holds only values that were observed. */
  lemma {:induction false} LiftAllObserved(l: Levels, peaks: seq<Option<Levels>>)
    ensures LiftAll(l, peaks).delay == l.delay
            || exists j :: 0 <= j < |peaks| && peaks[j].Some? && LiftAll(l, peaks).delay == peaks[j].value.delay
    ensures LiftAll(l, peaks).throughput == l.throughput
            || exists j :: 0 <= j < |peaks| && peaks[j].Some? && LiftAll(l, peaks).throughput == peaks[j].value.throughput
    ensures LiftAll(l, peaks).queue == l.queue
            || exists j :: 0 <= j < |peaks| && peaks[j].Some? && LiftAll(l, peaks).queue == peaks[j].value.queue
    decreases |peaks|
  {
    if peaks != [] {
      var prev := peaks[..|peaks| - 1];
      LiftAllObserved(l, prev);
      assert forall j :: 0 <= j < |prev| ==> prev[j] == peaks[j];
    }
  }

  /** The peak statistics of each generation, None for one that did not simulate. */
  function Peaks(generations: seq<So4Input>): (r: seq<Option<Levels>>)
    ensures |r| == |generations|
    decreases |generations|
  {
    if generations == [] then []
    else
      var last := generations[|generations| - 1];
      Peaks(generations[..|generations| - 1]) + [if Simulated(last) then Some(EpisodePeak(last.episode)) else None]
  }

  /** Entry `i` of Peaks is the peak of generation `i` when it simulated. */
  lemma {:induction false} PeaksAt(generations: seq<So4Input>, i: nat)
    requires i < |generations|
    ensures Peaks(generations)[i] == if Simulated(generations[i]) then Some(EpisodePeak(generations[i].episode)) else None
    decreases |generations|
  {
    if i < |generations| - 1 {
      PeaksAt(generations[..|generations| - 1], i);
    }
  }

  /** The generation loop of egt_so4.py: every generation is attempted and skipped
      with its failure (at the latest the NameError of the payoff step); `max_metrics`
      never decreases and ends at least as high as the peak statistics of every
      generation that simulated (`expected` is the sequence of those peaks). */
  method RunGenerations(green: PerApproach<int>, observed: MaxMetrics, generations: seq<So4Input>,
                        ghost expected: seq<Option<Levels>>)
    returns (skipped: seq<Failure>)
    requires expected == Peaks(generations)
    modifies observed
    ensures |skipped| == |generations|
    ensures forall i :: 0 <= i < |generations| ==> skipped[i] == So4Failure(generations[i])
    ensures observed.Current() == LiftAll(old(observed.Current()), expected)
    ensures observed.delay >= old(observed.delay) && observed.throughput >= old(observed.throughput)
    ensures observed.queue >= old(observed.queue)
    ensures forall j :: 0 <= j < |expected| && expected[j].Some? ==>
              Covers(observed.delay, observed.throughput, observed.queue, expected[j].value)
  {
    ghost var start := observed.Current();
    skipped := [];
    for i := 0 to |generations|
      invariant |skipped| == i
      invariant forall j :: 0 <= j < i ==> skipped[j] == So4Failure(generations[j])
      invariant observed.Current() == LiftAll(start, expected[..i])
    {
      var generationRan, peak := Attempt(generations[i], green, observed);
      skipped := skipped + [if generationRan then PayoffUndefined else So4Failure(generations[i])];
      PeaksAt(generations, i);
      LiftAllStep(start, expected, i);
    }
    assert expected[..|generations|] == expected;
    LiftAllCovers(start, expected);
  }

  /** The baseline and generation loop of egt_so4.py. A baseline that fails ends the
      run with no generation attempted: a failing simulation is caught and the script
      exits with status 1, while a failing phase write happens before the `try` and
      escapes as an uncaught IndexError; both stop the script at the same point.
      Otherwise the generation loop runs. The strategies never change, and
      `max_metrics` ends as the baseline's and then every simulated generation's peak
      raised it, in order. */
  method RunSo4(strategies: Strategies, observed: MaxMetrics, baseline: So4Input, generations: seq<So4Input>)
    returns (baselineFailure: Option<Failure>, skipped: seq<Failure>)
    modifies observed
    ensures baselineFailure.None? <==> Simulated(baseline)
    ensures baselineFailure.Some? ==> baselineFailure.value == So4Failure(baseline) && skipped == []
    ensures baselineFailure.None? ==> |skipped| == |generations|
    ensures baselineFailure.None? ==> forall i :: 0 <= i < |generations| ==> skipped[i] == So4Failure(generations[i])
    ensures strategies.green == old(strategies.green)
    ensures baselineFailure.Some? ==> observed.Current() == old(observed.Current())
    ensures baselineFailure.None? ==>
              observed.Current() == LiftAll(Lift(old(observed.Current()), EpisodePeak(baseline.episode)), Peaks(generations))
    ensures observed.delay >= old(observed.delay) && observed.throughput >= old(observed.throughput)
    ensures observed.queue >= old(observed.queue)
    ensures baselineFailure.None? ==> Covers(observed.delay, observed.throughput, observed.queue, EpisodePeak(baseline.episode))
    ensures baselineFailure.None? ==> forall p :: p in Peaks(generations) && p.Some? ==>
              Covers(observed.delay, observed.throughput, observed.queue, p.value)
  {
    var ran, peak := Attempt(baseline, strategies.green, observed);
    if !ran {
      return Some(So4Failure(baseline)), [];
    }
    skipped := RunGenerations(strategies.green, observed, generations, Peaks(generations));
    baselineFailure := None;
  }

  /** A generation that gets past the phase write and the simulation. */
  predicate Simulated(input: So4Input)
  {
    !WriteFails(input.base) && input.episode.Ran?
  }
}
