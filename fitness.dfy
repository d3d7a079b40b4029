/** The application logic around the evolutionary optimisers: the length and
    bounds of a decision vector, and how a candidate is scored from the
    hydraulic simulation in the multi-objective search (three flood
    objectives, all minimised) and in the single-objective search (one
    objective chosen by the risk priority). The simulation itself is a
    parameter that returns the objective array or throws. */
module Fitness {
  import opened Wrappers
  import Horizon
  import Priority

  /** The outcome of one simulator fitness call for a candidate. */
  datatype SimOutcome = Returned(objectives: seq<real>) | Threw

  /** The simulator fitness call, with the curve data, parameters and
      baseline series of the current period fixed. */
  type Simulator = seq<real> -> SimOutcome

  /** Number of objectives of the multi-objective search. */
  const ObjectiveCount: nat := 3

  /** Which of the two optimisers. */
  datatype Optimizer = MultiObjective | SingleObjective

  // ---------------------------------------------------------------------
  // Decision vectors
  // ---------------------------------------------------------------------

  /** Length of a decision vector: devices times horizon steps, divided by
      the resampling ratio with Java's integer division. */
  function DecisionLength(p: Horizon.ControlParameters): (n: int)
    requires p.resampleRatio != 0
    ensures p.deviceCount >= 0 && p.horizonSteps >= 0 && p.resampleRatio > 0 ==>
              0 <= n && n * p.resampleRatio <= p.deviceCount * p.horizonSteps < (n + 1) * p.resampleRatio
  {
    Horizon.JavaDiv(p.deviceCount * p.horizonSteps, p.resampleRatio)
  }

  /** With the default parameters a decision vector has 60 settings. */
  lemma DefaultDecisionLength()
    ensures DecisionLength(Horizon.DefaultParameters) == 60
  {
  }

  /** When the horizon is a whole number of resampled steps, a decision
      vector holds one setting per device and prediction step. */
  lemma DecisionLengthPerDevice(p: Horizon.ControlParameters)
    requires p.resampleRatio > 0 && p.horizonSteps >= 0 && p.deviceCount >= 0
    requires p.horizonSteps % p.resampleRatio == 0
    ensures DecisionLength(p) == p.deviceCount * Horizon.PredictionSteps(p)
  {
    var k := p.horizonSteps / p.resampleRatio;
    assert p.horizonSteps == k * p.resampleRatio;
    assert p.deviceCount * p.horizonSteps == (p.deviceCount * k) * p.resampleRatio;
    MultipleDivides(p.deviceCount * k, p.resampleRatio);
  }

  lemma MultipleDivides(m: int, r: int)
    requires r > 0
    ensures (m * r) / r == m
  {
    var d, rem := (m * r) / r, (m * r) % r;
    assert (m - d) * r == rem;
    ProductBounds(m - d, r);
  }

  lemma ProductBounds(k: int, r: int)
    requires r > 0
    ensures k >= 1 ==> k * r >= r
    ensures k <= -1 ==> k * r <= -r
  {
  }

  /** Lower bound of every gene: 0.0 for the multi-objective search, 0.1
      for the single-objective one. */
  function LowerBound(opt: Optimizer): (lo: real)
    ensures 0.0 <= lo < UpperBound
    ensures lo > 0.0 <==> opt == SingleObjective
  {
    match opt
    case MultiObjective => 0.0
    case SingleObjective => 0.1
  }

  /** Upper bound of every gene, for both searches. */
  const UpperBound: real := 4.5

  /** The candidates an optimiser's codec produces: vectors of the decision
      length whose genes all lie in the device range. */
  predicate InCodecDomain(opt: Optimizer, p: Horizon.ControlParameters, x: seq<real>)
    requires p.resampleRatio != 0
    ensures InCodecDomain(opt, p, x) ==> forall j :: 0 <= j < |x| ==> 0.0 <= x[j] <= Horizon.DeviceScale
  {
    && |x| == DecisionLength(p)
    && forall j :: 0 <= j < |x| ==> LowerBound(opt) <= x[j] <= UpperBound
  }

  /** Every single-objective candidate is also a multi-objective candidate,
      and the converse fails for any setting below 0.1. */
  lemma SingleObjectiveDomainWithinMulti(p: Horizon.ControlParameters, x: seq<real>)
    requires p.resampleRatio != 0
    ensures InCodecDomain(SingleObjective, p, x) ==> InCodecDomain(MultiObjective, p, x)
    ensures (exists j :: 0 <= j < |x| && x[j] < 0.1) ==> !InCodecDomain(SingleObjective, p, x)
  {
  }

  /** The upper gene bound equals the device scale, so every codec
      candidate quantises to settings in [0, 1], and a single-objective
      candidate to at least 0.02. */
  lemma CodecDecisionsQuantiseToUnitInterval(opt: Optimizer, p: Horizon.ControlParameters, x: seq<real>)
    requires p.resampleRatio != 0
    requires InCodecDomain(opt, p, x)
    ensures |Horizon.QuantiseAll(x)| == |x|
    ensures forall j :: 0 <= j < |x| ==> 0.0 <= Horizon.QuantiseAll(x)[j] <= 1.0
    ensures opt == SingleObjective ==> forall j :: 0 <= j < |x| ==> 0.02 <= Horizon.QuantiseAll(x)[j]
  {
    forall j | 0 <= j < |x|
      ensures 0.0 <= Horizon.QuantiseAll(x)[j] <= 1.0
      ensures opt == SingleObjective ==> 0.02 <= Horizon.QuantiseAll(x)[j]
    {
      var q := x[j] / Horizon.DeviceScale;
      var n := Horizon.HalfUpHundredths(q);
      assert Horizon.QuantiseAll(x)[j] == n as real / 100.0;
      if opt == SingleObjective {
        assert q >= 0.1 / 4.5;
        assert n as real + 0.5 > 2.0;
      }
    }
  }

  // ---------------------------------------------------------------------
  // Multi-objective fitness
  // ---------------------------------------------------------------------

  /** The objective vector a candidate keeps when the simulator throws: the
      freshly allocated array of three zeros. */
  const Unscored: seq<real> := [0.0, 0.0, 0.0]

  /** Fitness of the multi-objective search: the first three objectives the
      simulator returns, or zeros when it throws. A result shorter than
      three is indexed outside the exception handler, so that exception
      escapes the fitness function (None). */
  function MoeaFitness(sim: Simulator, x: seq<real>): (v: Option<seq<real>>)
    ensures v.Some? ==> |v.value| == ObjectiveCount
    ensures sim(x).Threw? ==> v == Some(Unscored)
    ensures sim(x).Returned? ==>
              (v.None? <==> |sim(x).objectives| < ObjectiveCount)
              && (v.Some? ==> v.value == sim(x).objectives[..ObjectiveCount])
  {
    var ss := if sim(x).Returned? then sim(x).objectives else Unscored;
    if |ss| < ObjectiveCount then None else Some([ss[0], ss[1], ss[2]])
  }

  /** Pareto dominance for three minimised objectives. */
  predicate Dominates(a: seq<real>, b: seq<real>)
    requires |a| == ObjectiveCount && |b| == ObjectiveCount
  {
    && (forall j :: 0 <= j < ObjectiveCount ==> a[j] <= b[j])
    && (exists j :: 0 <= j < ObjectiveCount && a[j] < b[j])
  }

  /** The score a failed simulation receives is the best possible one: no
      non-negative objective vector dominates it, and it dominates every
      other non-negative objective vector. */
  lemma FailedCandidateIsParetoBest(v: seq<real>)
    requires |v| == ObjectiveCount
    requires forall j :: 0 <= j < ObjectiveCount ==> v[j] >= 0.0
    ensures !Dominates(v, Unscored)
    ensures v != Unscored ==> Dominates(Unscored, v)
  {
    assert v == [v[0], v[1], v[2]];
    if v != Unscored {
      var j: nat := if v[0] != 0.0 then 0 else if v[1] != 0.0 then 1 else 2;
      assert Unscored[j] < v[j];
    }
  }

  // ---------------------------------------------------------------------
  // Single-objective fitness
  // ---------------------------------------------------------------------

  /** The objective the single-objective search minimises for a priority:
      the first for priority 1, the second for 2, the third otherwise. */
  function ObjectiveIndex(priority: int): (k: nat)
    ensures k < ObjectiveCount
    ensures k == 0 <==> priority == 1
    ensures k == 1 <==> priority == 2
  {
    if priority == 1 then 0 else if priority == 2 then 1 else 2
  }

  /** Fitness of the single-objective search: the objective chosen by the
      priority, or None (the source's null) when the simulator throws or
      returns too few objectives, both caught by the handler. */
  function GaFitness(sim: Simulator, priority: int, x: seq<real>): (f: Option<real>)
    ensures f.None? <==> sim(x).Threw? || |sim(x).objectives| <= ObjectiveIndex(priority)
    ensures f.Some? ==> f.value == sim(x).objectives[ObjectiveIndex(priority)]
  {
    match sim(x)
    case Threw => None
    case Returned(ss) =>
      if priority == 1 then (if |ss| > 0 then Some(ss[0]) else None)
      else if priority == 2 then (if |ss| > 1 then Some(ss[1]) else None)
      else (if |ss| > 2 then Some(ss[2]) else None)
  }

  /** The two searches score a successful simulation consistently: the
      single-objective fitness is the component of the multi-objective one
      that the priority selects. They part ways on a failed simulation:
      the multi-objective search scores it as zeros, the single-objective
      one as null. */
  lemma SingleAndMultiAgree(sim: Simulator, priority: int, x: seq<real>)
    ensures sim(x).Returned? && |sim(x).objectives| >= ObjectiveCount ==>
              MoeaFitness(sim, x).Some?
              && GaFitness(sim, priority, x) == Some(MoeaFitness(sim, x).value[ObjectiveIndex(priority)])
    ensures sim(x).Threw? ==>
              GaFitness(sim, priority, x).None? && MoeaFitness(sim, x) == Some(Unscored)
  {
  }

  /** A priority computed by the classifier selects the objective of the
      sub-basin it names. */
  lemma ClassifiedPriorityObjective(o: Priority.Observations)
    ensures Priority.ClassifyPriority(o).Some? ==>
              ObjectiveIndex(Priority.ClassifyPriority(o).value) == Priority.ClassifyPriority(o).value - 1
  {
  }
}
