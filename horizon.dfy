/** The rolling-horizon controller: how many control periods it runs, how a
    decision vector from the optimiser is quantised before it is written
    back to the simulator configuration, and the sequence of committed
    decisions. The simulator runs and the optimiser are a parameter: the
    plan that maps the decisions committed so far to the next optimiser
    output. */
module Horizon {
  import opened Wrappers

  /** Model-predictive-control parameters: horizon length, resampling ratio,
      control step in minutes and number of controlled devices. */
  datatype ControlParameters = ControlParameters(
    horizonSteps: int,
    resampleRatio: int,
    controlStepMinutes: int,
    deviceCount: int)

  /** The parameters the controller is run with. */
  const DefaultParameters := ControlParameters(120, 10, 10, 5)

  /** Gate opening (m) that maps to the full setting 1.0. */
  const DeviceScale: real := 4.5

  function Abs(x: int): nat
  {
    if x < 0 then -x else x
  }

  /** Java's integer division, which truncates toward zero. */
  function JavaDiv(a: int, b: int): (q: int)
    requires b != 0
    ensures Abs(q) == Abs(a) / Abs(b)
    ensures q > 0 ==> (a < 0) == (b < 0)
    ensures q < 0 ==> (a < 0) != (b < 0)
    ensures a >= 0 && b > 0 ==> q == a / b
  {
    var x, y := Abs(a), Abs(b);
    QuotientOfNaturals(x, y);
    var m := x / y;
    if (a < 0) == (b < 0) then m else -m
  }

  lemma QuotientOfNaturals(x: int, y: int)
    requires x >= 0 && y > 0
    ensures x / y >= 0
  {
  }

  /** Number of resampled steps in one prediction horizon: for positive
      parameters, the whole number of resampling ratios that fit into the
      horizon, exact when the ratio divides the horizon. */
  function PredictionSteps(p: ControlParameters): (n: int)
    requires p.resampleRatio != 0
    ensures p.horizonSteps >= 0 && p.resampleRatio > 0 ==>
              0 <= n && n * p.resampleRatio <= p.horizonSteps < (n + 1) * p.resampleRatio
    ensures p.horizonSteps >= 0 && p.resampleRatio > 0 && p.horizonSteps % p.resampleRatio == 0 ==>
              n * p.resampleRatio == p.horizonSteps
  {
    JavaDiv(p.horizonSteps, p.resampleRatio)
  }

  /** Number of passes of the control loop over `timeMarkers` markers: the
      loop index runs from 0 while it is below the marker count minus the
      prediction steps. */
  function IterationCount(timeMarkers: nat, p: ControlParameters): (n: nat)
    requires p.resampleRatio != 0
    ensures n + PredictionSteps(p) >= timeMarkers
    ensures n > 0 ==> n + PredictionSteps(p) == timeMarkers
  {
    if timeMarkers - PredictionSteps(p) > 0 then timeMarkers - PredictionSteps(p) else 0
  }

  /** With the default parameters the loop runs T - 12 times, and not at
      all for 12 markers or fewer. */
  lemma DefaultIterationCount(timeMarkers: nat)
    ensures PredictionSteps(DefaultParameters) == 12
    ensures IterationCount(timeMarkers, DefaultParameters) == if timeMarkers > 12 then timeMarkers - 12 else 0
  {
  }

  // ---------------------------------------------------------------------
  // Quantisation
  // ---------------------------------------------------------------------

  /** `q` in hundredths, rounded half-up: to the nearest integer, ties away
      from zero. */
  function HalfUpHundredths(q: real): (n: int)
    ensures q >= 0.0 ==> n as real - 0.5 <= 100.0 * q < n as real + 0.5
    ensures q < 0.0 ==> n as real - 0.5 < 100.0 * q <= n as real + 0.5
  {
    if q >= 0.0 then (100.0 * q + 0.5).Floor else -(-100.0 * q + 0.5).Floor
  }

  /** `q` rounded half-up to two decimals: a whole number of hundredths
      within half a hundredth of `q`, and still in [0, 1] when `q` is. */
  function RoundToCents(q: real): (r: real)
    ensures (100.0 * r).Floor as real == 100.0 * r
    ensures -0.005 <= r - q <= 0.005
    ensures 0.0 <= q <= 1.0 ==> 0.0 <= r <= 1.0
  {
    HalfUpHundredths(q) as real / 100.0
  }

  /** One committed setting: the optimiser's opening over the device scale,
      rounded half-up to two decimals. Openings within the device range
      give settings in [0, 1]. */
  function Quantised(x: real): (r: real)
    ensures (100.0 * r).Floor as real == 100.0 * r
    ensures -0.005 <= r - x / DeviceScale <= 0.005
    ensures 0.0 <= x <= DeviceScale ==> 0.0 <= r <= 1.0
  {
    RoundToCents(x / DeviceScale)
  }

  /** Every setting of a decision vector quantised. */
  function QuantiseAll(s: seq<real>): (r: seq<real>)
  {
    seq(|s|, j requires 0 <= j < |s| => Quantised(s[j]))
  }

  /** The quantisation loop: fills a new array of the same length with the
      quantised settings. */
  method Quantise(output: array<real>) returns (result: array<real>)
    ensures fresh(result)
    ensures result.Length == output.Length
    ensures forall j :: 0 <= j < output.Length ==> result[j] == Quantised(output[j])
  {
    result := new real[output.Length];
    var j := 0;
    while j < output.Length
      invariant 0 <= j <= output.Length
      invariant result != output
      invariant forall k :: 0 <= k < j ==> result[k] == Quantised(output[k])
    {
      result[j] := Quantised(output[j]);
      j := j + 1;
    }
  }

  // ---------------------------------------------------------------------
  // The control loop
  // ---------------------------------------------------------------------

  /** The optimiser as seen by the controller: given the decisions committed
      in earlier periods (which fix the simulator's state), the decision
      vector it returns for the next period, or None when the period's
      simulator run, optimiser call or file rewriting throws. */
  type Plan = seq<seq<real>> -> Option<seq<real>>

  /** The decisions committed in the first `n` periods: each period commits
      the quantised answer of the plan, and the first failing period ends
      the run with what was committed before it. */
  function Committed(n: nat, plan: Plan): (d: seq<seq<real>>)
    ensures |d| <= n
    ensures |d| < n ==> plan(d).None?
  {
    if n == 0 then []
    else
      var earlier := Committed(n - 1, plan);
      if |earlier| < n - 1 then earlier
      else match plan(earlier)
        case None => earlier
        case Some(output) => earlier + [QuantiseAll(output)]
  }

  /** Every committed period got an answer from the plan for the decisions
      before it and committed that answer quantised; later periods never
      revise earlier ones. */
  lemma {:induction false} CommittedStep(n: nat, plan: Plan, k: nat)
    requires k < |Committed(n, plan)|
    ensures Committed(n, plan)[..k] == Committed(k, plan)
    ensures plan(Committed(k, plan)).Some?
    ensures Committed(n, plan)[k] == QuantiseAll(plan(Committed(k, plan)).value)
  {
    var d := Committed(n, plan);
    var earlier := Committed(n - 1, plan);
    if k < |earlier| {
      CommittedStep(n - 1, plan, k);
      assert d[..k] == earlier[..k];
    } else {
      assert |earlier| == n - 1 == k;
      CommittedPrefixLength(n - 1, plan);
    }
  }

  /** A run that has committed all of its first `n` periods is the run of
      `n` periods. */
  lemma {:induction false} CommittedPrefixLength(n: nat, plan: Plan)
    requires |Committed(n, plan)| == n
    ensures forall m: nat :: m <= n ==> |Committed(m, plan)| == m
  {
    if n > 0 {
      CommittedPrefixLength(n - 1, plan);
    }
  }

  /** Once a period fails, no later period commits anything. */
  lemma {:induction false} CommittedAfterFailure(i: nat, m: nat, plan: Plan)
    requires i <= m
    requires |Committed(i, plan)| == i && plan(Committed(i, plan)).None?
    ensures Committed(m, plan) == Committed(i, plan)
  {
    if m > i {
      CommittedAfterFailure(i, m - 1, plan);
    }
  }

  /** When no call fails, the run commits every one of its periods. */
  lemma CommittedWithoutFailure(n: nat, plan: Plan)
    requires forall h :: plan(h).Some?
    ensures |Committed(n, plan)| == n
  {
  }

  /** The rolling-horizon loop of the controller with the simulator, the
      optimiser and the configuration files abstracted into `plan`: at most
      `IterationCount` periods, i = 0, 1, ..., each committing the quantised
      decision computed from the decisions committed before it; an exception
      ends the loop after the periods already committed, and without one
      every period is committed. */
  method RunControlLoop(timeMarkers: nat, p: ControlParameters, plan: Plan) returns (decisions: seq<seq<real>>)
    requires p.resampleRatio != 0
    ensures decisions == Committed(IterationCount(timeMarkers, p), plan)
    ensures |decisions| <= IterationCount(timeMarkers, p)
    ensures |decisions| < IterationCount(timeMarkers, p) ==> plan(decisions).None?
    ensures (forall h :: plan(h).Some?) ==> |decisions| == IterationCount(timeMarkers, p)
    ensures forall k :: 0 <= k < |decisions| ==>
              plan(decisions[..k]).Some?
              && |decisions[k]| == |plan(decisions[..k]).value|
              && forall j :: 0 <= j < |decisions[k]| ==> decisions[k][j] == Quantised(plan(decisions[..k]).value[j])
  {
    var predictionStep := PredictionSteps(p);
    decisions := [];
    var i := 0;
    while i < timeMarkers - predictionStep
      invariant 0 <= i <= IterationCount(timeMarkers, p)
      invariant |decisions| == i && decisions == Committed(i, plan)
    {
      var next := plan(decisions);
      if next.None? {
        CommittedAfterFailure(i, IterationCount(timeMarkers, p), plan);
        CommittedSteps(decisions, IterationCount(timeMarkers, p), plan);
        return;
      }
      var output := next.value;
      var outputArray := new real[|output|](j requires 0 <= j < |output| => output[j]);
      var result := Quantise(outputArray);
      assert result[..] == QuantiseAll(output);
      decisions := decisions + [result[..]];
      i := i + 1;
    }
    CommittedSteps(decisions, IterationCount(timeMarkers, p), plan);
  }

  /** Every committed decision is the quantised plan for its prefix. */
  lemma CommittedSteps(decisions: seq<seq<real>>, n: nat, plan: Plan)
    requires decisions == Committed(n, plan)
    ensures forall k :: 0 <= k < |decisions| ==>
              plan(decisions[..k]).Some?
              && decisions[k] == QuantiseAll(plan(decisions[..k]).value)
  {
    forall k | 0 <= k < |decisions|
      ensures plan(decisions[..k]).Some? && decisions[k] == QuantiseAll(plan(decisions[..k]).value)
    {
      CommittedStep(n, plan, k);
    }
  }
}
