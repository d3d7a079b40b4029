/** The risk-priority classifier of the Jingdian Lake (JDH) / Qinting Lake
    (QTH) flood-control network. Three tributaries compete for storage:
    sub-basin 1 is the Jiefang stream (gauge JFX_1480) and sub-basin 2 the
    Yangting stream (gauge YTX_x3), both draining into JDH; sub-basin 3 is
    the inflow of Qinting Lake itself. The classifier scores each sub-basin
    on storage pressure, lead time and downstream resilience and returns the
    label (1, 2 or 3) of the sub-basin whose objective the single-objective
    optimiser minimises. */
module Priority {
  import opened Wrappers
  import opened Series

  /** Safety levels (m) above which a reservoir counts as stressed. */
  const JdhThreshold: real := 12.5
  const QthThreshold: real := 5.5
  /** Empirical resilience constants of the two reservoirs. */
  const JdhResilience: real := 223.24
  const QthResilience: real := 2842.77
  /** Rated storage volumes (m3) of the two reservoirs. */
  const JdhRatedVolume: real := 96852.0
  const QthRatedVolume: real := 569015.25
  /** Stand-in for an exhausted remaining capacity. */
  const CapacityFloor: real := 0.00001
  /** Lead time used when the peak is at the first report step. */
  const MinimalLeadTime: real := 0.01
  /** Fixed weights of the three indicators. */
  const StorageWeight: real := 0.135
  const LeadWeight: real := 0.146
  const RiskWeight: real := 0.719

  /** The seven simulated series the classifier reads: heads of both
      reservoirs, total inflows of the three gauges, and the volumes of
      both reservoirs (only their first value is used). */
  datatype Observations = Observations(
    jdhHead: seq<real>,
    qthHead: seq<real>,
    jfxInflow: seq<real>,
    ytxInflow: seq<real>,
    qthInflow: seq<real>,
    jdhVolume: seq<real>,
    qthVolume: seq<real>)

  /** One value per sub-basin: Jiefang stream, Yangting stream, Qinting Lake. */
  datatype Triple = Triple(jfx: real, ytx: real, qth: real)

  // ---------------------------------------------------------------------
  // Resilience and lead time
  // ---------------------------------------------------------------------

  /** The resilience of a reservoir whose safety level is `r`: its constant
      once the level series exceeds `r`, otherwise 0. Only the two known
      safety levels have a constant; the maximum is only taken for them. */
  function Resilience(level: seq<real>, r: real): (res: real)
    requires r == JdhThreshold || r == QthThreshold ==> |level| > 0
    ensures res == JdhResilience <==> r == JdhThreshold && Max(level) > r
    ensures res == QthResilience <==> r == QthThreshold && Max(level) > r
    ensures res == 0.0 <==> !((r == JdhThreshold || r == QthThreshold) && Max(level) > r)
  {
    if r == JdhThreshold then
      (if Max(level) > r then JdhResilience else 0.0)
    else if r == QthThreshold then
      (if Max(level) > r then QthResilience else 0.0)
    else 0.0
  }

  /** Time to peak of a series in minutes: five times the last step at which
      the maximum occurs, or the minimal lead time when that step is the
      first one. It is positive, so it can always be divided by. */
  function LeadTime(s: seq<real>): (t: real)
    requires |s| > 0
    ensures t >= MinimalLeadTime
  {
    var k := LastMaxIndex(s);
    if k == 0 then MinimalLeadTime else (k * 5) as real
  }

  /** The minimal lead time is used exactly when every later value stays
      strictly below the first; otherwise the lead time is five minutes per
      step up to the last occurrence of the peak. */
  lemma LeadTimeOfPeak(s: seq<real>)
    requires |s| > 0
    ensures LeadTime(s) == MinimalLeadTime <==> forall j :: 0 < j < |s| ==> s[j] < s[0]
    ensures LeadTime(s) != MinimalLeadTime ==>
              var k := LeadTime(s) / 5.0;
              exists i :: 0 < i < |s| && i as real == k && s[i] == Max(s)
                && forall j :: i < j < |s| ==> s[j] < s[i]
  {
    var k := LastMaxIndex(s);
    assert s[0] <= Max(s);
    if !forall j :: 0 < j < |s| ==> s[j] < s[0] {
      var j :| 0 < j < |s| && s[j] >= s[0];
      assert s[j] <= s[k];
    }
    if k != 0 {
      assert (k * 5) as real / 5.0 == k as real;
    }
  }

  /** The scan of `calculateTime`: a loop that keeps overwriting `index`
      with every position that holds the maximum. */
  method CalculateTime(flow: array<real>) returns (t: real)
    requires flow.Length > 0
    ensures t == LeadTime(flow[..])
  {
    var max := Max(flow[..]);
    var index := 0;
    var i := 0;
    while i < flow.Length
      invariant 0 <= i <= flow.Length
      invariant index == if LastIndex(flow[..i], max) < 0 then 0 else LastIndex(flow[..i], max)
    {
      assert flow[..i + 1][..i] == flow[..i];
      if max == flow[i] {
        index := i;
      }
      i := i + 1;
    }
    assert flow[..flow.Length] == flow[..];
    if index == 0 {
      t := MinimalLeadTime;
    } else {
      t := (index * 5) as real;
    }
  }

  // ---------------------------------------------------------------------
  // Storage pressure
  // ---------------------------------------------------------------------

  /** Remaining capacity as the source computes it: the rated volume minus
      the initial volume, replaced by the floor only when strictly negative.
      An exactly full reservoir keeps capacity 0. */
  function RemainingCapacityAsWritten(rated: real, initial: real): (c: real)
    ensures c >= 0.0
    ensures rated - initial >= 0.0 ==> c == rated - initial
    ensures rated - initial < 0.0 ==> c == CapacityFloor
  {
    var c := rated - initial;
    if c < 0.0 then CapacityFloor else c
  }

  /** The as-written clamp lets a zero divisor through: a JDH reservoir
      that is exactly full leaves capacity 0 for the storage ratios. */
  lemma AsWrittenCapacityCanBeZero()
    ensures RemainingCapacityAsWritten(JdhRatedVolume, 96852.0) == 0.0
    ensures RemainingCapacityAsWritten(QthRatedVolume, 569015.25) == 0.0
  {
  }

  /** Remaining capacity with the clamp at or below zero, so that the
      storage ratios always divide by a positive capacity: the true free
      capacity whenever there is some, else the floor. */
  function RemainingCapacity(rated: real, initial: real): (c: real)
    ensures c > 0.0
    ensures rated - initial > 0.0 ==> c == rated - initial
    ensures rated - initial <= 0.0 ==> c == CapacityFloor
  {
    var c := rated - initial;
    if c <= 0.0 then CapacityFloor else c
  }

  /** The corrected clamp differs from the written one only for an exactly
      full reservoir. */
  lemma CapacityFixOnlyAtZero(rated: real, initial: real)
    ensures RemainingCapacity(rated, initial) == RemainingCapacityAsWritten(rated, initial)
            <==> rated != initial
  {
  }

  /** Flood volume (m3) carried by an inflow series of 5-minute means:
      non-negative for non-negative inflows, and additive over consecutive
      stretches of the series. */
  function FloodVolume(inflow: seq<real>): (v: real)
    ensures NonNegative(inflow) ==> v >= 0.0
  {
    Sum(inflow) * 5.0 * 60.0
  }

  /** The flood volume of a series split in two is the sum of both parts. */
  lemma FloodVolumeSplit(a: seq<real>, b: seq<real>)
    ensures FloodVolume(a + b) == FloodVolume(a) + FloodVolume(b)
  {
    SumConcat(a, b);
  }

  /** Dividing by a positive capacity keeps signs and order. */
  lemma ShareOfPositive(a: real, b: real, c: real)
    requires c > 0.0
    ensures a / c > b / c <==> a > b
    ensures a >= 0.0 ==> a / c >= 0.0
    ensures b >= 0.0 ==> b / c >= 0.0
  {
    assert a / c * c == a && b / c * c == b;
  }

  predicate NonNegative(s: seq<real>)
  {
    forall j :: 0 <= j < |s| ==> s[j] >= 0.0
  }

  /** Storage-pressure ratios: each tributary's flood volume over the
      remaining capacity of the reservoir it drains into. */
  function StorageRatios(o: Observations): (p: Triple)
    requires |o.jdhVolume| > 0 && |o.qthVolume| > 0
    ensures p.jfx * RemainingCapacity(JdhRatedVolume, o.jdhVolume[0]) == FloodVolume(o.jfxInflow)
    ensures p.ytx * RemainingCapacity(JdhRatedVolume, o.jdhVolume[0]) == FloodVolume(o.ytxInflow)
    ensures p.qth * RemainingCapacity(QthRatedVolume, o.qthVolume[0]) == FloodVolume(o.qthInflow)
    ensures p.jfx > p.ytx <==> FloodVolume(o.jfxInflow) > FloodVolume(o.ytxInflow)
    ensures NonNegative(o.jfxInflow) && NonNegative(o.ytxInflow) && NonNegative(o.qthInflow) ==>
              p.jfx >= 0.0 && p.ytx >= 0.0 && p.qth >= 0.0
  {
    var jdhCapacity := RemainingCapacity(JdhRatedVolume, o.jdhVolume[0]);
    var qthCapacity := RemainingCapacity(QthRatedVolume, o.qthVolume[0]);
    ShareOfPositive(FloodVolume(o.jfxInflow), FloodVolume(o.ytxInflow), jdhCapacity);
    ShareOfPositive(FloodVolume(o.qthInflow), 0.0, qthCapacity);
    Triple(FloodVolume(o.jfxInflow) / jdhCapacity,
           FloodVolume(o.ytxInflow) / jdhCapacity,
           FloodVolume(o.qthInflow) / qthCapacity)
  }

  // ---------------------------------------------------------------------
  // Lead time and downstream risk
  // ---------------------------------------------------------------------

  /** Whether the series needed by the lead-time ratios are present: both
      heads always, an inflow only while its reservoir is above its safety
      level. Complete series always suffice, and quiet reservoirs need no
      inflow series at all. */
  predicate LeadTimeDefined(o: Observations)
    ensures (|o.jdhHead| > 0 && |o.qthHead| > 0
             && |o.jfxInflow| > 0 && |o.ytxInflow| > 0 && |o.qthInflow| > 0) ==> LeadTimeDefined(o)
    ensures (|o.jdhHead| > 0 && |o.qthHead| > 0
             && Max(o.jdhHead) <= JdhThreshold && Max(o.qthHead) <= QthThreshold) ==> LeadTimeDefined(o)
    ensures LeadTimeDefined(o) ==> |o.jdhHead| > 0 && |o.qthHead| > 0
  {
    && |o.jdhHead| > 0
    && |o.qthHead| > 0
    && (Max(o.jdhHead) > JdhThreshold ==> |o.jfxInflow| > 0 && |o.ytxInflow| > 0)
    && (Max(o.qthHead) > QthThreshold ==> |o.qthInflow| > 0)
  }

  /** Lead-time ratios: time to peak of the inflow over time to peak of the
      receiving reservoir's head, only while that reservoir is above its
      safety level; otherwise 0. */
  function LeadTimeRatios(o: Observations): (p: Triple)
    requires LeadTimeDefined(o)
    ensures p.jfx > 0.0 <==> Max(o.jdhHead) > JdhThreshold
    ensures p.ytx > 0.0 <==> Max(o.jdhHead) > JdhThreshold
    ensures p.qth > 0.0 <==> Max(o.qthHead) > QthThreshold
    ensures p.jfx >= 0.0 && p.ytx >= 0.0 && p.qth >= 0.0
    ensures Max(o.jdhHead) > JdhThreshold ==>
              p.jfx == LeadTime(o.jfxInflow) / LeadTime(o.jdhHead)
              && p.ytx == LeadTime(o.ytxInflow) / LeadTime(o.jdhHead)
    ensures Max(o.qthHead) > QthThreshold ==>
              p.qth == LeadTime(o.qthInflow) / LeadTime(o.qthHead)
  {
    Triple(GatedLeadRatio(o.jfxInflow, o.jdhHead, JdhThreshold),
           GatedLeadRatio(o.ytxInflow, o.jdhHead, JdhThreshold),
           GatedLeadRatio(o.qthInflow, o.qthHead, QthThreshold))
  }

  /** One lead-time ratio: inflow time to peak over head time to peak when
      the head exceeds the safety level, else 0. */
  function GatedLeadRatio(inflow: seq<real>, head: seq<real>, threshold: real): (q: real)
    requires |head| > 0 && (Max(head) > threshold ==> |inflow| > 0)
    ensures q >= 0.0
    ensures q > 0.0 <==> Max(head) > threshold
    ensures Max(head) > threshold ==> q == LeadTime(inflow) / LeadTime(head)
  {
    if Max(head) > threshold then
      QuotientOfPositives(LeadTime(inflow), LeadTime(head));
      LeadTime(inflow) / LeadTime(head)
    else 0.0
  }

  lemma QuotientOfPositives(a: real, b: real)
    requires a > 0.0 && b > 0.0
    ensures a / b > 0.0 && (a / b) * b == a
  {
  }

  /** Downstream-risk ratios from the two resilience values: the sub-basins
      of the reservoir with the larger resilience get 1, the others the
      smaller value over the larger; equal resilience leaves all at 0.
      Spelled out per combination of stressed reservoirs. */
  function ResilienceRatios(o: Observations): (p: Triple)
    requires |o.jdhHead| > 0 && |o.qthHead| > 0
    ensures p.jfx == p.ytx
    ensures 0.0 <= p.jfx <= 1.0 && 0.0 <= p.qth <= 1.0
    ensures p.jfx == 1.0 || p.qth == 1.0 || p == Triple(0.0, 0.0, 0.0)
    ensures Max(o.jdhHead) <= JdhThreshold && Max(o.qthHead) <= QthThreshold ==>
              p == Triple(0.0, 0.0, 0.0)
    ensures Max(o.jdhHead) <= JdhThreshold && Max(o.qthHead) > QthThreshold ==>
              p == Triple(0.0, 0.0, 1.0)
    ensures Max(o.jdhHead) > JdhThreshold && Max(o.qthHead) <= QthThreshold ==>
              p == Triple(1.0, 1.0, 0.0)
    ensures Max(o.jdhHead) > JdhThreshold && Max(o.qthHead) > QthThreshold ==>
              p == Triple(JdhResilience / QthResilience, JdhResilience / QthResilience, 1.0)
  {
    var qth := Resilience(o.qthHead, QthThreshold);
    var jdh := Resilience(o.jdhHead, JdhThreshold);
    if qth > jdh then Triple(jdh / qth, jdh / qth, 1.0)
    else if qth < jdh then Triple(1.0, 1.0, qth / jdh)
    else Triple(0.0, 0.0, 0.0)
  }

  // ---------------------------------------------------------------------
  // Scores and the label
  // ---------------------------------------------------------------------

  /** The weighted score of one sub-basin. The weights sum to 1, so equal
      indicators give that common value, and the score grows with each
      indicator. */
  function Score(storage: real, lead: real, risk: real): (s: real)
    ensures storage == lead == risk ==> s == storage
    ensures storage >= 0.0 && lead >= 0.0 && risk >= 0.0 ==> s >= 0.0
  {
    StorageWeight * storage + LeadWeight * lead + RiskWeight * risk
  }

  /** Score increases strictly with any one indicator. */
  lemma ScoreMonotone(storage: real, lead: real, risk: real, d: real)
    requires d > 0.0
    ensures Score(storage + d, lead, risk) > Score(storage, lead, risk)
    ensures Score(storage, lead + d, risk) > Score(storage, lead, risk)
    ensures Score(storage, lead, risk + d) > Score(storage, lead, risk)
  {
  }

  /** The score of the sub-basin a label names. */
  function Chosen(p: Triple, rank: int): real
  {
    if rank == 1 then p.jfx else if rank == 2 then p.ytx else p.qth
  }

  /** The label rule: 2 when the Yangting score is strictly the largest,
      else 3 when Qinting beats Jiefang, else 1. Though written
      asymmetrically, it always names a score at least as large as the
      other two. */
  function Label(p: Triple): (rank: int)
    ensures rank == 1 || rank == 2 || rank == 3
    ensures rank == 2 <==> p.ytx > p.jfx && p.ytx > p.qth
    ensures rank == 3 <==> !(p.ytx > p.jfx && p.ytx > p.qth) && p.qth > p.jfx
    ensures Chosen(p, rank) >= p.jfx && Chosen(p, rank) >= p.ytx && Chosen(p, rank) >= p.qth
  {
    if p.ytx > p.jfx && p.ytx > p.qth then 2
    else if p.qth > p.jfx then 3
    else 1
  }

  /** Whether the classifier runs without an exception: both head series
      and both volume series are non-empty, and an inflow series is
      non-empty whenever its lead time is computed. */
  predicate Evaluable(o: Observations)
    ensures (|o.jdhHead| > 0 && |o.qthHead| > 0 && |o.jfxInflow| > 0 && |o.ytxInflow| > 0
             && |o.qthInflow| > 0 && |o.jdhVolume| > 0 && |o.qthVolume| > 0) ==> Evaluable(o)
    ensures Evaluable(o) ==> |o.jdhHead| > 0 && |o.qthHead| > 0 && |o.jdhVolume| > 0 && |o.qthVolume| > 0
    ensures Evaluable(o) && Max(o.jdhHead) > JdhThreshold ==> |o.jfxInflow| > 0 && |o.ytxInflow| > 0
    ensures Evaluable(o) && Max(o.qthHead) > QthThreshold ==> |o.qthInflow| > 0
  {
    && |o.jdhVolume| > 0
    && |o.qthVolume| > 0
    && LeadTimeDefined(o)
  }

  /** The three aggregate scores. Jiefang and Yangting share their
      resilience ratio, so between the two only storage pressure and lead
      time decide; with non-negative inflows every score is non-negative. */
  function Scores(o: Observations): (p: Triple)
    requires Evaluable(o)
    ensures p.ytx - p.jfx == StorageWeight * (StorageRatios(o).ytx - StorageRatios(o).jfx)
                           + LeadWeight * (LeadTimeRatios(o).ytx - LeadTimeRatios(o).jfx)
    ensures NonNegative(o.jfxInflow) && NonNegative(o.ytxInflow) && NonNegative(o.qthInflow) ==>
              p.jfx >= 0.0 && p.ytx >= 0.0 && p.qth >= 0.0
  {
    var storage := StorageRatios(o);
    var lead := LeadTimeRatios(o);
    var risk := ResilienceRatios(o);
    Triple(Score(storage.jfx, lead.jfx, risk.jfx),
           Score(storage.ytx, lead.ytx, risk.ytx),
           Score(storage.qth, lead.qth, risk.qth))
  }

  /** `calculatePriority` over the seven series: None exactly when the
      source throws for a missing value, otherwise the rank of a sub-basin
      whose score is the largest. */
  function ClassifyPriority(o: Observations): (r: Option<int>)
    ensures r.None? <==>
              || |o.jdhVolume| == 0 || |o.qthVolume| == 0
              || |o.jdhHead| == 0 || |o.qthHead| == 0
              || (Max(o.jdhHead) > JdhThreshold && (|o.jfxInflow| == 0 || |o.ytxInflow| == 0))
              || (Max(o.qthHead) > QthThreshold && |o.qthInflow| == 0)
    ensures r.Some? ==> 1 <= r.value <= 3
    ensures r.Some? ==> r.value == Label(Scores(o))
    ensures r.Some? ==> forall l :: 1 <= l <= 3 ==> Chosen(Scores(o), r.value) >= Chosen(Scores(o), l)
  {
    if Evaluable(o) then Some(Label(Scores(o))) else None
  }

  /** While neither reservoir is above its safety level, lead time and risk
      play no part: the rank is decided by the storage ratios alone. */
  lemma QuietReservoirsRankByStorage(o: Observations)
    requires Evaluable(o)
    requires Max(o.jdhHead) <= JdhThreshold && Max(o.qthHead) <= QthThreshold
    ensures ClassifyPriority(o) == Some(Label(StorageRatios(o)))
  {
    var s := StorageRatios(o);
    assert LeadTimeRatios(o) == Triple(0.0, 0.0, 0.0);
    assert ResilienceRatios(o) == Triple(0.0, 0.0, 0.0);
    var p := Scores(o);
    assert p == Triple(StorageWeight * s.jfx, StorageWeight * s.ytx, StorageWeight * s.qth);
  }
}
