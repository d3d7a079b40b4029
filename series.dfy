/** Whole-series reductions over the simulated time series (one value per
    5-minute report step): the stream maximum and sum, and the search for
    the last position of a value. */
module Series {

  /** The largest value of a non-empty series (`Arrays.stream(a).max()`). */
  function Max(s: seq<real>): (m: real)
    requires |s| > 0
    ensures exists k :: 0 <= k < |s| && s[k] == m
    ensures forall j :: 0 <= j < |s| ==> s[j] <= m
  {
    if |s| == 1 then s[0]
    else
      var rest := Max(s[1..]);
      assert forall j :: 1 <= j < |s| ==> s[j] == s[1..][j - 1];
      if s[0] > rest then s[0] else rest
  }

  /** The sum of a series (`Arrays.stream(a).sum()`, taken exactly). */
  function Sum(s: seq<real>): (total: real)
    ensures (forall j :: 0 <= j < |s| ==> s[j] >= 0.0) ==> total >= 0.0
  {
    if |s| == 0 then 0.0 else s[0] + Sum(s[1..])
  }

  /** The sum of two consecutive stretches is the sum of the whole. */
  lemma {:induction false} SumConcat(a: seq<real>, b: seq<real>)
    ensures Sum(a + b) == Sum(a) + Sum(b)
  {
    if |a| > 0 {
      SumConcat(a[1..], b);
      assert (a + b)[1..] == a[1..] + b;
    } else {
      assert a + b == b;
    }
  }

  /** The last position holding `v`, or -1 when `v` does not occur. */
  function LastIndex(s: seq<real>, v: real): (k: int)
    ensures -1 <= k < |s|
    ensures k >= 0 ==> s[k] == v
    ensures forall j :: k < j < |s| ==> s[j] != v
  {
    if |s| == 0 then -1
    else if s[|s| - 1] == v then |s| - 1
    else LastIndex(s[..|s| - 1], v)
  }

  /** The last position at which a non-empty series reaches its maximum. */
  function LastMaxIndex(s: seq<real>): (k: nat)
    requires |s| > 0
    ensures k < |s| && s[k] == Max(s)
    ensures forall j :: k < j < |s| ==> s[j] < Max(s)
  {
    var m := Max(s);
    var k := LastIndex(s, m);
    assert k >= 0;
    k
  }
}
