/**
 * Choice of the context sample rate from the host rate and the codec's list
 * of supported rates.
 */
module SampleRate {
  import opened Wrappers
  import opened Ffmpeg

  function Abs(x: int): nat
  {
    if x < 0 then -x else x
  }

  /** abs(a - b), the distance the scan compares. */
  function Dist(a: int, b: int): nat
  {
    Abs(a - b)
  }

  /** The index of the first entry of `rates` at the smallest distance from `cur`. */
  function FirstNearest(cur: int, rates: seq<int>): (k: nat)
    requires |rates| > 0
    ensures k < |rates|
    ensures forall j :: 0 <= j < |rates| ==> Dist(cur, rates[k]) <= Dist(cur, rates[j])
    ensures forall j :: 0 <= j < k ==> Dist(cur, rates[k]) < Dist(cur, rates[j])
    decreases |rates|
  {
    if |rates| == 1 then 0
    else
      var k := FirstNearest(cur, rates[..|rates| - 1]);
      if Dist(cur, rates[|rates| - 1]) < Dist(cur, rates[k]) then |rates| - 1 else k
  }

  /**
   * The value `closest` holds after the scan: the first nearest entry if it is
   * strictly closer to `cur` than 0 is (the scan's starting value), else 0.
   */
  function ClosestRate(cur: int, rates: seq<int>): (c: int)
    ensures c == 0 <==> forall j :: 0 <= j < |rates| ==> Dist(cur, rates[j]) >= Abs(cur)
    ensures c != 0 ==> |rates| > 0 && c == rates[FirstNearest(cur, rates)] && Dist(cur, c) < Abs(cur)
  {
    if |rates| > 0 && Dist(cur, rates[FirstNearest(cur, rates)]) < Abs(cur) then rates[FirstNearest(cur, rates)]
    else 0
  }

  /** The context sample rate after the check of lines 290-307. */
  function SnappedRate(cur: int, rates: Option<RateList>): (r: int)
    ensures rates.None? ==> r == cur
    ensures r == cur || (rates.Some? && r in rates.value)
  {
    match rates
    case None => cur
    case Some(rs) => var c := ClosestRate(cur, rs); if c != 0 then c else cur
  }

  /** Extending the scanned prefix by one entry updates `closest` as one loop iteration does. */
  lemma ClosestRateStep(cur: int, rates: seq<int>, i: nat)
    requires i < |rates|
    ensures var c := ClosestRate(cur, rates[..i]);
      ClosestRate(cur, rates[..i + 1]) == if Dist(cur, rates[i]) < Dist(cur, c) then rates[i] else c
  {
    var p, q := rates[..i], rates[..i + 1];
    if i > 0 {
      assert q[..|q| - 1] == p;
      var k := FirstNearest(cur, p);
      assert FirstNearest(cur, q) == if Dist(cur, rates[i]) < Dist(cur, p[k]) then i else k;
    }
  }

  /**
   * The scan of supported_samplerates up to its 0 terminator: returns `closest`
   * (0 when no entry is adopted).
   */
  method ClosestSupportedRate(cur: int, rates: RateList) returns (closest: int)
    ensures closest == ClosestRate(cur, rates)
  {
    closest := 0;
    var i := 0;
    while i < |rates|
      invariant 0 <= i <= |rates|
      invariant closest == ClosestRate(cur, rates[..i])
    {
      var dist := Dist(cur, rates[i]);
      var closestDist := Dist(cur, closest);
      ClosestRateStep(cur, rates, i);
      if dist < closestDist {
        closest := rates[i];
      }
      i := i + 1;
    }
    assert rates[..i] == rates;
  }

  /**
   * When some supported rate is strictly closer to the host rate than the host
   * rate is to 0, the result is the first supported rate at minimal distance.
   */
  lemma SnapPicksFirstNearest(cur: int, rates: RateList, j: nat)
    requires j < |rates| && Dist(cur, rates[j]) < Abs(cur)
    ensures var r := SnappedRate(cur, Some(rates));
      exists k :: 0 <= k < |rates| && r == rates[k]
        && (forall i :: 0 <= i < |rates| ==> Dist(cur, r) <= Dist(cur, rates[i]))
        && (forall i :: 0 <= i < k ==> Dist(cur, r) < Dist(cur, rates[i]))
  {
    var k := FirstNearest(cur, rates);
    assert SnappedRate(cur, Some(rates)) == rates[k];
  }

  /** When no supported rate is strictly closer than that, the host rate is kept. */
  lemma SnapKeepsRateWhenNoneCloser(cur: int, rates: RateList)
    requires forall j :: 0 <= j < |rates| ==> Dist(cur, rates[j]) >= Abs(cur)
    ensures SnappedRate(cur, Some(rates)) == cur
  {
  }

  /** A positive host rate that the codec lists is kept. */
  lemma SnapExactMatch(cur: int, rates: RateList)
    requires cur > 0 && cur in rates
    ensures SnappedRate(cur, Some(rates)) == cur
  {
    var j :| 0 <= j < |rates| && rates[j] == cur;
    var k := FirstNearest(cur, rates);
    assert Dist(cur, rates[k]) <= Dist(cur, rates[j]) == 0;
  }

  /** 48 kHz and 44.1 kHz hosts against a codec that supports 8, 12, 16, 24 and 48 kHz. */
  lemma SnapExamples()
    ensures SnappedRate(48000, Some([8000, 12000, 16000, 24000, 48000])) == 48000
    ensures SnappedRate(44100, Some([8000, 12000, 16000, 24000, 48000])) == 48000
  {
    var rs: RateList := [8000, 12000, 16000, 24000, 48000];
    SnapExactMatch(48000, rs);
    SnapPicksFirstNearest(44100, rs, 4);
    var r := SnappedRate(44100, Some(rs));
    assert Dist(44100, r) <= Dist(44100, 48000);
    assert r in rs;
  }
}
