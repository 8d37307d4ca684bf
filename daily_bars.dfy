/** The provider-independent part of getDailyData: the Yahoo version keeps
    only complete bars of the parallel OHLCV arrays, the KIS version keeps
    at most `days` bars of the provider's list. */
module DailyBars {
  import opened Market

  /** The lookback window the handler asks for. */
  const LookbackDays := 30

  /** The chart arrays of a Yahoo response, already decoded: one timestamp
      per day, and per field an array whose entries may be null (None) or
      shorter than the timestamps. */
  datatype Series = Series(
    timestamps: seq<int>,
    open: seq<Option<real>>,
    high: seq<Option<real>>,
    low: seq<Option<real>>,
    close: seq<Option<real>>,
    volume: seq<Option<nat>>)

  /** JavaScript truthiness of an array entry: present and not zero. */
  predicate Truthy(xs: seq<Option<real>>, i: nat)
  {
    i < |xs| && xs[i].Some? && xs[i].value != 0.0
  }

  predicate TruthyVolume(xs: seq<Option<nat>>, i: nat)
  {
    i < |xs| && xs[i].Some? && xs[i].value != 0
  }

  /** Day `i` has all five fields. */
  predicate Complete(s: Series, i: nat)
  {
    Truthy(s.open, i) && Truthy(s.high, i) && Truthy(s.low, i) && Truthy(s.close, i) && TruthyVolume(s.volume, i)
  }

  /** The bar built from a complete day: prices rounded, volume as given. */
  function BarAt(s: Series, i: nat): Bar
    requires Complete(s, i)
  {
    Bar(Round(s.open[i].value), Round(s.high[i].value), Round(s.low[i].value), Round(s.close[i].value),
        s.volume[i].value)
  }

  /** The complete days among the first `n`, in ascending order. */
  ghost function CompleteDays(s: Series, n: nat): seq<nat>
  {
    if n == 0 then [] else CompleteDays(s, n - 1) + (if Complete(s, n - 1) then [n - 1] else [])
  }

  /** CompleteDays lists exactly the complete days below `n`, each once, in
      increasing order. */
  lemma {:induction false} CompleteDaysExact(s: Series, n: nat)
    ensures forall i: nat :: i in CompleteDays(s, n) <==> i < n && Complete(s, i)
    ensures forall j, k :: 0 <= j < k < |CompleteDays(s, n)| ==> CompleteDays(s, n)[j] < CompleteDays(s, n)[k]
    ensures |CompleteDays(s, n)| <= n
  {
    if n > 0 {
      CompleteDaysExact(s, n - 1);
      var prev := CompleteDays(s, n - 1);
      assert forall i :: i in prev ==> i < n - 1;
      if Complete(s, n - 1) {
        assert CompleteDays(s, n) == prev + [n - 1];
        assert forall k :: 0 <= k < |prev| ==> prev[k] in prev;
      } else {
        assert CompleteDays(s, n) == prev;
      }
    }
  }

  /** The array-building loop of getDailyData: one bar per complete day, in
      day order; every kept bar has positive volume. */
  method CompleteBars(s: Series) returns (bars: seq<Bar>)
    ensures |bars| == |CompleteDays(s, |s.timestamps|)|
    ensures forall k :: 0 <= k < |bars| ==>
              Complete(s, CompleteDays(s, |s.timestamps|)[k]) &&
              bars[k] == BarAt(s, CompleteDays(s, |s.timestamps|)[k])
    ensures forall b :: b in bars ==> b.volume > 0
  {
    bars := [];
    for i := 0 to |s.timestamps|
      invariant |bars| == |CompleteDays(s, i)|
      invariant forall k :: 0 <= k < |bars| ==>
                  Complete(s, CompleteDays(s, i)[k]) && bars[k] == BarAt(s, CompleteDays(s, i)[k])
      invariant forall b :: b in bars ==> b.volume > 0
    {
      if Truthy(s.open, i) && Truthy(s.high, i) && Truthy(s.low, i) && Truthy(s.close, i)
         && TruthyVolume(s.volume, i) {
        bars := bars + [BarAt(s, i)];
      }
    }
  }

  /** `slice(0, days)` of the KIS daily list: at most `days` bars, the first
      ones in provider order. */
  function TakeDays(output: seq<Bar>, days: nat): (bars: seq<Bar>)
    ensures |bars| == if |output| < days then |output| else days
    ensures bars == output[..|bars|]
  {
    if |output| <= days then output else output[..days]
  }

  /** The KIS handler calls getDailyData with 30 days: at most the first 30
      bars of the provider list are kept, and all of them when there are
      fewer. */
  lemma LookbackWindow(output: seq<Bar>)
    ensures |TakeDays(output, LookbackDays)| <= 30
    ensures |output| <= 30 ==> TakeDays(output, LookbackDays) == output
    ensures |output| > 30 ==> TakeDays(output, LookbackDays) == output[..30]
  {
  }
}
