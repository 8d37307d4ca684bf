/** The exported handlers of both files: resolve the conditions, (for KIS)
    check the credentials, run the per-instrument loop over the universe,
    sort the recommendations by strength and report the universe size. */
module Scan {
  import opened Market
  import VolumeProfile
  import SignalEvaluator
  import Universe

  /** What the body of the loop got for one instrument from the two provider
      calls: a quote or null, and the bars getDailyData returned (possibly
      none); or an exception thrown inside the body and caught by the loop. */
  datatype Fetch = Fetched(quote: Option<Quote>, bars: seq<Bar>) | Threw

  /** Why a handler answers with an error instead of a scan result. */
  datatype ScanError = MissingCredentials | TokenFailure

  datatype Response =
    | Ok(totalScanned: nat, recommendations: seq<Analysis>, dataSource: string)
    | Failed(error: ScanError)

  /** The query parameters, decoded; None stands for a parameter absent or
      empty, which the handler replaces by its default. */
  datatype Query = Query(
    pocTolerance: Option<real>,
    bounceStrength: Option<real>,
    volumeMultiplier: Option<real>,
    minPrice: Option<real>,
    maxPrice: Option<real>,
    minTradeValue: Option<real>)

  function OrDefault(x: Option<real>, default: real): real
  {
    if x.Some? then x.value else default
  }

  /** The conditions object of the handler: each supplied parameter as
      given, each missing one at its default. */
  function ResolveConditions(q: Query): (c: Conditions)
    ensures c.pocTolerance == if q.pocTolerance.Some? then q.pocTolerance.value else 2.0
    ensures c.bounceStrength == if q.bounceStrength.Some? then q.bounceStrength.value else 1.0
    ensures c.volumeMultiplier == if q.volumeMultiplier.Some? then q.volumeMultiplier.value else 1.5
    ensures c.minPrice == if q.minPrice.Some? then q.minPrice.value else 5000.0
    ensures c.maxPrice == if q.maxPrice.Some? then q.maxPrice.value else 100000.0
    ensures c.minTradeValue == if q.minTradeValue.Some? then q.minTradeValue.value else 1000.0
    ensures q == Query(None, None, None, None, None, None) ==> c == DefaultConditions
  {
    Conditions(
      OrDefault(q.pocTolerance, DefaultConditions.pocTolerance),
      OrDefault(q.bounceStrength, DefaultConditions.bounceStrength),
      OrDefault(q.volumeMultiplier, DefaultConditions.volumeMultiplier),
      OrDefault(q.minPrice, DefaultConditions.minPrice),
      OrDefault(q.maxPrice, DefaultConditions.maxPrice),
      OrDefault(q.minTradeValue, DefaultConditions.minTradeValue))
  }

  /** Strengths do not increase along the list. */
  predicate NonIncreasing(recs: seq<Analysis>)
  {
    forall i, j :: 0 <= i < j < |recs| ==> recs[i].signalStrength >= recs[j].signalStrength
  }

  /** What one instrument adds to the recommendations: nothing when the body
      threw, the quote is null or there are no bars; otherwise its verdict,
      if it has one. */
  ghost function Contribution(stock: Instrument, f: Fetch, c: Conditions): seq<Analysis>
  {
    match f
    case Threw => []
    case Fetched(quote, bars) =>
      if quote.None? || bars == [] then []
      else
        var verdict := SignalEvaluator.Evaluate(stock, quote, Some(VolumeProfile.ProfileOf(bars)), c);
        if verdict.Some? then [verdict.value] else []
  }

  /** The recommendations in push order, before sorting. */
  ghost function Qualified(universe: seq<Instrument>, outcomes: seq<Fetch>, c: Conditions): seq<Analysis>
    requires |universe| == |outcomes|
  {
    if universe == [] then []
    else
      var n := |universe| - 1;
      Qualified(universe[..n], outcomes[..n], c) + Contribution(universe[n], outcomes[n], c)
  }

  /** One more instrument appends its contribution. */
  lemma QualifiedStep(universe: seq<Instrument>, outcomes: seq<Fetch>, c: Conditions, i: nat)
    requires |universe| == |outcomes| && i < |universe|
    ensures Qualified(universe[..i + 1], outcomes[..i + 1], c)
            == Qualified(universe[..i], outcomes[..i], c) + Contribution(universe[i], outcomes[i], c)
  {
    assert universe[..i + 1][..i] == universe[..i];
    assert outcomes[..i + 1][..i] == outcomes[..i];
  }

  /** Positions `0..hi` of `s` are ordered by non-increasing strength,
      except that position `skip` may be out of place. */
  predicate OrderedExcept(s: seq<Analysis>, hi: nat, skip: nat)
    requires hi < |s|
  {
    forall k, l :: 0 <= k < l <= hi && k != skip && l != skip ==> s[k].signalStrength >= s[l].signalStrength
  }

  /** `s[j]` is stronger than everything after it up to `hi`. */
  predicate StrongerThanRest(s: seq<Analysis>, j: nat, hi: nat)
    requires j <= hi < |s|
  {
    forall l :: j < l <= hi ==> s[j].signalStrength > s[l].signalStrength
  }

  /** Swapping two neighbours keeps the multiset of a sequence. */
  lemma SwapKeepsMultiset(s: seq<Analysis>, j: nat)
    requires 0 < j < |s|
    ensures multiset(s[j - 1 := s[j]][j := s[j - 1]]) == multiset(s)
  {
    var t := s[j - 1 := s[j]][j := s[j - 1]];
    assert s == s[..j - 1] + [s[j - 1], s[j]] + s[j + 1..];
    assert t == s[..j - 1] + [s[j], s[j - 1]] + s[j + 1..];
  }

  /** Before the inner loop: an ordered prefix below `i`, with the new
      element at `i` as the one out of place. */
  lemma StartStep(s: seq<Analysis>, i: nat)
    requires i < |s| && NonIncreasing(s[..i])
    ensures OrderedExcept(s, i, i) && StrongerThanRest(s, i, i)
  {
    forall k, l | 0 <= k < l <= i && k != i && l != i
      ensures s[k].signalStrength >= s[l].signalStrength
    {
      assert s[..i][k] == s[k] && s[..i][l] == s[l];
    }
  }

  /** One step of the inner loop: the out-of-place element moves one place
      to the front. */
  lemma SwapStep(s: seq<Analysis>, j: nat, hi: nat)
    requires 0 < j <= hi < |s|
    requires OrderedExcept(s, hi, j) && StrongerThanRest(s, j, hi)
    requires s[j - 1].signalStrength < s[j].signalStrength
    ensures OrderedExcept(s[j - 1 := s[j]][j := s[j - 1]], hi, j - 1)
    ensures StrongerThanRest(s[j - 1 := s[j]][j := s[j - 1]], j - 1, hi)
  {
  }

  /** When the inner loop stops, the prefix up to `hi` is ordered. */
  lemma SettleStep(s: seq<Analysis>, j: nat, hi: nat)
    requires j <= hi < |s|
    requires OrderedExcept(s, hi, j) && StrongerThanRest(s, j, hi)
    requires j > 0 ==> s[j - 1].signalStrength >= s[j].signalStrength
    ensures NonIncreasing(s[..hi + 1])
  {
    forall k, l | 0 <= k < l <= hi
      ensures s[k].signalStrength >= s[l].signalStrength
    {
      if k == j {
      } else if l == j {
        assert j > 0 && k <= j - 1;
        if k < j - 1 {
          assert s[k].signalStrength >= s[j - 1].signalStrength;
        }
      }
    }
  }

  /** One pass of the inner loop of the sort: the element at `i` sinks
      towards the front past every weaker element, after which the prefix up
      to `i` is ordered. */
  method SinkInto(a: array<Analysis>, i: nat)
    requires i < a.Length
    requires NonIncreasing(a[..i])
    modifies a
    ensures NonIncreasing(a[..i + 1])
    ensures multiset(a[..]) == multiset(old(a[..]))
  {
    var j := i;
    StartStep(a[..], i);
    while j > 0 && a[j - 1].signalStrength < a[j].signalStrength
      invariant 0 <= j <= i
      invariant OrderedExcept(a[..], i, j) && StrongerThanRest(a[..], j, i)
      invariant multiset(a[..]) == multiset(old(a[..]))
    {
      ghost var before := a[..];
      SwapStep(before, j, i);
      SwapKeepsMultiset(before, j);
      a[j - 1], a[j] := a[j], a[j - 1];
      assert a[..] == before[j - 1 := before[j]][j := before[j - 1]];
      j := j - 1;
    }
    SettleStep(a[..], j, i);
    assert a[..][..i + 1] == a[..i + 1];
  }

  /** recommendations.sort((a, b) => b.signalStrength - a.signalStrength), as
      an insertion sort by adjacent swaps: the array ends up ordered by
      non-increasing strength and holds the same analyses. */
  method SortByStrength(a: array<Analysis>)
    modifies a
    ensures NonIncreasing(a[..])
    ensures multiset(a[..]) == multiset(old(a[..]))
  {
    var i := 0;
    while i < a.Length
      invariant 0 <= i <= a.Length
      invariant NonIncreasing(a[..i])
      invariant multiset(a[..]) == multiset(old(a[..]))
    {
      SinkInto(a, i);
      i := i + 1;
    }
    assert a[..a.Length] == a[..];
  }

  /** The pushed recommendations, copied into an array and sorted there. */
  method SortedCopy(pushed: seq<Analysis>) returns (sorted: seq<Analysis>)
    ensures NonIncreasing(sorted)
    ensures multiset(sorted) == multiset(pushed)
  {
    var a := new Analysis[|pushed|](k requires 0 <= k < |pushed| => pushed[k]);
    assert a[..] == pushed;
    SortByStrength(a);
    sorted := a[..];
  }

  /** The body of the handler's loop for one instrument: a verdict is
      computed only when the quote and the bars are there, and nothing is
      pushed when the body threw. */
  method ScanOne(stock: Instrument, f: Fetch, c: Conditions) returns (pushed: seq<Analysis>)
    ensures pushed == Contribution(stock, f, c)
    ensures |pushed| <= 1
  {
    pushed := [];
    match f
    case Threw =>
    case Fetched(quote, bars) =>
      if quote.Some? && bars != [] {
        var pocData := VolumeProfile.CalculatePoc(bars);
        var analysis := SignalEvaluator.AnalyzeSignal(stock, quote, pocData, c);
        if analysis.Some? {
          pushed := [analysis.value];
        }
      }
  }

  /** The handler's loop over the universe, then the sort: the result is
      ordered by non-increasing strength and is a permutation of the
      instruments' verdicts. */
  method ScanUniverse(universe: seq<Instrument>, outcomes: seq<Fetch>, c: Conditions)
    returns (recommendations: seq<Analysis>)
    requires |outcomes| == |universe|
    ensures NonIncreasing(recommendations)
    ensures multiset(recommendations) == multiset(Qualified(universe, outcomes, c))
  {
    var pushed: seq<Analysis> := [];
    for i := 0 to |universe|
      invariant pushed == Qualified(universe[..i], outcomes[..i], c)
    {
      var own := ScanOne(universe[i], outcomes[i], c);
      QualifiedStep(universe, outcomes, c, i);
      pushed := pushed + own;
    }
    assert universe[..|universe|] == universe && outcomes[..|outcomes|] == outcomes;
    recommendations := SortedCopy(pushed);
  }

  /** The Yahoo Finance handler: always a scan result, of the twenty
      instruments, sorted by strength. */
  method ScanYahoo(query: Query, outcomes: seq<Fetch>) returns (resp: Response)
    requires |outcomes| == |Universe.YahooUniverse|
    ensures resp.Ok?
    ensures resp.totalScanned == |Universe.YahooUniverse| == 20
    ensures resp.dataSource == "Yahoo Finance"
    ensures NonIncreasing(resp.recommendations)
    ensures multiset(resp.recommendations) ==
              multiset(Qualified(Universe.YahooUniverse, outcomes, ResolveConditions(query)))
  {
    var conditions := ResolveConditions(query);
    var recommendations := ScanUniverse(Universe.YahooUniverse, outcomes, conditions);
    resp := Ok(|Universe.YahooUniverse|, recommendations, "Yahoo Finance");
  }

  /** JavaScript truthiness of an environment variable: set and not empty. */
  predicate Present(v: Option<string>)
  {
    v.Some? && v.value != ""
  }

  /** The KIS handler: missing APP_KEY or APP_SECRET is an error before any
      instrument is looked at; a failed token request is an error too;
      otherwise a scan result of the twenty instruments, sorted by strength. */
  method ScanKis(appKey: Option<string>, appSecret: Option<string>, tokenIssued: bool, query: Query, outcomes: seq<Fetch>)
    returns (resp: Response)
    requires |outcomes| == |Universe.KisUniverse|
    ensures !Present(appKey) || !Present(appSecret) <==> resp == Failed(MissingCredentials)
    ensures Present(appKey) && Present(appSecret) && !tokenIssued <==> resp == Failed(TokenFailure)
    ensures resp.Ok? <==> Present(appKey) && Present(appSecret) && tokenIssued
    ensures resp.Ok? ==> resp.totalScanned == |Universe.KisUniverse| == 20
    ensures resp.Ok? ==> resp.dataSource == "Korea Investment Securities"
    ensures resp.Ok? ==> NonIncreasing(resp.recommendations)
    ensures resp.Ok? ==>
              multiset(resp.recommendations) == multiset(Qualified(Universe.KisUniverse, outcomes, ResolveConditions(query)))
  {
    var conditions := ResolveConditions(query);
    if !Present(appKey) || !Present(appSecret) {
      return Failed(MissingCredentials);
    }
    if !tokenIssued {
      return Failed(TokenFailure);
    }
    var recommendations := ScanUniverse(Universe.KisUniverse, outcomes, conditions);
    resp := Ok(|Universe.KisUniverse|, recommendations, "Korea Investment Securities");
  }

  // ---------------------------------------------------------------------------
  // Properties of the loop

  /** At most one recommendation per instrument. */
  lemma {:induction false} QualifiedAtMostOnePerInstrument(universe: seq<Instrument>, outcomes: seq<Fetch>, c: Conditions)
    requires |universe| == |outcomes|
    ensures |Qualified(universe, outcomes, c)| <= |universe|
  {
    if universe != [] {
      var n := |universe| - 1;
      QualifiedAtMostOnePerInstrument(universe[..n], outcomes[..n], c);
    }
  }

  /** Every recommendation is the verdict of one instrument that had a quote
      and bars, evaluated on the profile of those bars. */
  lemma {:induction false} QualifiedComeFromInstruments(universe: seq<Instrument>, outcomes: seq<Fetch>, c: Conditions, a: Analysis)
    requires |universe| == |outcomes|
    requires a in Qualified(universe, outcomes, c)
    ensures exists i :: 0 <= i < |universe| && Contribution(universe[i], outcomes[i], c) == [a]
    ensures a.stock in universe
  {
    var n := |universe| - 1;
    var own := Contribution(universe[n], outcomes[n], c);
    if a in own {
      assert Contribution(universe[n], outcomes[n], c) == [a];
    } else {
      QualifiedComeFromInstruments(universe[..n], outcomes[..n], c, a);
      var i :| 0 <= i < n && Contribution(universe[..n][i], outcomes[..n][i], c) == [a];
      assert universe[..n][i] == universe[i] && outcomes[..n][i] == outcomes[i];
    }
  }

  /** Qualified unfolded once: the last instrument's contribution comes last. */
  lemma QualifiedLast(universe: seq<Instrument>, outcomes: seq<Fetch>, c: Conditions)
    requires |universe| == |outcomes| && universe != []
    ensures var n := |universe| - 1;
      Qualified(universe, outcomes, c) == Qualified(universe[..n], outcomes[..n], c) + Contribution(universe[n], outcomes[n], c)
  {
  }

  /** An instrument whose body threw only loses its own verdict: the other
      instruments' recommendations are what they would have been. */
  lemma {:induction false} ThrowDropsOnlyItsOwn(universe: seq<Instrument>, outcomes: seq<Fetch>, c: Conditions, j: nat)
    requires |universe| == |outcomes| && j < |universe|
    ensures multiset(Qualified(universe, outcomes[j := Threw], c)) + multiset(Contribution(universe[j], outcomes[j], c))
            == multiset(Qualified(universe, outcomes, c))
  {
    var n := |universe| - 1;
    var thrown := outcomes[j := Threw];
    QualifiedLast(universe, outcomes, c);
    QualifiedLast(universe, thrown, c);
    var before, own := Qualified(universe[..n], outcomes[..n], c), Contribution(universe[n], outcomes[n], c);
    if j == n {
      assert thrown[..n] == outcomes[..n];
      assert Contribution(universe[n], thrown[n], c) == [];
      assert Qualified(universe, thrown, c) == before + [];
    } else {
      var thrownBefore := Qualified(universe[..n], thrown[..n], c);
      assert thrown[..n] == outcomes[..n][j := Threw];
      assert thrown[n] == outcomes[n];
      assert Qualified(universe, thrown, c) == thrownBefore + own;
      ThrowDropsOnlyItsOwn(universe[..n], outcomes[..n], c, j);
      assert universe[..n][j] == universe[j] && outcomes[..n][j] == outcomes[j];
    }
  }

  /** Along the Yahoo path the bars come out of the filter loop, so every
      bar has positive volume (DailyBars.CompleteBars); every recommendation
      made from such bars then has a POC that is one of its listed bins and
      traded at least as much as any of them. */
  lemma PositiveBarsGiveListedPoc(stock: Instrument, bars: seq<Bar>, quote: Option<Quote>, c: Conditions, a: Analysis)
    requires forall b :: b in bars ==> b.volume > 0
    requires Contribution(stock, Fetched(quote, bars), c) == [a]
    ensures a.poc in VolumeProfile.Prices(VolumeProfile.ProfileOf(bars).buckets)
    ensures forall b :: b in VolumeProfile.ProfileOf(bars).buckets ==> b.volume <= VolumeProfile.VolumeAt(bars, a.poc)
  {
    VolumeProfile.PositiveVolumesGiveRealPoc(bars);
  }

  /** An instrument with no bars (or no quote) is left out of the
      recommendations, and the scan still counts it in totalScanned. */
  lemma NoDataContributesNothing(stock: Instrument, quote: Option<Quote>, c: Conditions)
    ensures Contribution(stock, Fetched(quote, []), c) == []
    ensures forall bars :: Contribution(stock, Fetched(None, bars), c) == []
  {
  }
}
