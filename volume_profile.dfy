/** The volume-at-price profile of a window of daily bars (calculatePOC):
    volume is summed per 100-unit price bin, the bin with the most volume is
    the point of control (POC), and the bins are listed highest price first. */
module VolumeProfile {
  import opened Market

  /** Width of one price bin. */
  const BinWidth := 100

  /** Lower edge of the price bin that holds `close`: the multiple of 100 at or
      just below it (Math.floor(close / 100) * 100). */
  function BucketFloor(close: int): (f: int)
    ensures f <= close < f + BinWidth
    ensures f % BinWidth == 0
  {
    (close / BinWidth) * BinWidth
  }

  /** The bins that the bars' closes fall into. */
  function Floors(bars: seq<Bar>): set<int>
  {
    if bars == [] then {}
    else Floors(bars[..|bars| - 1]) + {BucketFloor(bars[|bars| - 1].close)}
  }

  /** Total volume of the bars whose close falls into the bin starting at `price`. */
  function VolumeAt(bars: seq<Bar>, price: int): nat
  {
    if bars == [] then 0
    else
      var last := bars[|bars| - 1];
      VolumeAt(bars[..|bars| - 1], price) + (if BucketFloor(last.close) == price then last.volume else 0)
  }

  /** Total volume of all bars. */
  function TotalVolume(bars: seq<Bar>): nat
  {
    if bars == [] then 0 else TotalVolume(bars[..|bars| - 1]) + bars[|bars| - 1].volume
  }

  /** Total volume of a bucket list. */
  function SumVolumes(bs: seq<Bucket>): nat
  {
    if bs == [] then 0 else bs[0].volume + SumVolumes(bs[1..])
  }

  /** The prices of a bucket list. */
  function Prices(bs: seq<Bucket>): set<int>
  {
    if bs == [] then {} else {bs[0].price} + Prices(bs[1..])
  }

  /** Prices strictly decrease along the list (so they are also unique). */
  predicate StrictlyDescending(bs: seq<Bucket>)
  {
    forall i, j :: 0 <= i < j < |bs| ==> bs[i].price > bs[j].price
  }

  /** calculatePOC's dictionary: bin floor to summed volume. */
  function VolumeMap(bars: seq<Bar>): (m: map<int, nat>)
    ensures m.Keys == Floors(bars)
  {
    map p | p in Floors(bars) :: VolumeAt(bars, p)
  }

  /** The POC rule of calculatePOC's running-maximum loop, which enumerates the
      bins in ascending price order, starts from a maximum of 0 and replaces
      the candidate only on a strictly greater volume: when some bin has
      positive volume the POC is a bin of maximal volume and no lower bin has
      that volume; otherwise it stays 0. */
  ghost predicate IsPocOf(m: map<int, nat>, poc: int)
  {
    if exists q :: q in m && m[q] > 0 then
      && poc in m
      && forall q :: q in m ==> m[q] <= m[poc] && (q < poc ==> m[q] < m[poc])
    else
      poc == 0
  }

  /** `best` beats every bin of `ks`: no bin of `ks` has more volume and no
      lower bin of `ks` has as much. */
  ghost predicate BestIn(m: map<int, nat>, ks: set<int>, best: int)
    requires ks <= m.Keys
  {
    && best in ks
    && forall q :: q in ks ==> m[q] <= m[best] && (q < best ==> m[q] < m[best])
  }

  lemma NonEmptySetHasElement(s: set<int>)
    requires s != {}
    ensures exists x :: x in s
  {
    if forall x :: x !in s {
      assert false;
    }
  }

  lemma {:induction false} BestExists(m: map<int, nat>, ks: set<int>)
    requires ks != {} && ks <= m.Keys
    ensures exists best :: BestIn(m, ks, best)
    decreases |ks|
  {
    NonEmptySetHasElement(ks);
    var y :| y in ks;
    var rest := ks - {y};
    if rest == {} {
      assert ks == {y};
      assert BestIn(m, ks, y);
    } else {
      BestExists(m, rest);
      var b :| BestIn(m, rest, b);
      if m[y] > m[b] || (m[y] == m[b] && y < b) {
        assert BestIn(m, ks, y);
      } else {
        assert BestIn(m, ks, b);
      }
    }
  }

  lemma PocExists(m: map<int, nat>)
    ensures exists poc :: IsPocOf(m, poc)
  {
    if exists q :: q in m && m[q] > 0 {
      BestExists(m, m.Keys);
      var b :| BestIn(m, m.Keys, b);
      assert IsPocOf(m, b);
    } else {
      assert IsPocOf(m, 0);
    }
  }

  /** The POC rule determines the POC. */
  lemma PocUnique(m: map<int, nat>, a: int, b: int)
    requires IsPocOf(m, a) && IsPocOf(m, b)
    ensures a == b
  {
    if exists q :: q in m && m[q] > 0 {
      assert m[a] == m[b];
      assert !(a < b);
      assert !(b < a);
    }
  }

  /** The POC of a volume profile. */
  ghost function PocOf(m: map<int, nat>): (poc: int)
    ensures IsPocOf(m, poc)
  {
    PocExists(m);
    var poc :| IsPocOf(m, poc);
    poc
  }

  /** `k` is the largest element of `s`. */
  predicate IsMax(s: set<int>, k: int)
  {
    k in s && forall j :: j in s ==> j <= k
  }

  /** `k` is the smallest element of `s`. */
  predicate IsMin(s: set<int>, k: int)
  {
    k in s && forall j :: j in s ==> k <= j
  }

  lemma SetHasMax(s: set<int>)
    requires s != {}
    ensures exists k :: IsMax(s, k)
    decreases |s|
  {
    NonEmptySetHasElement(s);
    var y :| y in s;
    var rest := s - {y};
    if rest == {} {
      assert IsMax(s, y) by {
        forall j | j in s ensures j <= y { assert j !in rest; }
      }
    } else {
      SetHasMax(rest);
      var k :| IsMax(rest, k);
      var top := if k < y then y else k;
      assert IsMax(s, top) by {
        forall j | j in s ensures j <= top {
          if j != y { assert j in rest; }
        }
      }
    }
  }

  lemma SetHasMin(s: set<int>)
    requires s != {}
    ensures exists k :: IsMin(s, k)
    decreases |s|
  {
    NonEmptySetHasElement(s);
    var y :| y in s;
    var rest := s - {y};
    if rest == {} {
      assert IsMin(s, y) by {
        forall j | j in s ensures y <= j { assert j !in rest; }
      }
    } else {
      SetHasMin(rest);
      var k :| IsMin(rest, k);
      var bottom := if y < k then y else k;
      assert IsMin(s, bottom) by {
        forall j | j in s ensures bottom <= j {
          if j != y { assert j in rest; }
        }
      }
    }
  }

  /** The largest key of a non-empty key set. */
  function MaxKey(s: set<int>): (k: int)
    requires s != {}
    ensures k in s && forall j :: j in s ==> j <= k
  {
    SetHasMax(s);
    var k :| IsMax(s, k);
    k
  }

  /** The smallest key of a non-empty key set: the next key JavaScript
      enumerates among integer-like property names. */
  function MinKey(s: set<int>): (k: int)
    requires s != {}
    ensures k in s && forall j :: j in s ==> k <= j
  {
    SetHasMin(s);
    var k :| IsMin(s, k);
    k
  }

  lemma ConsDescending(b: Bucket, tail: seq<Bucket>)
    requires StrictlyDescending(tail)
    requires forall t :: t in tail ==> t.price < b.price
    ensures StrictlyDescending([b] + tail)
    ensures Prices([b] + tail) == {b.price} + Prices(tail)
    ensures forall x :: x in [b] + tail ==> x == b || x in tail
  {
    var bs := [b] + tail;
    assert bs[1..] == tail;
    forall i, j | 0 <= i < j < |bs|
      ensures bs[i].price > bs[j].price
    {
      assert bs[j] == tail[j - 1] && tail[j - 1] in tail;
      if i > 0 {
        assert bs[i] == tail[i - 1];
      }
    }
  }

  /** Removing the largest key leaves one key fewer, all below it, with
      their volumes. */
  lemma RemoveMaxKey(m: map<int, nat>, top: int)
    requires IsMax(m.Keys, top)
    ensures (m - {top}).Keys == m.Keys - {top}
    ensures |(m - {top}).Keys| == |m.Keys| - 1
    ensures forall k :: k in m - {top} ==> k < top && (m - {top})[k] == m[k]
  {
    assert (m - {top}).Keys == m.Keys - {top};
  }

  /** The entries of the dictionary as buckets sorted by price, descending
      (the map/sort expression of calculatePOC): every key exactly once, with
      its volume, in strictly descending order. */
  function BucketsDesc(m: map<int, nat>): (bs: seq<Bucket>)
    ensures StrictlyDescending(bs)
    ensures Prices(bs) == m.Keys
    ensures forall b :: b in bs ==> b.price in m && b.volume == m[b.price]
    ensures |bs| == |m.Keys|
    decreases |m.Keys|
  {
    if m.Keys == {} then []
    else
      var top := MaxKey(m.Keys);
      var rest := m - {top};
      RemoveMaxKey(m, top);
      var tail := BucketsDesc(rest);
      ConsDescending(Bucket(top, m[top]), tail);
      [Bucket(top, m[top])] + tail
  }

  /** What calculatePOC returns for a non-empty window. */
  ghost function ProfileOf(bars: seq<Bar>): (p: Profile)
    ensures |p.buckets| == |Floors(bars)|
    ensures p.buckets == [] <==> bars == []
  {
    NoFloorsWithoutBars(bars);
    var m := VolumeMap(bars);
    Profile(PocOf(m), BucketsDesc(m))
  }

  // ---------------------------------------------------------------------------
  // Volume conservation

  /** The bars that do not fall into the bin `price`. */
  function Without(bars: seq<Bar>, price: int): seq<Bar>
  {
    if bars == [] then []
    else
      var last := bars[|bars| - 1];
      Without(bars[..|bars| - 1], price) + (if BucketFloor(last.close) == price then [] else [last])
  }

  lemma {:induction false} WithoutSplitsTotal(bars: seq<Bar>, price: int)
    ensures TotalVolume(bars) == VolumeAt(bars, price) + TotalVolume(Without(bars, price))
  {
    if bars != [] {
      var init, last := bars[..|bars| - 1], bars[|bars| - 1];
      WithoutSplitsTotal(init, price);
      var w := Without(init, price);
      if BucketFloor(last.close) != price {
        assert Without(bars, price) == w + [last];
        assert (w + [last])[..|w + [last]| - 1] == w;
      } else {
        assert Without(bars, price) == w;
      }
    }
  }

  lemma {:induction false} WithoutKeepsOtherBins(bars: seq<Bar>, price: int, q: int)
    requires q != price
    ensures VolumeAt(Without(bars, price), q) == VolumeAt(bars, q)
  {
    if bars != [] {
      var init, last := bars[..|bars| - 1], bars[|bars| - 1];
      WithoutKeepsOtherBins(init, price, q);
      var w := Without(init, price);
      if BucketFloor(last.close) != price {
        assert Without(bars, price) == w + [last];
        assert (w + [last])[..|w + [last]| - 1] == w;
      } else {
        assert Without(bars, price) == w;
      }
    }
  }

  lemma {:induction false} WithoutFloors(bars: seq<Bar>, price: int)
    ensures Floors(Without(bars, price)) == Floors(bars) - {price}
  {
    if bars != [] {
      var init, last := bars[..|bars| - 1], bars[|bars| - 1];
      WithoutFloors(init, price);
      var w := Without(init, price);
      if BucketFloor(last.close) != price {
        assert Without(bars, price) == w + [last];
        assert (w + [last])[..|w + [last]| - 1] == w;
      } else {
        assert Without(bars, price) == w;
      }
    }
  }

  lemma NoFloorsWithoutBars(bars: seq<Bar>)
    ensures Floors(bars) == {} <==> bars == []
  {
    if bars != [] {
      assert BucketFloor(bars[|bars| - 1].close) in Floors(bars);
    }
  }

  lemma {:induction false} DescendingTail(bs: seq<Bucket>)
    requires bs != [] && StrictlyDescending(bs)
    ensures StrictlyDescending(bs[1..])
    ensures bs[0].price !in Prices(bs[1..])
  {
    PricesMembers(bs[1..]);
    assert forall k :: 0 <= k < |bs[1..]| ==> bs[1..][k].price < bs[0].price;
    if bs[0].price in Prices(bs[1..]) {
      assert false;
    }
  }

  lemma {:induction false} PricesMembers(bs: seq<Bucket>)
    ensures forall k :: 0 <= k < |bs| ==> bs[k].price in Prices(bs)
    ensures forall p :: p in Prices(bs) ==> exists k :: 0 <= k < |bs| && bs[k].price == p
  {
    if bs != [] {
      PricesMembers(bs[1..]);
      forall p | p in Prices(bs)
        ensures exists k :: 0 <= k < |bs| && bs[k].price == p
      {
        if p != bs[0].price {
          var k :| 0 <= k < |bs[1..]| && bs[1..][k].price == p;
          assert bs[k + 1].price == p;
        }
      }
    }
  }

  /** A bucket list with unique prices that covers exactly the bins of the
      bars, each with the bin's summed volume, holds all of the bars'
      volume. */
  lemma {:induction false} VolumeConserved(bars: seq<Bar>, bs: seq<Bucket>)
    requires StrictlyDescending(bs)
    requires Prices(bs) == Floors(bars)
    requires forall b :: b in bs ==> b.volume == VolumeAt(bars, b.price)
    ensures SumVolumes(bs) == TotalVolume(bars)
    decreases |bs|
  {
    if bs == [] {
      NoFloorsWithoutBars(bars);
    } else {
      var p := bs[0].price;
      var rest := Without(bars, p);
      DescendingTail(bs);
      WithoutFloors(bars, p);
      assert Prices(bs[1..]) == Floors(rest);
      forall b | b in bs[1..]
        ensures b.volume == VolumeAt(rest, b.price)
      {
        PricesMembers(bs[1..]);
        var k :| 0 <= k < |bs[1..]| && bs[1..][k] == b;
        assert b.price in Prices(bs[1..]);
        WithoutKeepsOtherBins(bars, p, b.price);
      }
      VolumeConserved(rest, bs[1..]);
      WithoutSplitsTotal(bars, p);
    }
  }

  /** What calculatePOC's result satisfies: unique
      prices sorted descending, exactly the bins of the bars, each bucket
      holding its bin's summed volume, all volume accounted for, and the POC
      chosen by the running-maximum rule. */
  lemma ProfileOfIsVolumeProfile(bars: seq<Bar>)
    ensures StrictlyDescending(ProfileOf(bars).buckets)
    ensures Prices(ProfileOf(bars).buckets) == Floors(bars)
    ensures forall b :: b in ProfileOf(bars).buckets ==> b.volume == VolumeAt(bars, b.price)
    ensures SumVolumes(ProfileOf(bars).buckets) == TotalVolume(bars)
    ensures IsPocOf(VolumeMap(bars), ProfileOf(bars).poc)
  {
    VolumeConserved(bars, ProfileOf(bars).buckets);
  }

  // ---------------------------------------------------------------------------
  // calculatePOC

  lemma {:induction false} VolumeOutsideFloors(bars: seq<Bar>, price: int)
    requires price !in Floors(bars)
    ensures VolumeAt(bars, price) == 0
  {
    if bars != [] {
      VolumeOutsideFloors(bars[..|bars| - 1], price);
    }
  }

  /** The forEach of calculatePOC: every bar's volume added into the bin of
      its close, creating a bin at 0 when the bin is missing or holds 0. */
  method SumByBin(bars: seq<Bar>) returns (volumeProfile: map<int, nat>)
    ensures volumeProfile.Keys == Floors(bars)
    ensures forall p :: p in volumeProfile ==> volumeProfile[p] == VolumeAt(bars, p)
  {
    volumeProfile := map[];
    for i := 0 to |bars|
      invariant volumeProfile.Keys == Floors(bars[..i])
      invariant forall p :: p in volumeProfile ==> volumeProfile[p] == VolumeAt(bars[..i], p)
    {
      assert bars[..i + 1][..i] == bars[..i];
      var priceRange := BucketFloor(bars[i].close);
      if priceRange !in volumeProfile || volumeProfile[priceRange] == 0 {
        if priceRange !in volumeProfile {
          VolumeOutsideFloors(bars[..i], priceRange);
        }
        volumeProfile := volumeProfile[priceRange := 0];
      }
      volumeProfile := volumeProfile[priceRange := volumeProfile[priceRange] + bars[i].volume];
    }
    assert bars[..|bars|] == bars;
  }

  /** The Object.entries loop of calculatePOC: bins visited in ascending
      price order, the candidate replaced only on a strictly greater volume,
      starting from maximum 0 and POC 0. */
  method RunningMaxPoc(volumeProfile: map<int, nat>) returns (poc: int)
    ensures IsPocOf(volumeProfile, poc)
  {
    var maxVolume: nat := 0;
    poc := 0;
    var seen: set<int> := {};
    var pending := volumeProfile.Keys;
    ghost var last := 0;
    while pending != {}
      invariant seen + pending == volumeProfile.Keys && seen !! pending
      invariant seen != {} ==> (forall d :: d in seen ==> d <= last) && (forall q :: q in pending ==> last < q)
      invariant maxVolume == 0 ==> poc == 0 && forall d :: d in seen ==> volumeProfile[d] == 0
      invariant maxVolume > 0 ==> BestIn(volumeProfile, seen, poc) && volumeProfile[poc] == maxVolume
      decreases |pending|
    {
      var price := MinKey(pending);
      var volume := volumeProfile[price];
      if volume > maxVolume {
        maxVolume := volume;
        poc := price;
      }
      seen := seen + {price};
      pending := pending - {price};
      last := price;
    }
  }

  /** calculatePOC: null (None) for an empty window, otherwise the profile of
      the bars. */
  method CalculatePoc(bars: seq<Bar>) returns (r: Option<Profile>)
    ensures r.None? <==> bars == []
    ensures r.Some? ==> StrictlyDescending(r.value.buckets)
    ensures r.Some? ==> Prices(r.value.buckets) == Floors(bars)
    ensures r.Some? ==> forall b :: b in r.value.buckets ==> b.volume == VolumeAt(bars, b.price)
    ensures r.Some? ==> SumVolumes(r.value.buckets) == TotalVolume(bars)
    ensures r.Some? ==> IsPocOf(VolumeMap(bars), r.value.poc)
    ensures r.Some? ==> r.value == ProfileOf(bars)
  {
    if |bars| == 0 {
      return None;
    }
    var volumeProfile := SumByBin(bars);
    assert volumeProfile == VolumeMap(bars);
    var poc := RunningMaxPoc(volumeProfile);
    PocUnique(volumeProfile, poc, PocOf(volumeProfile));
    var buckets := BucketsDesc(volumeProfile);
    VolumeConserved(bars, buckets);
    r := Some(Profile(poc, buckets));
  }

  // ---------------------------------------------------------------------------
  // Consequences

  lemma {:induction false} BarVolumeInItsBin(bars: seq<Bar>, k: nat)
    requires k < |bars|
    ensures BucketFloor(bars[k].close) in Floors(bars)
    ensures VolumeAt(bars, BucketFloor(bars[k].close)) >= bars[k].volume
  {
    var init := bars[..|bars| - 1];
    if k < |bars| - 1 {
      assert init[k] == bars[k];
      BarVolumeInItsBin(init, k);
    }
  }

  /** When every bar has positive volume (what the Yahoo pre-filter
      guarantees), the POC is the price of a bucket of maximal volume, never
      the initial 0 of the loop (unless that bucket is the 0 bin). */
  lemma PositiveVolumesGiveRealPoc(bars: seq<Bar>)
    requires bars != []
    requires forall b :: b in bars ==> b.volume > 0
    ensures ProfileOf(bars).poc in Prices(ProfileOf(bars).buckets)
    ensures forall b :: b in ProfileOf(bars).buckets ==>
              b.volume <= VolumeAt(bars, ProfileOf(bars).poc)
  {
    var m, p := VolumeMap(bars), ProfileOf(bars);
    assert p == Profile(PocOf(m), BucketsDesc(m));
    BarVolumeInItsBin(bars, 0);
    var first := BucketFloor(bars[0].close);
    assert first in m && m[first] > 0;
    assert p.poc in m;
    assert Prices(p.buckets) == m.Keys;
    forall b | b in p.buckets
      ensures b.volume <= VolumeAt(bars, p.poc)
    {
      assert b.price in m && b.volume == m[b.price];
    }
  }

  /** When every bar has zero volume (possible for the unfiltered KIS
      history), the POC stays 0. */
  lemma ZeroVolumesLeavePocAtZero(bars: seq<Bar>)
    requires forall b :: b in bars ==> b.volume == 0
    ensures ProfileOf(bars).poc == 0
  {
    ZeroVolumesEverywhere(bars);
    assert forall q :: q in VolumeMap(bars) ==> VolumeMap(bars)[q] == 0;
  }

  lemma {:induction false} ZeroVolumesEverywhere(bars: seq<Bar>)
    requires forall b :: b in bars ==> b.volume == 0
    ensures forall q :: VolumeAt(bars, q) == 0
  {
    if bars != [] {
      var init := bars[..|bars| - 1];
      assert forall b :: b in init ==> b in bars;
      ZeroVolumesEverywhere(init);
    }
  }

  /** The dictionary of the three-bar example: bins 10000:300 and 10100:50. */
  lemma ThreeBarMap(b0: Bar, b1: Bar, b2: Bar)
    requires b0.close == 10050 && b0.volume == 100
    requires b1.close == 10080 && b1.volume == 200
    requires b2.close == 10120 && b2.volume == 50
    ensures VolumeMap([b0, b1, b2]) == map[10000 := 300, 10100 := 50]
  {
    var bars := [b0, b1, b2];
    assert bars[..2] == [b0, b1];
    assert [b0, b1][..1] == [b0];
    assert [b0][..0] == [];
    assert BucketFloor(b0.close) == 10000 && BucketFloor(b1.close) == 10000 && BucketFloor(b2.close) == 10100;
    assert Floors([b0]) == {10000};
    assert Floors([b0, b1]) == {10000};
    assert Floors(bars) == {10000, 10100};
    assert VolumeAt([b0][..0], 10000) == 0 && VolumeAt([b0][..0], 10100) == 0;
    assert VolumeAt([b0], 10000) == 100 && VolumeAt([b0], 10100) == 0;
    assert VolumeAt([b0, b1], 10000) == 300 && VolumeAt([b0, b1], 10100) == 0;
    assert VolumeAt(bars, 10000) == 300 && VolumeAt(bars, 10100) == 50;
  }

  /** The dictionary of the three-bar example, listed highest price first. */
  lemma TwoBinList(m: map<int, nat>)
    requires m == map[10000 := 300, 10100 := 50]
    ensures BucketsDesc(m) == [Bucket(10100, 50), Bucket(10000, 300)]
  {
    assert m.Keys == {10000, 10100};
    assert MaxKey(m.Keys) == 10100;
    var rest := m - {10100};
    assert rest == map[10000 := 300];
    assert rest.Keys == {10000};
    assert MaxKey(rest.Keys) == 10000;
    assert rest - {10000} == map[];
    assert BucketsDesc(map[]) == [];
    assert BucketsDesc(rest) == [Bucket(10000, 300)];
  }

  /** An example: closes 10050, 10080, 10120 with volumes 100, 200
      and 50 give the buckets 10100:50 and 10000:300, and POC 10000 (the
      bin 10000 holds 300, the bin 10100 only 50). */
  lemma ThreeBarExample()
    ensures
      var bars := [Bar(10050, 10050, 10050, 10050, 100), Bar(10080, 10080, 10080, 10080, 200),
                   Bar(10120, 10120, 10120, 10120, 50)];
      ProfileOf(bars) == Profile(10000, [Bucket(10100, 50), Bucket(10000, 300)])
  {
    var b0, b1, b2 := Bar(10050, 10050, 10050, 10050, 100), Bar(10080, 10080, 10080, 10080, 200),
                      Bar(10120, 10120, 10120, 10120, 50);
    ThreeBarMap(b0, b1, b2);
    var m := VolumeMap([b0, b1, b2]);
    assert IsPocOf(m, 10000);
    PocUnique(m, 10000, PocOf(m));
    TwoBinList(m);
  }
}
