/** The desktop shell's sampled pixel statistics of a captured page. */
module PixelStats {
  import opened Basics

  type byte = x: int | 0 <= x < 256

  const TARGET := 200000

  function Stride(total: nat): (n: nat)
    ensures n >= 1
  {
    if total / TARGET > 1 then total / TARGET else 1
  }

  function Packed(high: int, middle: int, low: int): int {
    high * 0x10000 + middle * 0x100 + low
  }

  /** The colour of pixel `i`: three of its four bytes, the first the most significant. */
  function ColorAt(bitmap: seq<byte>, i: nat): int {
    if 4 * i + 2 < |bitmap| then Packed(bitmap[4 * i], bitmap[4 * i + 1], bitmap[4 * i + 2]) else 0
  }

  /** The colours of the first `n` sampled pixels. */
  function Samples(bitmap: seq<byte>, stride: nat, n: nat): (s: seq<int>)
    ensures |s| == n
  {
    if n == 0 then [] else Samples(bitmap, stride, n - 1) + [ColorAt(bitmap, (n - 1) * stride)]
  }

  function Occurrences(s: seq<int>, key: int): (m: nat)
    ensures m <= |s|
  {
    if s == [] then 0 else Occurrences(s[..|s| - 1], key) + if s[|s| - 1] == key then 1 else 0
  }

  lemma OccurrencesSnoc(s: seq<int>, last: int, key: int)
    ensures Occurrences(s + [last], key) == Occurrences(s, key) + if last == key then 1 else 0
  {
    assert (s + [last])[..|s|] == s;
  }

  /** Keys in the order they were first seen, each with its count. */
  datatype Tally = Tally(order: seq<int>, counts: map<int, nat>)

  function Sum(t: Tally, n: nat): nat
    requires n <= |t.order| && forall k :: k in t.order ==> k in t.counts
  {
    if n == 0 then 0 else Sum(t, n - 1) + t.counts[t.order[n - 1]]
  }

  ghost predicate Distinct(s: seq<int>) {
    forall i, j :: 0 <= i < j < |s| ==> s[i] != s[j]
  }

  /** `t` is the tally of the colours in `s`. */
  ghost predicate Tallies(t: Tally, s: seq<int>) {
    && Distinct(t.order)
    && (forall k :: k in t.order <==> k in t.counts)
    && (forall k :: k in t.counts ==> t.counts[k] == Occurrences(s, k) > 0)
    && (forall k :: k !in t.counts ==> Occurrences(s, k) == 0)
    && Sum(t, |t.order|) == |s|
  }

  function Add(t: Tally, key: int): Tally {
    if key in t.counts then t.(counts := t.counts[key := t.counts[key] + 1])
    else Tally(t.order + [key], t.counts[key := 1])
  }

  lemma {:induction false} SumAfterAdd(t: Tally, key: int, n: nat)
    requires Distinct(t.order) && (forall k :: k in t.order <==> k in t.counts) && n <= |t.order|
    ensures Sum(Add(t, key), n) == Sum(t, n) + if key in t.order[..n] then 1 else 0
  {
    if n > 0 {
      SumAfterAdd(t, key, n - 1);
      assert t.order[..n] == t.order[..n - 1] + [t.order[n - 1]];
    }
  }

  lemma KeysAfterAdd(t: Tally, key: int)
    requires Distinct(t.order) && forall k :: k in t.order <==> k in t.counts
    ensures Distinct(Add(t, key).order) && forall k :: k in Add(t, key).order <==> k in Add(t, key).counts
  {
  }

  lemma OneMoreSample(t: Tally, s: seq<int>, key: int)
    requires Tallies(t, s)
    ensures Tallies(Add(t, key), s + [key])
  {
    hide Occurrences, Distinct;
    var u := Add(t, key);
    KeysAfterAdd(t, key);
    SumAfterAdd(t, key, |t.order|);
    assert t.order[..|t.order|] == t.order;
    assert Sum(u, |u.order|) == |s| + 1 by {
      hide Tallies;
    }
    forall k ensures Occurrences(s + [key], k) == Occurrences(s, k) + if k == key then 1 else 0 {
      OccurrencesSnoc(s, key, k);
    }
  }

  datatype Stats = Stats(width: nat, height: nat, sampled: nat, uniqueColors: nat,
    dominantColor: int, inkRatio: Option<real>)

  /** Entry `at` is the first of the most frequent ones. */
  ghost predicate FirstMost(t: Tally, at: int, key: int, count: nat) {
    && 0 <= at < |t.order| && t.order[at] == key && key in t.counts && t.counts[key] == count
    && (forall j :: 0 <= j < |t.order| ==> t.order[j] in t.counts && t.counts[t.order[j]] <= count)
    && (forall j :: 0 <= j < at ==> t.counts[t.order[j]] < count)
  }

  /** The first of the most frequent colours, and 0 when there is none. */
  method Dominant(t: Tally) returns (key: int, count: nat)
    requires forall j :: 0 <= j < |t.order| ==> t.order[j] in t.counts && t.counts[t.order[j]] > 0
    ensures t.order == [] ==> key == 0 && count == 0
    ensures t.order != [] ==> exists at :: FirstMost(t, at, key, count)
  {
    key, count := 0, 0;
    ghost var at := 0;
    for i := 0 to |t.order|
      invariant i == 0 ==> key == 0 && count == 0
      invariant i > 0 ==> 0 <= at < i && t.order[at] == key && t.counts[key] == count > 0
      invariant forall j :: 0 <= j < i ==> t.counts[t.order[j]] <= count
      invariant i > 0 ==> forall j :: 0 <= j < at ==> t.counts[t.order[j]] < count
    {
      var c := t.counts[t.order[i]];
      if c > count {
        key, count := t.order[i], c;
        at := i;
      }
    }
    if t.order != [] {
      assert FirstMost(t, at, key, count);
    }
  }

  /** How many pixels are sampled: all of them below 400000, else from 200000 to 399999. */
  lemma SampleCount(total: nat, n: nat)
    requires n * Stride(total) >= total && (n > 0 ==> (n - 1) * Stride(total) < total)
    ensures n == total <==> total < 2 * TARGET
    ensures total >= TARGET ==> TARGET <= n < 2 * TARGET
  {
    var s := Stride(total);
    if total < 2 * TARGET {
      assert s == 1;
    } else {
      assert s == total / TARGET && TARGET * s <= total < TARGET * s + TARGET;
      if n < TARGET {
        Monotone(n, TARGET - 1, s);
      }
      if n >= 2 * TARGET {
        Monotone(2 * TARGET - 1, n - 1, s);
      }
    }
  }

  lemma Monotone(a: nat, b: nat, t: nat)
    requires a <= b
    ensures a * t <= b * t
  {
  }

  /** `pixelStats`; the ratio is the value before rounding, and absent (not a number) for an empty image. */
  method Measure(bitmap: array<byte>, width: nat, height: nat) returns (r: Stats)
    requires bitmap.Length >= 4 * (width * height)
    ensures r.width == width && r.height == height
    // As many samples as strides fit.
    ensures r.sampled * Stride(width * height) >= width * height
    ensures r.sampled > 0 ==> (r.sampled - 1) * Stride(width * height) < width * height
    ensures Describes(r, Samples(bitmap[..], Stride(width * height), r.sampled))
  {
    hide Tallies, Occurrences, ColorAt, Samples, Stride;
    var total := width * height;
    var stride := Stride(total);
    var tally := Tally([], map[]);
    var sampled, i := 0, 0;
    NoSamples(bitmap[..], stride);
    while i < total
      invariant i == sampled * stride
      invariant sampled > 0 ==> (sampled - 1) * stride < total
      invariant Tallies(tally, Samples(bitmap[..], stride, sampled))
      decreases total - i
    {
      var offset := i * 4;
      var key := Packed(bitmap[offset], bitmap[offset + 1], bitmap[offset + 2]);
      NextSample(bitmap[..], stride, sampled);
      OneMoreSample(tally, Samples(bitmap[..], stride, sampled), key);
      tally := Add(tally, key);
      sampled := sampled + 1;
      Following(sampled, stride);
      i := i + stride;
    }
    ghost var samples := Samples(bitmap[..], stride, sampled);
    TalliesMeans(tally, samples);
    var topKey, topCount := Dominant(tally);
    if sampled == 0 {
      r := Stats(width, height, 0, 0, topKey, None);
      EmptyIsDescribed(r, samples);
      return;
    }
    var share := topCount as real / sampled as real;
    r := Stats(width, height, sampled, |tally.order|, topKey, Some(1.0 - share));
    TopDescribes(r, tally, samples, topCount, share);
  }

  ghost function Product(a: real, n: nat): real {
    a * n as real
  }

  ghost predicate Colors(order: seq<int>, samples: seq<int>) {
    Distinct(order) && forall k :: k in order <==> Occurrences(samples, k) > 0
  }

  /** What the statistics say about the sampled colours. */
  ghost predicate Describes(r: Stats, samples: seq<int>) {
    && r.sampled == |samples|
    && (exists order :: Colors(order, samples) && r.uniqueColors == |order|)
    && (samples == [] ==> r.inkRatio.None? && r.dominantColor == 0)
    && (samples != [] ==>
      && (forall k :: Occurrences(samples, k) <= Occurrences(samples, r.dominantColor))
      && r.inkRatio.Some? && 0.0 <= r.inkRatio.value < 1.0
      && (r.inkRatio.value == 0.0 <==> r.uniqueColors == 1)
      && Product(1.0 - r.inkRatio.value, |samples|) == Occurrences(samples, r.dominantColor) as real)
  }

  lemma NoSamples(bitmap: seq<byte>, stride: nat)
    ensures Tallies(Tally([], map[]), Samples(bitmap, stride, 0))
  {
  }

  lemma NextSample(bitmap: seq<byte>, stride: nat, n: nat)
    requires 4 * (n * stride) + 2 < |bitmap|
    ensures var i := 4 * (n * stride);
      Samples(bitmap, stride, n + 1) == Samples(bitmap, stride, n) + [Packed(bitmap[i], bitmap[i + 1], bitmap[i + 2])]
  {
  }

  lemma Following(n: nat, stride: nat)
    requires n > 0
    ensures n * stride == (n - 1) * stride + stride
  {
  }

  lemma EmptyIsDescribed(r: Stats, samples: seq<int>)
    requires samples == [] && r.sampled == r.uniqueColors == 0 && r.dominantColor == 0 && r.inkRatio.None?
    ensures Describes(r, samples)
  {
    assert Colors([], samples);
  }

  lemma {:induction false} SumAtLeast(t: Tally, n: nat, i: nat)
    requires i < n <= |t.order| && (forall k :: k in t.order ==> k in t.counts && t.counts[k] > 0)
    ensures Sum(t, n) >= t.counts[t.order[i]]
    ensures n > 1 ==> Sum(t, n) > t.counts[t.order[i]]
  {
    if i < n - 1 {
      SumAtLeast(t, n - 1, i);
    } else if n > 1 {
      SumAtLeast(t, n - 1, 0);
    }
  }

  lemma TalliesMeans(t: Tally, s: seq<int>)
    requires Tallies(t, s)
    ensures forall k :: k in t.order ==> k in t.counts && t.counts[k] > 0
    ensures forall j :: 0 <= j < |t.order| ==> t.order[j] in t.counts && t.counts[t.order[j]] > 0
    ensures Sum(t, |t.order|) == |s|
    ensures s != [] <==> t.order != []
  {
    if t.order != [] {
      assert t.order[0] in t.order;
      SumAtLeast(t, |t.order|, 0);
    }
  }

  lemma TopCounts(t: Tally, s: seq<int>, key: int, count: nat)
    requires s != [] && Tallies(t, s) && exists at :: FirstMost(t, at, key, count)
    ensures 0 < count <= |s| && (count == |s| <==> |t.order| == 1)
    ensures count == Occurrences(s, key) && forall k :: Occurrences(s, k) <= count
    ensures Colors(t.order, s)
  {
    hide Occurrences;
    TalliesMeans(t, s);
    var at :| FirstMost(t, at, key, count);
    SumAtLeast(t, |t.order|, at);
    forall k ensures Occurrences(s, k) <= count {
      if k in t.counts {
        assert k in t.order;
      }
    }
    if |t.order| == 1 {
      assert Sum(t, 1) == Sum(t, 0) + t.counts[t.order[0]];
    }
  }

  lemma TopDescribes(r: Stats, t: Tally, s: seq<int>, count: nat, share: real)
    requires s != [] && Tallies(t, s) && exists at :: FirstMost(t, at, r.dominantColor, count)
    requires share == count as real / |s| as real
    requires r.sampled == |s| && r.uniqueColors == |t.order| && r.inkRatio == Some(1.0 - share)
    ensures Describes(r, s)
  {
    hide Occurrences, Tallies, FirstMost, Colors, Sum, Product;
    TopCounts(t, s, r.dominantColor, count);
    ShareBounds(count, |s|, share);
  }

  lemma ShareBounds(top: nat, sampled: nat, share: real)
    requires 0 < top <= sampled && share == top as real / sampled as real
    ensures 0.0 < share <= 1.0 && (share == 1.0 <==> top == sampled)
    ensures Product(1.0 - (1.0 - share), sampled) == top as real
  {
    assert share * sampled as real == top as real;
  }

  /** `looksBlank` on the unrounded ratio; a comparison with not-a-number is false. */
  predicate LooksBlank(s: Stats) {
    (s.inkRatio.Some? && s.inkRatio.value < 0.005) || s.uniqueColors < 8
  }

  /** A page of one flat colour, or with nothing to sample, is always called blank. */
  lemma FlatPagesLookBlank(r: Stats, samples: seq<int>, key: int)
    requires Describes(r, samples) && forall k :: k in samples ==> k == key
    ensures LooksBlank(r)
  {
    var order :| Colors(order, samples) && r.uniqueColors == |order|;
    assert |order| > 1 ==> order[0] in order && order[1] in order && order[0] != order[1];
    forall k | k in order ensures k == key {
      OccursMeansIn(samples, k);
    }
  }

  lemma {:induction false} OccursMeansIn(s: seq<int>, key: int)
    ensures Occurrences(s, key) > 0 <==> key in s
  {
    if s != [] {
      OccursMeansIn(s[..|s| - 1], key);
      assert s == s[..|s| - 1] + [s[|s| - 1]];
    }
  }
}
