/** The metrics registry: bounded families of counters, gauges and histograms keyed by labels. */
module Registry {
  import opened Labels

  const MAX_SERIES := 2000

  datatype Call<X> = Call(labels: LabelMap, x: X)

  /** One call on a family: a new series is refused once the family is full. */
  function Bumped<A, X>(values: map<string, A>, key: string, zero: A, f: (A, X) -> A, x: X): map<string, A> {
    if key !in values && |values| >= MAX_SERIES then values
    else values[key := f(if key in values then values[key] else zero, x)]
  }

  /** A family after a sequence of calls. */
  ghost function Family<A, X>(zero: A, f: (A, X) -> A, calls: seq<Call<X>>): map<string, A> {
    if calls == [] then map[]
    else
      var last := calls[|calls| - 1];
      Bumped(Family(zero, f, calls[..|calls| - 1]), Key(last.labels), zero, f, last.x)
  }

  /** The values of the calls whose labels read as `visible`, in order. */
  ghost function Own<X>(calls: seq<Call<X>>, visible: LabelMap): seq<X> {
    if calls == [] then []
    else
      var last := calls[|calls| - 1];
      Own(calls[..|calls| - 1], visible) + (if Visible(last.labels) == visible then [last.x] else [])
  }

  function Folded<A, X>(zero: A, f: (A, X) -> A, xs: seq<X>): A {
    if xs == [] then zero else f(Folded(zero, f, xs[..|xs| - 1]), xs[|xs| - 1])
  }

  // ---------- a family is a map from label sets ----------

  lemma BumpedStaysBounded<A, X>(values: map<string, A>, key: string, zero: A, f: (A, X) -> A, x: X)
    requires |values| <= MAX_SERIES
    ensures |values| <= |Bumped(values, key, zero, f, x)| <= MAX_SERIES
    ensures key in Bumped(values, key, zero, f, x) || |values| == MAX_SERIES
  {
    var a := if key in values then values[key] else zero;
    assert values[key := f(a, x)].Keys == values.Keys + {key};
  }

  /**
   After any calls, an admitted series holds exactly what its own calls amount to, and a
   series that was called but is absent was refused by a full family.
   */
  lemma {:induction false} SeriesHoldsItsOwn<A, X>(zero: A, f: (A, X) -> A, calls: seq<Call<X>>, labels: LabelMap)
    ensures |Family(zero, f, calls)| <= 2000
    ensures Key(labels) in Family(zero, f, calls) ==>
      Family(zero, f, calls)[Key(labels)] == Folded(zero, f, Own(calls, Visible(labels)))
    ensures Key(labels) !in Family(zero, f, calls) ==>
      Own(calls, Visible(labels)) == [] || |Family(zero, f, calls)| == 2000
    decreases |calls|
  {
    if calls != [] {
      var before, last := calls[..|calls| - 1], calls[|calls| - 1];
      SeriesHoldsItsOwn(zero, f, before, labels);
      BumpedStaysBounded(Family(zero, f, before), Key(last.labels), zero, f, last.x);
      KeyIdentifiesLabels(labels, last.labels);
      var own := Own(before, Visible(labels));
      if Visible(last.labels) == Visible(labels) {
        assert (own + [last.x])[..|own|] == own;
      } else {
        assert own + [] == own;
      }
    }
  }

  /** Only a series that was called is admitted. */
  lemma {:induction false} AdmittedWasCalled<A, X>(zero: A, f: (A, X) -> A, calls: seq<Call<X>>, labels: LabelMap)
    requires Key(labels) in Family(zero, f, calls)
    ensures Own(calls, Visible(labels)) != []
    decreases |calls|
  {
    var before, last := calls[..|calls| - 1], calls[|calls| - 1];
    KeyIdentifiesLabels(labels, last.labels);
    if Key(labels) in Family(zero, f, before) {
      AdmittedWasCalled(zero, f, before, labels);
    }
  }

  /** Once a family is full, no further series ever gets in. */
  lemma {:induction false} FullFamilyIsClosed<A, X>(zero: A, f: (A, X) -> A, calls: seq<Call<X>>, n: nat)
    requires n <= |calls| && |Family(zero, f, calls[..n])| >= MAX_SERIES
    ensures Family(zero, f, calls).Keys == Family(zero, f, calls[..n]).Keys
    decreases |calls|
  {
    if n < |calls| {
      var before := calls[..|calls| - 1];
      assert before[..n] == calls[..n];
      FullFamilyIsClosed(zero, f, before, n);
    } else {
      assert calls[..n] == calls;
    }
  }

  // ---------- the three kinds of series ----------

  function Add(a: real, b: real): real {
    a + b
  }

  function Replace(a: real, b: real): real {
    b
  }

  datatype Histogram = Histogram(count: nat, sum: real, buckets: seq<nat>)

  function Zeros(n: nat): seq<nat> {
    seq(n, _ => 0)
  }

  /** One observation: every bucket whose bound is not below the value counts it. */
  function Observed(bounds: seq<real>, h: Histogram, x: real): Histogram {
    Histogram(h.count + 1, h.sum + x,
              seq(|h.buckets|, i requires 0 <= i < |h.buckets| =>
                h.buckets[i] + (if i < |bounds| && x <= bounds[i] then 1 else 0)))
  }

  function CountAtMost(xs: seq<real>, bound: real): nat {
    if xs == [] then 0 else CountAtMost(xs[..|xs| - 1], bound) + (if xs[|xs| - 1] <= bound then 1 else 0)
  }

  function Sum(xs: seq<real>): real {
    if xs == [] then 0.0 else Sum(xs[..|xs| - 1]) + xs[|xs| - 1]
  }

  function HistogramOf(bounds: seq<real>, xs: seq<real>): Histogram {
    Folded(Histogram(0, 0.0, Zeros(|bounds|)), (h, x) => Observed(bounds, h, x), xs)
  }

  /** Bucket `i` counts the observations of at most bound `i`. */
  lemma {:induction false} BucketsCount(bounds: seq<real>, xs: seq<real>)
    ensures var h := HistogramOf(bounds, xs);
      && h.count == |xs| && h.sum == Sum(xs) && |h.buckets| == |bounds|
      && forall i :: 0 <= i < |bounds| ==> h.buckets[i] == CountAtMost(xs, bounds[i])
  {
    if xs != [] {
      BucketsCount(bounds, xs[..|xs| - 1]);
    }
  }

  lemma {:induction false} CounterIsSum(xs: seq<real>)
    ensures Folded(0.0, Add, xs) == Sum(xs)
  {
    if xs != [] {
      CounterIsSum(xs[..|xs| - 1]);
    }
  }

  lemma GaugeIsLast(zero: real, xs: seq<real>)
    requires xs != []
    ensures Folded(zero, Replace, xs) == xs[|xs| - 1]
  {
  }

  /** What the text page prints for bucket `i`: the running sum of the stored buckets. */
  function Rendered(buckets: seq<nat>, i: nat): nat
    requires i < |buckets|
  {
    (if i == 0 then 0 else Rendered(buckets, i - 1)) + buckets[i]
  }

  /**
   The stored buckets are cumulative already, so the printed bucket is the number of
   observations up to its bound exactly when no lower bucket has counted anything.
   */
  lemma {:induction false} RenderedIsExactIff(bounds: seq<real>, xs: seq<real>, i: nat)
    requires i < |bounds|
    ensures |HistogramOf(bounds, xs).buckets| == |bounds|
    ensures Rendered(HistogramOf(bounds, xs).buckets, i) == CountAtMost(xs, bounds[i]) <==>
      forall k :: 0 <= k < i ==> CountAtMost(xs, bounds[k]) == 0
  {
    BucketsCount(bounds, xs);
    if i > 0 {
      RenderedIsExactIff(bounds, xs, i - 1);
    }
  }

  /** One observation within both of two bounds is printed twice under the second. */
  lemma RenderedCountsTwice(a: real, b: real, x: real)
    requires x <= a && x <= b
    ensures |HistogramOf([a, b], [x]).buckets| == 2
    ensures Rendered(HistogramOf([a, b], [x]).buckets, 1) == 2 && CountAtMost([x], b) == 1
  {
    BucketsCount([a, b], [x]);
    assert [x][..0] == [];
    assert CountAtMost([x], a) == 1 == CountAtMost([x], b);
  }

  // ---------- the registry ----------

  datatype HistogramFamily = HistogramFamily(bounds: seq<real>, values: map<string, Histogram>)

  class Registry {
    var counters: map<string, map<string, real>>
    var gauges: map<string, map<string, real>>
    var histograms: map<string, HistogramFamily>
    /** All calls so far, by kind and family. */
    ghost var counted: map<string, seq<Call<real>>>
    ghost var gauged: map<string, seq<Call<real>>>
    ghost var observed: map<string, seq<Call<real>>>

    ghost predicate Valid()
      reads this
    {
      && Reflects(counters, Add, counted)
      && Reflects(gauges, Replace, gauged)
      && HistogramsReflect(histograms, observed)
    }

    constructor ()
      ensures Valid() && counters == map[] && gauges == map[] && histograms == map[]
    {
      counters, gauges, histograms := map[], map[], map[];
      counted, gauged, observed := map[], map[], map[];
    }

    /** Every admitted counter is the exact sum of its own deltas, in a family of at most 2000. */
    lemma CountersAreExact(name: string, labels: LabelMap)
      requires Valid() && name in counters
      ensures |counters[name]| <= 2000
      ensures Key(labels) in counters[name] ==> counters[name][Key(labels)] == Sum(Own(counted[name], Visible(labels)))
    {
      SeriesHoldsItsOwn(0.0, Add, counted[name], labels);
      CounterIsSum(Own(counted[name], Visible(labels)));
    }

    /** Every admitted gauge is the last value set with its labels. */
    lemma GaugesAreExact(name: string, labels: LabelMap)
      requires Valid() && name in gauges
      ensures |gauges[name]| <= 2000
      ensures Key(labels) in gauges[name] ==>
        var own := Own(gauged[name], Visible(labels));
        own != [] && gauges[name][Key(labels)] == own[|own| - 1]
    {
      SeriesHoldsItsOwn(0.0, Replace, gauged[name], labels);
      if Key(labels) in gauges[name] {
        AdmittedWasCalled(0.0, Replace, gauged[name], labels);
        GaugeIsLast(0.0, Own(gauged[name], Visible(labels)));
      }
    }

    /** Every admitted histogram counts its own observations, bucket by bucket. */
    lemma HistogramsAreExact(name: string, labels: LabelMap, i: nat)
      requires Valid() && name in histograms && i < |histograms[name].bounds|
      ensures |histograms[name].values| <= 2000
      ensures Key(labels) in histograms[name].values ==>
        var h, own := histograms[name].values[Key(labels)], Own(observed[name], Visible(labels));
        && h.count == |own| && h.sum == Sum(own)
        && |h.buckets| == |histograms[name].bounds|
        && h.buckets[i] == CountAtMost(own, histograms[name].bounds[i])
    {
      var bounds := histograms[name].bounds;
      var own := Own(observed[name], Visible(labels));
      SeriesHoldsItsOwn(Histogram(0, 0.0, Zeros(|bounds|)), (h, x) => Observed(bounds, h, x), observed[name], labels);
      BucketsCount(bounds, own);
      assert HistogramOf(bounds, own) ==
        Folded(Histogram(0, 0.0, Zeros(|bounds|)), (h, x) => Observed(bounds, h, x), own);
    }

    method IncCounter(name: string, labels: LabelMap, delta: real)
      requires Valid()
      modifies this
      ensures Valid() && gauges == old(gauges) && histograms == old(histograms)
      ensures counted == old(counted)[name := Calls(old(counted), name) + [Call(labels, delta)]]
      ensures gauged == old(gauged) && observed == old(observed)
    {
      var key := LabelKey(labels);
      var family := AddTo(if name in counters then counters[name] else map[], key, delta);
      CallReflected(counters, Add, counted, name, labels, delta);
      counters := counters[name := family];
      counted := counted[name := Calls(counted, name) + [Call(labels, delta)]];
    }

    method SetGauge(name: string, labels: LabelMap, value: real)
      requires Valid()
      modifies this
      ensures Valid() && counters == old(counters) && histograms == old(histograms)
      ensures gauged == old(gauged)[name := Calls(old(gauged), name) + [Call(labels, value)]]
      ensures counted == old(counted) && observed == old(observed)
    {
      var key := LabelKey(labels);
      var family := PutIn(if name in gauges then gauges[name] else map[], key, value);
      CallReflected(gauges, Replace, gauged, name, labels, value);
      gauges := gauges[name := family];
      gauged := gauged[name := Calls(gauged, name) + [Call(labels, value)]];
    }

    /** The bounds of a family are those of its first call. */
    method ObserveHistogram(name: string, labels: LabelMap, value: real, bounds: seq<real>)
      requires Valid()
      modifies this
      ensures Valid() && counters == old(counters) && gauges == old(gauges)
      ensures observed == old(observed)[name := Calls(old(observed), name) + [Call(labels, value)]]
      ensures counted == old(counted) && gauged == old(gauged)
      ensures histograms[name].bounds == if name in old(histograms) then old(histograms)[name].bounds else bounds
      ensures forall n :: n != name ==> (n in histograms <==> n in old(histograms))
      ensures forall n :: n != name && n in histograms ==> histograms[n] == old(histograms)[n]
    {
      var family := if name in histograms then histograms[name] else HistogramFamily(bounds, map[]);
      var key := LabelKey(labels);
      var values := ObserveIn(family, key, value);
      ObservationReflected(histograms, observed, name, labels, value, family);
      histograms := histograms[name := HistogramFamily(family.bounds, values)];
      observed := observed[name := Calls(observed, name) + [Call(labels, value)]];
    }
  }

  method AddTo(values: map<string, real>, key: string, delta: real) returns (next: map<string, real>)
    ensures next == Bumped(values, key, 0.0, Add, delta)
  {
    if key !in values && |values| >= MAX_SERIES {
      return values;
    }
    next := values[key := (if key in values then values[key] else 0.0) + delta];
  }

  method PutIn(values: map<string, real>, key: string, value: real) returns (next: map<string, real>)
    ensures next == Bumped(values, key, 0.0, Replace, value)
  {
    if key !in values && |values| >= MAX_SERIES {
      return values;
    }
    next := values[key := value];
  }

  method ObserveIn(family: HistogramFamily, key: string, value: real) returns (next: map<string, Histogram>)
    ensures next == Bumped(family.values, key, Histogram(0, 0.0, Zeros(|family.bounds|)),
                           (h, x) => Observed(family.bounds, h, x), value)
  {
    if key !in family.values && |family.values| >= MAX_SERIES {
      return family.values;
    }
    var entry := if key in family.values then family.values[key] else Histogram(0, 0.0, Zeros(|family.bounds|));
    entry := Observe(family.bounds, entry, value);
    next := family.values[key := entry];
  }

  /** Each family is what its calls make of it. */
  ghost predicate Reflects(families: map<string, map<string, real>>, f: (real, real) -> real, calls: map<string, seq<Call<real>>>) {
    families.Keys == calls.Keys && forall n :: n in families ==> families[n] == Family(0.0, f, calls[n])
  }

  ghost predicate HistogramsReflect(families: map<string, HistogramFamily>, calls: map<string, seq<Call<real>>>) {
    families.Keys == calls.Keys && forall n :: n in families ==> families[n].values == Histograms(families[n].bounds, calls[n])
  }

  lemma FamilyGrows<A, X>(zero: A, f: (A, X) -> A, calls: seq<Call<X>>, labels: LabelMap, x: X)
    ensures Family(zero, f, calls + [Call(labels, x)]) == Bumped(Family(zero, f, calls), Key(labels), zero, f, x)
  {
    assert (calls + [Call(labels, x)])[..|calls|] == calls;
  }

  lemma CallReflected(families: map<string, map<string, real>>, f: (real, real) -> real,
                      calls: map<string, seq<Call<real>>>, name: string, labels: LabelMap, x: real)
    requires Reflects(families, f, calls)
    ensures var family := if name in families then families[name] else map[];
      Reflects(families[name := Bumped(family, Key(labels), 0.0, f, x)], f,
               calls[name := Calls(calls, name) + [Call(labels, x)]])
  {
    FamilyGrows(0.0, f, Calls(calls, name), labels, x);
  }

  lemma ObservationReflected(families: map<string, HistogramFamily>, calls: map<string, seq<Call<real>>>,
                             name: string, labels: LabelMap, x: real, family: HistogramFamily)
    requires HistogramsReflect(families, calls)
    requires if name in families then family == families[name] else family.values == map[]
    ensures var values := Bumped(family.values, Key(labels), Histogram(0, 0.0, Zeros(|family.bounds|)),
                                 (h, x) => Observed(family.bounds, h, x), x);
      HistogramsReflect(families[name := HistogramFamily(family.bounds, values)],
                        calls[name := Calls(calls, name) + [Call(labels, x)]])
  {
    FamilyGrows(Histogram(0, 0.0, Zeros(|family.bounds|)), (h, x) => Observed(family.bounds, h, x),
                Calls(calls, name), labels, x);
  }

  ghost function Calls(all: map<string, seq<Call<real>>>, name: string): seq<Call<real>> {
    if name in all then all[name] else []
  }

  ghost function Histograms(bounds: seq<real>, calls: seq<Call<real>>): map<string, Histogram> {
    Family(Histogram(0, 0.0, Zeros(|bounds|)), (h, x) => Observed(bounds, h, x), calls)
  }

  /** The update of one entry, bucket by bucket. */
  method Observe(bounds: seq<real>, entry: Histogram, value: real) returns (next: Histogram)
    ensures next == Observed(bounds, entry, value)
  {
    var buckets := entry.buckets;
    for i := 0 to |bounds|
      invariant |buckets| == |entry.buckets|
      invariant forall k :: 0 <= k < |buckets| ==>
        buckets[k] == entry.buckets[k] + (if k < i && value <= bounds[k] then 1 else 0)
    {
      if value <= bounds[i] && i < |buckets| {
        buckets := buckets[i := buckets[i] + 1];
      }
    }
    next := Histogram(entry.count + 1, entry.sum + value, buckets);
    assert next.buckets == Observed(bounds, entry, value).buckets;
  }
}
