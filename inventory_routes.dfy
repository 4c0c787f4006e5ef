// Analytics handlers of the inventory service (pkg/inventory/http_routes.go):
// the connection scope of a request, the metric listing with its minimum
// count, the "count" ordering of metrics, and the tag-value composition
// with its top values and the rest summed into "others". Database and
// Elasticsearch answers are parameters: the filtered metric list and the
// per-metric resource counts.

module InventoryRoutes {
  import opened Common

  /** The largest number of connections one analytics request may name. */
  const MaxConns: nat := 100

  /** A handler's answer: a value, an HTTP rejection, or an upstream error passed through. */
  datatype Reply<T> = Done(value: T) | Rejected(status: nat, message: string) | Failed(error: string)

  // ---------------------------------------------------------------------
  // Connection scope
  // ---------------------------------------------------------------------

  /**
   * getConnectionIdFilterFromParams: explicit IDs, or the IDs of a
   * connection group (looked up by `groupIds`), never both; `None` means
   * no filter. A filter it returns is never empty.
   */
  function ConnectionIdFilter(connectionIds: seq<string>, connectionGroup: string,
                              groupIds: string -> Result<seq<string>>): (r: Reply<Option<seq<string>>>)
    ensures r == Done(None) <==> |connectionIds| == 0 && connectionGroup == ""
    ensures |connectionIds| > 0 && connectionGroup != "" ==>
      r == Rejected(400, "connectionId and connectionGroup cannot be used together")
    ensures |connectionIds| > 0 && connectionGroup == "" ==> r == Done(Some(connectionIds))
    ensures (|connectionIds| == 0 && connectionGroup != "" && groupIds(connectionGroup).Ok? &&
             |groupIds(connectionGroup).value| == 0) ==> r == Rejected(400, "connectionGroup has no connections")
    ensures r.Failed? <==> |connectionIds| == 0 && connectionGroup != "" && groupIds(connectionGroup).Err?
    ensures r.Done? && r.value.Some? ==> |r.value.value| > 0
  {
    if |connectionIds| == 0 && connectionGroup == "" then Done(None)
    else if |connectionIds| > 0 && connectionGroup != "" then
      Rejected(400, "connectionId and connectionGroup cannot be used together")
    else if |connectionIds| > 0 then Done(Some(connectionIds))
    else
      match groupIds(connectionGroup)
      case Err(e) => Failed(e)
      case Ok(ids) =>
        if |ids| == 0 then Rejected(400, "connectionGroup has no connections") else Done(Some(ids))
  }

  /** The scope of ListAnalyticsMetricsHandler and ListAnalyticsComposition: the filter, then at most MaxConns IDs. */
  function ConnectionScope(connectionIds: seq<string>, connectionGroup: string,
                           groupIds: string -> Result<seq<string>>): (r: Reply<Option<seq<string>>>)
    ensures r.Done? && r.value.Some? ==> 0 < |r.value.value| <= MaxConns
    ensures ConnectionIdFilter(connectionIds, connectionGroup, groupIds).Done? ==> (
      var f := ConnectionIdFilter(connectionIds, connectionGroup, groupIds).value;
      r == if f.Some? && |f.value| > MaxConns then Rejected(400, "too many connections") else Done(f))
    ensures !ConnectionIdFilter(connectionIds, connectionGroup, groupIds).Done? ==>
      r == ConnectionIdFilter(connectionIds, connectionGroup, groupIds)
  {
    match ConnectionIdFilter(connectionIds, connectionGroup, groupIds)
    case Done(f) => if f.Some? && |f.value| > MaxConns then Rejected(400, "too many connections") else Done(f)
    case Rejected(s, m) => Rejected(s, m)
    case Failed(e) => Failed(e)
  }

  // ---------------------------------------------------------------------
  // Metric listing
  // ---------------------------------------------------------------------

  datatype AnalyticMetric = AnalyticMetric(id: string, name: string, tags: map<string, seq<string>>)

  datatype ApiMetric = ApiMetric(id: string, name: string, count: Option<int>, oldCount: Option<int>)

  /** A metric's count is attached iff it is indexed with at least `minCount` resources. */
  function AttachedCount(m: AnalyticMetric, indexed: map<string, int>, minCount: int): (c: Option<int>)
    ensures c.Some? <==> m.id in indexed && indexed[m.id] >= minCount
    ensures c.Some? ==> c.value == indexed[m.id]
  {
    if m.id in indexed && indexed[m.id] >= minCount then Some(indexed[m.id]) else None
  }

  /** A metric is listed iff `minCount` is 0 or it carries a count of at least `minCount`. */
  predicate Listed(count: Option<int>, minCount: int)
  {
    minCount == 0 || (count.Some? && count.value >= minCount)
  }

  /** The metrics ListAnalyticsMetrics answers with, in the order of the filtered list. */
  function ListedMetrics(mts: seq<AnalyticMetric>, indexed: map<string, int>, minCount: int): seq<ApiMetric>
  {
    if |mts| == 0 then []
    else
      var m := mts[|mts| - 1];
      var c := AttachedCount(m, indexed, minCount);
      ListedMetrics(mts[..|mts| - 1], indexed, minCount) + (if Listed(c, minCount) then [ApiMetric(m.id, m.name, c, None)] else [])
  }

  /** The sum of the attached counts. */
  function TotalAttached(mts: seq<AnalyticMetric>, indexed: map<string, int>, minCount: int): int
  {
    if |mts| == 0 then 0
    else
      var c := AttachedCount(mts[|mts| - 1], indexed, minCount);
      TotalAttached(mts[..|mts| - 1], indexed, minCount) + (if c.Some? then c.value else 0)
  }

  function SumCounts(ms: seq<ApiMetric>): int
  {
    if |ms| == 0 then 0 else SumCounts(ms[..|ms| - 1]) + (if ms[|ms| - 1].count.Some? then ms[|ms| - 1].count.value else 0)
  }

  /** ListAnalyticsMetrics after the database and Elasticsearch answers, loop for loop. */
  method ListAnalyticsMetrics(mts: seq<AnalyticMetric>, indexed: map<string, int>, minCount: int)
    returns (totalCount: int, apiMetrics: seq<ApiMetric>)
    ensures totalCount == TotalAttached(mts, indexed, minCount)
    ensures apiMetrics == ListedMetrics(mts, indexed, minCount)
  {
    apiMetrics := [];
    totalCount := 0;
    var i := 0;
    while i < |mts|
      invariant 0 <= i <= |mts|
      invariant totalCount == TotalAttached(mts[..i], indexed, minCount)
      invariant apiMetrics == ListedMetrics(mts[..i], indexed, minCount)
    {
      var metric := mts[i];
      assert mts[..i + 1][..i] == mts[..i];
      var apiMetric := ApiMetric(metric.id, metric.name, None, None);
      if metric.id in indexed && indexed[metric.id] >= minCount {
        var count := indexed[metric.id];
        apiMetric := apiMetric.(count := Some(count));
        totalCount := totalCount + count;
      }
      if minCount == 0 || (apiMetric.count.Some? && apiMetric.count.value >= minCount) {
        apiMetrics := apiMetrics + [apiMetric];
      }
      i := i + 1;
    }
    assert mts[..|mts|] == mts;
  }

  /**
   * A listed metric carries its indexed count exactly when that count
   * reaches `minCount`; with a positive `minCount` every listed metric
   * carries one, and every metric whose count reaches it is listed.
   */
  lemma {:induction false} ListedMetricsRule(mts: seq<AnalyticMetric>, indexed: map<string, int>, minCount: int)
    ensures forall a :: a in ListedMetrics(mts, indexed, minCount) ==> (
      && (a.count.Some? ==> a.id in indexed && a.count.value == indexed[a.id] >= minCount)
      && (minCount != 0 ==> a.count.Some?))
    ensures forall m :: m in mts && m.id in indexed && indexed[m.id] >= minCount ==>
      ApiMetric(m.id, m.name, Some(indexed[m.id]), None) in ListedMetrics(mts, indexed, minCount)
    // with no minimum every metric is listed, in order, with its attached count
    ensures minCount == 0 ==> |ListedMetrics(mts, indexed, minCount)| == |mts|
    ensures minCount == 0 ==> forall i :: 0 <= i < |mts| ==>
      ListedMetrics(mts, indexed, minCount)[i] == ApiMetric(mts[i].id, mts[i].name, AttachedCount(mts[i], indexed, minCount), None)
  {
    if |mts| > 0 {
      var init := mts[..|mts| - 1];
      assert mts == init + [mts[|mts| - 1]];
      ListedMetricsRule(init, indexed, minCount);
      if minCount == 0 {
        forall i | 0 <= i < |init|
          ensures ListedMetrics(mts, indexed, minCount)[i] == ListedMetrics(init, indexed, minCount)[i]
        {
        }
      }
    }
  }

  /** totalCount is exactly the sum of the counts the listed metrics carry. */
  lemma {:induction false} TotalIsSumOfListedCounts(mts: seq<AnalyticMetric>, indexed: map<string, int>, minCount: int)
    ensures TotalAttached(mts, indexed, minCount) == SumCounts(ListedMetrics(mts, indexed, minCount))
  {
    if |mts| > 0 {
      var init := mts[..|mts| - 1];
      TotalIsSumOfListedCounts(init, indexed, minCount);
      var c := AttachedCount(mts[|mts| - 1], indexed, minCount);
      var prev := ListedMetrics(init, indexed, minCount);
      if Listed(c, minCount) {
        var next := prev + [ApiMetric(mts[|mts| - 1].id, mts[|mts| - 1].name, c, None)];
        assert next[..|next| - 1] == prev;
      } else {
        assert c.None?;
        assert prev + [] == prev;
      }
    }
  }

  // ---------------------------------------------------------------------
  // The "count" ordering
  // ---------------------------------------------------------------------

  /** Go's `<` on strings: lexicographic on characters, a proper prefix first. */
  predicate NameLess(a: string, b: string)
  {
    if |a| == 0 then |b| > 0
    else if |b| == 0 then false
    else if a[0] != b[0] then a[0] < b[0]
    else NameLess(a[1..], b[1..])
  }

  lemma {:induction false} NameLessIrreflexive(a: string)
    ensures !NameLess(a, a)
  {
    if |a| > 0 {
      NameLessIrreflexive(a[1..]);
    }
  }

  lemma {:induction false} NameLessTransitive(a: string, b: string, c: string)
    requires NameLess(a, b) && NameLess(b, c)
    ensures NameLess(a, c)
  {
    if |a| > 0 && |b| > 0 && |c| > 0 && a[0] == b[0] && b[0] == c[0] {
      NameLessTransitive(a[1..], b[1..], c[1..]);
    }
  }

  lemma {:induction false} NameLessTotal(a: string, b: string)
    requires a != b
    ensures NameLess(a, b) || NameLess(b, a)
  {
    if |a| > 0 && |b| > 0 && a[0] == b[0] {
      assert a == [a[0]] + a[1..] && b == [b[0]] + b[1..];
      NameLessTotal(a[1..], b[1..]);
    }
  }

  /**
   * The "count" comparator: metrics with a count come before those
   * without, larger counts first, and otherwise by ascending name.
   */
  predicate CountLess(a: ApiMetric, b: ApiMetric)
  {
    if a.count.None? && b.count.None? then NameLess(a.name, b.name)
    else if a.count.None? then false
    else if b.count.None? then true
    else if a.count.value != b.count.value then a.count.value > b.count.value
    else NameLess(a.name, b.name)
  }

  /** The comparator orders counted metrics first and by descending count. */
  lemma CountLessRanks(a: ApiMetric, b: ApiMetric)
    ensures a.count.Some? && b.count.None? ==> CountLess(a, b) && !CountLess(b, a)
    ensures a.count.Some? && b.count.Some? && a.count.value > b.count.value ==> CountLess(a, b) && !CountLess(b, a)
    ensures a.count == b.count ==> (CountLess(a, b) <==> NameLess(a.name, b.name))
  {
    if a.count.Some? && b.count.Some? && a.count.value > b.count.value {
      assert !CountLess(b, a);
    }
  }

  /** The comparator is irreflexive and transitive: the two strict-order properties sort.Slice expects of its less function. */
  lemma CountLessIsStrictOrder(a: ApiMetric, b: ApiMetric, c: ApiMetric)
    ensures !CountLess(a, a)
    ensures CountLess(a, b) && CountLess(b, c) ==> CountLess(a, c)
  {
    NameLessIrreflexive(a.name);
    if CountLess(a, b) && CountLess(b, c) && NameLess(a.name, b.name) && NameLess(b.name, c.name) {
      NameLessTransitive(a.name, b.name, c.name);
    }
  }

  /** Two metrics with different names are always ordered one way or the other. */
  lemma CountLessTotalOnNames(a: ApiMetric, b: ApiMetric)
    requires a.name != b.name
    ensures CountLess(a, b) || CountLess(b, a)
  {
    NameLessTotal(a.name, b.name);
  }

  // ---------------------------------------------------------------------
  // Composition by tag value
  // ---------------------------------------------------------------------

  /** A tag key is accepted iff it is non-empty and not private. */
  predicate ValidTagKey(tagKey: string, privateTagPrefix: string)
  {
    tagKey != "" && !HasPrefix(tagKey, privateTagPrefix)
  }

  datatype Counts = Counts(current: int, oldCount: int)

  datatype ValueCount = ValueCount(value: string, counts: Counts)

  /** A missing metric reads as 0, as a Go map does. */
  function CountOf(indexed: map<string, int>, id: string): int
  {
    if id in indexed then indexed[id] else 0
  }

  /** The tag value a metric is counted under: the first value of the key, if any. */
  function FirstTagValue(m: AnalyticMetric, tagKey: string): (v: Option<string>)
    ensures v.Some? <==> tagKey in m.tags && |m.tags[tagKey]| > 0
    ensures v.Some? ==> v.value == m.tags[tagKey][0]
  {
    if tagKey in m.tags && |m.tags[tagKey]| > 0 then Some(m.tags[tagKey][0]) else None
  }

  function Values(pairs: seq<ValueCount>): set<string>
  {
    set p | p in pairs :: p.value
  }

  predicate DistinctValues(pairs: seq<ValueCount>)
  {
    forall i, j :: 0 <= i < j < |pairs| ==> pairs[i].value != pairs[j].value
  }

  function SumCurrent(pairs: seq<ValueCount>): int
  {
    if |pairs| == 0 then 0 else pairs[0].counts.current + SumCurrent(pairs[1..])
  }

  function SumOld(pairs: seq<ValueCount>): int
  {
    if |pairs| == 0 then 0 else pairs[0].counts.oldCount + SumOld(pairs[1..])
  }

  /** valueCountMap[v] += c, with the map as a list of distinct values in first-seen order. */
  function Credit(pairs: seq<ValueCount>, v: string, c: Counts): seq<ValueCount>
  {
    if |pairs| == 0 then [ValueCount(v, c)]
    else if pairs[0].value == v then
      [ValueCount(v, Counts(pairs[0].counts.current + c.current, pairs[0].counts.oldCount + c.oldCount))] + pairs[1..]
    else [pairs[0]] + Credit(pairs[1..], v, c)
  }

  /** Crediting adds exactly `c` to the sums. */
  lemma {:induction false} CreditAdds(pairs: seq<ValueCount>, v: string, c: Counts)
    ensures SumCurrent(Credit(pairs, v, c)) == SumCurrent(pairs) + c.current
    ensures SumOld(Credit(pairs, v, c)) == SumOld(pairs) + c.oldCount
  {
    if |pairs| > 0 && pairs[0].value != v {
      CreditAdds(pairs[1..], v, c);
      var r := Credit(pairs, v, c);
      assert r[1..] == Credit(pairs[1..], v, c);
    } else if |pairs| > 0 {
      var r := Credit(pairs, v, c);
      assert r[1..] == pairs[1..];
    }
  }

  /** Crediting names `v` and no other new value. */
  lemma {:induction false} CreditValues(pairs: seq<ValueCount>, v: string, c: Counts)
    ensures Values(Credit(pairs, v, c)) == Values(pairs) + {v}
  {
    if |pairs| > 0 {
      var r := Credit(pairs, v, c);
      assert pairs == [pairs[0]] + pairs[1..];
      assert Values(pairs) == {pairs[0].value} + Values(pairs[1..]);
      assert r == [r[0]] + r[1..];
      assert Values(r) == {r[0].value} + Values(r[1..]);
      if pairs[0].value != v {
        CreditValues(pairs[1..], v, c);
        assert r[1..] == Credit(pairs[1..], v, c);
      } else {
        assert r[1..] == pairs[1..];
      }
    }
  }

  /** Crediting keeps the values distinct. */
  lemma {:induction false} CreditDistinct(pairs: seq<ValueCount>, v: string, c: Counts)
    requires DistinctValues(pairs)
    ensures DistinctValues(Credit(pairs, v, c))
  {
    if |pairs| > 0 {
      var r := Credit(pairs, v, c);
      if pairs[0].value == v {
        forall i, j | 0 <= i < j < |r|
          ensures r[i].value != r[j].value
        {
          assert r[i].value == pairs[i].value && r[j].value == pairs[j].value;
        }
      } else {
        var rest := Credit(pairs[1..], v, c);
        CreditDistinct(pairs[1..], v, c);
        CreditValues(pairs[1..], v, c);
        assert r == [pairs[0]] + rest;
        forall j | 0 <= j < |rest|
          ensures rest[j].value != pairs[0].value
        {
          assert rest[j].value in Values(rest);
          if rest[j].value != v {
            var k :| 0 <= k < |pairs[1..]| && pairs[1..][k].value == rest[j].value;
            assert pairs[k + 1].value == rest[j].value;
          }
        }
      }
    }
  }

  /** The value counts of a list of metrics: each metric credits its first tag value. */
  function Composition(metrics: seq<AnalyticMetric>, tagKey: string,
                       indexed: map<string, int>, oldIndexed: map<string, int>): seq<ValueCount>
  {
    if |metrics| == 0 then []
    else
      var prev := Composition(metrics[..|metrics| - 1], tagKey, indexed, oldIndexed);
      var m := metrics[|metrics| - 1];
      match FirstTagValue(m, tagKey)
      case None => prev
      case Some(v) => Credit(prev, v, Counts(CountOf(indexed, m.id), CountOf(oldIndexed, m.id)))
  }

  /** The first tag values of the metrics, as a set. */
  function FirstTagValues(metrics: seq<AnalyticMetric>, tagKey: string): set<string>
  {
    if |metrics| == 0 then {}
    else
      FirstTagValues(metrics[..|metrics| - 1], tagKey) +
        (match FirstTagValue(metrics[|metrics| - 1], tagKey) case None => {} case Some(v) => {v})
  }

  /** The composition holds each first tag value exactly once. */
  lemma {:induction false} CompositionValues(metrics: seq<AnalyticMetric>, tagKey: string,
                                             indexed: map<string, int>, oldIndexed: map<string, int>)
    ensures DistinctValues(Composition(metrics, tagKey, indexed, oldIndexed))
    ensures Values(Composition(metrics, tagKey, indexed, oldIndexed)) == FirstTagValues(metrics, tagKey)
  {
    if |metrics| > 0 {
      var init := metrics[..|metrics| - 1];
      var m := metrics[|metrics| - 1];
      CompositionValues(init, tagKey, indexed, oldIndexed);
      var prev := Composition(init, tagKey, indexed, oldIndexed);
      if FirstTagValue(m, tagKey).Some? {
        var c := Counts(CountOf(indexed, m.id), CountOf(oldIndexed, m.id));
        CreditValues(prev, FirstTagValue(m, tagKey).value, c);
        CreditDistinct(prev, FirstTagValue(m, tagKey).value, c);
      }
    }
  }

  /**
   * The value-count loop of ListAnalyticsComposition: the totals it keeps
   * beside the map are the sums of the map's counts.
   */
  method ValueCounts(metrics: seq<AnalyticMetric>, tagKey: string, indexed: map<string, int>, oldIndexed: map<string, int>)
    returns (pairs: seq<ValueCount>, totalCount: int, totalOldCount: int)
    ensures pairs == Composition(metrics, tagKey, indexed, oldIndexed)
    ensures totalCount == SumCurrent(pairs) && totalOldCount == SumOld(pairs)
  {
    pairs := [];
    totalCount := 0;
    totalOldCount := 0;
    var i := 0;
    while i < |metrics|
      invariant 0 <= i <= |metrics|
      invariant pairs == Composition(metrics[..i], tagKey, indexed, oldIndexed)
      invariant totalCount == SumCurrent(pairs) && totalOldCount == SumOld(pairs)
    {
      var metric := metrics[i];
      assert metrics[..i + 1][..i] == metrics[..i];
      var first := FirstTagValue(metric, tagKey);
      if first.Some? {
        var c := Counts(CountOf(indexed, metric.id), CountOf(oldIndexed, metric.id));
        CreditAdds(pairs, first.value, c);
        pairs := Credit(pairs, first.value, c);
        totalCount := totalCount + c.current;
        totalOldCount := totalOldCount + c.oldCount;
      }
      i := i + 1;
    }
    assert metrics[..|metrics|] == metrics;
  }

  lemma {:induction false} SumAppend(a: seq<ValueCount>, b: seq<ValueCount>)
    ensures SumCurrent(a + b) == SumCurrent(a) + SumCurrent(b)
    ensures SumOld(a + b) == SumOld(a) + SumOld(b)
  {
    if |a| > 0 {
      assert (a + b)[1..] == a[1..] + b;
      SumAppend(a[1..], b);
    } else {
      assert a + b == b;
    }
  }

  /** Taking one pair out of a list takes its counts out of the sums. */
  lemma SumRemove(b: seq<ValueCount>, j: nat)
    requires j < |b|
    ensures SumCurrent(b) == b[j].counts.current + SumCurrent(b[..j] + b[j + 1..])
    ensures SumOld(b) == b[j].counts.oldCount + SumOld(b[..j] + b[j + 1..])
  {
    assert b[..j] + b[j..] == b;
    SumAppend(b[..j], b[j..]);
    assert b[j..][1..] == b[j + 1..];
    SumAppend(b[..j], b[j + 1..]);
  }

  /** Taking the pair at `j` out of a list takes one copy of it out of the multiset. */
  lemma MultisetRemove(b: seq<ValueCount>, j: nat)
    requires j < |b|
    ensures multiset(b[..j] + b[j + 1..]) == multiset(b) - multiset{b[j]}
  {
    assert b == b[..j] + [b[j]] + b[j + 1..];
  }

  lemma MultisetTail(a: seq<ValueCount>)
    requires |a| > 0
    ensures multiset(a[1..]) == multiset(a) - multiset{a[0]}
  {
    assert a == [a[0]] + a[1..];
  }

  lemma PositionOf(b: seq<ValueCount>, x: ValueCount) returns (j: nat)
    requires x in multiset(b)
    ensures j < |b| && b[j] == x
  {
    j :| 0 <= j < |b| && b[j] == x;
  }

  /** Any reordering of the pairs keeps both sums. */
  lemma {:induction false} SumOfPermutation(a: seq<ValueCount>, b: seq<ValueCount>)
    requires multiset(a) == multiset(b)
    ensures SumCurrent(a) == SumCurrent(b) && SumOld(a) == SumOld(b)
    decreases |a|
  {
    if |a| == 0 {
      assert |b| == |multiset(b)| == 0;
    } else {
      var j := PositionOf(b, a[0]);
      var rest := b[..j] + b[j + 1..];
      MultisetRemove(b, j);
      MultisetTail(a);
      SumOfPermutation(a[1..], rest);
      SumRemove(b, j);
    }
  }

  predicate DescendingByCurrent(s: seq<ValueCount>)
  {
    forall i, j :: 0 <= i < j < |s| ==> s[i].counts.current >= s[j].counts.current
  }

  function InsertByCurrent(x: ValueCount, s: seq<ValueCount>): seq<ValueCount>
  {
    if |s| == 0 then [x]
    else if x.counts.current >= s[0].counts.current then [x] + s
    else [s[0]] + InsertByCurrent(x, s[1..])
  }

  lemma {:induction false} InsertByCurrentPermutes(x: ValueCount, s: seq<ValueCount>)
    ensures multiset(InsertByCurrent(x, s)) == multiset(s) + multiset{x}
    decreases |s|
  {
    if |s| > 0 && x.counts.current < s[0].counts.current {
      InsertByCurrentPermutes(x, s[1..]);
      assert s == [s[0]] + s[1..];
    }
  }

  /** Inserting a pair no larger than `b` into pairs no larger than `b` gives pairs no larger than `b`. */
  lemma {:induction false} InsertByCurrentBounded(x: ValueCount, t: seq<ValueCount>, b: int)
    requires x.counts.current <= b
    requires forall k :: 0 <= k < |t| ==> t[k].counts.current <= b
    ensures forall k :: 0 <= k < |InsertByCurrent(x, t)| ==> InsertByCurrent(x, t)[k].counts.current <= b
    decreases |t|
  {
    if |t| > 0 && x.counts.current < t[0].counts.current {
      InsertByCurrentBounded(x, t[1..], b);
    }
  }

  lemma {:induction false} InsertByCurrentSorts(x: ValueCount, s: seq<ValueCount>)
    requires DescendingByCurrent(s)
    ensures DescendingByCurrent(InsertByCurrent(x, s))
    decreases |s|
  {
    if |s| > 0 && x.counts.current < s[0].counts.current {
      var t := s[1..];
      InsertByCurrentSorts(x, t);
      InsertByCurrentBounded(x, t, s[0].counts.current);
      var r := InsertByCurrent(x, t);
      assert InsertByCurrent(x, s) == [s[0]] + r;
      forall i, j | 0 <= i < j < |[s[0]] + r|
        ensures ([s[0]] + r)[i].counts.current >= ([s[0]] + r)[j].counts.current
      {
        if i > 0 {
          assert ([s[0]] + r)[i] == r[i - 1] && ([s[0]] + r)[j] == r[j - 1];
        }
      }
    }
  }

  /** The descending-count order of sort.Slice, by insertion (sort.Slice may order equal counts otherwise). */
  function SortByCurrent(s: seq<ValueCount>): seq<ValueCount>
  {
    if |s| == 0 then [] else InsertByCurrent(s[0], SortByCurrent(s[1..]))
  }

  lemma {:induction false} SortByCurrentSorts(s: seq<ValueCount>)
    ensures DescendingByCurrent(SortByCurrent(s))
    ensures multiset(SortByCurrent(s)) == multiset(s)
  {
    if |s| > 0 {
      SortByCurrentSorts(s[1..]);
      InsertByCurrentSorts(s[0], SortByCurrent(s[1..]));
      InsertByCurrentPermutes(s[0], SortByCurrent(s[1..]));
      assert s == [s[0]] + s[1..];
    }
  }

  /** How many pairs go into the top values: `top` clamped to [0, |pairs|]. */
  function TopSize(top: int, n: nat): (k: nat)
    ensures k <= n
    ensures top <= 0 ==> k == 0
    ensures 0 <= top <= n ==> k == top
    ensures top >= n ==> k == n
  {
    if top <= 0 then 0 else if top < n then top else n
  }

  /**
   * The top/others loop: the first `top` pairs become the top values and
   * the rest are summed into others, so top values and others together
   * account for all counts.
   */
  method TopAndOthers(pairs: seq<ValueCount>, top: int) returns (topValues: seq<ValueCount>, others: Counts)
    ensures topValues == pairs[..TopSize(top, |pairs|)]
    ensures others == Counts(SumCurrent(pairs[TopSize(top, |pairs|)..]), SumOld(pairs[TopSize(top, |pairs|)..]))
    ensures SumCurrent(topValues) + others.current == SumCurrent(pairs)
    ensures SumOld(topValues) + others.oldCount == SumOld(pairs)
  {
    topValues := [];
    others := Counts(0, 0);
    var k := TopSize(top, |pairs|);
    var i := 0;
    while i < |pairs|
      invariant 0 <= i <= |pairs|
      invariant topValues == pairs[..if i < k then i else k]
      invariant i <= k ==> others == Counts(0, 0)
      invariant k <= i ==> others == Counts(SumCurrent(pairs[k..i]), SumOld(pairs[k..i]))
    {
      var pair := pairs[i];
      if i < top {
        assert pairs[..i + 1] == pairs[..i] + [pair];
        topValues := topValues + [pair];
      } else {
        assert pairs[k..i + 1] == pairs[k..i] + [pair];
        SumAppend(pairs[k..i], [pair]);
        others := Counts(others.current + pair.counts.current, others.oldCount + pair.counts.oldCount);
      }
      i := i + 1;
    }
    assert pairs[k..|pairs|] == pairs[k..];
    assert pairs == pairs[..k] + pairs[k..];
    SumAppend(pairs[..k], pairs[k..]);
  }

  /** No pair of `all` outside `top` has a larger current count than a pair of `top`. */
  predicate NoneLargerLeftOut(top: seq<ValueCount>, all: multiset<ValueCount>)
  {
    forall x, y :: x in top && y in all - multiset(top) ==> y.counts.current <= x.counts.current
  }

  /** Cutting a list after `k` pairs splits its multiset in two. */
  lemma MultisetSplit(s: seq<ValueCount>, k: nat)
    requires k <= |s|
    ensures multiset(s[..k]) <= multiset(s)
    ensures multiset(s) - multiset(s[..k]) == multiset(s[k..])
  {
    assert s == s[..k] + s[k..];
  }

  /** A prefix of a descending list is descending. */
  lemma PrefixDescending(s: seq<ValueCount>, k: nat)
    requires DescendingByCurrent(s) && k <= |s|
    ensures DescendingByCurrent(s[..k])
  {
  }

  /** A pair of a slice sits at some index of the slice's range. */
  lemma InSlice(s: seq<ValueCount>, lo: nat, hi: nat, x: ValueCount) returns (i: nat)
    requires lo <= hi <= |s| && x in s[lo..hi]
    ensures lo <= i < hi && s[i] == x
  {
    var q :| 0 <= q < hi - lo && s[lo..hi][q] == x;
    i := lo + q;
  }

  /** A pair left out by the first `k` pairs occurs after them. */
  lemma LeftOutIsSuffix(s: seq<ValueCount>, k: nat, y: ValueCount) returns (j: nat)
    requires k <= |s| && y in multiset(s) - multiset(s[..k])
    ensures k <= j < |s| && s[j] == y
  {
    MultisetSplit(s, k);
    assert s[k..] == s[k..|s|];
    j := InSlice(s, k, |s|, y);
  }

  /** In a descending list, the first `k` pairs are at least as large as every pair left after them. */
  lemma TopValuesAreLargest(sorted: seq<ValueCount>, k: nat)
    requires DescendingByCurrent(sorted) && k <= |sorted|
    ensures NoneLargerLeftOut(sorted[..k], multiset(sorted))
  {
    forall x, y | x in sorted[..k] && y in multiset(sorted) - multiset(sorted[..k])
      ensures y.counts.current <= x.counts.current
    {
      assert sorted[..k] == sorted[0..k];
      var i := InSlice(sorted, 0, k, x);
      var j := LeftOutIsSuffix(sorted, k, y);
    }
  }

  /**
   * The response's counts summarise `pairs` with `top` values shown: the
   * totals are the sums over all pairs and equal the top values plus
   * others, and the top values are the first `top` pairs of the
   * descending order (so the `top` largest, largest first).
   */
  predicate SummarizesComposition(res: CompositionResponse, pairs: seq<ValueCount>, top: int)
  {
    && res.totalValueCount == |pairs|
    && res.totalCount == SumCurrent(pairs) == SumCurrent(res.topValues) + res.others.current
    && res.totalOldCount == SumOld(pairs) == SumOld(res.topValues) + res.others.oldCount
    && |res.topValues| == TopSize(top, |pairs|)
    && res.topValues <= SortByCurrent(pairs)
    && DescendingByCurrent(res.topValues)
    && multiset(res.topValues) <= multiset(pairs)
    && NoneLargerLeftOut(res.topValues, multiset(pairs))
  }

  /** Sorting `pairs` and cutting after `top` keeps the largest pairs and the sums. */
  lemma TopOfSorted(pairs: seq<ValueCount>, top: int)
    ensures |SortByCurrent(pairs)| == |pairs|
    ensures SumCurrent(SortByCurrent(pairs)) == SumCurrent(pairs) && SumOld(SortByCurrent(pairs)) == SumOld(pairs)
    ensures var k := TopSize(top, |pairs|);
      && DescendingByCurrent(SortByCurrent(pairs)[..k])
      && multiset(SortByCurrent(pairs)[..k]) <= multiset(pairs)
      && NoneLargerLeftOut(SortByCurrent(pairs)[..k], multiset(pairs))
  {
    var sorted := SortByCurrent(pairs);
    SortByCurrentSorts(pairs);
    SumOfPermutation(pairs, sorted);
    assert |sorted| == |multiset(sorted)| == |pairs|;
    var k := TopSize(top, |pairs|);
    MultisetSplit(sorted, k);
    PrefixDescending(sorted, k);
    TopValuesAreLargest(sorted, k);
  }

  /**
   * ListResourceTypeCompositionResponse, with the top values as a list in
   * descending count order. `totalOldCount` is the old total the handler
   * computes; the response it sends carries only the current total.
   */
  datatype CompositionResponse = CompositionResponse(
    totalCount: int,
    totalOldCount: int,
    totalValueCount: nat,
    topValues: seq<ValueCount>,
    others: Counts)

  /**
   * ListAnalyticsComposition after the guards and lookups: an invalid tag
   * key is rejected; otherwise the totals are the sums over the whole
   * composition, the top values are the `top` largest pairs of it in
   * descending order, and the totals equal the top values plus others.
   */
  method ListAnalyticsComposition(tagKey: string, privateTagPrefix: string, top: int, metrics: seq<AnalyticMetric>,
                                  indexed: map<string, int>, oldIndexed: map<string, int>)
    returns (r: Reply<CompositionResponse>)
    ensures r.Rejected? <==> !ValidTagKey(tagKey, privateTagPrefix)
    ensures r.Rejected? ==> r == Rejected(400, "tag key is invalid")
    ensures r.Done? ==> SummarizesComposition(r.value, Composition(metrics, tagKey, indexed, oldIndexed), top)
    ensures !r.Failed?
  {
    if !ValidTagKey(tagKey, privateTagPrefix) {
      return Rejected(400, "tag key is invalid");
    }
    var pairs, totalCount, totalOldCount := ValueCounts(metrics, tagKey, indexed, oldIndexed);
    var sorted := SortByCurrent(pairs);
    TopOfSorted(pairs, top);
    var topValues, others := TopAndOthers(sorted, top);
    r := Done(CompositionResponse(totalCount, totalOldCount, |pairs|, topValues, others));
  }
}
