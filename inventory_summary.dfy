// Inventory summaries (pkg/inventory/summary.go): hits read from the cache,
// or from Elasticsearch when the cache has nothing, are grouped by name; a
// group's resource count is the sum over its hits and its last-day, -week,
// -quarter and -year counts are those of its first hit. Go's map iteration
// order is not modelled: a grouping is returned as a map.

module InventorySummary {
  import opened Common

  /** One summary hit: `name` is the grouping field (category, service or resource type). */
  datatype Hit = Hit(
    name: string,
    sourceType: string,
    resourceCount: int,
    lastDayCount: int,
    lastWeekCount: int,
    lastQuarterCount: int,
    lastYearCount: int)

  /** One response entry; `provider` is read by the service listing only. */
  datatype Entry = Entry(
    name: string,
    provider: string,
    resourceCount: int,
    lastDayCount: int,
    lastWeekCount: int,
    lastQuarterCount: int,
    lastYearCount: int)

  function Names(hits: seq<Hit>): set<string>
  {
    set h | h in hits :: h.name
  }

  /** The sum of the resource counts of the hits named `name`. */
  function SumFor(hits: seq<Hit>, name: string): int
  {
    if |hits| == 0 then 0
    else SumFor(hits[..|hits| - 1], name) + (if hits[|hits| - 1].name == name then hits[|hits| - 1].resourceCount else 0)
  }

  /** The first hit named `name`. */
  function FirstHit(hits: seq<Hit>, name: string): (h: Hit)
    requires name in Names(hits)
    ensures h in hits && h.name == name
  {
    var init := hits[..|hits| - 1];
    assert hits == init + [hits[|hits| - 1]];
    if name in Names(init) then FirstHit(init, name) else hits[|hits| - 1]
  }

  /** The entry a group starts as, from its first hit. */
  function EntryOf(h: Hit): Entry
  {
    Entry(h.name, h.sourceType, h.resourceCount, h.lastDayCount, h.lastWeekCount, h.lastQuarterCount, h.lastYearCount)
  }

  /** The grouping, hit by hit: a hit adds to its group's count or opens a group. */
  function Grouped(hits: seq<Hit>): map<string, Entry>
  {
    if |hits| == 0 then map[]
    else
      var g := Grouped(hits[..|hits| - 1]);
      var h := hits[|hits| - 1];
      if h.name in g then g[h.name := g[h.name].(resourceCount := g[h.name].resourceCount + h.resourceCount)]
      else g[h.name := EntryOf(h)]
  }

  /**
   * What the grouping holds: one group per distinct name, whose resource
   * count is the sum over the hits of that name and whose other fields are
   * those of the first such hit.
   */
  lemma {:induction false} GroupedIsSumAndFirstHit(hits: seq<Hit>)
    ensures Grouped(hits).Keys == Names(hits)
    ensures forall n :: n in Grouped(hits) ==> Grouped(hits)[n] == EntryOf(FirstHit(hits, n)).(resourceCount := SumFor(hits, n))
  {
    if |hits| > 0 {
      var init := hits[..|hits| - 1];
      var h := hits[|hits| - 1];
      assert hits == init + [h];
      GroupedIsSumAndFirstHit(init);
      assert Names(hits) == Names(init) + {h.name};
      if h.name !in Names(init) {
        AbsentNameSumsToZero(init, h.name);
      }
    }
  }

  /** The grouping loop of GetCategories, GetServices and GetResources. */
  method GroupByName(hits: seq<Hit>) returns (m: map<string, Entry>)
    ensures m == Grouped(hits)
  {
    m := map[];
    var i := 0;
    while i < |hits|
      invariant 0 <= i <= |hits|
      invariant m == Grouped(hits[..i])
    {
      var hit := hits[i];
      assert hits[..i + 1][..i] == hits[..i];
      if hit.name in m {
        var v := m[hit.name];
        v := v.(resourceCount := v.resourceCount + hit.resourceCount);
        m := m[hit.name := v];
      } else {
        m := m[hit.name := EntryOf(hit)];
      }
      i := i + 1;
    }
    assert hits[..|hits|] == hits;
  }

  /** The first hit of a name is the earliest one carrying it. */
  lemma {:induction false} FirstHitIsEarliest(hits: seq<Hit>, name: string)
    requires name in Names(hits)
    ensures exists j :: (
      && 0 <= j < |hits|
      && hits[j] == FirstHit(hits, name)
      && forall i :: 0 <= i < j ==> hits[i].name != name)
  {
    var init := hits[..|hits| - 1];
    assert hits == init + [hits[|hits| - 1]];
    if name in Names(init) {
      FirstHitIsEarliest(init, name);
      var j :| 0 <= j < |init| && init[j] == FirstHit(init, name) && forall i :: 0 <= i < j ==> init[i].name != name;
      assert hits[j] == FirstHit(hits, name);
    } else {
      assert forall i :: 0 <= i < |init| ==> init[i] in init;
      assert hits[|hits| - 1] == FirstHit(hits, name);
    }
  }

  lemma {:induction false} SumForAppend(a: seq<Hit>, b: seq<Hit>, name: string)
    ensures SumFor(a + b, name) == SumFor(a, name) + SumFor(b, name)
    decreases |b|
  {
    if |b| == 0 {
      assert a + b == a;
    } else {
      var b' := b[..|b| - 1];
      assert (a + b)[..|a + b| - 1] == a + b';
      SumForAppend(a, b', name);
    }
  }

  lemma {:induction false} FirstHitOfAppend(a: seq<Hit>, b: seq<Hit>, name: string)
    requires name in Names(a)
    ensures name in Names(a + b) && FirstHit(a + b, name) == FirstHit(a, name)
    decreases |b|
  {
    assert FirstHit(a, name) in a + b;
    if |b| == 0 {
      assert a + b == a;
    } else {
      var b' := b[..|b| - 1];
      assert (a + b)[..|a + b| - 1] == a + b';
      FirstHitOfAppend(a, b', name);
      assert FirstHit(a, name) in a + b';
    }
  }

  /**
   * Later hits add to a group's resource count but leave its last-day,
   * -week, -quarter and -year counts (and provider) as the first hit set them.
   */
  lemma LaterHitsOnlyAddToCount(a: seq<Hit>, b: seq<Hit>, name: string)
    requires name in Grouped(a)
    ensures name in Grouped(a + b)
    ensures Grouped(a + b)[name].resourceCount == Grouped(a)[name].resourceCount + SumFor(b, name)
    ensures Grouped(a + b)[name].(resourceCount := 0) == Grouped(a)[name].(resourceCount := 0)
  {
    GroupedIsSumAndFirstHit(a);
    GroupedIsSumAndFirstHit(a + b);
    FirstHitOfAppend(a, b, name);
    SumForAppend(a, b, name);
  }

  /** A name absent from the hits has no group and a zero sum. */
  lemma {:induction false} AbsentNameSumsToZero(hits: seq<Hit>, name: string)
    requires name !in Names(hits)
    ensures SumFor(hits, name) == 0
  {
    if |hits| > 0 {
      var init := hits[..|hits| - 1];
      assert Names(init) <= Names(hits);
      assert hits[|hits| - 1] in hits;
      AbsentNameSumsToZero(init, name);
    }
  }

  /** The cache is used iff it answered with something; otherwise the Elasticsearch answer, error included. */
  function ChooseHits(cached: Result<seq<Hit>>, queried: Result<seq<Hit>>): (r: Result<seq<Hit>>)
    ensures cached.Ok? && |cached.value| > 0 ==> r == cached
    ensures !(cached.Ok? && |cached.value| > 0) ==> r == queried
  {
    if cached.Ok? && |cached.value| > 0 then cached else queried
  }

  /** GetCategories and GetServices: choose the hits, then group them. */
  method GetGrouped(cached: Result<seq<Hit>>, queried: Result<seq<Hit>>) returns (r: Result<map<string, Entry>>)
    ensures r.Err? <==> ChooseHits(cached, queried).Err?
    ensures r.Err? ==> r.error == queried.error
    ensures r.Ok? ==> r.value == Grouped(ChooseHits(cached, queried).value)
  {
    var hits := ChooseHits(cached, queried);
    if hits.Err? {
      return Err(hits.error);
    }
    var m := GroupByName(hits.value);
    r := Ok(m);
  }

  /** GetResources' hits: per resource type, the cache's or Elasticsearch's, in order. */
  function ResourceHits(resourceTypes: seq<string>, cachedOf: string -> Result<seq<Hit>>,
                        queriedOf: string -> Result<seq<Hit>>): Result<seq<Hit>>
  {
    if |resourceTypes| == 0 then Ok([])
    else
      var init :- ResourceHits(resourceTypes[..|resourceTypes| - 1], cachedOf, queriedOf);
      var t := resourceTypes[|resourceTypes| - 1];
      var more :- ChooseHits(cachedOf(t), queriedOf(t));
      Ok(init + more)
  }

  /** Once a resource type's fetch fails, the whole collection fails with that error. */
  lemma {:induction false} ResourceHitsErrorPersists(resourceTypes: seq<string>, n: nat,
      cachedOf: string -> Result<seq<Hit>>, queriedOf: string -> Result<seq<Hit>>)
    requires n <= |resourceTypes|
    requires ResourceHits(resourceTypes[..n], cachedOf, queriedOf).Err?
    ensures ResourceHits(resourceTypes, cachedOf, queriedOf) == ResourceHits(resourceTypes[..n], cachedOf, queriedOf)
    decreases |resourceTypes|
  {
    if n < |resourceTypes| {
      var init := resourceTypes[..|resourceTypes| - 1];
      assert init[..n] == resourceTypes[..n];
      ResourceHitsErrorPersists(init, n, cachedOf, queriedOf);
    } else {
      assert resourceTypes[..n] == resourceTypes;
    }
  }

  /** The entries GetResources answers with: zero-count groups dropped, names rendered by `typeName`. */
  function NonEmptyResources(groups: map<string, Entry>, typeName: string -> string): (r: map<string, Entry>)
    ensures forall t :: t in r <==> t in groups && groups[t].resourceCount != 0
    ensures forall t :: t in r ==> r[t] == groups[t].(name := typeName(t))
  {
    map t | t in groups && groups[t].resourceCount != 0 :: groups[t].(name := typeName(t))
  }

  /** GetResources, loop for loop. */
  method GetResources(resourceTypes: seq<string>, cachedOf: string -> Result<seq<Hit>>,
                      queriedOf: string -> Result<seq<Hit>>, typeName: string -> string)
    returns (r: Result<map<string, Entry>>)
    ensures r.Err? <==> ResourceHits(resourceTypes, cachedOf, queriedOf).Err?
    ensures r.Ok? ==> r.value == NonEmptyResources(Grouped(ResourceHits(resourceTypes, cachedOf, queriedOf).value), typeName)
  {
    var hits: seq<Hit> := [];
    var i := 0;
    while i < |resourceTypes|
      invariant 0 <= i <= |resourceTypes|
      invariant ResourceHits(resourceTypes[..i], cachedOf, queriedOf) == Ok(hits)
    {
      var t := resourceTypes[i];
      assert resourceTypes[..i + 1][..i] == resourceTypes[..i];
      var fetched := ChooseHits(cachedOf(t), queriedOf(t));
      if fetched.Err? {
        ResourceHitsErrorPersists(resourceTypes, i + 1, cachedOf, queriedOf);
        return Err(fetched.error);
      }
      hits := hits + fetched.value;
      i := i + 1;
    }
    assert resourceTypes[..|resourceTypes|] == resourceTypes;
    var groups := GroupByName(hits);
    var res: map<string, Entry> := map[];
    var keys := groups.Keys;
    while keys != {}
      invariant keys <= groups.Keys
      invariant forall t :: t in res <==> t in groups && t !in keys && groups[t].resourceCount != 0
      invariant forall t :: t in res ==> res[t] == groups[t].(name := typeName(t))
      decreases |keys|
    {
      var t :| t in keys;
      if groups[t].resourceCount != 0 {
        res := res[t := groups[t].(name := typeName(t))];
      }
      keys := keys - {t};
    }
    r := Ok(res);
  }
}
