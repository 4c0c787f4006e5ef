// Steampipe column helpers (pkg/steampipe/es_column.go): the cloud a
// resource type belongs to, and the rewrite in ConvertToDescription that
// strips every JSON member whose value is an empty time object
// (`"Key":{"Time":{}}`) from the marshalled description, together with one
// adjacent comma. A Go index out of range is the `None` outcome.

module SteampipeColumns {
  import opened Common

  datatype SourceType = CloudAWS | CloudAzure

  /** AWS iff the lowercased type starts with "aws"; every other type is Azure. */
  function SourceTypeByResourceType(resourceType: string): (r: SourceType)
    ensures r == CloudAWS <==> HasPrefix(ToLower(resourceType), "aws")
    ensures r == CloudAzure <==> !HasPrefix(ToLower(resourceType), "aws")
  {
    if HasPrefix(ToLower(resourceType), "aws") then CloudAWS else CloudAzure
  }

  /** The empty time value the rewrite strips, with the colon before it. */
  const TimePattern: string := ":{\"Time\":{}}"

  function QuoteCount(s: string): nat
  {
    if |s| == 0 then 0 else (if s[0] == '"' then 1 else 0) + QuoteCount(s[1..])
  }

  lemma {:induction false} QuoteCountAppend(a: string, b: string)
    ensures QuoteCount(a + b) == QuoteCount(a) + QuoteCount(b)
  {
    if |a| > 0 {
      assert (a + b)[1..] == a[1..] + b;
      QuoteCountAppend(a[1..], b);
    } else {
      assert a + b == b;
    }
  }

  /** `k` is the opening quote of the key before `idx`: the second quote counting back from `idx`. */
  ghost predicate IsKeyStart(bs: string, idx: nat, k: int)
    requires idx <= |bs|
  {
    0 <= k < idx && bs[k] == '"' && QuoteCount(bs[k..idx]) == 2
  }

  lemma KeyStartUnique(bs: string, idx: nat, k1: int, k2: int)
    requires idx <= |bs|
    requires IsKeyStart(bs, idx, k1) && IsKeyStart(bs, idx, k2)
    ensures k1 == k2
  {
    if k1 < k2 {
      assert bs[k1..idx] == bs[k1..k2] + bs[k2..idx];
      QuoteCountAppend(bs[k1..k2], bs[k2..idx]);
    } else if k2 < k1 {
      assert bs[k2..idx] == bs[k2..k1] + bs[k1..idx];
      QuoteCountAppend(bs[k2..k1], bs[k1..idx]);
    }
  }

  /** Where the stripped member starts: its key's opening quote, or just before `idx` when there is none. */
  ghost function KeyStart(bs: string, idx: nat): (k: int)
    requires idx <= |bs|
    ensures (exists j :: IsKeyStart(bs, idx, j)) ==> IsKeyStart(bs, idx, k)
    ensures !(exists j :: IsKeyStart(bs, idx, j)) ==> k == idx - 1
    ensures -1 <= k < idx
  {
    if exists j :: IsKeyStart(bs, idx, j) then
      var j :| IsKeyStart(bs, idx, j); j
    else idx - 1
  }

  lemma {:induction false} QuoteCountOfSuffix(s: string, k: nat)
    requires k <= |s|
    ensures QuoteCount(s[k..]) <= QuoteCount(s)
  {
    assert s == s[..k] + s[k..];
    QuoteCountAppend(s[..k], s[k..]);
  }

  /** The backward quote scan of ConvertToDescription. */
  method ScanKeyStart(bs: string, idx: nat) returns (startIdx: int)
    requires idx <= |bs|
    ensures startIdx == KeyStart(bs, idx)
  {
    startIdx := idx - 1;
    var q := 0;
    var i := idx - 1;
    while i >= 0
      invariant -1 <= i <= idx - 1
      invariant q == QuoteCount(bs[i + 1..idx])
      invariant q >= 2 ==> IsKeyStart(bs, idx, startIdx)
      invariant q < 2 ==> startIdx == idx - 1
      decreases i + 1
    {
      assert bs[i..idx] == [bs[i]] + bs[i + 1..idx];
      if bs[i] == '"' {
        q := q + 1;
        if q == 2 {
          startIdx := i;
        }
      }
      i := i - 1;
    }
    if q < 2 {
      forall j | 0 <= j < idx
        ensures !IsKeyStart(bs, idx, j)
      {
        assert bs[j..idx] == bs[..idx][j..];
        QuoteCountOfSuffix(bs[..idx], j);
        assert bs[0..idx] == bs[..idx];
      }
    } else {
      KeyStartUnique(bs, idx, startIdx, KeyStart(bs, idx));
    }
  }

  /**
   * One rewrite at the first occurrence `idx` of the pattern: the member
   * from its key's opening quote through the pattern is removed with the
   * comma before it, or else the comma after it. `None` is the index out
   * of range: a key at position 0, or a pattern ending the text with no
   * comma before the key.
   */
  ghost function StripStep(bs: string, idx: nat): (r: Option<string>)
    requires OccursAt(bs, TimePattern, idx)
    ensures r.None? <==> (
      || KeyStart(bs, idx) < 1
      || (bs[KeyStart(bs, idx) - 1] != ',' && idx + |TimePattern| == |bs|))
    ensures r.Some? ==> exists s, e :: (
      && 0 <= s <= KeyStart(bs, idx) && idx + |TimePattern| <= e <= |bs|
      && e - s <= idx + |TimePattern| - KeyStart(bs, idx) + 1
      && r.value == bs[..s] + bs[e..])
    ensures r.Some? ==> |r.value| < |bs| - |TimePattern|
    // the comma before the key is the one removed when there is one
    ensures r.Some? && 1 <= KeyStart(bs, idx) && bs[KeyStart(bs, idx) - 1] == ',' ==>
      r.value == bs[..KeyStart(bs, idx) - 1] + bs[idx + |TimePattern|..]
    // otherwise the comma after the pattern is removed, if there is one
    ensures r.Some? && 1 <= KeyStart(bs, idx) && bs[KeyStart(bs, idx) - 1] != ',' ==>
      && idx + |TimePattern| < |bs|
      && (bs[idx + |TimePattern|] == ',' ==> r.value == bs[..KeyStart(bs, idx)] + bs[idx + |TimePattern| + 1..])
      && (bs[idx + |TimePattern|] != ',' ==> r.value == bs[..KeyStart(bs, idx)] + bs[idx + |TimePattern|..])
  {
    var startIdx := KeyStart(bs, idx);
    var endIdx := idx + |TimePattern|;
    if startIdx < 1 then None
    else if bs[startIdx - 1] == ',' then Some(bs[..startIdx - 1] + bs[endIdx..])
    else if endIdx == |bs| then None
    else if bs[endIdx] == ',' then Some(bs[..startIdx] + bs[endIdx + 1..])
    else Some(bs[..startIdx] + bs[endIdx..])
  }

  /** The whole rewrite: repeat the step until the pattern no longer occurs. */
  ghost function StripAll(bs: string): (r: Option<string>)
    ensures r.Some? ==> !Contains(r.value, TimePattern)
    ensures r.Some? ==> |r.value| <= |bs|
    ensures !Contains(bs, TimePattern) ==> r == Some(bs)
    decreases |bs|
  {
    match Index(bs, TimePattern)
    case None => Some(bs)
    case Some(idx) =>
      match StripStep(bs, idx)
      case None => None
      case Some(next) => StripAll(next)
  }

  /** One pass of the rewrite loop at the pattern found at `idx`. */
  method StripOnce(bs: string, idx: nat) returns (r: Option<string>)
    requires OccursAt(bs, TimePattern, idx)
    ensures r == StripStep(bs, idx)
  {
    var startIdx := ScanKeyStart(bs, idx);
    var endIdx := idx + |TimePattern|;
    if startIdx < 1 {
      return None;
    }
    if bs[startIdx - 1] == ',' {
      startIdx := startIdx - 1;
    } else {
      if endIdx == |bs| {
        return None;
      }
      if bs[endIdx] == ',' {
        endIdx := endIdx + 1;
      }
    }
    r := Some(bs[..startIdx] + bs[endIdx..]);
  }

  /** The rewrite loop of ConvertToDescription; each pass shortens the text, so it ends. */
  method StripEmptyTimes(b: string) returns (r: Option<string>)
    ensures r == StripAll(b)
    ensures r.Some? ==> !Contains(r.value, TimePattern)
  {
    var bs := b;
    while true
      invariant StripAll(bs) == StripAll(b)
      decreases |bs|
    {
      var idx := Index(bs, TimePattern);
      if idx.None? {
        return Some(bs);
      }
      var next := StripOnce(bs, idx.value);
      if next.None? {
        return None;
      }
      bs := next.value;
    }
  }
}
