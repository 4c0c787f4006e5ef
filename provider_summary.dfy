// Document keys of the provider summaries (pkg/summarizer/es/resource_provider.go):
// each of the six summary kinds names its Elasticsearch document by a
// list of keys and the "provider_summary" index.

module ProviderSummaryKeys {
  import opened Common

  const ProviderSummaryIndex: string := "provider_summary"

  const ServiceProviderSummary: string := "ServicePerProvider"
  const CategoryProviderSummary: string := "CategoryPerProvider"
  const ResourceTypeProviderSummary: string := "ResourceTypePerProvider"
  const LocationProviderSummary: string := "LocationPerProvider"
  const TrendProviderSummary: string := "TrendPerProviderHistory"
  const ResourceTypeTrendProviderSummary: string := "ResourceTypeTrendPerProviderHistory"

  /** The six summary records, with the fields their keys read. */
  datatype ProviderSummary =
    | ServiceSummary(summarizeJobId: nat, serviceName: string, sourceType: string, reportType: string)
    | CategorySummary(summarizeJobId: nat, categoryName: string, sourceType: string, reportType: string)
    | TrendSummary(summarizeJobId: nat, sourceType: string, describedAt: int, reportType: string)
    | ResourceTypeTrendSummary(summarizeJobId: nat, sourceType: string, describedAt: int, resourceType: string,
                               reportType: string)
    | ResourceTypeSummary(summarizeJobId: nat, resourceType: string, sourceType: string, reportType: string)
    | LocationSummary(summarizeJobId: nat, sourceType: string, reportType: string)

  /** The fixed report-type constant each kind puts in its keys. */
  function KindConstant(r: ProviderSummary): string
  {
    match r
    case ServiceSummary(_, _, _, _) => ServiceProviderSummary
    case CategorySummary(_, _, _, _) => CategoryProviderSummary
    case TrendSummary(_, _, _, _) => TrendProviderSummary
    case ResourceTypeTrendSummary(_, _, _, _, _) => ResourceTypeTrendProviderSummary
    case ResourceTypeSummary(_, _, _, _) => ResourceTypeProviderSummary
    case LocationSummary(_, _, _) => LocationProviderSummary
  }

  /** The keys every document of the kind has. */
  function BaseKeys(r: ProviderSummary): (keys: seq<string>)
    ensures |keys| == (match r
      case ResourceTypeTrendSummary(_, _, _, _, _) => 4
      case LocationSummary(_, _, _) => 2
      case _ => 3)
    ensures keys[|keys| - 1] == KindConstant(r)
    ensures r.TrendSummary? ==> keys[1] == IntToString(r.describedAt)
    ensures r.ResourceTypeTrendSummary? ==> keys[2] == IntToString(r.describedAt)
  {
    match r
    case ServiceSummary(_, name, src, _) => [name, src, ServiceProviderSummary]
    case CategorySummary(_, name, src, _) => [name, src, CategoryProviderSummary]
    case TrendSummary(_, src, at, _) => [src, IntToString(at), TrendProviderSummary]
    case ResourceTypeTrendSummary(_, src, at, rt, _) => [src, rt, IntToString(at), ResourceTypeTrendProviderSummary]
    case ResourceTypeSummary(_, rt, src, _) => [rt, src, ResourceTypeProviderSummary]
    case LocationSummary(_, src, _) => [src, LocationProviderSummary]
  }

  predicate IsHistory(r: ProviderSummary)
  {
    HasSuffix(r.reportType, "History")
  }

  /** KeysAndIndex of each kind. */
  function KeysAndIndex(r: ProviderSummary): (result: (seq<string>, string))
    ensures result.1 == ProviderSummaryIndex
    ensures |result.0| == |BaseKeys(r)| + (if IsHistory(r) then 1 else 0)
    ensures result.0[..|BaseKeys(r)|] == BaseKeys(r)
    ensures IsHistory(r) ==> result.0[|result.0| - 1] == NatToString(r.summarizeJobId)
  {
    var keys := BaseKeys(r);
    if IsHistory(r) then (keys + [NatToString(r.summarizeJobId)], ProviderSummaryIndex)
    else (keys, ProviderSummaryIndex)
  }

  /** The report-type key is the kind's constant, whatever the record's ReportType says. */
  lemma ReportTypeKeyIsConstant(r: ProviderSummary, t: string)
    ensures BaseKeys(r.(reportType := t)) == BaseKeys(r)
    ensures t != KindConstant(r) ==> t !in BaseKeys(r)[|BaseKeys(r)| - 1..]
  {
  }

  /** History documents of different summarize jobs have different keys, and the job can be read back. */
  lemma HistoryKeysIdentifyJob(r1: ProviderSummary, r2: ProviderSummary)
    requires IsHistory(r1) && IsHistory(r2) && KeysAndIndex(r1) == KeysAndIndex(r2)
    ensures r1.summarizeJobId == r2.summarizeJobId
    ensures DigitsValue(KeysAndIndex(r1).0[|KeysAndIndex(r1).0| - 1]) == r1.summarizeJobId
  {
    NatToStringInjective(r1.summarizeJobId, r2.summarizeJobId);
    NatToStringValue(r1.summarizeJobId);
  }

  /** No kind constant is decimal text: each starts with a letter. */
  lemma KindConstantIsNotDigits(r: ProviderSummary, n: nat)
    ensures KindConstant(r) != NatToString(n)
  {
    var c := KindConstant(r);
    assert !IsDigit(c[0]);
    assert IsDigit(NatToString(n)[0]);
  }

  /**
   * Documents of different kinds never share keys: the constant sits at the
   * end of the base keys, and a history document's extra job ID is digits.
   */
  lemma KindsDoNotCollide(r1: ProviderSummary, r2: ProviderSummary)
    requires KindConstant(r1) != KindConstant(r2)
    ensures KeysAndIndex(r1).0 != KeysAndIndex(r2).0
  {
    var k1 := KeysAndIndex(r1).0;
    var k2 := KeysAndIndex(r2).0;
    var b1 := |BaseKeys(r1)|;
    var b2 := |BaseKeys(r2)|;
    if |k1| == |k2| {
      if IsHistory(r1) == IsHistory(r2) {
        assert k1[b1 - 1] == k1[..b1][b1 - 1] == KindConstant(r1);
        assert k2[b2 - 1] == k2[..b2][b2 - 1] == KindConstant(r2);
      } else if IsHistory(r1) {
        assert k2[|k2| - 1] == k2[..b2][b2 - 1];
        KindConstantIsNotDigits(r2, r1.summarizeJobId);
      } else {
        assert k1[|k1| - 1] == k1[..b1][b1 - 1];
        KindConstantIsNotDigits(r1, r2.summarizeJobId);
      }
    }
  }

}
