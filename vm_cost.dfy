// Price-item selection of the cost estimator's virtual-machine calculator
// (pkg/cost-estimator/calculator/virtualmachine.go): among the price items
// whose product name matches the operating system, the one with the latest
// effective-start year wins, the first one on a tie. Parsing an RFC 3339
// timestamp and taking its year is a parameter.

module VirtualMachineCost {
  import opened Common

  datatype PriceItem = PriceItem(productName: string, effectiveStartDate: string, retailPrice: real)

  /** The year of an RFC 3339 timestamp, or the parse error's text. */
  type YearParser = string -> Result<int>

  /** An item takes part iff it names Windows exactly when the OS type is not "Linux". */
  predicate Considered(item: PriceItem, osType: string)
  {
    Contains(item.productName, "Windows") == (osType != "Linux")
  }

  function ParseErrorMessage(e: string): string
  {
    "error in parsing time : " + e + " "
  }

  /** The loop state: the latest year seen so far (starting at 1) and the index holding it. */
  datatype Scan = Scan(newTime: int, chosen: Option<nat>)

  /** The loop over the first `n` items, as a function of its state. */
  function ScanUpTo(items: seq<PriceItem>, osType: string, parse: YearParser, n: nat): (r: Result<Scan>)
    requires n <= |items|
    ensures r.Ok? && r.value.chosen.Some? ==> r.value.chosen.value < n
  {
    if n == 0 then Ok(Scan(1, None))
    else
      match ScanUpTo(items, osType, parse, n - 1)
      case Err(e) => Err(e)
      case Ok(s) =>
        var item := items[n - 1];
        if !Considered(item, osType) then Ok(s)
        else
          match parse(item.effectiveStartDate)
          case Err(e) => Err(ParseErrorMessage(e))
          case Ok(year) => if year > s.newTime then Ok(Scan(year, Some(n - 1))) else Ok(s)
  }

  /** The year of an item, when it parses. */
  predicate YearAtMost(item: PriceItem, parse: YearParser, year: int)
  {
    parse(item.effectiveStartDate).Ok? && parse(item.effectiveStartDate).value <= year
  }

  predicate YearBefore(item: PriceItem, parse: YearParser, year: int)
  {
    parse(item.effectiveStartDate).Ok? && parse(item.effectiveStartDate).value < year
  }

  /**
   * What the loop over the first `n` items promises: it fails exactly when
   * a considered item among them does not parse; otherwise every considered
   * item's year is at most the latest year, which is 1 when nothing is
   * chosen, and the chosen item is considered, carries the latest year,
   * which exceeds 1, and every considered item before it is earlier.
   */
  lemma {:induction false} ScanInvariant(items: seq<PriceItem>, osType: string, parse: YearParser, n: nat)
    requires n <= |items|
    ensures var r := ScanUpTo(items, osType, parse, n);
      r.Err? <==> exists j :: 0 <= j < n && Considered(items[j], osType) && parse(items[j].effectiveStartDate).Err?
    ensures var r := ScanUpTo(items, osType, parse, n);
      r.Ok? ==> forall j :: 0 <= j < n && Considered(items[j], osType) ==> YearAtMost(items[j], parse, r.value.newTime)
    ensures var r := ScanUpTo(items, osType, parse, n);
      r.Ok? && r.value.chosen.None? ==> r.value.newTime == 1
    ensures var r := ScanUpTo(items, osType, parse, n);
      r.Ok? && r.value.chosen.Some? ==> (
        var k := r.value.chosen.value;
        && Considered(items[k], osType)
        && parse(items[k].effectiveStartDate) == Ok(r.value.newTime)
        && r.value.newTime > 1
        && forall j :: 0 <= j < k && Considered(items[j], osType) ==> YearBefore(items[j], parse, r.value.newTime))
  {
    if n > 0 {
      ScanInvariant(items, osType, parse, n - 1);
    }
  }

  /** giveProperCostTime's answer: `None` stands for the zero-valued item. */
  function ProperCostItem(items: seq<PriceItem>, osType: string, parse: YearParser): Result<Option<PriceItem>>
  {
    match ScanUpTo(items, osType, parse, |items|)
    case Err(e) => Err(e)
    case Ok(s) => if s.chosen.Some? then Ok(Some(items[s.chosen.value])) else Ok(None)
  }

  /** giveProperCostTime, loop for loop. */
  method GiveProperCostTime(items: seq<PriceItem>, osType: string, parse: YearParser) returns (r: Result<Option<PriceItem>>)
    ensures r == ProperCostItem(items, osType, parse)
  {
    var newTime := 1;
    var newItem: Option<PriceItem> := None;
    ghost var chosen: Option<nat> := None;
    var osTypeCheckWindows := true;
    if osType == "Linux" {
      osTypeCheckWindows := false;
    }
    var i := 0;
    while i < |items|
      invariant 0 <= i <= |items|
      invariant ScanUpTo(items, osType, parse, i) == Ok(Scan(newTime, chosen))
      invariant chosen.None? ==> newItem.None?
      invariant chosen.Some? ==> chosen.value < |items| && newItem == Some(items[chosen.value])
    {
      var item := items[i];
      var checkOsType := Contains(item.productName, "Windows");
      if osTypeCheckWindows {
        if !checkOsType {
          i := i + 1;
          continue;
        }
      } else {
        if checkOsType {
          i := i + 1;
          continue;
        }
      }
      var timeP := parse(item.effectiveStartDate);
      if timeP.Err? {
        ScanErrorPersists(items, osType, parse, i + 1, |items|);
        return Err(ParseErrorMessage(timeP.error));
      }
      if timeP.value > newTime {
        newTime := timeP.value;
        newItem := Some(items[i]);
        chosen := Some(i);
      }
      i := i + 1;
    }
    r := Ok(newItem);
  }

  /** Once the loop has failed it stays failed with the same error: the error returns at once. */
  lemma {:induction false} ScanErrorPersists(items: seq<PriceItem>, osType: string, parse: YearParser, m: nat, n: nat)
    requires m <= n <= |items|
    requires ScanUpTo(items, osType, parse, m).Err?
    ensures ScanUpTo(items, osType, parse, n) == ScanUpTo(items, osType, parse, m)
    decreases n
  {
    if n > m {
      ScanErrorPersists(items, osType, parse, m, n - 1);
    }
  }

  /**
   * The chosen item is the latest considered one, the first among equals,
   * and there is none exactly when no considered item is later than year 1.
   */
  lemma ProperCostItemIsLatest(items: seq<PriceItem>, osType: string, parse: YearParser)
    requires ProperCostItem(items, osType, parse).Ok?
    ensures ProperCostItem(items, osType, parse).value.None? <==>
      forall j :: 0 <= j < |items| && Considered(items[j], osType) ==> YearAtMost(items[j], parse, 1)
    ensures ProperCostItem(items, osType, parse).value.Some? ==>
      exists k, year :: (
        && 0 <= k < |items|
        && ProperCostItem(items, osType, parse).value.value == items[k]
        && Considered(items[k], osType)
        && parse(items[k].effectiveStartDate) == Ok(year)
        && (forall j :: 0 <= j < |items| && Considered(items[j], osType) ==> YearAtMost(items[j], parse, year))
        && (forall j :: 0 <= j < k && Considered(items[j], osType) ==> YearBefore(items[j], parse, year)))
  {
    ScanInvariant(items, osType, parse, |items|);
    var s := ScanUpTo(items, osType, parse, |items|).value;
    if s.chosen.Some? {
      var k := s.chosen.value;
      assert parse(items[k].effectiveStartDate) == Ok(s.newTime);
      assert !YearAtMost(items[k], parse, 1);
    }
  }

  /** Items of the other operating system are never parsed: their dates do not matter. */
  lemma {:induction false} OtherItemsAreNotParsed(items: seq<PriceItem>, osType: string, parse1: YearParser, parse2: YearParser, n: nat)
    requires n <= |items|
    requires forall j :: 0 <= j < n && Considered(items[j], osType) ==>
      parse1(items[j].effectiveStartDate) == parse2(items[j].effectiveStartDate)
    ensures ScanUpTo(items, osType, parse1, n) == ScanUpTo(items, osType, parse2, n)
  {
    if n > 0 {
      OtherItemsAreNotParsed(items, osType, parse1, parse2, n - 1);
    }
  }
}
