// Price-list ingestion of the wastage service
// (services/wastage/ingestion/service.go): the CSV header becomes a column
// map, every later row is routed by its product family and kept or dropped
// by the filters of its table, and a periodic tick re-ingests the EC2 and
// RDS price lists when their data-age record is missing or stale.
//
// The CSV stream is a sequence of reads; its end is io.EOF. The populated
// EC2, EBS and RDS instance/storage records come from PopulateFromMap
// methods that are not part of this model, so each is an oracle that keeps
// only the fields the filters read, or answers `None` where it panics.

module WastageIngestion {
  import opened Common
  import RdsProducts

  type Columns = map<string, int>

  /** One csv.Reader.Read: a record, or an error other than io.EOF. */
  datatype CsvRead = Record(fields: seq<string>) | ReadError(message: string)

  /** The error csv.Reader.Read returns at the end of the stream. */
  const EofError: string := "EOF"

  // ---- readColumnPositions ----

  function ColumnPositions(values: seq<string>): Columns
    decreases |values|
  {
    if |values| == 0 then map[]
    else ColumnPositions(values[..|values| - 1])[values[|values| - 1] := |values| - 1]
  }

  /** Every header name maps to a position holding it, and for a duplicated name the last position wins. */
  lemma {:induction false} ColumnPositionsLastWins(values: seq<string>)
    ensures forall v :: v in ColumnPositions(values) <==> v in values
    ensures forall v | v in ColumnPositions(values) ::
      0 <= ColumnPositions(values)[v] < |values| && values[ColumnPositions(values)[v]] == v
    ensures forall v, j | v in ColumnPositions(values) && ColumnPositions(values)[v] < j < |values| ::
      values[j] != v
    decreases |values|
  {
    if |values| > 0 {
      var init := values[..|values| - 1];
      ColumnPositionsLastWins(init);
      assert values == init + [values[|values| - 1]];
    }
  }

  method ReadColumnPositions(values: seq<string>) returns (columns: Columns)
    ensures columns == ColumnPositions(values)
  {
    columns := map[];
    for i := 0 to |values|
      invariant columns == ColumnPositions(values[..i])
    {
      assert values[..i + 1][..i] == values[..i];
      columns := columns[values[i] := i];
    }
    assert values[..|values|] == values;
  }

  // ---- the header ----

  predicate ShortRecord(read: CsvRead)
  {
    read.Record? && |read.fields| <= 2
  }

  /** The column map and the position of the first row after the header. */
  datatype Header = Header(columns: Columns, rowsFrom: nat)

  /** The header is the first record with more than two fields; a read error or the end of the stream before it is returned. */
  function FindHeaderFrom(stream: seq<CsvRead>, i: nat): (r: Result<Header>)
    requires i <= |stream|
    ensures r.Ok? ==> i < r.value.rowsFrom <= |stream|
    ensures r.Ok? ==> stream[r.value.rowsFrom - 1].Record? && |stream[r.value.rowsFrom - 1].fields| > 2
    ensures r.Ok? ==> r.value.columns == ColumnPositions(stream[r.value.rowsFrom - 1].fields)
    ensures r.Ok? ==> forall j | i <= j < r.value.rowsFrom - 1 :: ShortRecord(stream[j])
    ensures r.Err? ==> (
      || (r.error == EofError && forall j | i <= j < |stream| :: ShortRecord(stream[j]))
      || exists e | i <= e < |stream| :: stream[e] == ReadError(r.error) && forall j | i <= j < e :: ShortRecord(stream[j]))
    decreases |stream| - i
  {
    if i == |stream| then Err(EofError)
    else match stream[i]
      case ReadError(m) => Err(m)
      case Record(values) =>
        if |values| > 2 then Ok(Header(ColumnPositions(values), i + 1))
        else FindHeaderFrom(stream, i + 1)
  }

  method ReadHeader(stream: seq<CsvRead>) returns (r: Result<Header>)
    ensures r == FindHeaderFrom(stream, 0)
  {
    var i := 0;
    while i < |stream|
      invariant 0 <= i <= |stream|
      invariant FindHeaderFrom(stream, i) == FindHeaderFrom(stream, 0)
    {
      match stream[i]
      case ReadError(m) =>
        return Err(m);
      case Record(values) =>
        if |values| > 2 {
          var columns := ReadColumnPositions(values);
          return Ok(Header(columns, i + 1));
        }
      i := i + 1;
    }
    r := Err(EofError);
  }

  // ---- row routing ----

  const ProductFamilyColumn: string := "Product Family"
  const OnDemand: string := "OnDemand"
  const Outposts: string := "AWS Outposts"

  /** The row's product family; a column missing from the map reads position 0, and `None` is the index out of range. */
  function ProductFamily(columns: Columns, row: seq<string>): Option<string>
  {
    var index := if ProductFamilyColumn in columns then columns[ProductFamilyColumn] else 0;
    if 0 <= index < |row| then Some(row[index]) else None
  }

  predicate IsComputeFamily(family: string)
  {
    family == "Compute Instance" || family == "Compute Instance (bare metal)"
  }

  predicate IsEbsFamily(family: string)
  {
    family == "Storage" || family == "System Operation" || family == "Provisioned Throughput"
  }

  predicate IsRdsStorageFamily(family: string)
  {
    family == "Database Storage" || family == "Provisioned IOPS" || family == "Provisioned Throughput" || family == "System Operation"
  }

  /** The fields of an EC2 instance type the filter reads. */
  datatype Ec2InstanceType = Ec2InstanceType(physicalProcessor: string, instanceType: string, termType: string)
  /** The fields of an EBS volume type the filter reads. */
  datatype EbsVolumeType = EbsVolumeType(volumeType: string, termType: string)
  /** The fields of an RDS database instance the filter reads. */
  datatype RdsDbInstance = RdsDbInstance(termType: string, locationType: string)
  /** An RDS storage row, reduced to the verdict of its DoIngest. */
  datatype RdsDbStorage = RdsDbStorage(doIngest: bool)

  /** A record handed to a repository's Create. */
  datatype Created =
    | InstanceType(ec2: Ec2InstanceType)
    | VolumeType(ebs: EbsVolumeType)
    | DbStorage(storage: RdsDbStorage)
    | DbInstance(rds: RdsDbInstance)
    | Product(product: map<string, string>)

  /**
   * Which price list is ingested, with the PopulateFromMap oracles of its
   * record types; an oracle's `None` is a panic of that PopulateFromMap.
   */
  datatype Source =
    | Ec2PriceList(
        instanceOf: (Columns, seq<string>) -> Option<Ec2InstanceType>,
        volumeOf: (Columns, seq<string>) -> Option<EbsVolumeType>)
    | RdsPriceList(
        storageOf: (Columns, seq<string>) -> Option<RdsDbStorage>,
        dbInstanceOf: (Columns, seq<string>) -> Option<RdsDbInstance>)

  datatype Routed = Keep(item: Created) | Skip | RowPanic

  predicate KeepRdsRow(termType: string, locationType: string)
  {
    termType == OnDemand && locationType != Outposts
  }

  /** The filter each kind of created record has passed. */
  predicate Kept(c: Created)
  {
    match c
    case InstanceType(v) =>
      ToLower(v.physicalProcessor) != "variable" && v.instanceType != "" && v.termType == OnDemand
    case VolumeType(v) => v.volumeType != "" && v.termType == OnDemand
    case DbStorage(s) => s.doIngest
    case DbInstance(v) => KeepRdsRow(v.termType, v.locationType)
    case Product(f) => "TermType" in f && "LocationType" in f && KeepRdsRow(f["TermType"], f["LocationType"])
  }

  /** The default branch of IngestRDS: any other row is an RDS product, created when it passes the filter. */
  function RouteRdsProduct(columns: Columns, row: seq<string>): (r: Routed)
    ensures r.Keep? ==> r.item.Product? && Kept(r.item)
    ensures r.RowPanic? <==> !RdsProducts.InRange(RdsProducts.ZeroFields(), columns, row)
    ensures !r.RowPanic? ==>
      var product := Product(RdsProducts.Populated(RdsProducts.ZeroFields(), columns, row));
      r == if Kept(product) then Keep(product) else Skip
  {
    if !RdsProducts.InRange(RdsProducts.ZeroFields(), columns, row) then RowPanic
    else
      var fields := RdsProducts.Populated(RdsProducts.ZeroFields(), columns, row);
      assert "TermType" in RdsProducts.RdsColumns && "LocationType" in RdsProducts.RdsColumns;
      if KeepRdsRow(fields["TermType"], fields["LocationType"]) then Keep(Product(fields)) else Skip
  }

  /** The record population the row's product family calls panics on the row. */
  predicate PopulatePanics(source: Source, family: string, columns: Columns, row: seq<string>)
  {
    match source
    case Ec2PriceList(instanceOf, volumeOf) =>
      (IsComputeFamily(family) && instanceOf(columns, row).None?) ||
      (!IsComputeFamily(family) && IsEbsFamily(family) && volumeOf(columns, row).None?)
    case RdsPriceList(storageOf, dbInstanceOf) =>
      if IsRdsStorageFamily(family) then storageOf(columns, row).None?
      else if family == "Database Instance" then dbInstanceOf(columns, row).None?
      else !RdsProducts.InRange(RdsProducts.ZeroFields(), columns, row)
  }

  /**
   * The record the row's product family populates, before any filter:
   * `None` when that PopulateFromMap panics or, for the EC2 price list, when
   * the family is neither compute nor EBS.
   */
  function PopulatedRecord(source: Source, family: string, columns: Columns, row: seq<string>): Option<Created>
  {
    match source
    case Ec2PriceList(instanceOf, volumeOf) =>
      if IsComputeFamily(family) then
        if instanceOf(columns, row).Some? then Some(InstanceType(instanceOf(columns, row).value)) else None
      else if IsEbsFamily(family) && volumeOf(columns, row).Some? then Some(VolumeType(volumeOf(columns, row).value))
      else None
    case RdsPriceList(storageOf, dbInstanceOf) =>
      if IsRdsStorageFamily(family) then
        if storageOf(columns, row).Some? then Some(DbStorage(storageOf(columns, row).value)) else None
      else if family == "Database Instance" then
        if dbInstanceOf(columns, row).Some? then Some(DbInstance(dbInstanceOf(columns, row).value)) else None
      else if RdsProducts.InRange(RdsProducts.ZeroFields(), columns, row) then
        Some(Product(RdsProducts.Populated(RdsProducts.ZeroFields(), columns, row)))
      else None
  }

  /** The switch on the product family in ingestEc2InstancesBase and IngestRDS. */
  function Route(source: Source, columns: Columns, row: seq<string>): (r: Routed)
    ensures r.Keep? ==> Kept(r.item)
    // a populated record is created iff it passes its table's filter
    ensures r.Keep? ==> ProductFamily(columns, row).Some?
                        && PopulatedRecord(source, ProductFamily(columns, row).value, columns, row) == Some(r.item)
    ensures ProductFamily(columns, row).Some? && PopulatedRecord(source, ProductFamily(columns, row).value, columns, row).Some? ==>
      var x := PopulatedRecord(source, ProductFamily(columns, row).value, columns, row).value;
      r == if Kept(x) then Keep(x) else Skip
    ensures r.Keep? ==> (source.Ec2PriceList? <==> (r.item.InstanceType? || r.item.VolumeType?))
    ensures ProductFamily(columns, row).None? ==> r.RowPanic?
    ensures r.RowPanic? <==>
      ProductFamily(columns, row).None? || PopulatePanics(source, ProductFamily(columns, row).value, columns, row)
    ensures source.Ec2PriceList? && ProductFamily(columns, row).Some? ==> (
      var family := ProductFamily(columns, row).value;
      !IsComputeFamily(family) && !IsEbsFamily(family) ==> r.Skip?)
  {
    match ProductFamily(columns, row)
    case None => RowPanic
    case Some(family) =>
      match source
      case Ec2PriceList(instanceOf, volumeOf) =>
        if IsComputeFamily(family) then
          match instanceOf(columns, row)
          case None => RowPanic
          case Some(v) => if Kept(InstanceType(v)) then Keep(InstanceType(v)) else Skip
        else if IsEbsFamily(family) then
          match volumeOf(columns, row)
          case None => RowPanic
          case Some(v) => if Kept(VolumeType(v)) then Keep(VolumeType(v)) else Skip
        else Skip
      case RdsPriceList(storageOf, dbInstanceOf) =>
        if IsRdsStorageFamily(family) then
          match storageOf(columns, row)
          case None => RowPanic
          case Some(v) => if v.doIngest then Keep(DbStorage(v)) else Skip
        else if family == "Database Instance" then
          match dbInstanceOf(columns, row)
          case None => RowPanic
          case Some(v) => if KeepRdsRow(v.termType, v.locationType) then Keep(DbInstance(v)) else Skip
        else RouteRdsProduct(columns, row)
  }

  // ---- the row loop ----

  datatype Stop = ReadFailed(message: string) | RowPanicked

  /** The records created so far, and why reading stopped before io.EOF, if it did. */
  datatype Progress = Progress(created: seq<Created>, stop: Option<Stop>)

  /** A row is good when it is read and routed without a panic. */
  predicate GoodRow(source: Source, columns: Columns, read: CsvRead)
  {
    read.Record? && !Route(source, columns, read.fields).RowPanic?
  }

  /** What one read contributes to the created records: the routed record when it is kept. */
  function RowYield(source: Source, columns: Columns, read: CsvRead): (ys: seq<Created>)
    ensures |ys| <= 1
    ensures |ys| == 1 <==> read.Record? && Route(source, columns, read.fields).Keep?
    ensures |ys| == 1 ==> Route(source, columns, read.fields) == Keep(ys[0])
  {
    if read.Record? && Route(source, columns, read.fields).Keep? then [Route(source, columns, read.fields).item] else []
  }

  /** One read of the row loop, from a point where reading has not stopped. */
  function StepRow(source: Source, columns: Columns, p: Progress, read: CsvRead): (q: Progress)
    requires p.stop.None?
    ensures (forall x | x in p.created :: Kept(x)) ==> forall x | x in q.created :: Kept(x)
    ensures |q.created| <= |p.created| + 1
    ensures p.created <= q.created
    // a kept row is created, any other row creates nothing
    ensures q.created == p.created + RowYield(source, columns, read)
    ensures q.stop.None? <==> GoodRow(source, columns, read)
    ensures read.ReadError? ==> q.stop == Some(ReadFailed(read.message))
    ensures read.Record? ==> q.stop.None? || q.stop == Some(RowPanicked)
  {
    match read
    case ReadError(m) => p.(stop := Some(ReadFailed(m)))
    case Record(row) =>
      match Route(source, columns, row)
      case RowPanic => p.(stop := Some(RowPanicked))
      case Skip => p
      case Keep(x) => p.(created := p.created + [x])
  }

  function IngestRows(source: Source, columns: Columns, stream: seq<CsvRead>): (p: Progress)
    ensures forall x | x in p.created :: Kept(x)
    ensures |p.created| <= |stream|
    decreases |stream|
  {
    if |stream| == 0 then Progress([], None)
    else
      var p := IngestRows(source, columns, stream[..|stream| - 1]);
      if p.stop.Some? then p else StepRow(source, columns, p, stream[|stream| - 1])
  }

  /** Once reading has stopped, later reads change nothing. */
  lemma {:induction false} StopPersists(source: Source, columns: Columns, stream: seq<CsvRead>, n: nat)
    requires n <= |stream|
    requires IngestRows(source, columns, stream[..n]).stop.Some?
    ensures IngestRows(source, columns, stream) == IngestRows(source, columns, stream[..n])
    decreases |stream| - n
  {
    if n < |stream| {
      assert stream[..n + 1][..n] == stream[..n];
      StopPersists(source, columns, stream, n + 1);
    } else {
      assert stream[..n] == stream;
    }
  }

  /** Ingestion reaches io.EOF iff every row is read and routed without a panic. */
  lemma {:induction false} ReachesEofIffAllRowsGood(source: Source, columns: Columns, stream: seq<CsvRead>)
    ensures IngestRows(source, columns, stream).stop.None? <==> forall i | 0 <= i < |stream| :: GoodRow(source, columns, stream[i])
    decreases |stream|
  {
    if |stream| > 0 {
      var init := stream[..|stream| - 1];
      ReachesEofIffAllRowsGood(source, columns, init);
      assert forall i | 0 <= i < |init| :: init[i] == stream[i];
    }
  }

  /**
   * Ingestion that stops does so at the first bad row: a read error stops
   * it with that error, a panicking row with a panic.
   */
  lemma {:induction false} StopsAtFirstBadRow(source: Source, columns: Columns, stream: seq<CsvRead>)
    requires IngestRows(source, columns, stream).stop.Some?
    ensures exists e | 0 <= e < |stream| :: (
      && !GoodRow(source, columns, stream[e])
      && (forall i | 0 <= i < e :: GoodRow(source, columns, stream[i]))
      && (IngestRows(source, columns, stream).stop.value.ReadFailed? <==> stream[e].ReadError?)
      && (stream[e].ReadError? ==> IngestRows(source, columns, stream).stop.value.message == stream[e].message))
    decreases |stream|
  {
    var init := stream[..|stream| - 1];
    assert forall i | 0 <= i < |init| :: init[i] == stream[i];
    if IngestRows(source, columns, init).stop.Some? {
      StopsAtFirstBadRow(source, columns, init);
    } else {
      ReachesEofIffAllRowsGood(source, columns, init);
      var e := |stream| - 1;
      assert !GoodRow(source, columns, stream[e]);
    }
  }

  /** Rows are created as they arrive: what was created for a prefix of the stream stays created. */
  lemma {:induction false} CreatedGrowsByPrefix(source: Source, columns: Columns, stream: seq<CsvRead>, n: nat)
    requires n <= |stream|
    ensures IngestRows(source, columns, stream[..n]).created <= IngestRows(source, columns, stream).created
    decreases |stream|
  {
    if n < |stream| {
      var init := stream[..|stream| - 1];
      assert init[..n] == stream[..n];
      CreatedGrowsByPrefix(source, columns, init, n);
    } else {
      assert stream[..n] == stream;
    }
  }

  /** The records the reads create, read by read from the front: independent of the row loop's shape. */
  function CreatedFrom(source: Source, columns: Columns, stream: seq<CsvRead>): (cs: seq<Created>)
    ensures |cs| <= |stream|
    decreases |stream|
  {
    if |stream| == 0 then [] else RowYield(source, columns, stream[0]) + CreatedFrom(source, columns, stream[1..])
  }

  /** A record is created from the reads iff one of them is a row routed to it. */
  lemma {:induction false} CreatedFromMembers(source: Source, columns: Columns, stream: seq<CsvRead>, x: Created)
    ensures x in CreatedFrom(source, columns, stream) <==>
      exists i :: 0 <= i < |stream| && stream[i].Record? && Route(source, columns, stream[i].fields) == Keep(x)
    decreases |stream|
  {
    if |stream| > 0 {
      CreatedFromMembers(source, columns, stream[1..], x);
      assert forall i | 0 <= i < |stream[1..]| :: stream[1..][i] == stream[i + 1];
      var y := RowYield(source, columns, stream[0]);
      assert CreatedFrom(source, columns, stream) == y + CreatedFrom(source, columns, stream[1..]);
      if x in y {
        assert |y| == 1 && y[0] == x;
      }
      if stream[0].Record? && Route(source, columns, stream[0].fields) == Keep(x) {
        assert |y| == 1 && y[0] == x;
      }
    }
  }

  lemma {:induction false} CreatedFromSnoc(source: Source, columns: Columns, stream: seq<CsvRead>, read: CsvRead)
    ensures CreatedFrom(source, columns, stream + [read]) == CreatedFrom(source, columns, stream) + RowYield(source, columns, read)
    decreases |stream|
  {
    if |stream| == 0 {
      assert [read][1..] == [];
    } else {
      var longer := stream + [read];
      assert longer[0] == stream[0];
      assert longer[1..] == stream[1..] + [read];
      CreatedFromSnoc(source, columns, stream[1..], read);
      ConcatAssoc(RowYield(source, columns, stream[0]), CreatedFrom(source, columns, stream[1..]), RowYield(source, columns, read));
    }
  }

  lemma ConcatAssoc<T>(a: seq<T>, b: seq<T>, c: seq<T>)
    ensures a + (b + c) == (a + b) + c
  {
  }

  /** The number of good rows before the first bad one. */
  function GoodPrefix(source: Source, columns: Columns, stream: seq<CsvRead>): (n: nat)
    ensures n <= |stream|
    decreases |stream|
  {
    if |stream| == 0 || !GoodRow(source, columns, stream[0]) then 0
    else 1 + GoodPrefix(source, columns, stream[1..])
  }

  /** GoodPrefix counts the good rows up to the first bad one. */
  lemma {:induction false} GoodPrefixIsFirstBad(source: Source, columns: Columns, stream: seq<CsvRead>)
    ensures forall i | 0 <= i < GoodPrefix(source, columns, stream) :: GoodRow(source, columns, stream[i])
    ensures GoodPrefix(source, columns, stream) < |stream| ==>
      !GoodRow(source, columns, stream[GoodPrefix(source, columns, stream)])
    decreases |stream|
  {
    if |stream| > 0 && GoodRow(source, columns, stream[0]) {
      GoodPrefixIsFirstBad(source, columns, stream[1..]);
      assert forall i | 0 <= i < |stream[1..]| :: stream[1..][i] == stream[i + 1];
    }
  }

  /** The good prefix of a stream is that of any longer stream when it ends before the extra reads. */
  lemma GoodPrefixOfPrefix(source: Source, columns: Columns, stream: seq<CsvRead>, n: nat)
    requires n <= |stream|
    requires GoodPrefix(source, columns, stream[..n]) < n
    ensures GoodPrefix(source, columns, stream) == GoodPrefix(source, columns, stream[..n])
  {
    GoodPrefixIsFirstBad(source, columns, stream[..n]);
    GoodPrefixIsFirstBad(source, columns, stream);
    var k := GoodPrefix(source, columns, stream[..n]);
    assert stream[..n][k] == stream[k];
    assert forall i | 0 <= i < k :: stream[..n][i] == stream[i];
  }

  /** Every row of an all-good stream is counted, and one more read adds one iff it is good. */
  lemma GoodPrefixOfGood(source: Source, columns: Columns, stream: seq<CsvRead>, n: nat)
    requires n < |stream|
    requires GoodPrefix(source, columns, stream[..n]) == n
    ensures GoodPrefix(source, columns, stream[..n + 1]) == if GoodRow(source, columns, stream[n]) then n + 1 else n
  {
    var s := stream[..n + 1];
    GoodPrefixIsFirstBad(source, columns, stream[..n]);
    GoodPrefixIsFirstBad(source, columns, s);
    assert forall i | 0 <= i < n :: s[i] == stream[..n][i];
    assert s[n] == stream[n];
  }

  /** A bad read creates nothing. */
  lemma BadRowYieldsNothing(source: Source, columns: Columns, read: CsvRead)
    requires !GoodRow(source, columns, read)
    ensures RowYield(source, columns, read) == []
  {
  }

  /** The row loop reaches io.EOF iff no row of the stream is bad. */
  lemma StopIffBadRow(source: Source, columns: Columns, stream: seq<CsvRead>)
    ensures IngestRows(source, columns, stream).stop.None? <==> GoodPrefix(source, columns, stream) == |stream|
  {
    ReachesEofIffAllRowsGood(source, columns, stream);
    GoodPrefixIsFirstBad(source, columns, stream);
  }

  /** One more read after reading has stopped changes nothing. */
  lemma AfterStopCreated(source: Source, columns: Columns, stream: seq<CsvRead>)
    requires |stream| > 0
    requires GoodPrefix(source, columns, stream[..|stream| - 1]) < |stream| - 1
    requires IngestRows(source, columns, stream[..|stream| - 1]).created
      == CreatedFrom(source, columns, stream[..|stream| - 1][..GoodPrefix(source, columns, stream[..|stream| - 1])])
    ensures IngestRows(source, columns, stream).created
      == CreatedFrom(source, columns, stream[..GoodPrefix(source, columns, stream)])
  {
    var n := |stream| - 1;
    var init := stream[..n];
    var k := GoodPrefix(source, columns, init);
    StopIffBadRow(source, columns, init);
    GoodPrefixOfPrefix(source, columns, stream, n);
    assert init[..k] == stream[..k];
  }

  /** One more read while reading goes on adds what that read yields. */
  lemma NextReadCreated(source: Source, columns: Columns, stream: seq<CsvRead>)
    requires |stream| > 0
    requires GoodPrefix(source, columns, stream[..|stream| - 1]) == |stream| - 1
    requires IngestRows(source, columns, stream[..|stream| - 1]).created
      == CreatedFrom(source, columns, stream[..|stream| - 1])
    ensures IngestRows(source, columns, stream).created
      == CreatedFrom(source, columns, stream[..GoodPrefix(source, columns, stream)])
  {
    var n := |stream| - 1;
    var init := stream[..n];
    var last := stream[n];
    assert stream == init + [last];
    assert stream[..n + 1] == stream;
    StopIffBadRow(source, columns, init);
    GoodPrefixOfGood(source, columns, stream, n);
    if GoodRow(source, columns, last) {
      CreatedFromSnoc(source, columns, init, last);
    } else {
      BadRowYieldsNothing(source, columns, last);
      assert IngestRows(source, columns, init).created + [] == IngestRows(source, columns, init).created;
    }
  }

  /**
   * The row loop creates exactly the kept records of the rows before the
   * first bad one, in stream order.
   */
  lemma {:induction false} IngestRowsCreatesKeptRows(source: Source, columns: Columns, stream: seq<CsvRead>)
    ensures IngestRows(source, columns, stream).created
      == CreatedFrom(source, columns, stream[..GoodPrefix(source, columns, stream)])
    decreases |stream|
  {
    if |stream| == 0 {
      assert stream[..0] == [];
    } else {
      var n := |stream| - 1;
      var init := stream[..n];
      IngestRowsCreatesKeptRows(source, columns, init);
      var k := GoodPrefix(source, columns, init);
      if k < n {
        AfterStopCreated(source, columns, stream);
      } else {
        assert init[..k] == init;
        NextReadCreated(source, columns, stream);
      }
    }
  }

  method IngestRowsLoop(source: Source, columns: Columns, stream: seq<CsvRead>) returns (p: Progress)
    ensures p == IngestRows(source, columns, stream)
  {
    p := Progress([], None);
    for i := 0 to |stream|
      invariant p == IngestRows(source, columns, stream[..i])
      invariant p.stop.None?
    {
      assert stream[..i + 1][..i] == stream[..i];
      p := StepRow(source, columns, p, stream[i]);
      if p.stop.Some? {
        StopPersists(source, columns, stream, i + 1);
        return;
      }
    }
    assert stream[..|stream|] == stream;
  }

  // ---- one price list ----

  /** A price list's ingestion: the header, then every row after it; an error before the header aborts. */
  function Ingestion(source: Source, stream: seq<CsvRead>): Result<Progress>
  {
    var h :- FindHeaderFrom(stream, 0);
    Ok(IngestRows(source, h.columns, stream[h.rowsFrom..]))
  }

  method IngestPriceList(source: Source, stream: seq<CsvRead>) returns (r: Result<Progress>)
    ensures r == Ingestion(source, stream)
    ensures r.Ok? ==> forall x | x in r.value.created :: Kept(x)
    // every kept row before the first bad one is created, in stream order
    ensures r.Ok? ==>
      var h := FindHeaderFrom(stream, 0).value;
      var rows := stream[h.rowsFrom..];
      r.value.created == CreatedFrom(source, h.columns, rows[..GoodPrefix(source, h.columns, rows)])
  {
    var h := ReadHeader(stream);
    if h.Err? {
      return Err(h.error);
    }
    var p := IngestRowsLoop(source, h.value.columns, stream[h.value.rowsFrom..]);
    IngestRowsCreatesKeptRows(source, h.value.columns, stream[h.value.rowsFrom..]);
    r := Ok(p);
  }

  // ---- the data-age tick in Start ----

  datatype DataAge = DataAge(dataType: string, updatedAt: int)

  const Ec2DataType: string := "AWS::EC2::Instance"
  const RdsDataType: string := "AWS::RDS::Instance"
  const Day: int := 24 * 60 * 60
  const Ec2MaxAge: int := 365 * Day
  const RdsMaxAge: int := 7 * Day

  /** The record the scan in Start keeps for a type: the last one listed. */
  function LastOfType(ages: seq<DataAge>, dataType: string): (r: Option<DataAge>)
    ensures r.Some? ==> r.value in ages && r.value.dataType == dataType
    decreases |ages|
  {
    if |ages| == 0 then None
    else if ages[|ages| - 1].dataType == dataType then Some(ages[|ages| - 1])
    else LastOfType(ages[..|ages| - 1], dataType)
  }

  /** The record at `i` is the last of its type, so it is the one kept. */
  lemma {:induction false} LastRecordOfTypeIsKept(ages: seq<DataAge>, dataType: string, i: nat)
    requires i < |ages| && ages[i].dataType == dataType
    requires forall j | i < j < |ages| :: ages[j].dataType != dataType
    ensures LastOfType(ages, dataType) == Some(ages[i])
    decreases |ages|
  {
    if i < |ages| - 1 {
      var init := ages[..|ages| - 1];
      assert forall j | i < j < |init| :: init[j] == ages[j];
      LastRecordOfTypeIsKept(init, dataType, i);
    }
  }

  /** With no record of the type, none is kept, and the data counts as stale. */
  lemma {:induction false} AbsentTypeIsMissing(ages: seq<DataAge>, dataType: string)
    requires forall i | 0 <= i < |ages| :: ages[i].dataType != dataType
    ensures LastOfType(ages, dataType) == None
    decreases |ages|
  {
    if |ages| > 0 {
      var init := ages[..|ages| - 1];
      assert forall i | 0 <= i < |init| :: init[i] == ages[i];
      AbsentTypeIsMissing(init, dataType);
    }
  }

  method FindDataAges(ages: seq<DataAge>) returns (ec2: Option<DataAge>, rds: Option<DataAge>)
    ensures ec2 == LastOfType(ages, Ec2DataType)
    ensures rds == LastOfType(ages, RdsDataType)
  {
    ec2, rds := None, None;
    for i := 0 to |ages|
      invariant ec2 == LastOfType(ages[..i], Ec2DataType)
      invariant rds == LastOfType(ages[..i], RdsDataType)
    {
      assert ages[..i + 1][..i] == ages[..i];
      if ages[i].dataType == Ec2DataType {
        ec2 := Some(ages[i]);
      } else if ages[i].dataType == RdsDataType {
        rds := Some(ages[i]);
      }
    }
    assert ages[..|ages|] == ages;
  }

  /** Data is stale when there is no record, or the record is older than `maxAge` at `now`. */
  predicate Stale(age: Option<DataAge>, now: int, maxAge: int)
  {
    age.None? || age.value.updatedAt < now - maxAge
  }

  datatype AgeWrite = CreateAge(record: DataAge) | UpdateAge(dataType: string, record: DataAge)

  /** What one price list's part of a tick does; the errors are those of the ingestion and of the data-age write. */
  datatype Refresh = UpToDate | Refreshed(write: AgeWrite) | IngestFailed(error: string) | WriteFailed(write: AgeWrite, error: string)

  function RefreshData(age: Option<DataAge>, dataType: string, now: int, maxAge: int,
                       ingestError: Option<string>, writeError: Option<string>): (r: Refresh)
    ensures r.UpToDate? <==> !Stale(age, now, maxAge)
    ensures r.IngestFailed? <==> Stale(age, now, maxAge) && ingestError.Some?
    ensures r.IngestFailed? ==> ingestError == Some(r.error)
    ensures r.Refreshed? || r.WriteFailed? ==> (
      && Stale(age, now, maxAge) && ingestError.None?
      && (r.write.CreateAge? <==> age.None?)
      && r.write.record == DataAge(dataType, now)
      && (r.write.UpdateAge? ==> r.write.dataType == dataType))
    ensures r.WriteFailed? <==> Stale(age, now, maxAge) && ingestError.None? && writeError.Some?
  {
    if !Stale(age, now, maxAge) then UpToDate
    else if ingestError.Some? then IngestFailed(ingestError.value)
    else
      var record := DataAge(dataType, now);
      var write := if age.None? then CreateAge(record) else UpdateAge(dataType, record);
      if writeError.Some? then WriteFailed(write, writeError.value) else Refreshed(write)
  }

  /** A refreshed record stays up to date for `maxAge` after the refresh. */
  lemma RefreshedRecordIsFresh(age: Option<DataAge>, dataType: string, now: int, maxAge: int,
                               ingestError: Option<string>, writeError: Option<string>, later: int)
    requires RefreshData(age, dataType, now, maxAge, ingestError, writeError).Refreshed?
    requires now <= later <= now + maxAge
    ensures !Stale(Some(RefreshData(age, dataType, now, maxAge, ingestError, writeError).write.record), later, maxAge)
  {
  }

  /**
   * One tick of Start after the data ages were listed: EC2 is refreshed
   * against 365 days, then RDS against 7 days; a failure in the EC2 part
   * ends the tick before RDS is looked at.
   */
  function Tick(ages: seq<DataAge>, now: int,
                ec2IngestError: Option<string>, ec2WriteError: Option<string>,
                rdsIngestError: Option<string>, rdsWriteError: Option<string>): (steps: seq<Refresh>)
    ensures 1 <= |steps| <= 2
    ensures steps[0].UpToDate? <==> !Stale(LastOfType(ages, Ec2DataType), now, Ec2MaxAge)
    ensures |steps| == 2 <==> !(steps[0].IngestFailed? || steps[0].WriteFailed?)
    ensures |steps| == 2 ==> (steps[1].UpToDate? <==> !Stale(LastOfType(ages, RdsDataType), now, RdsMaxAge))
  {
    var ec2 := RefreshData(LastOfType(ages, Ec2DataType), Ec2DataType, now, Ec2MaxAge, ec2IngestError, ec2WriteError);
    if ec2.IngestFailed? || ec2.WriteFailed? then [ec2]
    else [ec2, RefreshData(LastOfType(ages, RdsDataType), RdsDataType, now, RdsMaxAge, rdsIngestError, rdsWriteError)]
  }
}
