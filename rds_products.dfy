// The RDS product row of the wastage pricing tables
// (services/wastage/db/model/rds_products.go). The struct's 43 string
// fields are kept as one map from field name to value; every field is
// filled from the CSV column of the same name.

module RdsProducts {

  /** The column names PopulateFromMap recognises, each the name of the field it sets. */
  const RdsColumns: set<string> := {
    "SKU", "OfferTermCode", "RateCode", "TermType", "PriceDescription",
    "EffectiveDate", "StartingRange", "EndingRange", "Unit", "PricePerUnit",
    "Currency", "RelatedTo", "ProductFamily", "serviceCode", "Location",
    "LocationType", "InstanceFamily", "vCPU", "Storage", "StorageMedia",
    "VolumeType", "MinVolumeSize", "MaxVolumeSize", "EngineCode",
    "DatabaseEngine", "DatabaseEdition", "LicenseModel", "DeploymentOption",
    "Group", "GroupDescription", "usageType", "operation", "ACU",
    "DeploymentModel", "EngineMajorVersion", "EngineMediaType",
    "ExtendedSupportPricingYear", "InstanceTypeFamily", "LimitlessPreview",
    "NormalizationSizeFactor", "RegionCode", "serviceName", "VolumeName"
  }

  /** A column PopulateFromMap has a case for. */
  predicate Recognized(col: string)
  {
    col in RdsColumns
  }

  /** A zero RDSProduct: every field is the empty string. */
  function ZeroFields(): (fields: map<string, string>)
    ensures fields.Keys == RdsColumns
    ensures forall f | f in fields :: fields[f] == ""
  {
    map f | f in RdsColumns :: ""
  }

  /**
   * Every field name the column map names points inside the row; otherwise
   * the row access fails. `fields` is a product's field map, whose keys are
   * the recognised column names.
   */
  predicate InRange(fields: map<string, string>, columns: map<string, int>, row: seq<string>)
  {
    forall c | c in columns && c in fields :: 0 <= columns[c] < |row|
  }

  /** The fields after PopulateFromMap: mapped fields are read from the row, the rest kept. */
  function Populated(fields: map<string, string>, columns: map<string, int>, row: seq<string>): map<string, string>
    requires InRange(fields, columns, row)
  {
    map f | f in fields :: if f in columns then row[columns[f]] else fields[f]
  }

  /**
   * On a valid product, what PopulateFromMap reads and writes is decided by
   * the recognised column names: only a recognised column can fail the row
   * access, a recognised field named in the column map is read from the row
   * at the mapped position, and every other field keeps its value.
   */
  lemma PopulatedFields(fields: map<string, string>, columns: map<string, int>, row: seq<string>)
    requires fields.Keys == RdsColumns
    ensures InRange(fields, columns, row) <==> forall c | c in columns && Recognized(c) :: 0 <= columns[c] < |row|
    ensures InRange(fields, columns, row) ==>
      var p := Populated(fields, columns, row);
      && p.Keys == RdsColumns
      && (forall f | Recognized(f) && f in columns :: p[f] == row[columns[f]])
      && (forall f | Recognized(f) && f !in columns :: p[f] == fields[f])
  {
  }

  lemma PrefixMembers(order: seq<string>, i: nat)
    requires i < |order|
    ensures forall c :: c in order[..i + 1] <==> c in order[..i] || c == order[i]
  {
    assert order[..i + 1] == order[..i] + [order[i]];
  }

  class RdsProduct {
    var fields: map<string, string>

    ghost predicate Valid()
      reads this
    {
      fields.Keys == RdsColumns
    }

    constructor ()
      ensures Valid()
      ensures fields == ZeroFields()
    {
      fields := ZeroFields();
    }

    /**
     * Fill the fields from one CSV row. `order` is the order in which the
     * column map is iterated, which Go leaves unspecified; the outcome does
     * not depend on it. `panicked` is the index out of range, raised at
     * the first recognised column whose position is outside the row.
     */
    method PopulateFromMap(columns: map<string, int>, row: seq<string>, order: seq<string>) returns (panicked: bool)
      requires Valid()
      requires forall c :: c in order <==> c in columns
      modifies this
      ensures Valid()
      ensures panicked <==> !InRange(old(fields), columns, row)
      ensures !panicked ==> fields == Populated(old(fields), columns, row)
      ensures panicked ==> forall f | f in fields :: (
        || fields[f] == old(fields)[f]
        || (f in columns && 0 <= columns[f] < |row| && fields[f] == row[columns[f]]))
    {
      panicked := SetColumns(columns, row, order);
    }

    /** The loop of PopulateFromMap; the field map's own keys are the recognised column names. */
    method SetColumns(columns: map<string, int>, row: seq<string>, order: seq<string>) returns (panicked: bool)
      requires forall c :: c in order <==> c in columns
      modifies this
      ensures fields.Keys == old(fields).Keys
      ensures panicked <==> !InRange(old(fields), columns, row)
      ensures !panicked ==> fields == Populated(old(fields), columns, row)
      ensures panicked ==> forall f | f in fields :: (
        || fields[f] == old(fields)[f]
        || (f in columns && 0 <= columns[f] < |row| && fields[f] == row[columns[f]]))
    {
      var i := 0;
      while i < |order|
        invariant 0 <= i <= |order|
        invariant fields.Keys == old(fields).Keys
        invariant forall c | c in order[..i] && c in fields :: c in columns && 0 <= columns[c] < |row|
        invariant forall f | f in fields :: fields[f] == if f in order[..i] then row[columns[f]] else old(fields)[f]
      {
        var col := order[i];
        PrefixMembers(order, i);
        if col in fields {
          var index := columns[col];
          if !(0 <= index < |row|) {
            return true;
          }
          fields := fields[col := row[index]];
        }
        i := i + 1;
      }
      assert order[..i] == order;
      panicked := false;
    }
  }
}
