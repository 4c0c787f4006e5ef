// Consistency reporter queries (pkg/reporter/job.go): the SQL text that
// lists an account's rows of a table, the key fields picked from a row's
// columns, and the single-row query with one numbered placeholder per key
// field. The row values are passed to the database in the order of the key
// fields, so placeholder $k receives the k-th key value.

module Reporter {
  import opened Common

  /** A column value as the database driver returns it; `Nil` is a missing entry. */
  datatype Value = Nil | Val(text: string)

  /** BuildListQuery: the account ID, quoted, is the whole text after the table's WHERE clause opens. */
  function BuildListQuery(accountId: string, tableName: string): (q: string)
    ensures HasPrefix(q, "SELECT * FROM " + tableName + " WHERE keibi_account_id = '")
    ensures HasSuffix(q, accountId + "'")
    ensures |q| == |"SELECT * FROM " + tableName + " WHERE keibi_account_id = '"| + |accountId| + 1
    ensures q[|"SELECT * FROM " + tableName + " WHERE keibi_account_id = '"|..|q| - 1] == accountId
  {
    "SELECT * FROM " + tableName + " WHERE keibi_account_id = '" + accountId + "'"
  }

  /** The condition for the k-th key field (counting from 1). */
  function KeyClause(field: string, k: nat): string
  {
    " AND " + field + " = $" + NatToString(k)
  }

  /** The conditions for the key fields, numbered from `first`. */
  function KeyClauses(fields: seq<string>, first: nat): string
  {
    if |fields| == 0 then "" else KeyClause(fields[0], first) + KeyClauses(fields[1..], first + 1)
  }

  lemma {:induction false} KeyClausesSnoc(fields: seq<string>, f: string, first: nat)
    ensures KeyClauses(fields + [f], first) == KeyClauses(fields, first) + KeyClause(f, first + |fields|)
    decreases |fields|
  {
    if |fields| == 0 {
      assert KeyClauses([f], first) == KeyClause(f, first) + KeyClauses([], first + 1);
    } else {
      assert (fields + [f])[1..] == fields[1..] + [f];
      KeyClausesSnoc(fields[1..], f, first + 1);
    }
  }

  /** BuildGetQuery, loop for loop: one " AND <field> = $k" per key field, k = 1..n. */
  method BuildGetQuery(accountId: string, tableName: string, keyFields: seq<string>) returns (query: string)
    ensures query == BuildListQuery(accountId, tableName) + " " + KeyClauses(keyFields, 1)
  {
    var q := "";
    var c := 1;
    var i := 0;
    while i < |keyFields|
      invariant 0 <= i <= |keyFields|
      invariant c == i + 1
      invariant q == KeyClauses(keyFields[..i], 1)
    {
      var f := keyFields[i];
      assert keyFields[..i + 1] == keyFields[..i] + [f];
      KeyClausesSnoc(keyFields[..i], f, 1);
      q := q + " AND " + f + " = $" + NatToString(c);
      c := c + 1;
      i := i + 1;
    }
    assert keyFields[..|keyFields|] == keyFields;
    query := "SELECT * FROM " + tableName + " WHERE keibi_account_id = '" + accountId + "' " + q;
  }

  /** With no key fields the get query adds no condition to the list query. */
  lemma GetQueryWithoutKeys(accountId: string, tableName: string)
    ensures BuildListQuery(accountId, tableName) + " " + KeyClauses([], 1) == BuildListQuery(accountId, tableName) + " "
  {
    assert KeyClauses([], 1) == "";
  }

  /**
   * The conditions are laid out field by field: the i-th key field is
   * compared with placeholder $(i + 1), between the conditions of the
   * fields before it and those after it.
   */
  lemma {:induction false} KeyClauseOfField(fields: seq<string>, i: nat)
    requires i < |fields|
    ensures KeyClauses(fields, 1) ==
      KeyClauses(fields[..i], 1) + KeyClause(fields[i], i + 1) + KeyClauses(fields[i + 1..], i + 2)
  {
    KeyClausesAppend(fields[..i], fields[i..], 1);
    assert fields[..i] + fields[i..] == fields;
    assert fields[i..][1..] == fields[i + 1..];
  }

  lemma {:induction false} KeyClausesAppend(a: seq<string>, b: seq<string>, first: nat)
    ensures KeyClauses(a + b, first) == KeyClauses(a, first) + KeyClauses(b, first + |a|)
    decreases |a|
  {
    if |a| == 0 {
      assert a + b == b;
    } else {
      assert (a + b)[1..] == a[1..] + b;
      KeyClausesAppend(a[1..], b, first + 1);
    }
  }

  /** The columns that identify a row. */
  predicate IsKeyField(name: string)
  {
    name == "arn" || name == "akas" || name == "id" || name == "name" || name == "title"
  }

  /** The key columns of a row, in column order. */
  function KeyFields(columnNames: seq<string>): (fields: seq<string>)
    ensures forall f :: f in fields ==> f in columnNames && IsKeyField(f)
    ensures forall i :: 0 <= i < |columnNames| && IsKeyField(columnNames[i]) ==> columnNames[i] in fields
    ensures |fields| <= |columnNames|
  {
    if |columnNames| == 0 then []
    else
      var last := columnNames[|columnNames| - 1];
      KeyFields(columnNames[..|columnNames| - 1]) + (if IsKeyField(last) then [last] else [])
  }

  /**
   * The key fields are the row's columns that pass IsKeyField, each once
   * per occurrence and in column order.
   */
  lemma {:induction false} KeyFieldsAreKeyColumnsInOrder(columnNames: seq<string>)
    ensures KeyFields(columnNames) == Filter(columnNames, IsKeyField)
    decreases |columnNames|
  {
    if |columnNames| > 0 {
      var n := |columnNames| - 1;
      KeyFieldsAreKeyColumnsInOrder(columnNames[..n]);
      assert columnNames == columnNames[..n] + [columnNames[n]];
      FilterAppend(columnNames[..n], [columnNames[n]], IsKeyField);
      FilterSingle(columnNames[n], IsKeyField);
    }
  }

  /** The five tests of RunJob's column loop: a key column is appended under its own name. */
  method KeyFieldsOfColumn(name: string) returns (added: seq<string>)
    ensures added == if IsKeyField(name) then [name] else []
  {
    added := [];
    if name == "arn" {
      added := added + ["arn"];
    }
    if name == "akas" {
      added := added + ["akas"];
    }
    if name == "id" {
      added := added + ["id"];
    }
    if name == "name" {
      added := added + ["name"];
    }
    if name == "title" {
      added := added + ["title"];
    }
  }

  /** The key-field collection of RunJob: key columns in column order. */
  method CollectKeyFields(columnNames: seq<string>) returns (keyFields: seq<string>)
    ensures keyFields == KeyFields(columnNames)
  {
    keyFields := [];
    var idx := 0;
    while idx < |columnNames|
      invariant 0 <= idx <= |columnNames|
      invariant keyFields == KeyFields(columnNames[..idx])
    {
      var name := columnNames[idx];
      assert columnNames[..idx + 1][..idx] == columnNames[..idx];
      var added := KeyFieldsOfColumn(name);
      keyFields := keyFields + added;
      idx := idx + 1;
    }
    assert columnNames[..|columnNames|] == columnNames;
  }

  /** The row as a record keyed by column name; a repeated name keeps its last value. */
  function RowRecord(columnNames: seq<string>, row: seq<Value>): (record: map<string, Value>)
    requires |row| == |columnNames|
    ensures record.Keys == set n | n in columnNames
    decreases |columnNames|
  {
    if |columnNames| == 0 then map[]
    else
      var n := |columnNames| - 1;
      RowRecord(columnNames[..n], row[..n])[columnNames[n] := row[n]]
  }

  /** No later column of the row has the name of column `j`. */
  predicate LastColumn(columnNames: seq<string>, j: nat)
    requires j < |columnNames|
  {
    forall k :: j < k < |columnNames| ==> columnNames[k] != columnNames[j]
  }

  /** A column's name maps to that column's value unless a later column repeats the name. */
  lemma {:induction false} RowRecordLastWins(columnNames: seq<string>, row: seq<Value>, j: nat)
    requires |row| == |columnNames| && j < |columnNames|
    requires LastColumn(columnNames, j)
    ensures columnNames[j] in RowRecord(columnNames, row)
    ensures RowRecord(columnNames, row)[columnNames[j]] == row[j]
    decreases |columnNames|
  {
    var n := |columnNames| - 1;
    if j < n {
      assert LastColumn(columnNames[..n], j);
      RowRecordLastWins(columnNames[..n], row[..n], j);
    }
  }

  /** The last column carrying a name that occurs in the row. */
  function LastIndexOf(columnNames: seq<string>, name: string): (j: nat)
    requires name in columnNames
    ensures j < |columnNames| && columnNames[j] == name && LastColumn(columnNames, j)
    decreases |columnNames|
  {
    var n := |columnNames| - 1;
    if columnNames[n] == name then n
    else
      assert name in columnNames[..n] by {
        var k :| 0 <= k < |columnNames| && columnNames[k] == name;
        assert k < n && columnNames[..n][k] == name;
      }
      LastIndexOf(columnNames[..n], name)
  }

  /** The values bound to the placeholders, in key-field order. */
  function KeyValues(keyFields: seq<string>, record: map<string, Value>): (values: seq<Value>)
    ensures |values| == |keyFields|
    ensures forall i :: 0 <= i < |keyFields| ==> values[i] == if keyFields[i] in record then record[keyFields[i]] else Nil
  {
    if |keyFields| == 0 then []
    else [if keyFields[0] in record then record[keyFields[0]] else Nil] + KeyValues(keyFields[1..], record)
  }

  /**
   * Every key field is a column of the row, so placeholder $(i + 1) gets
   * the row's value in the last column of that name.
   */
  lemma KeyValuesComeFromRow(columnNames: seq<string>, row: seq<Value>, i: nat)
    requires |row| == |columnNames|
    requires i < |KeyFields(columnNames)|
    ensures KeyFields(columnNames)[i] in columnNames
    ensures KeyValues(KeyFields(columnNames), RowRecord(columnNames, row))[i] ==
      row[LastIndexOf(columnNames, KeyFields(columnNames)[i])]
  {
    assert KeyFields(columnNames)[i] in KeyFields(columnNames);
    RowRecordLastWins(columnNames, row, LastIndexOf(columnNames, KeyFields(columnNames)[i]));
  }
}
