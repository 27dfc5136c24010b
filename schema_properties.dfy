/**
 * What the two schema comparators promise. Comparing two schemas of the
 * same shape (same tables and columns in the same order, with the same
 * types and optionality) reports nothing, provided table names and the
 * column names within each table are unique, and every column-level
 * issue a table raises is among the issues of the whole comparison.
 */
module SchemaProperties {
  import opened Primitives
  import opened CoreDataModel
  import opened SchemaValidator

  /** Same column names, types and optionality, in the same order. */
  predicate SameColumns(columns1: seq<ColumnSchema>, columns2: seq<ColumnSchema>) {
    && |columns1| == |columns2|
    && forall k :: 0 <= k < |columns1| ==>
         && columns1[k].name == columns2[k].name
         && columns1[k].columnType == columns2[k].columnType
         && columns1[k].isOptional == columns2[k].isOptional
  }

  /** Same tables in the same order, each with the same columns. */
  predicate SameShape(tables1: seq<TableSchema>, tables2: seq<TableSchema>) {
    && |tables1| == |tables2|
    && forall i :: 0 <= i < |tables1| ==>
         tables1[i].name == tables2[i].name && SameColumns(tables1[i].columns, tables2[i].columns)
  }

  predicate UniqueColumnNames(columns: seq<ColumnSchema>) {
    forall k, l :: 0 <= k < l < |columns| ==> columns[k].name != columns[l].name
  }

  /** Table names are unique, and so are the column names within each table. */
  predicate WellFormed(tables: seq<TableSchema>) {
    && (forall i, j :: 0 <= i < j < |tables| ==> tables[i].name != tables[j].name)
    && forall i :: 0 <= i < |tables| ==> UniqueColumnNames(tables[i].columns)
  }

  lemma SameShapeWellFormed(tables1: seq<TableSchema>, tables2: seq<TableSchema>)
    requires SameShape(tables1, tables2) && WellFormed(tables2)
    ensures WellFormed(tables1)
  {
    forall i | 0 <= i < |tables1|
      ensures UniqueColumnNames(tables1[i].columns)
    {
      assert SameColumns(tables1[i].columns, tables2[i].columns);
    }
  }

  // Lookups by a unique name

  lemma {:induction false} FirstTableOfUnique(tables: seq<TableSchema>, i: nat)
    requires i < |tables|
    requires forall a, b :: 0 <= a < b < |tables| ==> tables[a].name != tables[b].name
    ensures FirstTable(tables, tables[i].name) == Some(tables[i])
  {
    if i > 0 {
      assert tables[1..][i - 1] == tables[i];
      FirstTableOfUnique(tables[1..], i - 1);
    }
  }

  lemma {:induction false} FirstColumnOfUnique(columns: seq<ColumnSchema>, k: nat)
    requires k < |columns|
    requires UniqueColumnNames(columns)
    ensures FirstColumn(columns, columns[k].name) == Some(columns[k])
  {
    if k > 0 {
      assert columns[1..][k - 1] == columns[k];
      FirstColumnOfUnique(columns[1..], k - 1);
    }
  }

  lemma SameShapeTableNames(tables1: seq<TableSchema>, tables2: seq<TableSchema>)
    requires SameShape(tables1, tables2)
    ensures TableNames(tables1) == TableNames(tables2)
  {
    forall n | n in TableNames(tables1) ensures n in TableNames(tables2) {
      var i :| 0 <= i < |tables1| && tables1[i].name == n;
      assert tables2[i] in tables2;
    }
    forall n | n in TableNames(tables2) ensures n in TableNames(tables1) {
      var i :| 0 <= i < |tables2| && tables2[i].name == n;
      assert tables1[i] in tables1;
    }
  }

  lemma SameColumnsColumnNames(columns1: seq<ColumnSchema>, columns2: seq<ColumnSchema>)
    requires SameColumns(columns1, columns2)
    ensures ColumnNames(columns1) == ColumnNames(columns2)
  {
    forall n | n in ColumnNames(columns1) ensures n in ColumnNames(columns2) {
      var k :| 0 <= k < |columns1| && columns1[k].name == n;
      assert columns2[k] in columns2;
    }
    forall n | n in ColumnNames(columns2) ensures n in ColumnNames(columns1) {
      var k :| 0 <= k < |columns2| && columns2[k].name == n;
      assert columns1[k] in columns1;
    }
  }

  lemma ImageOfEmpty<T>(f: string -> T)
    ensures Image({}, f) == {}
  {
  }

  lemma SameShapeReflexive(tables: seq<TableSchema>)
    ensures SameShape(tables, tables)
  {
  }

  lemma ColumnIssuesLast(backend: string, schemaTables: seq<TableSchema>, expectedTables: seq<TableSchema>)
    requires expectedTables != []
    ensures ColumnIssues(backend, schemaTables, expectedTables)
            == ColumnIssues(backend, schemaTables, expectedTables[..|expectedTables| - 1])
               + TableColumnIssues(backend, schemaTables, expectedTables[|expectedTables| - 1])
  {
  }

  lemma IssueOfLastTable(backend: string, schemaTables: seq<TableSchema>, expectedTables: seq<TableSchema>,
                         issue: string)
    requires expectedTables != []
    requires issue in TableColumnIssues(backend, schemaTables, expectedTables[|expectedTables| - 1])
    ensures issue in ColumnIssues(backend, schemaTables, expectedTables)
  {
    ColumnIssuesLast(backend, schemaTables, expectedTables);
  }

  lemma IssueOfPrefix(backend: string, schemaTables: seq<TableSchema>, expectedTables: seq<TableSchema>,
                      issue: string)
    requires expectedTables != []
    requires issue in ColumnIssues(backend, schemaTables, expectedTables[..|expectedTables| - 1])
    ensures issue in ColumnIssues(backend, schemaTables, expectedTables)
  {
    ColumnIssuesLast(backend, schemaTables, expectedTables);
  }

  /** Every expected table contributes its column-level issues to the comparison of any prefix holding it. */
  lemma {:induction false} TableColumnIssuesIncluded(backend: string, schemaTables: seq<TableSchema>,
                                                     expectedTables: seq<TableSchema>, i: nat, n: nat,
                                                     issue: string)
    requires i < n <= |expectedTables|
    requires issue in TableColumnIssues(backend, schemaTables, expectedTables[i])
    ensures issue in ColumnIssues(backend, schemaTables, expectedTables[..n])
  {
    assert expectedTables[..n][..n - 1] == expectedTables[..n - 1];
    if i < n - 1 {
      TableColumnIssuesIncluded(backend, schemaTables, expectedTables, i, n - 1, issue);
      IssueOfPrefix(backend, schemaTables, expectedTables[..n], issue);
    } else {
      IssueOfLastTable(backend, schemaTables, expectedTables[..n], issue);
    }
  }

  /** A column only the schema's table has is reported as an extra column. */
  lemma ExtraColumnReported(backend: string, schemaTables: seq<TableSchema>, expectedTables: seq<TableSchema>,
                            i: nat, actual: TableSchema, name: string)
    requires i < |expectedTables|
    requires FirstTable(schemaTables, expectedTables[i].name) == Some(actual)
    requires name in ColumnNames(actual.columns) && name !in ColumnNames(expectedTables[i].columns)
    ensures ExtraColumnIssue(backend, expectedTables[i].name, name) in ColumnIssues(backend, schemaTables, expectedTables)
  {
    var expected := expectedTables[i];
    var f := c => ExtraColumnIssue(backend, expected.name, c);
    assert f(name) in Image(ColumnNames(actual.columns) - ColumnNames(expected.columns), f);
    TableColumnIssuesIncluded(backend, schemaTables, expectedTables, i, |expectedTables|, f(name));
    assert expectedTables[..|expectedTables|] == expectedTables;
  }

  // compareWithExpected on schemas of the same shape

  lemma {:induction false} NoColumnMismatchIssues(backend: string, table: string, expected: seq<ColumnSchema>,
                                                  actual: seq<ColumnSchema>, n: nat)
    requires SameColumns(actual, expected) && UniqueColumnNames(actual)
    requires n <= |expected|
    ensures ColumnMismatchIssues(backend, table, expected[..n], actual) == []
  {
    if n > 0 {
      assert expected[..n][..n - 1] == expected[..n - 1];
      NoColumnMismatchIssues(backend, table, expected, actual, n - 1);
      FirstColumnOfUnique(actual, n - 1);
    }
  }

  lemma NoTableColumnIssues(backend: string, schemaTables: seq<TableSchema>, expectedTables: seq<TableSchema>,
                            i: nat)
    requires SameShape(schemaTables, expectedTables) && WellFormed(schemaTables)
    requires i < |expectedTables|
    ensures TableColumnIssues(backend, schemaTables, expectedTables[i]) == multiset{}
  {
    var expected := expectedTables[i];
    FirstTableOfUnique(schemaTables, i);
    var actual := schemaTables[i];
    SameColumnsColumnNames(actual.columns, expected.columns);
    assert ColumnNames(expected.columns) - ColumnNames(actual.columns) == {};
    assert ColumnNames(actual.columns) - ColumnNames(expected.columns) == {};
    ImageOfEmpty(c => MissingColumnIssue(backend, expected.name, c));
    ImageOfEmpty(c => ExtraColumnIssue(backend, expected.name, c));
    NoColumnMismatchIssues(backend, expected.name, expected.columns, actual.columns, |expected.columns|);
    assert expected.columns[..|expected.columns|] == expected.columns;
  }

  lemma {:induction false} NoColumnIssues(backend: string, schemaTables: seq<TableSchema>,
                                          expectedTables: seq<TableSchema>, n: nat)
    requires SameShape(schemaTables, expectedTables) && WellFormed(schemaTables)
    requires n <= |expectedTables|
    ensures ColumnIssues(backend, schemaTables, expectedTables[..n]) == multiset{}
  {
    if n > 0 {
      assert expectedTables[..n][..n - 1] == expectedTables[..n - 1];
      NoColumnIssues(backend, schemaTables, expectedTables, n - 1);
      NoTableColumnIssues(backend, schemaTables, expectedTables, n - 1);
    }
  }

  /**
   * `compareWithExpected` reports nothing for a schema whose tables and
   * columns match the expected ones in name, type and optionality.
   */
  lemma SameShapeNoIssues(schema: DatabaseSchema, expected: DatabaseSchema, backend: string)
    requires SameShape(schema.tables, expected.tables) && WellFormed(expected.tables)
    ensures ComparisonIssues(schema, expected, backend) == multiset{}
  {
    SameShapeWellFormed(schema.tables, expected.tables);
    SameShapeTableNames(schema.tables, expected.tables);
    assert TableNames(expected.tables) - TableNames(schema.tables) == {};
    ImageOfEmpty(n => MissingTableIssue(backend, n));
    ImageOfEmpty(n => ExtraTableIssue(backend, n));
    NoColumnIssues(backend, schema.tables, expected.tables, |expected.tables|);
    assert expected.tables[..|expected.tables|] == expected.tables;
  }

  // compareSchemas on schemas of the same shape

  lemma {:induction false} NoColumnMismatchDifferences(backend1: string, backend2: string, table: string,
                                                       columns1: seq<ColumnSchema>, columns2: seq<ColumnSchema>,
                                                       n: nat)
    requires SameColumns(columns2, columns1) && UniqueColumnNames(columns2)
    requires n <= |columns1|
    ensures ColumnMismatchDifferences(backend1, backend2, table, columns1[..n], columns2) == []
  {
    if n > 0 {
      assert columns1[..n][..n - 1] == columns1[..n - 1];
      NoColumnMismatchDifferences(backend1, backend2, table, columns1, columns2, n - 1);
      FirstColumnOfUnique(columns2, n - 1);
    }
  }

  lemma NoTableDifferences(backend1: string, backend2: string, tables1: seq<TableSchema>,
                           tables2: seq<TableSchema>, i: nat)
    requires SameShape(tables2, tables1) && WellFormed(tables2)
    requires i < |tables1|
    ensures TableDifferences(backend1, backend2, tables1[i], tables2) == multiset{}
  {
    var table1 := tables1[i];
    FirstTableOfUnique(tables2, i);
    var table2 := tables2[i];
    SameColumnsColumnNames(table2.columns, table1.columns);
    assert ColumnNames(table1.columns) - ColumnNames(table2.columns) == {};
    assert ColumnNames(table2.columns) - ColumnNames(table1.columns) == {};
    ImageOfEmpty(c => MissingColumnDifference(backend1, backend2, table1.name, c));
    ImageOfEmpty(c => ExtraColumnDifference(backend1, backend2, table1.name, c));
    NoColumnMismatchDifferences(backend1, backend2, table1.name, table1.columns, table2.columns,
                                |table1.columns|);
    assert table1.columns[..|table1.columns|] == table1.columns;
  }

  lemma {:induction false} NoColumnDifferences(backend1: string, backend2: string, tables1: seq<TableSchema>,
                                               tables2: seq<TableSchema>, n: nat)
    requires SameShape(tables2, tables1) && WellFormed(tables2)
    requires n <= |tables1|
    ensures ColumnDifferences(backend1, backend2, tables1[..n], tables2) == multiset{}
  {
    if n > 0 {
      assert tables1[..n][..n - 1] == tables1[..n - 1];
      NoColumnDifferences(backend1, backend2, tables1, tables2, n - 1);
      NoTableDifferences(backend1, backend2, tables1, tables2, n - 1);
    }
  }

  /** `compareSchemas` reports nothing for two schemas of the same shape. */
  lemma SameShapeNoDifferences(schema1: DatabaseSchema, schema2: DatabaseSchema)
    requires SameShape(schema2.tables, schema1.tables) && WellFormed(schema1.tables)
    ensures SchemaDifferences(schema1, schema2) == multiset{}
  {
    SameShapeWellFormed(schema2.tables, schema1.tables);
    SameShapeTableNames(schema2.tables, schema1.tables);
    assert TableNames(schema1.tables) - TableNames(schema2.tables) == {};
    ImageOfEmpty(n => MissingTableDifference(schema1.backend, schema2.backend, n));
    ImageOfEmpty(n => ExtraTableDifference(schema1.backend, schema2.backend, n));
    NoColumnDifferences(schema1.backend, schema2.backend, schema1.tables, schema2.tables, |schema1.tables|);
    assert schema1.tables[..|schema1.tables|] == schema1.tables;
  }
}
