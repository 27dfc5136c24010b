/**
 * What the two comparators report about whole tables. `compareSchemas`
 * records a missing table exactly for the names only its first schema
 * has and an extra table exactly for the names only its second has, so
 * swapping the two schemas turns every missing table into an extra one
 * with the same description. `compareWithExpected` reports a missing or
 * an extra table exactly for the names one side lacks, and a column of a
 * shared table exactly once per check that fails.
 */
module SchemaReports {
  import opened Primitives
  import opened SchemaValidator

  // compareSchemas

  /** A record that names a column is never a table-level record. */
  lemma {:induction false} MismatchDifferencesNameColumns(backend1: string, backend2: string, table: string,
                                                          columns1: seq<ColumnSchema>, columns2: seq<ColumnSchema>)
    ensures forall d :: d in ColumnMismatchDifferences(backend1, backend2, table, columns1, columns2) ==>
      d.column.Some? && d.differenceType == ColumnTypeMismatch
  {
    if columns1 != [] {
      MismatchDifferencesNameColumns(backend1, backend2, table, columns1[..|columns1| - 1], columns2);
    }
  }

  lemma TableDifferencesNameColumns(backend1: string, backend2: string, table1: TableSchema,
                                    tables2: seq<TableSchema>)
    ensures forall d :: d in TableDifferences(backend1, backend2, table1, tables2) ==> d.column.Some?
  {
    match FirstTable(tables2, table1.name)
    case None =>
    case Some(table2) =>
      MismatchDifferencesNameColumns(backend1, backend2, table1.name, table1.columns, table2.columns);
  }

  /** Every column-level record of `compareSchemas` names a column. */
  lemma {:induction false} ColumnDifferencesNameColumns(backend1: string, backend2: string,
                                                        tables1: seq<TableSchema>, tables2: seq<TableSchema>)
    ensures forall d :: d in ColumnDifferences(backend1, backend2, tables1, tables2) ==> d.column.Some?
  {
    if tables1 != [] {
      ColumnDifferencesNameColumns(backend1, backend2, tables1[..|tables1| - 1], tables2);
      TableDifferencesNameColumns(backend1, backend2, tables1[|tables1| - 1], tables2);
    }
  }

  /** The table-level records of `compareSchemas` name their kind and their table. */
  lemma TableRecordsNamed(backend1: string, backend2: string, names: set<string>)
    ensures forall d :: d in Image(names, n => MissingTableDifference(backend1, backend2, n)) ==>
      d.differenceType == MissingTable && d.column.None? && d.table in names
    ensures forall d :: d in Image(names, n => ExtraTableDifference(backend1, backend2, n)) ==>
      d.differenceType == ExtraTable && d.column.None? && d.table in names
  {
  }

  /** `compareSchemas(schema1, schema2)` records a missing table exactly for the tables only `schema1` has. */
  lemma MissingTableRecorded(schema1: DatabaseSchema, schema2: DatabaseSchema, table: string)
    ensures MissingTableDifference(schema1.backend, schema2.backend, table) in SchemaDifferences(schema1, schema2)
      <==> table in TableNames(schema1.tables) && table !in TableNames(schema2.tables)
  {
    var d := MissingTableDifference(schema1.backend, schema2.backend, table);
    var only1 := TableNames(schema1.tables) - TableNames(schema2.tables);
    var only2 := TableNames(schema2.tables) - TableNames(schema1.tables);
    var missing := Image(only1, n => MissingTableDifference(schema1.backend, schema2.backend, n));
    var extra := Image(only2, n => ExtraTableDifference(schema1.backend, schema2.backend, n));
    var columns := ColumnDifferences(schema1.backend, schema2.backend, schema1.tables, schema2.tables);
    assert SchemaDifferences(schema1, schema2) == multiset(missing) + multiset(extra) + columns;
    ColumnDifferencesNameColumns(schema1.backend, schema2.backend, schema1.tables, schema2.tables);
    TableRecordsNamed(schema1.backend, schema2.backend, only1);
    TableRecordsNamed(schema1.backend, schema2.backend, only2);
    assert d !in columns;
    assert d !in extra;
    if table in only1 {
      assert d in missing;
    }
  }

  /** `compareSchemas(schema1, schema2)` records an extra table exactly for the tables only `schema2` has. */
  lemma ExtraTableRecorded(schema1: DatabaseSchema, schema2: DatabaseSchema, table: string)
    ensures ExtraTableDifference(schema1.backend, schema2.backend, table) in SchemaDifferences(schema1, schema2)
      <==> table in TableNames(schema2.tables) && table !in TableNames(schema1.tables)
  {
    var d := ExtraTableDifference(schema1.backend, schema2.backend, table);
    var only1 := TableNames(schema1.tables) - TableNames(schema2.tables);
    var only2 := TableNames(schema2.tables) - TableNames(schema1.tables);
    var missing := Image(only1, n => MissingTableDifference(schema1.backend, schema2.backend, n));
    var extra := Image(only2, n => ExtraTableDifference(schema1.backend, schema2.backend, n));
    var columns := ColumnDifferences(schema1.backend, schema2.backend, schema1.tables, schema2.tables);
    assert SchemaDifferences(schema1, schema2) == multiset(missing) + multiset(extra) + columns;
    ColumnDifferencesNameColumns(schema1.backend, schema2.backend, schema1.tables, schema2.tables);
    TableRecordsNamed(schema1.backend, schema2.backend, only1);
    TableRecordsNamed(schema1.backend, schema2.backend, only2);
    assert d !in columns;
    assert d !in missing;
    if table in only2 {
      assert d in extra;
    }
  }

  /**
   * Swapping the schemas swaps missing and extra tables: a table is
   * missing from one comparison exactly when it is extra in the swapped
   * one, and both records read the same.
   */
  lemma SwappedTableDifferences(schema1: DatabaseSchema, schema2: DatabaseSchema, table: string)
    ensures MissingTableDifference(schema1.backend, schema2.backend, table) in SchemaDifferences(schema1, schema2)
      <==> ExtraTableDifference(schema2.backend, schema1.backend, table) in SchemaDifferences(schema2, schema1)
    ensures ExtraTableDifference(schema1.backend, schema2.backend, table) in SchemaDifferences(schema1, schema2)
      <==> MissingTableDifference(schema2.backend, schema1.backend, table) in SchemaDifferences(schema2, schema1)
    ensures MissingTableDifference(schema1.backend, schema2.backend, table).description
      == ExtraTableDifference(schema2.backend, schema1.backend, table).description
  {
    MissingTableRecorded(schema1, schema2, table);
    ExtraTableRecorded(schema2, schema1, table);
    ExtraTableRecorded(schema1, schema2, table);
    MissingTableRecorded(schema2, schema1, table);
  }

  // compareWithExpected

  /** The character right after the backend name and ": " tells the kinds of issue apart. */
  ghost function KindMark(backend: string, issue: string): char
    requires |issue| > |backend| + 2
  {
    issue[|backend| + 2]
  }

  /** Column-level issues all start with the backend, then ": Table" or ": Column". */
  ghost predicate ColumnLevel(backend: string, issue: string) {
    |issue| > |backend| + 2 && (KindMark(backend, issue) == 'T' || KindMark(backend, issue) == 'C')
  }

  lemma ColumnIssueLevels(backend: string, table: string)
    ensures forall c :: ColumnLevel(backend, MissingColumnIssue(backend, table, c))
    ensures forall c :: ColumnLevel(backend, ExtraColumnIssue(backend, table, c))
  {
  }

  lemma MismatchIssueLevels(backend: string, table: string, column: string)
    ensures forall expected, got :: ColumnLevel(backend, TypeMismatchIssue(backend, table, column, expected, got))
    ensures forall expected, got ::
      ColumnLevel(backend, OptionalityMismatchIssue(backend, table, column, expected, got))
  {
  }

  lemma {:induction false} MismatchIssuesLevel(backend: string, table: string, expected: seq<ColumnSchema>,
                                               actual: seq<ColumnSchema>)
    ensures forall s :: s in ColumnMismatchIssues(backend, table, expected, actual) ==> ColumnLevel(backend, s)
  {
    if expected != [] {
      MismatchIssuesLevel(backend, table, expected[..|expected| - 1], actual);
      MismatchIssueLevels(backend, table, expected[|expected| - 1].name);
    }
  }

  lemma TableColumnIssuesLevel(backend: string, schemaTables: seq<TableSchema>, expected: TableSchema)
    ensures forall s :: s in TableColumnIssues(backend, schemaTables, expected) ==> ColumnLevel(backend, s)
  {
    match FirstTable(schemaTables, expected.name)
    case None =>
    case Some(actual) =>
      ColumnIssueLevels(backend, expected.name);
      MismatchIssuesLevel(backend, expected.name, expected.columns, actual.columns);
  }

  /** Every column-level issue of `compareWithExpected` is about a table's columns, not a whole table. */
  lemma {:induction false} ColumnIssuesLevel(backend: string, schemaTables: seq<TableSchema>,
                                             expectedTables: seq<TableSchema>)
    ensures forall s :: s in ColumnIssues(backend, schemaTables, expectedTables) ==> ColumnLevel(backend, s)
  {
    if expectedTables != [] {
      ColumnIssuesLevel(backend, schemaTables, expectedTables[..|expectedTables| - 1]);
      TableColumnIssuesLevel(backend, schemaTables, expectedTables[|expectedTables| - 1]);
    }
  }

  /** The table-level issues are marked 'M' (missing) and 'E' (extra). */
  lemma TableIssueMarks(backend: string)
    ensures forall t ::
      |MissingTableIssue(backend, t)| > |backend| + 2 && KindMark(backend, MissingTableIssue(backend, t)) == 'M'
    ensures forall t ::
      |ExtraTableIssue(backend, t)| > |backend| + 2 && KindMark(backend, ExtraTableIssue(backend, t)) == 'E'
  {
  }

  /** `compareWithExpected` reports a missing table exactly for the expected tables the schema lacks. */
  lemma MissingTableReported(schema: DatabaseSchema, expected: DatabaseSchema, backend: string, table: string)
    ensures MissingTableIssue(backend, table) in ComparisonIssues(schema, expected, backend)
      <==> table in TableNames(expected.tables) && table !in TableNames(schema.tables)
  {
    var s := MissingTableIssue(backend, table);
    var lacking := TableNames(expected.tables) - TableNames(schema.tables);
    var unexpected := TableNames(schema.tables) - TableNames(expected.tables);
    var missing := Image(lacking, n => MissingTableIssue(backend, n));
    var extra := Image(unexpected, n => ExtraTableIssue(backend, n));
    var columns := ColumnIssues(backend, schema.tables, expected.tables);
    assert ComparisonIssues(schema, expected, backend) == multiset(missing) + multiset(extra) + columns;
    TableIssueMarks(backend);
    ColumnIssuesLevel(backend, schema.tables, expected.tables);
    assert s !in columns;
    assert s !in extra;
    if s in missing {
      var n :| n in lacking && MissingTableIssue(backend, n) == s;
      MissingTableIssueInjective(backend);
    }
    if table in lacking {
      assert s in missing;
    }
  }

  /** `compareWithExpected` reports an extra table exactly for the schema's tables that are not expected. */
  lemma ExtraTableReported(schema: DatabaseSchema, expected: DatabaseSchema, backend: string, table: string)
    ensures ExtraTableIssue(backend, table) in ComparisonIssues(schema, expected, backend)
      <==> table in TableNames(schema.tables) && table !in TableNames(expected.tables)
  {
    var s := ExtraTableIssue(backend, table);
    var lacking := TableNames(expected.tables) - TableNames(schema.tables);
    var unexpected := TableNames(schema.tables) - TableNames(expected.tables);
    var missing := Image(lacking, n => MissingTableIssue(backend, n));
    var extra := Image(unexpected, n => ExtraTableIssue(backend, n));
    var columns := ColumnIssues(backend, schema.tables, expected.tables);
    assert ComparisonIssues(schema, expected, backend) == multiset(missing) + multiset(extra) + columns;
    TableIssueMarks(backend);
    ColumnIssuesLevel(backend, schema.tables, expected.tables);
    assert s !in columns;
    assert s !in missing;
    if s in extra {
      var n :| n in unexpected && ExtraTableIssue(backend, n) == s;
      ExtraTableIssueInjective(backend);
    }
    if table in unexpected {
      assert s in extra;
    }
  }
}
