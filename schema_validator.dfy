/**
 * Cross-backend schema validation. A schema is a list of tables, each a
 * list of columns with an SQLite type and an optionality flag. The
 * expected schema and the SwiftData schema are built from the same three
 * table definitions; the Core Data schema is introspected from the managed
 * object model. Two comparators report differences: one as issue strings
 * against the expected schema, one as typed difference records between two
 * backends. Both walk sets of names, whose iteration order Swift leaves
 * unspecified, so what they return is specified as a multiset.
 */
module SchemaValidator {
  import opened Primitives
  import opened CoreDataModel

  datatype ColumnSchema = ColumnSchema(
    name: string,
    columnType: string,
    isOptional: bool,
    defaultValue: Option<string> := None,
    isPrimaryKey: bool := false)

  datatype IndexSchema = IndexSchema(name: string, columns: seq<string>, isUnique: bool := false)

  datatype ConstraintSchema = ConstraintSchema(name: string, constraintType: string, columns: seq<string>)

  datatype TableSchema = TableSchema(
    name: string,
    columns: seq<ColumnSchema>,
    indexes: seq<IndexSchema> := [],
    constraints: seq<ConstraintSchema> := [])

  datatype DatabaseSchema = DatabaseSchema(tables: seq<TableSchema>, version: string, backend: string)

  datatype DifferenceType =
    | MissingTable
    | ExtraTable
    | MissingColumn
    | ExtraColumn
    | ColumnTypeMismatch
    | ConstraintMismatch
    | IndexMismatch

  /** The enum's `String` raw value. */
  function DifferenceRawValue(t: DifferenceType): string {
    match t
    case MissingTable => "missing_table"
    case ExtraTable => "extra_table"
    case MissingColumn => "missing_column"
    case ExtraColumn => "extra_column"
    case ColumnTypeMismatch => "column_type_mismatch"
    case ConstraintMismatch => "constraint_mismatch"
    case IndexMismatch => "index_mismatch"
  }

  datatype SchemaDifference = SchemaDifference(
    differenceType: DifferenceType,
    table: string,
    column: Option<string>,
    description: string)

  datatype SchemaComparison = SchemaComparison(
    swiftDataSchema: Option<DatabaseSchema>,
    coreDataSchema: Option<DatabaseSchema>,
    differences: seq<SchemaDifference>)

  datatype CrossBackendValidationResult = CrossBackendValidationResult(
    isValid: bool,
    issues: seq<string> := [],
    recommendedActions: seq<string> := [],
    schemaComparison: Option<SchemaComparison> := None)

  /** `attributeTypeToSQLiteType`: a total map onto the four SQLite storage classes. */
  function AttributeTypeToSQLiteType(t: AttributeType): (r: string)
    ensures r == "INTEGER" <==>
      t == Integer16AttributeType || t == Integer32AttributeType || t == Integer64AttributeType
      || t == BooleanAttributeType
    ensures r == "REAL" <==> t == FloatAttributeType || t == DoubleAttributeType || t == DateAttributeType
    ensures r == "BLOB" <==> t == BinaryDataAttributeType
    ensures r == "TEXT" || r == "INTEGER" || r == "REAL" || r == "BLOB"
  {
    match t
    case StringAttributeType => "TEXT"
    case Integer16AttributeType | Integer32AttributeType | Integer64AttributeType => "INTEGER"
    case BooleanAttributeType => "INTEGER"
    case FloatAttributeType | DoubleAttributeType => "REAL"
    case DateAttributeType => "REAL"
    case BinaryDataAttributeType => "BLOB"
    case _ => "TEXT"
  }

  // The table definitions both backends should match

  function CreateWebAuthnCredentialTable(): TableSchema {
    TableSchema(
      "WebAuthnClientCredential",
      [ ColumnSchema("id", "TEXT", false, isPrimaryKey := true),
        ColumnSchema("rpId", "TEXT", false),
        ColumnSchema("userHandle", "BLOB", false),
        ColumnSchema("publicKey", "BLOB", false),
        ColumnSchema("privateKeyRef", "TEXT", true),
        ColumnSchema("createdAt", "REAL", false),
        ColumnSchema("lastUsed", "REAL", true),
        ColumnSchema("signCount", "INTEGER", false, Some("0")),
        ColumnSchema("isResident", "INTEGER", false, Some("0")),
        ColumnSchema("userDisplayName", "TEXT", true),
        ColumnSchema("credentialType", "TEXT", false, Some("public-key")) ],
      constraints := [ConstraintSchema("unique_webauthnClientCredential_0", "UNIQUE", ["id"])])
  }

  /** The nine server-credential columns the expected schema lists, as written. */
  function ServerCredentialCoreColumns(): seq<ColumnSchema> {
    [ ColumnSchema("id", "TEXT", false, isPrimaryKey := true),
      ColumnSchema("credentialId", "TEXT", false),
      ColumnSchema("publicKeyJWK", "TEXT", false),
      ColumnSchema("signCount", "INTEGER", false, Some("0")),
      ColumnSchema("isDiscoverable", "INTEGER", false, Some("0")),
      ColumnSchema("createdAt", "REAL", false),
      ColumnSchema("lastVerified", "REAL", true),
      ColumnSchema("rpId", "TEXT", false),
      ColumnSchema("userHandle", "BLOB", false) ]
  }

  /** `createServerCredentialTable()` as written: nine columns. */
  function CreateServerCredentialTableAsWritten(): TableSchema {
    TableSchema(
      "ServerCredential",
      ServerCredentialCoreColumns(),
      constraints := [ConstraintSchema("unique_serverCredential_0", "UNIQUE", ["id"])])
  }

  /**
   * The server-credential table with the eleven further columns both
   * backends store (algorithm through userNumber), so that it describes
   * the entity the backends actually hold.
   */
  function CreateServerCredentialTable(): TableSchema {
    TableSchema(
      "ServerCredential",
      ServerCredentialCoreColumns() +
      [ ColumnSchema("algorithm", "INTEGER", false, Some("-7")),
        ColumnSchema("protocolVersion", "TEXT", false, Some("fido2")),
        ColumnSchema("attestationFormat", "TEXT", true),
        ColumnSchema("aaguid", "TEXT", true),
        ColumnSchema("backupEligible", "INTEGER", false, Some("0")),
        ColumnSchema("backupState", "INTEGER", false, Some("0")),
        ColumnSchema("emoji", "TEXT", false),
        ColumnSchema("lastLoginIP", "TEXT", true),
        ColumnSchema("isEnabled", "INTEGER", false, Some("1")),
        ColumnSchema("isAdmin", "INTEGER", false, Some("0")),
        ColumnSchema("userNumber", "INTEGER", false, Some("0")) ],
      constraints := [ConstraintSchema("unique_serverCredential_0", "UNIQUE", ["id"])])
  }

  function CreateVirtualKeyTable(): TableSchema {
    TableSchema(
      "VirtualKey",
      [ ColumnSchema("id", "TEXT", false, isPrimaryKey := true),
        ColumnSchema("name", "TEXT", false),
        ColumnSchema("encryptedPrivateKey", "BLOB", false),
        ColumnSchema("publicKey", "BLOB", false),
        ColumnSchema("algorithm", "TEXT", false),
        ColumnSchema("keySize", "INTEGER", false),
        ColumnSchema("createdAt", "REAL", false),
        ColumnSchema("lastUsed", "REAL", true),
        ColumnSchema("isActive", "INTEGER", false, Some("1")),
        ColumnSchema("kdfAlgorithm", "TEXT", true),
        ColumnSchema("kdfIterations", "INTEGER", true),
        ColumnSchema("kdfSalt", "BLOB", true),
        ColumnSchema("kdfKeyLength", "INTEGER", true) ],
      constraints := [ConstraintSchema("unique_virtualKey_0", "UNIQUE", ["id"])])
  }

  /** The three table definitions, with the server-credential table as written. */
  function ModelTablesAsWritten(): seq<TableSchema> {
    [CreateWebAuthnCredentialTable(), CreateServerCredentialTableAsWritten(), CreateVirtualKeyTable()]
  }

  /** The three table definitions the rest of the model uses. */
  function ModelTables(): seq<TableSchema> {
    [CreateWebAuthnCredentialTable(), CreateServerCredentialTable(), CreateVirtualKeyTable()]
  }

  /** `getExpectedSchema()` over a set of table definitions. */
  function ExpectedSchemaOf(tables: seq<TableSchema>): DatabaseSchema {
    DatabaseSchema(tables, "1.0", "Expected")
  }

  /** `validateSwiftDataSchema()`: the same definitions, labelled SwiftData. */
  function SwiftDataSchemaOf(tables: seq<TableSchema>): DatabaseSchema {
    DatabaseSchema(tables, "1.0", "SwiftData")
  }

  // Introspection of the Core Data model

  /** The column an attribute becomes: SQLite type, optionality, printed default, primary key iff `id`. */
  function IntrospectedColumn(a: AttributeDescription): ColumnSchema {
    ColumnSchema(
      a.name,
      AttributeTypeToSQLiteType(a.attributeType),
      a.isOptional,
      if a.defaultValue.Some? then Some(Describe(a.defaultValue.value)) else None,
      a.name == "id")
  }

  /** The name of an entity's `index`-th uniqueness constraint. */
  function UniqueConstraintName(entityName: string, index: nat): string {
    "unique_" + LowerAscii(entityName) + "_" + NatToString(index)
  }

  function IntrospectedTable(e: EntityDescription): TableSchema {
    TableSchema(
      e.name,
      seq(|e.properties|, k requires 0 <= k < |e.properties| => IntrospectedColumn(e.properties[k])),
      [],
      seq(|e.uniquenessConstraints|, k requires 0 <= k < |e.uniquenessConstraints| =>
        ConstraintSchema(UniqueConstraintName(e.name, k), "UNIQUE", e.uniquenessConstraints[k])))
  }

  function IntrospectedTables(entities: seq<EntityDescription>): seq<TableSchema> {
    seq(|entities|, i requires 0 <= i < |entities| => IntrospectedTable(entities[i]))
  }

  /** What `validateCoreDataSchema()` returns for `model`. */
  function CoreDataSchemaOf(model: ManagedObjectModel): DatabaseSchema {
    DatabaseSchema(IntrospectedTables(model.entities), "1.0", "Core Data")
  }

  /**
   * `validateCoreDataSchema()` over a model: one table per entity, one
   * column per attribute, the primary key being the column named `id`, and
   * one UNIQUE constraint per uniqueness constraint, numbered from 0.
   */
  method ValidateCoreDataSchema(model: ManagedObjectModel) returns (schema: DatabaseSchema)
    ensures schema.version == "1.0" && schema.backend == "Core Data"
    ensures |schema.tables| == |model.entities|
    ensures forall i :: 0 <= i < |schema.tables| ==>
      && schema.tables[i].name == model.entities[i].name
      && |schema.tables[i].columns| == |model.entities[i].properties|
      && |schema.tables[i].constraints| == |model.entities[i].uniquenessConstraints|
    ensures forall i, k :: 0 <= i < |schema.tables| && 0 <= k < |schema.tables[i].columns| ==>
      && schema.tables[i].columns[k].name == model.entities[i].properties[k].name
      && schema.tables[i].columns[k].isOptional == model.entities[i].properties[k].isOptional
      && schema.tables[i].columns[k].columnType
         == AttributeTypeToSQLiteType(model.entities[i].properties[k].attributeType)
      && (schema.tables[i].columns[k].isPrimaryKey <==> schema.tables[i].columns[k].name == "id")
    ensures forall i, k :: 0 <= i < |schema.tables| && 0 <= k < |schema.tables[i].constraints| ==>
      schema.tables[i].constraints[k] == ConstraintSchema(UniqueConstraintName(schema.tables[i].name, k),
                                                          "UNIQUE", model.entities[i].uniquenessConstraints[k])
    ensures schema == CoreDataSchemaOf(model)
  {
    var tables: seq<TableSchema> := [];
    for e := 0 to |model.entities|
      invariant tables == IntrospectedTables(model.entities[..e])
    {
      var entity := model.entities[e];
      var columns: seq<ColumnSchema> := [];
      for p := 0 to |entity.properties|
        invariant columns == IntrospectedTable(entity).columns[..p]
      {
        columns := columns + [IntrospectedColumn(entity.properties[p])];
      }
      var constraints: seq<ConstraintSchema> := [];
      if entity.uniquenessConstraints != [] {
        for k := 0 to |entity.uniquenessConstraints|
          invariant constraints == IntrospectedTable(entity).constraints[..k]
        {
          var constraint := ConstraintSchema(UniqueConstraintName(entity.name, k), "UNIQUE",
                                             entity.uniquenessConstraints[k]);
          constraints := constraints + [constraint];
        }
      }
      assert columns == IntrospectedTable(entity).columns;
      assert constraints == IntrospectedTable(entity).constraints;
      tables := tables + [TableSchema(entity.name, columns, [], constraints)];
    }
    assert model.entities[..|model.entities|] == model.entities;
    schema := DatabaseSchema(tables, "1.0", "Core Data");
  }

  // Set iteration

  /** The image of a set of names under `f`. */
  ghost function Image<T>(names: set<string>, f: string -> T): set<T> {
    set n | n in names :: f(n)
  }

  lemma ImageInsert<T>(s: set<string>, x: string, f: string -> T)
    requires x !in s
    requires forall a, b :: a in s + {x} && b in s + {x} && f(a) == f(b) ==> a == b
    ensures multiset(Image(s + {x}, f)) == multiset(Image(s, f)) + multiset{f(x)}
  {
    assert Image(s + {x}, f) == Image(s, f) + {f(x)};
    assert f(x) !in Image(s, f);
  }

  /**
   * `for name in names { out.append(f(name)) }` over a `Set`: every name
   * contributes once, in an order the model leaves open.
   */
  method EmitEach<T(==)>(names: set<string>, f: string -> T) returns (out: seq<T>)
    requires forall a, b :: a in names && b in names && f(a) == f(b) ==> a == b
    ensures multiset(out) == multiset(Image(names, f))
  {
    out := [];
    var rest := names;
    ghost var done: set<string> := {};
    while rest != {}
      invariant done + rest == names && done !! rest
      invariant multiset(out) == multiset(Image(done, f))
      decreases rest
    {
      var n :| n in rest;
      ImageInsert(done, n, f);
      out := out + [f(n)];
      rest := rest - {n};
      done := done + {n};
    }
  }

  /** `p + a + s` determines `a`. */
  lemma FramedInjective(p: string, a: string, b: string, s: string)
    requires p + a + s == p + b + s
    ensures a == b
  {
    assert |a| == |b|;
    assert a == (p + a + s)[|p|..|p| + |a|];
    assert b == (p + b + s)[|p|..|p| + |b|];
  }

  // Lookups

  function TableNames(tables: seq<TableSchema>): set<string> {
    set t | t in tables :: t.name
  }

  function ColumnNames(columns: seq<ColumnSchema>): set<string> {
    set c | c in columns :: c.name
  }

  /** `tables.first(where: { $0.name == name })`. */
  function FirstTable(tables: seq<TableSchema>, name: string): (r: Option<TableSchema>)
    ensures r.Some? <==> name in TableNames(tables)
    ensures r.Some? ==> r.value in tables && r.value.name == name
  {
    if tables == [] then None
    else if tables[0].name == name then Some(tables[0])
    else
      assert TableNames(tables) == {tables[0].name} + TableNames(tables[1..]);
      FirstTable(tables[1..], name)
  }

  /** `columns.first(where: { $0.name == name })`. */
  function FirstColumn(columns: seq<ColumnSchema>, name: string): (r: Option<ColumnSchema>)
    ensures r.Some? <==> name in ColumnNames(columns)
    ensures r.Some? ==> r.value in columns && r.value.name == name
  {
    if columns == [] then None
    else if columns[0].name == name then Some(columns[0])
    else
      assert ColumnNames(columns) == {columns[0].name} + ColumnNames(columns[1..]);
      FirstColumn(columns[1..], name)
  }

  // compareWithExpected

  function MissingTableIssue(backend: string, table: string): string {
    backend + ": Missing table '" + table + "'"
  }

  function ExtraTableIssue(backend: string, table: string): string {
    backend + ": Extra table '" + table + "'"
  }

  function MissingColumnIssue(backend: string, table: string, column: string): string {
    backend + ": Table '" + table + "' missing column '" + column + "'"
  }

  function ExtraColumnIssue(backend: string, table: string, column: string): string {
    backend + ": Table '" + table + "' has extra column '" + column + "'"
  }

  function TypeMismatchIssue(backend: string, table: string, column: string, expected: string, got: string): string {
    backend + ": Column '" + table + "." + column + "' type mismatch: expected '" + expected + "', got '" + got + "'"
  }

  function OptionalityMismatchIssue(backend: string, table: string, column: string, expected: bool, got: bool): string {
    backend + ": Column '" + table + "." + column + "' optionality mismatch: expected " + BoolToString(expected)
    + ", got " + BoolToString(got)
  }

  /** The issues one expected column raises against the schema's column of that name, if any. */
  function ColumnPairIssues(backend: string, table: string, expected: ColumnSchema, found: Option<ColumnSchema>)
    : seq<string>
  {
    match found
    case None => []
    case Some(actual) =>
      (if actual.columnType != expected.columnType
       then [TypeMismatchIssue(backend, table, expected.name, expected.columnType, actual.columnType)] else [])
      + (if actual.isOptional != expected.isOptional
         then [OptionalityMismatchIssue(backend, table, expected.name, expected.isOptional, actual.isOptional)]
         else [])
  }

  /** The type and optionality issues of a table's expected columns, in column order. */
  function ColumnMismatchIssues(backend: string, table: string, expected: seq<ColumnSchema>, actual: seq<ColumnSchema>)
    : seq<string>
  {
    if expected == [] then []
    else
      var last := expected[|expected| - 1];
      ColumnMismatchIssues(backend, table, expected[..|expected| - 1], actual)
      + ColumnPairIssues(backend, table, last, FirstColumn(actual, last.name))
  }

  /** The column-level issues of one expected table; none when the schema lacks the table. */
  ghost function TableColumnIssues(backend: string, schemaTables: seq<TableSchema>, expected: TableSchema)
    : multiset<string>
  {
    match FirstTable(schemaTables, expected.name)
    case None => multiset{}
    case Some(actual) =>
      multiset(Image(ColumnNames(expected.columns) - ColumnNames(actual.columns),
                     c => MissingColumnIssue(backend, expected.name, c)))
      + multiset(Image(ColumnNames(actual.columns) - ColumnNames(expected.columns),
                       c => ExtraColumnIssue(backend, expected.name, c)))
      + multiset(ColumnMismatchIssues(backend, expected.name, expected.columns, actual.columns))
  }

  ghost function ColumnIssues(backend: string, schemaTables: seq<TableSchema>, expectedTables: seq<TableSchema>)
    : multiset<string>
  {
    if expectedTables == [] then multiset{}
    else
      ColumnIssues(backend, schemaTables, expectedTables[..|expectedTables| - 1])
      + TableColumnIssues(backend, schemaTables, expectedTables[|expectedTables| - 1])
  }

  /** Every issue `compareWithExpected(schema, expected, backend)` reports, with multiplicity. */
  ghost function ComparisonIssues(schema: DatabaseSchema, expected: DatabaseSchema, backend: string): multiset<string> {
    multiset(Image(TableNames(expected.tables) - TableNames(schema.tables), n => MissingTableIssue(backend, n)))
    + multiset(Image(TableNames(schema.tables) - TableNames(expected.tables), n => ExtraTableIssue(backend, n)))
    + ColumnIssues(backend, schema.tables, expected.tables)
  }

  lemma MissingTableIssueInjective(backend: string)
    ensures forall a, b :: MissingTableIssue(backend, a) == MissingTableIssue(backend, b) ==> a == b
  {
    forall a, b | MissingTableIssue(backend, a) == MissingTableIssue(backend, b) ensures a == b {
      FramedInjective(backend + ": Missing table '", a, b, "'");
    }
  }

  lemma ExtraTableIssueInjective(backend: string)
    ensures forall a, b :: ExtraTableIssue(backend, a) == ExtraTableIssue(backend, b) ==> a == b
  {
    forall a, b | ExtraTableIssue(backend, a) == ExtraTableIssue(backend, b) ensures a == b {
      FramedInjective(backend + ": Extra table '", a, b, "'");
    }
  }

  lemma MissingColumnIssueInjective(backend: string, table: string)
    ensures forall a, b :: MissingColumnIssue(backend, table, a) == MissingColumnIssue(backend, table, b) ==> a == b
  {
    forall a, b | MissingColumnIssue(backend, table, a) == MissingColumnIssue(backend, table, b) ensures a == b {
      FramedInjective(backend + ": Table '" + table + "' missing column '", a, b, "'");
    }
  }

  lemma ExtraColumnIssueInjective(backend: string, table: string)
    ensures forall a, b :: ExtraColumnIssue(backend, table, a) == ExtraColumnIssue(backend, table, b) ==> a == b
  {
    forall a, b | ExtraColumnIssue(backend, table, a) == ExtraColumnIssue(backend, table, b) ensures a == b {
      FramedInjective(backend + ": Table '" + table + "' has extra column '", a, b, "'");
    }
  }

  /** The type and optionality checks of `compareWithExpected` for one expected column. */
  method CompareColumnWithExpected(backend: string, table: string, expectedColumn: ColumnSchema,
                                   found: Option<ColumnSchema>)
    returns (issues: seq<string>)
    ensures issues == ColumnPairIssues(backend, table, expectedColumn, found)
    ensures |issues| == (if found.Some? && found.value.columnType != expectedColumn.columnType then 1 else 0)
                        + (if found.Some? && found.value.isOptional != expectedColumn.isOptional then 1 else 0)
    ensures found.Some? && found.value.columnType != expectedColumn.columnType ==>
      issues[0] == TypeMismatchIssue(backend, table, expectedColumn.name, expectedColumn.columnType,
                                     found.value.columnType)
    ensures found.Some? && found.value.isOptional != expectedColumn.isOptional ==>
      issues[|issues| - 1] == OptionalityMismatchIssue(backend, table, expectedColumn.name,
                                                       expectedColumn.isOptional, found.value.isOptional)
  {
    issues := [];
    if found.None? {
      return;
    }
    var schemaColumn := found.value;
    if schemaColumn.columnType != expectedColumn.columnType {
      issues := issues + [TypeMismatchIssue(backend, table, expectedColumn.name,
                                            expectedColumn.columnType, schemaColumn.columnType)];
    }
    if schemaColumn.isOptional != expectedColumn.isOptional {
      issues := issues + [OptionalityMismatchIssue(backend, table, expectedColumn.name,
                                                   expectedColumn.isOptional, schemaColumn.isOptional)];
    }
  }

  /** The type and optionality checks of `compareWithExpected` for one table, column by column. */
  method CompareColumnsWithExpected(backend: string, table: string, expected: seq<ColumnSchema>,
                                    actual: seq<ColumnSchema>)
    returns (issues: seq<string>)
    ensures issues == ColumnMismatchIssues(backend, table, expected, actual)
  {
    issues := [];
    for j := 0 to |expected|
      invariant issues == ColumnMismatchIssues(backend, table, expected[..j], actual)
    {
      var columnIssues := CompareColumnWithExpected(backend, table, expected[j],
                                                    FirstColumn(actual, expected[j].name));
      assert expected[..j + 1][..j] == expected[..j];
      issues := issues + columnIssues;
    }
    assert expected[..|expected|] == expected;
  }

  /** The column-level part of `compareWithExpected` for one expected table. */
  method CompareTableWithExpected(backend: string, schemaTables: seq<TableSchema>, expectedTable: TableSchema)
    returns (issues: seq<string>)
    ensures multiset(issues) == TableColumnIssues(backend, schemaTables, expectedTable)
  {
    var found := FirstTable(schemaTables, expectedTable.name);
    if found.None? {
      return [];
    }
    var schemaTable := found.value;
    var schemaColumnNames := ColumnNames(schemaTable.columns);
    var expectedColumnNames := ColumnNames(expectedTable.columns);
    MissingColumnIssueInjective(backend, expectedTable.name);
    var missingColumns := EmitEach(expectedColumnNames - schemaColumnNames,
                                   c => MissingColumnIssue(backend, expectedTable.name, c));
    ExtraColumnIssueInjective(backend, expectedTable.name);
    var extraColumns := EmitEach(schemaColumnNames - expectedColumnNames,
                                 c => ExtraColumnIssue(backend, expectedTable.name, c));
    var mismatches := CompareColumnsWithExpected(backend, expectedTable.name, expectedTable.columns,
                                                 schemaTable.columns);
    issues := missingColumns + extraColumns + mismatches;
  }

  /** The table-level part of `compareWithExpected`: missing and extra tables by name. */
  method CompareTableNamesWithExpected(schema: DatabaseSchema, expected: DatabaseSchema, backend: string)
    returns (issues: seq<string>)
    ensures multiset(issues)
      == multiset(Image(TableNames(expected.tables) - TableNames(schema.tables), n => MissingTableIssue(backend, n)))
      + multiset(Image(TableNames(schema.tables) - TableNames(expected.tables), n => ExtraTableIssue(backend, n)))
  {
    var schemaTableNames := TableNames(schema.tables);
    var expectedTableNames := TableNames(expected.tables);
    MissingTableIssueInjective(backend);
    var missingTables := EmitEach(expectedTableNames - schemaTableNames, n => MissingTableIssue(backend, n));
    ExtraTableIssueInjective(backend);
    var extraTables := EmitEach(schemaTableNames - expectedTableNames, n => ExtraTableIssue(backend, n));
    issues := missingTables + extraTables;
  }

  /**
   * `compareWithExpected`: missing and extra tables by name, then for each
   * expected table the schema also has, missing and extra columns by name
   * and, column by column, a type and an optionality mismatch.
   */
  method CompareWithExpected(schema: DatabaseSchema, expected: DatabaseSchema, backend: string)
    returns (issues: seq<string>)
    ensures multiset(issues) == ComparisonIssues(schema, expected, backend)
  {
    var tableIssues := CompareTableNamesWithExpected(schema, expected, backend);
    var schemaTables, expectedTables := schema.tables, expected.tables;
    issues := tableIssues;
    for i := 0 to |expectedTables|
      invariant multiset(issues) == multiset(tableIssues) + ColumnIssues(backend, schemaTables, expectedTables[..i])
    {
      assert expectedTables[..i + 1][..i] == expectedTables[..i];
      var columnIssues := CompareTableWithExpected(backend, schemaTables, expectedTables[i]);
      issues := issues + columnIssues;
    }
    assert expectedTables[..|expectedTables|] == expectedTables;
  }

  // compareSchemas

  function MissingTableDifference(backend1: string, backend2: string, table: string): SchemaDifference {
    SchemaDifference(MissingTable, table, None,
                     "Table '" + table + "' exists in " + backend1 + " but not in " + backend2)
  }

  function ExtraTableDifference(backend1: string, backend2: string, table: string): SchemaDifference {
    SchemaDifference(ExtraTable, table, None,
                     "Table '" + table + "' exists in " + backend2 + " but not in " + backend1)
  }

  function MissingColumnDifference(backend1: string, backend2: string, table: string, column: string)
    : SchemaDifference
  {
    SchemaDifference(MissingColumn, table, Some(column),
                     "Column '" + column + "' exists in " + backend1 + " but not in " + backend2)
  }

  function ExtraColumnDifference(backend1: string, backend2: string, table: string, column: string)
    : SchemaDifference
  {
    SchemaDifference(ExtraColumn, table, Some(column),
                     "Column '" + column + "' exists in " + backend2 + " but not in " + backend1)
  }

  /** How a column prints in a mismatch: its type and optionality. */
  function ColumnShape(column: ColumnSchema): string {
    column.columnType + "(" + BoolToString(column.isOptional) + ")"
  }

  function ColumnMismatchDifference(backend1: string, backend2: string, table: string,
                                    column1: ColumnSchema, column2: ColumnSchema): SchemaDifference
  {
    SchemaDifference(ColumnTypeMismatch, table, Some(column1.name),
                     "Column '" + column1.name + "' differs: " + backend1 + "='" + ColumnShape(column1) + "', "
                     + backend2 + "='" + ColumnShape(column2) + "'")
  }

  /** One record when the second schema's column of that name differs in type or optionality. */
  function ColumnPairDifferences(backend1: string, backend2: string, table: string, column1: ColumnSchema,
                                 found: Option<ColumnSchema>): seq<SchemaDifference>
  {
    match found
    case None => []
    case Some(column2) =>
      if column1.columnType != column2.columnType || column1.isOptional != column2.isOptional
      then [ColumnMismatchDifference(backend1, backend2, table, column1, column2)]
      else []
  }

  /** The mismatch records of a table's columns, in the first schema's column order. */
  function ColumnMismatchDifferences(backend1: string, backend2: string, table: string,
                                     columns1: seq<ColumnSchema>, columns2: seq<ColumnSchema>)
    : seq<SchemaDifference>
  {
    if columns1 == [] then []
    else
      var last := columns1[|columns1| - 1];
      ColumnMismatchDifferences(backend1, backend2, table, columns1[..|columns1| - 1], columns2)
      + ColumnPairDifferences(backend1, backend2, table, last, FirstColumn(columns2, last.name))
  }

  /** The column-level records of one table of the first schema; none when the second lacks it. */
  ghost function TableDifferences(backend1: string, backend2: string, table1: TableSchema,
                                  tables2: seq<TableSchema>): multiset<SchemaDifference>
  {
    match FirstTable(tables2, table1.name)
    case None => multiset{}
    case Some(table2) =>
      multiset(Image(ColumnNames(table1.columns) - ColumnNames(table2.columns),
                     c => MissingColumnDifference(backend1, backend2, table1.name, c)))
      + multiset(Image(ColumnNames(table2.columns) - ColumnNames(table1.columns),
                       c => ExtraColumnDifference(backend1, backend2, table1.name, c)))
      + multiset(ColumnMismatchDifferences(backend1, backend2, table1.name, table1.columns, table2.columns))
  }

  ghost function ColumnDifferences(backend1: string, backend2: string, tables1: seq<TableSchema>,
                                   tables2: seq<TableSchema>): multiset<SchemaDifference>
  {
    if tables1 == [] then multiset{}
    else
      ColumnDifferences(backend1, backend2, tables1[..|tables1| - 1], tables2)
      + TableDifferences(backend1, backend2, tables1[|tables1| - 1], tables2)
  }

  /** Every record `compareSchemas(schema1, schema2)` returns, with multiplicity. */
  ghost function SchemaDifferences(schema1: DatabaseSchema, schema2: DatabaseSchema): multiset<SchemaDifference> {
    multiset(Image(TableNames(schema1.tables) - TableNames(schema2.tables),
                   n => MissingTableDifference(schema1.backend, schema2.backend, n)))
    + multiset(Image(TableNames(schema2.tables) - TableNames(schema1.tables),
                     n => ExtraTableDifference(schema1.backend, schema2.backend, n)))
    + ColumnDifferences(schema1.backend, schema2.backend, schema1.tables, schema2.tables)
  }

  /** The mismatch check of `compareSchemas` for one column of the first schema. */
  method CompareColumnPair(backend1: string, backend2: string, table: string, column1: ColumnSchema,
                           found: Option<ColumnSchema>)
    returns (differences: seq<SchemaDifference>)
    ensures differences == ColumnPairDifferences(backend1, backend2, table, column1, found)
    ensures |differences| == (if found.Some? && (found.value.columnType != column1.columnType
                                                 || found.value.isOptional != column1.isOptional) then 1 else 0)
    ensures forall d :: d in differences ==>
      d.differenceType == ColumnTypeMismatch && d.table == table && d.column == Some(column1.name)
  {
    differences := [];
    if found.None? {
      return;
    }
    var column2 := found.value;
    if column1.columnType != column2.columnType || column1.isOptional != column2.isOptional {
      differences := differences + [ColumnMismatchDifference(backend1, backend2, table, column1, column2)];
    }
  }

  /** The mismatch checks of `compareSchemas` for one table, column by column. */
  method CompareColumnSchemas(backend1: string, backend2: string, table: string, columns1: seq<ColumnSchema>,
                              columns2: seq<ColumnSchema>)
    returns (differences: seq<SchemaDifference>)
    ensures differences == ColumnMismatchDifferences(backend1, backend2, table, columns1, columns2)
  {
    differences := [];
    for k := 0 to |columns1|
      invariant differences == ColumnMismatchDifferences(backend1, backend2, table, columns1[..k], columns2)
    {
      var columnDifferences := CompareColumnPair(backend1, backend2, table, columns1[k],
                                                 FirstColumn(columns2, columns1[k].name));
      assert columns1[..k + 1][..k] == columns1[..k];
      differences := differences + columnDifferences;
    }
    assert columns1[..|columns1|] == columns1;
  }

  /** The column-level part of `compareSchemas` for one table of the first schema. */
  method CompareTableSchemas(backend1: string, backend2: string, table1: TableSchema, tables2: seq<TableSchema>)
    returns (differences: seq<SchemaDifference>)
    ensures multiset(differences) == TableDifferences(backend1, backend2, table1, tables2)
  {
    var found := FirstTable(tables2, table1.name);
    if found.None? {
      return [];
    }
    var table2 := found.value;
    var columns1 := ColumnNames(table1.columns);
    var columns2 := ColumnNames(table2.columns);
    var missingColumns := EmitEach(columns1 - columns2,
                                   c => MissingColumnDifference(backend1, backend2, table1.name, c));
    var extraColumns := EmitEach(columns2 - columns1,
                                 c => ExtraColumnDifference(backend1, backend2, table1.name, c));
    var mismatches := CompareColumnSchemas(backend1, backend2, table1.name, table1.columns, table2.columns);
    differences := missingColumns + extraColumns + mismatches;
  }

  /** The table-level part of `compareSchemas`: tables only one of the two schemas has. */
  method CompareTableNames(schema1: DatabaseSchema, schema2: DatabaseSchema)
    returns (differences: seq<SchemaDifference>)
    ensures multiset(differences)
      == multiset(Image(TableNames(schema1.tables) - TableNames(schema2.tables),
                        n => MissingTableDifference(schema1.backend, schema2.backend, n)))
      + multiset(Image(TableNames(schema2.tables) - TableNames(schema1.tables),
                       n => ExtraTableDifference(schema1.backend, schema2.backend, n)))
  {
    var tables1 := TableNames(schema1.tables);
    var tables2 := TableNames(schema2.tables);
    var missingTables := EmitEach(tables1 - tables2,
                                  n => MissingTableDifference(schema1.backend, schema2.backend, n));
    var extraTables := EmitEach(tables2 - tables1,
                                n => ExtraTableDifference(schema1.backend, schema2.backend, n));
    differences := missingTables + extraTables;
  }

  /**
   * `compareSchemas(schema1, schema2)`: tables only the first or only the
   * second has, then for each table of the first that the second also
   * has, columns only one of them has and one record per column whose
   * type or optionality differs.
   */
  method CompareSchemas(schema1: DatabaseSchema, schema2: DatabaseSchema)
    returns (differences: seq<SchemaDifference>)
    ensures multiset(differences) == SchemaDifferences(schema1, schema2)
  {
    var tableDifferences := CompareTableNames(schema1, schema2);
    var backend1, backend2, tables1, tables2 := schema1.backend, schema2.backend, schema1.tables, schema2.tables;
    differences := tableDifferences;
    for i := 0 to |tables1|
      invariant multiset(differences)
        == multiset(tableDifferences) + ColumnDifferences(backend1, backend2, tables1[..i], tables2)
    {
      assert tables1[..i + 1][..i] == tables1[..i];
      var columnDifferences := CompareTableSchemas(backend1, backend2, tables1[i], tables2);
      differences := differences + columnDifferences;
    }
    assert tables1[..|tables1|] == tables1;
  }

  // validateCrossBackendCompatibility

  const SchemaDifferencesIssue := "Schema differences found between SwiftData and Core Data backends"
  const ReviewDifferencesAction := "Review schema differences and ensure compatibility"

  /** The actions recommended when the checks found issues but proposed no action of their own. */
  function DefaultActions(): seq<string> {
    [ "Review schema definitions in both SwiftData models and Core Data model",
      "Ensure consistent data types and constraints across backends",
      "Run migration if schema changes are required" ]
  }

  /** The issues the Core Data schema raises against the expected schema built from `tables`. */
  ghost function CoreDataIssues(tables: seq<TableSchema>, model: ManagedObjectModel): multiset<string> {
    ComparisonIssues(CoreDataSchemaOf(model), ExpectedSchemaOf(tables), "Core Data")
  }

  /** The issues the SwiftData schema raises against the expected schema built from `tables`. */
  ghost function SwiftDataIssues(tables: seq<TableSchema>): multiset<string> {
    ComparisonIssues(SwiftDataSchemaOf(tables), ExpectedSchemaOf(tables), "SwiftData")
  }

  /** The records comparing the SwiftData schema with the Core Data schema. */
  ghost function BackendDifferences(tables: seq<TableSchema>, model: ManagedObjectModel): multiset<SchemaDifference> {
    SchemaDifferences(SwiftDataSchemaOf(tables), CoreDataSchemaOf(model))
  }

  /**
   * The backends agree: Core Data matches the expected schema and, where
   * SwiftData is available, so does SwiftData and the two backends do not
   * differ from each other.
   */
  ghost predicate Compatible(tables: seq<TableSchema>, model: ManagedObjectModel, swiftDataAvailable: bool) {
    && CoreDataIssues(tables, model) == multiset{}
    && (swiftDataAvailable ==>
          SwiftDataIssues(tables) == multiset{} && BackendDifferences(tables, model) == multiset{})
  }

  /**
   * The comparisons `validateCrossBackendCompatibility()` runs: Core Data
   * against the expected schema and, where SwiftData is available,
   * SwiftData against the expected schema and against Core Data.
   */
  method CompareBackends(tables: seq<TableSchema>, model: ManagedObjectModel, swiftDataAvailable: bool)
    returns (coreDataSchema: DatabaseSchema, coreDataIssues: seq<string>, swiftDataIssues: seq<string>,
             differences: seq<SchemaDifference>)
    ensures coreDataSchema == CoreDataSchemaOf(model)
    ensures multiset(coreDataIssues) == CoreDataIssues(tables, model)
    ensures swiftDataAvailable ==>
      && multiset(swiftDataIssues) == SwiftDataIssues(tables)
      && multiset(differences) == BackendDifferences(tables, model)
    ensures !swiftDataAvailable ==> swiftDataIssues == [] && differences == []
  {
    var expectedSchema := ExpectedSchemaOf(tables);
    coreDataSchema := ValidateCoreDataSchema(model);
    coreDataIssues := CompareWithExpected(coreDataSchema, expectedSchema, "Core Data");
    swiftDataIssues, differences := [], [];
    if swiftDataAvailable {
      var swiftDataSchema := SwiftDataSchemaOf(tables);
      swiftDataIssues := CompareWithExpected(swiftDataSchema, expectedSchema, "SwiftData");
      differences := CompareSchemas(swiftDataSchema, coreDataSchema);
    }
  }

  /**
   * How `validateCrossBackendCompatibility()` turns what the comparisons
   * found into its result: the Core Data issues, the SwiftData issues and
   * one more issue, with its own action, when the backends differ; valid
   * when nothing was found; the default actions when none was proposed.
   */
  method Summarize(swiftDataSchema: Option<DatabaseSchema>, coreDataSchema: DatabaseSchema,
                   coreDataIssues: seq<string>, swiftDataIssues: seq<string>, differences: seq<SchemaDifference>)
    returns (r: CrossBackendValidationResult)
    ensures r.isValid <==> coreDataIssues == [] && swiftDataIssues == [] && differences == []
    ensures r.isValid ==> r == CrossBackendValidationResult(true)
    ensures !r.isValid ==>
      && r.issues == coreDataIssues + swiftDataIssues + (if differences != [] then [SchemaDifferencesIssue] else [])
      && r.recommendedActions == (if differences != [] then [ReviewDifferencesAction] else DefaultActions())
      && r.schemaComparison == Some(SchemaComparison(swiftDataSchema, Some(coreDataSchema), differences))
  {
    var issues := coreDataIssues + swiftDataIssues;
    var recommendedActions: seq<string> := [];
    if differences != [] {
      issues := issues + [SchemaDifferencesIssue];
      recommendedActions := recommendedActions + [ReviewDifferencesAction];
    }
    if issues == [] {
      return CrossBackendValidationResult(true);
    }
    var comparison := SchemaComparison(swiftDataSchema, Some(coreDataSchema), differences);
    if recommendedActions == [] {
      recommendedActions := DefaultActions();
    }
    r := CrossBackendValidationResult(false, issues, recommendedActions, Some(comparison));
  }

  /**
   * `validateCrossBackendCompatibility()` with the table definitions the
   * expected and SwiftData schemas are built from, the Core Data model,
   * and the OS availability of SwiftData as parameters. The ghost results
   * name what the comparisons found: the Core Data issues, the SwiftData
   * issues and the records comparing the two backends (the last two empty
   * without SwiftData). Valid exactly when the backends are compatible;
   * otherwise every issue found, the actions and the comparison.
   */
  method ValidateCrossBackendCompatibility(tables: seq<TableSchema>, model: ManagedObjectModel,
                                           swiftDataAvailable: bool)
    returns (r: CrossBackendValidationResult, ghost coreDataIssues: multiset<string>,
             ghost swiftDataIssues: multiset<string>, ghost differences: multiset<SchemaDifference>)
    ensures coreDataIssues == CoreDataIssues(tables, model)
    ensures swiftDataAvailable ==>
      swiftDataIssues == SwiftDataIssues(tables) && differences == BackendDifferences(tables, model)
    ensures !swiftDataAvailable ==> swiftDataIssues == multiset{} && differences == multiset{}
    ensures r.isValid <==> coreDataIssues == multiset{} && swiftDataIssues == multiset{} && differences == multiset{}
    ensures r.isValid ==> r == CrossBackendValidationResult(true)
    ensures !r.isValid ==>
      && multiset(r.issues) == coreDataIssues + swiftDataIssues
         + (if differences != multiset{} then multiset{SchemaDifferencesIssue} else multiset{})
      && r.recommendedActions == (if differences != multiset{} then [ReviewDifferencesAction] else DefaultActions())
      && r.schemaComparison.Some?
      && r.schemaComparison.value.swiftDataSchema
         == (if swiftDataAvailable then Some(SwiftDataSchemaOf(tables)) else None)
      && r.schemaComparison.value.coreDataSchema == Some(CoreDataSchemaOf(model))
      && multiset(r.schemaComparison.value.differences) == differences
  {
    var coreDataSchema, cdIssues, sdIssues, found := CompareBackends(tables, model, swiftDataAvailable);
    coreDataIssues, swiftDataIssues, differences := multiset(cdIssues), multiset(sdIssues), multiset(found);
    var swiftDataSchema := if swiftDataAvailable then Some(SwiftDataSchemaOf(tables)) else None;
    r := Summarize(swiftDataSchema, coreDataSchema, cdIssues, sdIssues, found);
  }
}
