/**
 * The three table definitions against the Core Data model. Each table's
 * columns, and the columns introspected from the matching entity, are
 * checked against one list of (name, SQLite type, optionality) triples.
 * With the server-credential table as written (nine columns) the Core
 * Data schema has eleven extra columns, so cross-backend validation can
 * never succeed; with the corrected table it always does.
 */
module SchemaFindings {
  import opened Primitives
  import opened CoreDataModel
  import opened SchemaValidator
  import opened SchemaProperties
  import SDWebAuthnCredentialEntity
  import SDServerCredentialEntity
  import SDVirtualKeyEntity

  /** What the comparators look at in a column: name, SQLite type, optionality. */
  type Shape = (string, string, bool)

  predicate ColumnHasShape(c: ColumnSchema, s: Shape) {
    c.name == s.0 && c.columnType == s.1 && c.isOptional == s.2
  }

  predicate AttributeHasShape(a: AttributeDescription, s: Shape) {
    a.name == s.0 && AttributeTypeToSQLiteType(a.attributeType) == s.1 && a.isOptional == s.2
  }

  predicate ColumnsShapedIn(columns: seq<ColumnSchema>, shapes: seq<Shape>, lo: nat, hi: nat)
    requires lo <= hi <= |columns| && hi <= |shapes|
  {
    forall k :: lo <= k < hi ==> ColumnHasShape(columns[k], shapes[k])
  }

  predicate AttributesShapedIn(attributes: seq<AttributeDescription>, shapes: seq<Shape>, lo: nat, hi: nat)
    requires lo <= hi <= |attributes| && hi <= |shapes|
  {
    forall k :: lo <= k < hi ==> AttributeHasShape(attributes[k], shapes[k])
  }

  /** The columns, one by one, have the shapes listed. */
  predicate ColumnsShaped(columns: seq<ColumnSchema>, shapes: seq<Shape>) {
    |columns| == |shapes| && ColumnsShapedIn(columns, shapes, 0, |shapes|)
  }

  predicate UniqueShapeNames(shapes: seq<Shape>) {
    forall k, l :: 0 <= k < l < |shapes| ==> shapes[k].0 != shapes[l].0
  }

  /** The names from `lo` up to `hi` occur nowhere later in the list. */
  predicate UniqueShapeNamesIn(shapes: seq<Shape>, lo: nat, hi: nat) {
    forall k, l :: lo <= k < hi && k < l < |shapes| ==> shapes[k].0 != shapes[l].0
  }

  // General facts about shapes

  lemma ShapedSameColumns(columns1: seq<ColumnSchema>, columns2: seq<ColumnSchema>, shapes: seq<Shape>)
    requires ColumnsShaped(columns1, shapes) && ColumnsShaped(columns2, shapes)
    ensures SameColumns(columns1, columns2)
  {
    forall k | 0 <= k < |columns1|
      ensures columns1[k].name == columns2[k].name
      ensures columns1[k].columnType == columns2[k].columnType
      ensures columns1[k].isOptional == columns2[k].isOptional
    {
      assert ColumnHasShape(columns1[k], shapes[k]) && ColumnHasShape(columns2[k], shapes[k]);
    }
  }

  lemma ShapedUniqueNames(columns: seq<ColumnSchema>, shapes: seq<Shape>)
    requires ColumnsShaped(columns, shapes) && UniqueShapeNames(shapes)
    ensures UniqueColumnNames(columns)
  {
    forall k, l | 0 <= k < l < |columns| ensures columns[k].name != columns[l].name {
      assert ColumnHasShape(columns[k], shapes[k]) && ColumnHasShape(columns[l], shapes[l]);
    }
  }

  /** An entity whose attributes have the shapes listed introspects to columns with those shapes. */
  lemma IntrospectedShapes(e: EntityDescription, shapes: seq<Shape>)
    requires |e.properties| == |shapes| && AttributesShapedIn(e.properties, shapes, 0, |shapes|)
    ensures ColumnsShaped(IntrospectedTable(e).columns, shapes)
  {
    var columns := IntrospectedTable(e).columns;
    forall k | 0 <= k < |shapes| ensures ColumnHasShape(columns[k], shapes[k]) {
      assert columns[k] == IntrospectedColumn(e.properties[k]);
      assert AttributeHasShape(e.properties[k], shapes[k]);
    }
  }

  lemma JoinColumns(columns: seq<ColumnSchema>, shapes: seq<Shape>, lo: nat, mid: nat, hi: nat)
    requires lo <= mid <= hi <= |columns| && hi <= |shapes|
    requires ColumnsShapedIn(columns, shapes, lo, mid) && ColumnsShapedIn(columns, shapes, mid, hi)
    ensures ColumnsShapedIn(columns, shapes, lo, hi)
  {
  }

  lemma JoinAttributes(attributes: seq<AttributeDescription>, shapes: seq<Shape>, lo: nat, mid: nat, hi: nat)
    requires lo <= mid <= hi <= |attributes| && hi <= |shapes|
    requires AttributesShapedIn(attributes, shapes, lo, mid) && AttributesShapedIn(attributes, shapes, mid, hi)
    ensures AttributesShapedIn(attributes, shapes, lo, hi)
  {
  }

  // The shapes of the three tables

  const WebAuthnCredentialShapes: seq<Shape> := [
    ("id", "TEXT", false), ("rpId", "TEXT", false), ("userHandle", "BLOB", false), ("publicKey", "BLOB", false),
    ("privateKeyRef", "TEXT", true), ("createdAt", "REAL", false), ("lastUsed", "REAL", true),
    ("signCount", "INTEGER", false), ("isResident", "INTEGER", false), ("userDisplayName", "TEXT", true),
    ("credentialType", "TEXT", false) ]

  const ServerCredentialShapes: seq<Shape> := [
    ("id", "TEXT", false), ("credentialId", "TEXT", false), ("publicKeyJWK", "TEXT", false),
    ("signCount", "INTEGER", false), ("isDiscoverable", "INTEGER", false), ("createdAt", "REAL", false),
    ("lastVerified", "REAL", true), ("rpId", "TEXT", false), ("userHandle", "BLOB", false),
    ("algorithm", "INTEGER", false), ("protocolVersion", "TEXT", false), ("attestationFormat", "TEXT", true),
    ("aaguid", "TEXT", true), ("backupEligible", "INTEGER", false), ("backupState", "INTEGER", false),
    ("emoji", "TEXT", false), ("lastLoginIP", "TEXT", true), ("isEnabled", "INTEGER", false),
    ("isAdmin", "INTEGER", false), ("userNumber", "INTEGER", false) ]

  const VirtualKeyShapes: seq<Shape> := [
    ("id", "TEXT", false), ("name", "TEXT", false), ("encryptedPrivateKey", "BLOB", false),
    ("publicKey", "BLOB", false), ("algorithm", "TEXT", false), ("keySize", "INTEGER", false),
    ("createdAt", "REAL", false), ("lastUsed", "REAL", true), ("isActive", "INTEGER", false),
    ("kdfAlgorithm", "TEXT", true), ("kdfIterations", "INTEGER", true), ("kdfSalt", "BLOB", true),
    ("kdfKeyLength", "INTEGER", true) ]

  lemma WebAuthnCredentialColumnsShaped()
    ensures ColumnsShaped(CreateWebAuthnCredentialTable().columns, WebAuthnCredentialShapes)
  {
  }

  lemma CredentialAttributesShaped()
    ensures |CredentialAttributes()| == 11
    ensures AttributesShapedIn(CredentialAttributes(), WebAuthnCredentialShapes, 0, 11)
  {
  }

  lemma VirtualKeyColumnsShaped()
    ensures ColumnsShaped(CreateVirtualKeyTable().columns, VirtualKeyShapes)
  {
  }

  lemma VirtualKeyAttributesShaped()
    ensures |VirtualKeyAttributes()| == 13
    ensures AttributesShapedIn(VirtualKeyAttributes(), VirtualKeyShapes, 0, 13)
  {
  }

  lemma ServerCredentialColumnsShapedLow()
    ensures |CreateServerCredentialTable().columns| == 20
    ensures ColumnsShapedIn(CreateServerCredentialTable().columns, ServerCredentialShapes, 0, 5)
  {
  }

  lemma ServerCredentialColumnsShapedMidLow()
    ensures |CreateServerCredentialTable().columns| == 20
    ensures ColumnsShapedIn(CreateServerCredentialTable().columns, ServerCredentialShapes, 5, 10)
  {
  }

  lemma ServerCredentialColumnsShapedMidHigh()
    ensures |CreateServerCredentialTable().columns| == 20
    ensures ColumnsShapedIn(CreateServerCredentialTable().columns, ServerCredentialShapes, 10, 15)
  {
  }

  lemma ServerCredentialColumnsShapedHigh()
    ensures |CreateServerCredentialTable().columns| == 20
    ensures ColumnsShapedIn(CreateServerCredentialTable().columns, ServerCredentialShapes, 15, 20)
  {
  }

  lemma ServerCredentialColumnsShaped()
    ensures ColumnsShaped(CreateServerCredentialTable().columns, ServerCredentialShapes)
  {
    var columns := CreateServerCredentialTable().columns;
    ServerCredentialColumnsShapedLow();
    ServerCredentialColumnsShapedMidLow();
    ServerCredentialColumnsShapedMidHigh();
    ServerCredentialColumnsShapedHigh();
    JoinColumns(columns, ServerCredentialShapes, 0, 5, 10);
    JoinColumns(columns, ServerCredentialShapes, 0, 10, 15);
    JoinColumns(columns, ServerCredentialShapes, 0, 15, 20);
  }

  /** The nine columns written for the server-credential table are the first nine shapes. */
  lemma ServerCredentialColumnsAsWrittenShaped()
    ensures |CreateServerCredentialTableAsWritten().columns| == 9
    ensures ColumnsShapedIn(CreateServerCredentialTableAsWritten().columns, ServerCredentialShapes, 0, 9)
  {
  }

  lemma ServerCredentialAttributesShapedLow(emojiDefault: string)
    ensures |ServerCredentialAttributes(emojiDefault)| == 20
    ensures AttributesShapedIn(ServerCredentialAttributes(emojiDefault), ServerCredentialShapes, 0, 7)
  {
  }

  lemma ServerCredentialAttributesShapedMid(emojiDefault: string)
    ensures |ServerCredentialAttributes(emojiDefault)| == 20
    ensures AttributesShapedIn(ServerCredentialAttributes(emojiDefault), ServerCredentialShapes, 7, 14)
  {
  }

  lemma ServerCredentialAttributesShapedHigh(emojiDefault: string)
    ensures |ServerCredentialAttributes(emojiDefault)| == 20
    ensures AttributesShapedIn(ServerCredentialAttributes(emojiDefault), ServerCredentialShapes, 14, 20)
  {
  }

  lemma WebAuthnCredentialNamesUnique()
    ensures UniqueShapeNames(WebAuthnCredentialShapes)
  {
  }

  lemma VirtualKeyNamesUnique()
    ensures UniqueShapeNames(VirtualKeyShapes)
  {
  }

  lemma ServerCredentialNamesUniqueFirst()
    ensures UniqueShapeNamesIn(ServerCredentialShapes, 0, 2)
  {
  }

  lemma ServerCredentialNamesUniqueSecond()
    ensures UniqueShapeNamesIn(ServerCredentialShapes, 2, 4)
  {
  }

  lemma ServerCredentialNamesUniqueThird()
    ensures UniqueShapeNamesIn(ServerCredentialShapes, 4, 7)
  {
  }

  lemma ServerCredentialNamesUniqueFourth()
    ensures UniqueShapeNamesIn(ServerCredentialShapes, 7, 11)
  {
  }

  lemma ServerCredentialNamesUniqueFifth()
    ensures UniqueShapeNamesIn(ServerCredentialShapes, 11, 20)
  {
  }

  lemma ServerCredentialNamesUnique()
    ensures UniqueShapeNames(ServerCredentialShapes)
  {
    ServerCredentialNamesUniqueFirst();
    ServerCredentialNamesUniqueSecond();
    ServerCredentialNamesUniqueThird();
    ServerCredentialNamesUniqueFourth();
    ServerCredentialNamesUniqueFifth();
  }

  // The model against the table definitions

  lemma IntrospectedCredentialShaped(emojiDefault: string)
    ensures var tables := IntrospectedTables(CreateManagedObjectModel(emojiDefault).entities);
            |tables| == 3 && ColumnsShaped(tables[0].columns, WebAuthnCredentialShapes)
  {
    var entities := CreateManagedObjectModel(emojiDefault).entities;
    CredentialAttributesShaped();
    IntrospectedShapes(entities[0], WebAuthnCredentialShapes);
  }

  lemma IntrospectedServerCredentialShaped(emojiDefault: string)
    ensures var tables := IntrospectedTables(CreateManagedObjectModel(emojiDefault).entities);
            |tables| == 3 && ColumnsShaped(tables[1].columns, ServerCredentialShapes)
  {
    var entities := CreateManagedObjectModel(emojiDefault).entities;
    var attributes := ServerCredentialAttributes(emojiDefault);
    ServerCredentialAttributesShapedLow(emojiDefault);
    ServerCredentialAttributesShapedMid(emojiDefault);
    ServerCredentialAttributesShapedHigh(emojiDefault);
    JoinAttributes(attributes, ServerCredentialShapes, 0, 7, 14);
    JoinAttributes(attributes, ServerCredentialShapes, 0, 14, 20);
    IntrospectedShapes(entities[1], ServerCredentialShapes);
  }

  lemma IntrospectedVirtualKeyShaped(emojiDefault: string)
    ensures var tables := IntrospectedTables(CreateManagedObjectModel(emojiDefault).entities);
            |tables| == 3 && ColumnsShaped(tables[2].columns, VirtualKeyShapes)
  {
    var entities := CreateManagedObjectModel(emojiDefault).entities;
    VirtualKeyAttributesShaped();
    IntrospectedShapes(entities[2], VirtualKeyShapes);
  }

  /** The tables introspected from the Core Data model: names, then column shapes. */
  lemma IntrospectedModelShaped(emojiDefault: string)
    ensures var tables := IntrospectedTables(CreateManagedObjectModel(emojiDefault).entities);
            && |tables| == 3
            && tables[0].name == "WebAuthnClientCredential"
            && tables[1].name == "ServerCredential"
            && tables[2].name == "VirtualKey"
            && ColumnsShaped(tables[0].columns, WebAuthnCredentialShapes)
            && ColumnsShaped(tables[1].columns, ServerCredentialShapes)
            && ColumnsShaped(tables[2].columns, VirtualKeyShapes)
  {
    IntrospectedCredentialShaped(emojiDefault);
    IntrospectedServerCredentialShaped(emojiDefault);
    IntrospectedVirtualKeyShaped(emojiDefault);
  }

  /** The corrected table definitions: names, then column shapes. */
  lemma ModelTablesShaped()
    ensures var tables := ModelTables();
            && |tables| == 3
            && tables[0].name == "WebAuthnClientCredential"
            && tables[1].name == "ServerCredential"
            && tables[2].name == "VirtualKey"
            && ColumnsShaped(tables[0].columns, WebAuthnCredentialShapes)
            && ColumnsShaped(tables[1].columns, ServerCredentialShapes)
            && ColumnsShaped(tables[2].columns, VirtualKeyShapes)
  {
    WebAuthnCredentialColumnsShaped();
    ServerCredentialColumnsShaped();
    VirtualKeyColumnsShaped();
  }

  /** Table names are unique, and so are the column names of every table. */
  lemma ModelTablesWellFormed()
    ensures WellFormed(ModelTables())
  {
    var tables := ModelTables();
    ModelTablesShaped();
    WebAuthnCredentialNamesUnique();
    ServerCredentialNamesUnique();
    VirtualKeyNamesUnique();
    ShapedUniqueNames(tables[0].columns, WebAuthnCredentialShapes);
    ShapedUniqueNames(tables[1].columns, ServerCredentialShapes);
    ShapedUniqueNames(tables[2].columns, VirtualKeyShapes);
  }

  /** Introspecting the Core Data model gives the corrected tables, column for column. */
  lemma IntrospectedModelMatchesTables(emojiDefault: string)
    ensures SameShape(IntrospectedTables(CreateManagedObjectModel(emojiDefault).entities), ModelTables())
  {
    var introspected := IntrospectedTables(CreateManagedObjectModel(emojiDefault).entities);
    var tables := ModelTables();
    IntrospectedModelShaped(emojiDefault);
    ModelTablesShaped();
    ShapedSameColumns(introspected[0].columns, tables[0].columns, WebAuthnCredentialShapes);
    ShapedSameColumns(introspected[1].columns, tables[1].columns, ServerCredentialShapes);
    ShapedSameColumns(introspected[2].columns, tables[2].columns, VirtualKeyShapes);
  }

  /**
   * With the corrected server-credential table, the backends are always
   * compatible: Core Data and SwiftData both match the expected schema and
   * do not differ from each other.
   */
  lemma ModelTablesCompatible(emojiDefault: string, swiftDataAvailable: bool)
    ensures Compatible(ModelTables(), CreateManagedObjectModel(emojiDefault), swiftDataAvailable)
  {
    var tables := ModelTables();
    var model := CreateManagedObjectModel(emojiDefault);
    ModelTablesWellFormed();
    IntrospectedModelMatchesTables(emojiDefault);
    SameShapeNoIssues(CoreDataSchemaOf(model), ExpectedSchemaOf(tables), "Core Data");
    SameShapeReflexive(tables);
    SameShapeNoIssues(SwiftDataSchemaOf(tables), ExpectedSchemaOf(tables), "SwiftData");
    SameShapeNoDifferences(SwiftDataSchemaOf(tables), CoreDataSchemaOf(model));
  }

  /** The nine columns written for the server-credential table omit every attribute from `algorithm` on. */
  lemma AsWrittenLacksColumn(k: nat)
    requires 9 <= k < |ServerCredentialShapes|
    ensures ServerCredentialShapes[k].0 !in ColumnNames(CreateServerCredentialTableAsWritten().columns)
  {
    var columns := CreateServerCredentialTableAsWritten().columns;
    ServerCredentialColumnsAsWrittenShaped();
    ServerCredentialNamesUnique();
    forall j | 0 <= j < |columns| ensures columns[j].name != ServerCredentialShapes[k].0 {
      assert ColumnHasShape(columns[j], ServerCredentialShapes[j]);
    }
  }

  /** The Core Data schema's `ServerCredential` table has a column for every attribute. */
  lemma IntrospectedHasColumn(emojiDefault: string, k: nat)
    requires k < |ServerCredentialShapes|
    ensures var tables := IntrospectedTables(CreateManagedObjectModel(emojiDefault).entities);
            && |tables| == 3
            && FirstTable(tables, "ServerCredential") == Some(tables[1])
            && ServerCredentialShapes[k].0 in ColumnNames(tables[1].columns)
  {
    var tables := IntrospectedTables(CreateManagedObjectModel(emojiDefault).entities);
    IntrospectedModelShaped(emojiDefault);
    FirstTableOfUnique(tables, 1);
    assert ColumnHasShape(tables[1].columns[k], ServerCredentialShapes[k]);
    assert tables[1].columns[k] in tables[1].columns;
  }

  /**
   * With the server-credential table as written, every Core Data attribute
   * from `algorithm` on is reported as an extra column.
   */
  lemma AsWrittenExtraColumn(emojiDefault: string, k: nat)
    requires 9 <= k < |ServerCredentialShapes|
    ensures ExtraColumnIssue("Core Data", "ServerCredential", ServerCredentialShapes[k].0)
            in CoreDataIssues(ModelTablesAsWritten(), CreateManagedObjectModel(emojiDefault))
  {
    var expectedTables := ModelTablesAsWritten();
    var schemaTables := IntrospectedTables(CreateManagedObjectModel(emojiDefault).entities);
    IntrospectedHasColumn(emojiDefault, k);
    AsWrittenLacksColumn(k);
    ExtraColumnReported("Core Data", schemaTables, expectedTables, 1, schemaTables[1], ServerCredentialShapes[k].0);
  }

  /** With the server-credential table as written, the backends are never compatible. */
  lemma AsWrittenIncompatible(emojiDefault: string, swiftDataAvailable: bool)
    ensures !Compatible(ModelTablesAsWritten(), CreateManagedObjectModel(emojiDefault), swiftDataAvailable)
  {
    AsWrittenExtraColumn(emojiDefault, 9);
  }

  // Default values

  /** The credential entity's defaults print as the expected table writes them: the flag as 0. */
  lemma CredentialDefaultsAsExpected()
    ensures |CredentialAttributes()| == |CreateWebAuthnCredentialTable().columns|
    ensures forall k :: 0 <= k < |CredentialAttributes()| ==>
      IntrospectedColumn(CredentialAttributes()[k]).defaultValue == CreateWebAuthnCredentialTable().columns[k].defaultValue
  {
  }

  /** The virtual-key entity's defaults print as the expected table writes them: `isActive` as 1. */
  lemma VirtualKeyDefaultsAsExpected()
    ensures |VirtualKeyAttributes()| == |CreateVirtualKeyTable().columns|
    ensures forall k :: 0 <= k < |VirtualKeyAttributes()| ==>
      IntrospectedColumn(VirtualKeyAttributes()[k]).defaultValue == CreateVirtualKeyTable().columns[k].defaultValue
  {
  }

  /** Attributes `lo` to `hi` print their defaults as the columns at the same positions list them. */
  predicate DefaultsAgreeIn(attributes: seq<AttributeDescription>, columns: seq<ColumnSchema>, lo: nat, hi: nat)
    requires lo <= hi <= |attributes| && hi <= |columns|
  {
    forall k :: lo <= k < hi ==> IntrospectedColumn(attributes[k]).defaultValue == columns[k].defaultValue
  }

  lemma ServerCredentialDefaultsLow(emojiDefault: string)
    ensures |ServerCredentialAttributes(emojiDefault)| == 20 && |CreateServerCredentialTable().columns| == 20
    ensures DefaultsAgreeIn(ServerCredentialAttributes(emojiDefault), CreateServerCredentialTable().columns, 0, 8)
  {
  }

  /** The COSE algorithm default prints as "-7". */
  lemma AlgorithmDefaultPrints()
    ensures Describe(IntegerValue(-7)) == "-7"
  {
    assert NatToString(7) == "7";
  }

  lemma ServerCredentialDefaultsMid(emojiDefault: string)
    ensures |ServerCredentialAttributes(emojiDefault)| == 20 && |CreateServerCredentialTable().columns| == 20
    ensures DefaultsAgreeIn(ServerCredentialAttributes(emojiDefault), CreateServerCredentialTable().columns, 8, 11)
  {
    AlgorithmDefaultPrints();
  }

  lemma ServerCredentialDefaultsUpper(emojiDefault: string)
    ensures |ServerCredentialAttributes(emojiDefault)| == 20 && |CreateServerCredentialTable().columns| == 20
    ensures DefaultsAgreeIn(ServerCredentialAttributes(emojiDefault), CreateServerCredentialTable().columns, 11, 15)
  {
  }

  lemma ServerCredentialDefaultsHigh(emojiDefault: string)
    ensures |ServerCredentialAttributes(emojiDefault)| == 20 && |CreateServerCredentialTable().columns| == 20
    ensures DefaultsAgreeIn(ServerCredentialAttributes(emojiDefault), CreateServerCredentialTable().columns, 16, 20)
  {
  }

  /**
   * The server-credential entity's defaults print as the corrected table
   * writes them, every flag as 0 or 1; only `emoji` (position 15), whose
   * default the table does not list, differs.
   */
  lemma ServerCredentialDefaultsAsExpected(emojiDefault: string)
    ensures |ServerCredentialAttributes(emojiDefault)| == |CreateServerCredentialTable().columns|
    ensures forall k :: 0 <= k < |ServerCredentialAttributes(emojiDefault)| && k != 15 ==>
      IntrospectedColumn(ServerCredentialAttributes(emojiDefault)[k]).defaultValue
      == CreateServerCredentialTable().columns[k].defaultValue
  {
    ServerCredentialDefaultsLow(emojiDefault);
    ServerCredentialDefaultsMid(emojiDefault);
    ServerCredentialDefaultsUpper(emojiDefault);
    ServerCredentialDefaultsHigh(emojiDefault);
  }

  // Uniqueness

  /**
   * Both backends make `id` unique for every entity, but only the SwiftData
   * server credential also makes `credentialId` unique: neither the Core
   * Data entity nor the schema's server-credential table constrains it.
   */
  lemma UniquenessDeclared(emojiDefault: string)
    ensures forall e :: e in CreateManagedObjectModel(emojiDefault).entities ==> e.uniquenessConstraints == [["id"]]
    ensures SDWebAuthnCredentialEntity.UniqueAttributes == ["id"]
    ensures SDVirtualKeyEntity.UniqueAttributes == ["id"]
    ensures "id" in SDServerCredentialEntity.UniqueAttributes
    ensures "credentialId" in SDServerCredentialEntity.UniqueAttributes
    ensures forall c :: c in CreateManagedObjectModel(emojiDefault).entities[1].uniquenessConstraints ==>
      "credentialId" !in c
    ensures forall c :: c in CreateServerCredentialTable().constraints ==> "credentialId" !in c.columns
  {
  }
}
