/**
 * The Core Data row for a virtual key, and the fetch requests built for
 * it. The key-derivation parameters are four separate columns; absent
 * integers are stored as 0.
 */
module CDVirtualKeyEntity {
  import opened Primitives
  import opened FetchRequests
  import opened VirtualKeyModel

  const EntityName: string := "VirtualKey"

  class CDVirtualKey {
    var id: string
    var name: string
    var encryptedPrivateKey: Bytes
    var publicKey: Bytes
    var algorithm: string
    var keySize: Int32
    var createdAt: Date
    var lastUsed: Option<Date>
    var isActive: bool
    var kdfAlgorithm: Option<string>
    var kdfIterations: Int32
    var kdfSalt: Option<Bytes>
    var kdfKeyLength: Int32

    /** The convenience initializer; `Int32(...)` traps unless the integers fit. */
    constructor (id: string, name: string, encryptedPrivateKey: Bytes, publicKey: Bytes, algorithm: string,
                 keySize: int, createdAt: Date, lastUsed: Option<Date> := None, isActive: bool := true,
                 kdfAlgorithm: Option<string> := None, kdfIterations: int := 0, kdfSalt: Option<Bytes> := None,
                 kdfKeyLength: int := 0)
      requires FitsInt32(keySize) && FitsInt32(kdfIterations) && FitsInt32(kdfKeyLength)
      ensures this.id == id && this.name == name && this.encryptedPrivateKey == encryptedPrivateKey
      ensures this.publicKey == publicKey && this.algorithm == algorithm && this.keySize as int == keySize
      ensures this.createdAt == createdAt && this.lastUsed == lastUsed && this.isActive == isActive
      ensures this.kdfAlgorithm == kdfAlgorithm && this.kdfIterations as int == kdfIterations
      ensures this.kdfSalt == kdfSalt && this.kdfKeyLength as int == kdfKeyLength
    {
      this.id := id;
      this.name := name;
      this.encryptedPrivateKey := encryptedPrivateKey;
      this.publicKey := publicKey;
      this.algorithm := algorithm;
      this.keySize := ToInt32(keySize);
      this.createdAt := createdAt;
      this.lastUsed := lastUsed;
      this.isActive := isActive;
      this.kdfAlgorithm := kdfAlgorithm;
      this.kdfIterations := ToInt32(kdfIterations);
      this.kdfSalt := kdfSalt;
      this.kdfKeyLength := ToInt32(kdfKeyLength);
    }
  }

  /** `fetchRequest()`: every virtual-key row, unordered. */
  method AllRowsRequest() returns (request: FetchRequest)
    ensures fresh(request)
    ensures request.entityName == EntityName && request.filter == MatchAll
    ensures request.sortDescriptors == [] && request.fetchLimit == 0
  {
    request := new FetchRequest(EntityName);
  }

  /** `fetchRequest(algorithm:)`: the keys of one algorithm, newest first. */
  method RequestForAlgorithm(algorithm: string) returns (request: FetchRequest)
    ensures fresh(request)
    ensures request.entityName == EntityName && request.filter == TextEquals("algorithm", algorithm)
    ensures request.sortDescriptors == [SortDescriptor("createdAt", false)] && request.fetchLimit == 0
  {
    request := AllRowsRequest();
    request.filter := TextEquals("algorithm", algorithm);
    request.sortDescriptors := [SortDescriptor("createdAt", false)];
  }

  /** `fetchActiveKeys()`: the active keys, most recently used first. */
  method ActiveKeysRequest() returns (request: FetchRequest)
    ensures fresh(request)
    ensures request.entityName == EntityName && request.filter == FlagIsTrue("isActive")
    ensures request.sortDescriptors == [SortDescriptor("lastUsed", false)] && request.fetchLimit == 0
  {
    request := AllRowsRequest();
    request.filter := FlagIsTrue("isActive");
    request.sortDescriptors := [SortDescriptor("lastUsed", false)];
  }

  /** `fetchRequest(id:)`: the key with one id, at most one row. */
  method RequestById(id: string) returns (request: FetchRequest)
    ensures fresh(request)
    ensures request.entityName == EntityName && request.filter == TextEquals("id", id)
    ensures request.sortDescriptors == [] && request.fetchLimit == 1
  {
    request := AllRowsRequest();
    request.filter := TextEquals("id", id);
    request.fetchLimit := 1;
  }

  /** Run over any keys, `fetchRequest(algorithm:)` yields exactly the keys of that algorithm, newest first. */
  lemma AlgorithmRequestResult(rows: seq<VirtualKeyData>, algorithm: string)
    ensures var r := Run(TextEquals("algorithm", algorithm), [SortDescriptor("createdAt", false)], 0, rows, Field);
      && (forall x :: x in r <==> x in rows && x.algorithm == algorithm)
      && multiset(r) <= multiset(rows)
      && SortedBy(r, CreatedAtKey, false)
  {
    var d := SortDescriptor("createdAt", false);
    var r := Run(TextEquals("algorithm", algorithm), [d], 0, rows, Field);
    RunSelects(TextEquals("algorithm", algorithm), [d], rows, Field);
    RunWithinRows(TextEquals("algorithm", algorithm), [d], 0, rows, Field);
    forall x: VirtualKeyData
      ensures Field(x, "algorithm") == Text(x.algorithm) && DescriptorKey(Field, d)(x) == CreatedAtKey(x)
    {
      assert DescriptorKey(Field, d)(x) == KeyOf(Field(x, "createdAt"));
    }
    SortedBySameKeys(r, DescriptorKey(Field, d), CreatedAtKey, false);
  }

  /** Run over any keys, `fetchActiveKeys()` yields exactly the active ones, most recently used first. */
  lemma ActiveKeysRequestResult(rows: seq<VirtualKeyData>)
    ensures var r := Run(FlagIsTrue("isActive"), [SortDescriptor("lastUsed", false)], 0, rows, Field);
      && (forall x :: x in r <==> x in rows && x.isActive)
      && multiset(r) <= multiset(rows)
      && SortedBy(r, LastUsedKey, false)
  {
    var d := SortDescriptor("lastUsed", false);
    var r := Run(FlagIsTrue("isActive"), [d], 0, rows, Field);
    RunSelects(FlagIsTrue("isActive"), [d], rows, Field);
    RunWithinRows(FlagIsTrue("isActive"), [d], 0, rows, Field);
    forall x: VirtualKeyData
      ensures Field(x, "isActive") == Flag(x.isActive) && DescriptorKey(Field, d)(x) == LastUsedKey(x)
    {
      assert DescriptorKey(Field, d)(x) == KeyOf(Field(x, "lastUsed"));
    }
    SortedBySameKeys(r, DescriptorKey(Field, d), LastUsedKey, false);
  }

  /** Run over any keys, `fetchRequest(id:)` yields at most one row, and one exactly when a row has the id. */
  lemma IdRequestResult(rows: seq<VirtualKeyData>, id: string)
    ensures var r := Run(TextEquals("id", id), [], 1, rows, Field);
      && |r| <= 1
      && (r == [] <==> forall x :: x in rows ==> x.id != id)
      && (forall x :: x in r ==> x in rows && x.id == id)
  {
    RunFirst(TextEquals("id", id), [], 1, rows, Field);
  }
}
