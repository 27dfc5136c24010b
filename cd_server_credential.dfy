/**
 * The Core Data row for a server credential, and the fetch requests built
 * for it. Integers are stored as 32-bit values; the optional backup flags
 * and user number have no optional column and are stored as `false` and 0.
 */
module CDServerCredentialEntity {
  import opened Primitives
  import opened FetchRequests
  import opened ServerCredentialModel

  const EntityName: string := "ServerCredential"

  class CDServerCredential {
    var id: string
    var credentialId: string
    var publicKeyJWK: string
    var signCount: Int32
    var isDiscoverable: bool
    var createdAt: Date
    var lastVerified: Option<Date>
    var rpId: string
    var userHandle: Bytes
    var algorithm: Int32
    var protocolVersion: string
    var attestationFormat: Option<string>
    var aaguid: Option<string>
    var backupEligible: bool
    var backupState: bool
    var emoji: string
    var lastLoginIP: Option<string>
    var isEnabled: bool
    var isAdmin: bool
    /** 0 stands for "no user number". */
    var userNumber: Int32

    /**
     * The convenience initializer: absent backup flags are stored as `false`,
     * an absent user number as 0, and the three integers as `Int32`, which
     * traps unless they fit.
     */
    constructor (id: string, credentialId: string, publicKeyJWK: string, signCount: int := 0,
                 isDiscoverable: bool := false, createdAt: Date, lastVerified: Option<Date> := None,
                 rpId: string, userHandle: Bytes, algorithm: int := -7, protocolVersion: string := "fido2",
                 attestationFormat: Option<string> := None, aaguid: Option<string> := None,
                 backupEligible: Option<bool> := None, backupState: Option<bool> := None, emoji: string,
                 lastLoginIP: Option<string> := None, isEnabled: bool := true, isAdmin: bool := false,
                 userNumber: Option<int> := None)
      requires FitsInt32(signCount) && FitsInt32(algorithm) && FitsInt32(userNumber.OrElse(0))
      ensures this.id == id && this.credentialId == credentialId && this.publicKeyJWK == publicKeyJWK
      ensures this.signCount as int == signCount && this.isDiscoverable == isDiscoverable
      ensures this.createdAt == createdAt && this.lastVerified == lastVerified
      ensures this.rpId == rpId && this.userHandle == userHandle
      ensures this.algorithm as int == algorithm && this.protocolVersion == protocolVersion
      ensures this.attestationFormat == attestationFormat && this.aaguid == aaguid
      ensures this.backupEligible == (backupEligible == Some(true))
      ensures this.backupState == (backupState == Some(true))
      ensures this.emoji == emoji && this.lastLoginIP == lastLoginIP
      ensures this.isEnabled == isEnabled && this.isAdmin == isAdmin
      ensures this.userNumber as int == (if userNumber.Some? then userNumber.value else 0)
    {
      this.id := id;
      this.credentialId := credentialId;
      this.publicKeyJWK := publicKeyJWK;
      this.signCount := ToInt32(signCount);
      this.isDiscoverable := isDiscoverable;
      this.createdAt := createdAt;
      this.lastVerified := lastVerified;
      this.rpId := rpId;
      this.userHandle := userHandle;
      this.algorithm := ToInt32(algorithm);
      this.protocolVersion := protocolVersion;
      this.attestationFormat := attestationFormat;
      this.aaguid := aaguid;
      this.backupEligible := backupEligible.OrElse(false);
      this.backupState := backupState.OrElse(false);
      this.emoji := emoji;
      this.lastLoginIP := lastLoginIP;
      this.isEnabled := isEnabled;
      this.isAdmin := isAdmin;
      this.userNumber := ToInt32(userNumber.OrElse(0));
    }
  }

  /** `fetchRequest()`: every server-credential row, unordered. */
  method AllRowsRequest() returns (request: FetchRequest)
    ensures fresh(request)
    ensures request.entityName == EntityName && request.filter == MatchAll
    ensures request.sortDescriptors == [] && request.fetchLimit == 0
  {
    request := new FetchRequest(EntityName);
  }

  /** `fetchRequest(for:)`: the credentials of one relying party, newest first. */
  method RequestForRelyingParty(rpId: string) returns (request: FetchRequest)
    ensures fresh(request)
    ensures request.entityName == EntityName && request.filter == TextEquals("rpId", rpId)
    ensures request.sortDescriptors == [SortDescriptor("createdAt", false)] && request.fetchLimit == 0
  {
    request := AllRowsRequest();
    request.filter := TextEquals("rpId", rpId);
    request.sortDescriptors := [SortDescriptor("createdAt", false)];
  }

  /** `fetchDiscoverableCredentials()`: the discoverable credentials, most recently verified first. */
  method DiscoverableRequest() returns (request: FetchRequest)
    ensures fresh(request)
    ensures request.entityName == EntityName && request.filter == FlagIsTrue("isDiscoverable")
    ensures request.sortDescriptors == [SortDescriptor("lastVerified", false)] && request.fetchLimit == 0
  {
    request := AllRowsRequest();
    request.filter := FlagIsTrue("isDiscoverable");
    request.sortDescriptors := [SortDescriptor("lastVerified", false)];
  }

  /** `fetchRequest(id:)`: the credential with one id, at most one row. */
  method RequestById(id: string) returns (request: FetchRequest)
    ensures fresh(request)
    ensures request.entityName == EntityName && request.filter == TextEquals("id", id)
    ensures request.sortDescriptors == [] && request.fetchLimit == 1
  {
    request := AllRowsRequest();
    request.filter := TextEquals("id", id);
    request.fetchLimit := 1;
  }

  /** Run over any server credentials, `fetchRequest(for:)` yields exactly the relying party's, newest first. */
  lemma RelyingPartyRequestResult(rows: seq<ServerCredentialData>, rpId: string)
    ensures var r := Run(TextEquals("rpId", rpId), [SortDescriptor("createdAt", false)], 0, rows, Field);
      && (forall x :: x in r <==> x in rows && x.rpId == rpId)
      && multiset(r) <= multiset(rows)
      && SortedBy(r, CreatedAtKey, false)
  {
    var d := SortDescriptor("createdAt", false);
    var r := Run(TextEquals("rpId", rpId), [d], 0, rows, Field);
    RunSelects(TextEquals("rpId", rpId), [d], rows, Field);
    RunWithinRows(TextEquals("rpId", rpId), [d], 0, rows, Field);
    forall x: ServerCredentialData ensures Field(x, "rpId") == Text(x.rpId) && DescriptorKey(Field, d)(x) == CreatedAtKey(x) {
      assert DescriptorKey(Field, d)(x) == KeyOf(Field(x, "createdAt"));
    }
    SortedBySameKeys(r, DescriptorKey(Field, d), CreatedAtKey, false);
  }

  /** Run over any server credentials, the discoverable request yields exactly the discoverable ones, most recently verified first. */
  lemma DiscoverableRequestResult(rows: seq<ServerCredentialData>)
    ensures var r := Run(FlagIsTrue("isDiscoverable"), [SortDescriptor("lastVerified", false)], 0, rows, Field);
      && (forall x :: x in r <==> x in rows && x.isDiscoverable)
      && multiset(r) <= multiset(rows)
      && SortedBy(r, LastVerifiedKey, false)
  {
    var d := SortDescriptor("lastVerified", false);
    var r := Run(FlagIsTrue("isDiscoverable"), [d], 0, rows, Field);
    RunSelects(FlagIsTrue("isDiscoverable"), [d], rows, Field);
    RunWithinRows(FlagIsTrue("isDiscoverable"), [d], 0, rows, Field);
    forall x: ServerCredentialData
      ensures Field(x, "isDiscoverable") == Flag(x.isDiscoverable) && DescriptorKey(Field, d)(x) == LastVerifiedKey(x)
    {
      assert DescriptorKey(Field, d)(x) == KeyOf(Field(x, "lastVerified"));
    }
    SortedBySameKeys(r, DescriptorKey(Field, d), LastVerifiedKey, false);
  }

  /** Run over any server credentials, `fetchRequest(id:)` yields at most one row, and one exactly when a row has the id. */
  lemma IdRequestResult(rows: seq<ServerCredentialData>, id: string)
    ensures var r := Run(TextEquals("id", id), [], 1, rows, Field);
      && |r| <= 1
      && (r == [] <==> forall x :: x in rows ==> x.id != id)
      && (forall x :: x in r ==> x in rows && x.id == id)
  {
    RunFirst(TextEquals("id", id), [], 1, rows, Field);
  }
}
