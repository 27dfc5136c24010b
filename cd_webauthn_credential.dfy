/**
 * The Core Data row for a WebAuthn client credential, and the fetch
 * requests built for it. The sign count is stored as a 32-bit integer.
 */
module CDWebAuthnCredentialEntity {
  import opened Primitives
  import opened FetchRequests
  import opened CredentialModel

  const EntityName: string := "WebAuthnClientCredential"

  class CDWebAuthnCredential {
    var id: string
    var rpId: string
    var userHandle: Bytes
    var publicKey: Bytes
    var privateKeyRef: Option<string>
    var createdAt: Date
    var lastUsed: Option<Date>
    var signCount: Int32
    var isResident: bool
    var userDisplayName: Option<string>
    var credentialType: string

    /** The convenience initializer; `Int32(signCount)` traps unless the count fits. */
    constructor (id: string, rpId: string, userHandle: Bytes, publicKey: Bytes,
                 privateKeyRef: Option<string> := None, createdAt: Date, lastUsed: Option<Date> := None,
                 signCount: int := 0, isResident: bool := false, userDisplayName: Option<string> := None,
                 credentialType: string := "public-key")
      requires FitsInt32(signCount)
      ensures this.id == id && this.rpId == rpId && this.userHandle == userHandle && this.publicKey == publicKey
      ensures this.privateKeyRef == privateKeyRef && this.createdAt == createdAt && this.lastUsed == lastUsed
      ensures this.signCount as int == signCount && this.isResident == isResident
      ensures this.userDisplayName == userDisplayName && this.credentialType == credentialType
    {
      this.id := id;
      this.rpId := rpId;
      this.userHandle := userHandle;
      this.publicKey := publicKey;
      this.privateKeyRef := privateKeyRef;
      this.createdAt := createdAt;
      this.lastUsed := lastUsed;
      this.signCount := ToInt32(signCount);
      this.isResident := isResident;
      this.userDisplayName := userDisplayName;
      this.credentialType := credentialType;
    }
  }

  /** `fetchRequest()`: every credential row, unordered. */
  method AllRowsRequest() returns (request: FetchRequest)
    ensures fresh(request)
    ensures request.entityName == EntityName && request.filter == MatchAll
    ensures request.sortDescriptors == [] && request.fetchLimit == 0
  {
    request := new FetchRequest(EntityName);
  }

  /** `fetchRequest(for:)`: the credentials of one relying party, newest first. */
  method RequestForRelyingParty(rpId: string) returns (request: FetchRequest)
    ensures fresh(request)
    ensures request.entityName == EntityName && request.filter == TextEquals("rpId", rpId)
    ensures request.sortDescriptors == [SortDescriptor("createdAt", false)] && request.fetchLimit == 0
  {
    request := AllRowsRequest();
    request.filter := TextEquals("rpId", rpId);
    request.sortDescriptors := [SortDescriptor("createdAt", false)];
  }

  /** `fetchRequest(id:)`: the credential with one id, at most one row. */
  method RequestById(id: string) returns (request: FetchRequest)
    ensures fresh(request)
    ensures request.entityName == EntityName && request.filter == TextEquals("id", id)
    ensures request.sortDescriptors == [] && request.fetchLimit == 1
  {
    request := AllRowsRequest();
    request.filter := TextEquals("id", id);
    request.fetchLimit := 1;
  }

  /** Run over any credentials, `fetchRequest(id:)` yields at most one row, and one exactly when a row has the id. */
  lemma IdRequestResult(rows: seq<CredentialData>, id: string)
    ensures var r := Run(TextEquals("id", id), [], 1, rows, Field);
      && |r| <= 1
      && (r == [] <==> forall x :: x in rows ==> x.id != id)
      && (forall x :: x in r ==> x in rows && x.id == id)
  {
    RunFirst(TextEquals("id", id), [], 1, rows, Field);
  }
}
