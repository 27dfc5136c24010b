/**
 * The SwiftData model object for a server credential. Both `id` and
 * `credentialId` are unique, and the backup flags and the user number are
 * genuinely optional: nothing is coalesced on the way in.
 */
module SDServerCredentialEntity {
  import opened Primitives

  /** The attributes marked unique. */
  const UniqueAttributes: seq<string> := ["id", "credentialId"]

  class SDServerCredential {
    var id: string
    var credentialId: string
    var publicKeyJWK: string
    var signCount: int
    var isDiscoverable: bool
    var createdAt: Date
    var lastVerified: Option<Date>
    var rpId: string
    var userHandle: Bytes
    var algorithm: int
    var protocolVersion: string
    var attestationFormat: Option<string>
    var aaguid: Option<string>
    var backupEligible: Option<bool>
    var backupState: Option<bool>
    var emoji: string
    var lastLoginIP: Option<string>
    var isEnabled: bool
    var isAdmin: bool
    var userNumber: Option<int>

    /** The initializer: every field from its argument, with the declared defaults. */
    constructor (id: string, credentialId: string, publicKeyJWK: string, signCount: int := 0,
                 isDiscoverable: bool := false, createdAt: Date, lastVerified: Option<Date> := None,
                 rpId: string, userHandle: Bytes, algorithm: int := -7, protocolVersion: string := "fido2",
                 attestationFormat: Option<string> := None, aaguid: Option<string> := None,
                 backupEligible: Option<bool> := None, backupState: Option<bool> := None, emoji: string,
                 lastLoginIP: Option<string> := None, isEnabled: bool := true, isAdmin: bool := false,
                 userNumber: Option<int> := None)
      ensures this.id == id && this.credentialId == credentialId && this.publicKeyJWK == publicKeyJWK
      ensures this.signCount == signCount && this.isDiscoverable == isDiscoverable
      ensures this.createdAt == createdAt && this.lastVerified == lastVerified
      ensures this.rpId == rpId && this.userHandle == userHandle
      ensures this.algorithm == algorithm && this.protocolVersion == protocolVersion
      ensures this.attestationFormat == attestationFormat && this.aaguid == aaguid
      ensures this.backupEligible == backupEligible && this.backupState == backupState
      ensures this.emoji == emoji && this.lastLoginIP == lastLoginIP
      ensures this.isEnabled == isEnabled && this.isAdmin == isAdmin && this.userNumber == userNumber
    {
      this.id := id;
      this.credentialId := credentialId;
      this.publicKeyJWK := publicKeyJWK;
      this.signCount := signCount;
      this.isDiscoverable := isDiscoverable;
      this.createdAt := createdAt;
      this.lastVerified := lastVerified;
      this.rpId := rpId;
      this.userHandle := userHandle;
      this.algorithm := algorithm;
      this.protocolVersion := protocolVersion;
      this.attestationFormat := attestationFormat;
      this.aaguid := aaguid;
      this.backupEligible := backupEligible;
      this.backupState := backupState;
      this.emoji := emoji;
      this.lastLoginIP := lastLoginIP;
      this.isEnabled := isEnabled;
      this.isAdmin := isAdmin;
      this.userNumber := userNumber;
    }
  }
}
