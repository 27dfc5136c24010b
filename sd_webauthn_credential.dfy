/**
 * The SwiftData model object for a WebAuthn client credential. Unlike the
 * Core Data row it stores the sign count as a plain integer.
 */
module SDWebAuthnCredentialEntity {
  import opened Primitives

  /** The attributes marked unique. */
  const UniqueAttributes: seq<string> := ["id"]

  class SDWebAuthnCredential {
    var id: string
    var rpId: string
    var userHandle: Bytes
    var publicKey: Bytes
    var privateKeyRef: Option<string>
    var createdAt: Date
    var lastUsed: Option<Date>
    var signCount: int
    var isResident: bool
    var userDisplayName: Option<string>
    var credentialType: string

    /** The initializer: every field from its argument, with the declared defaults. */
    constructor (id: string, rpId: string, userHandle: Bytes, publicKey: Bytes,
                 privateKeyRef: Option<string> := None, createdAt: Date, lastUsed: Option<Date> := None,
                 signCount: int := 0, isResident: bool := false, userDisplayName: Option<string> := None,
                 credentialType: string := "public-key")
      ensures this.id == id && this.rpId == rpId && this.userHandle == userHandle && this.publicKey == publicKey
      ensures this.privateKeyRef == privateKeyRef && this.createdAt == createdAt && this.lastUsed == lastUsed
      ensures this.signCount == signCount && this.isResident == isResident
      ensures this.userDisplayName == userDisplayName && this.credentialType == credentialType
    {
      this.id := id;
      this.rpId := rpId;
      this.userHandle := userHandle;
      this.publicKey := publicKey;
      this.privateKeyRef := privateKeyRef;
      this.createdAt := createdAt;
      this.lastUsed := lastUsed;
      this.signCount := signCount;
      this.isResident := isResident;
      this.userDisplayName := userDisplayName;
      this.credentialType := credentialType;
    }
  }
}
