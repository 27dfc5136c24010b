/**
 * Server-side credential metadata as an immutable value, with its
 * copy-with-update helpers.
 */
module ServerCredentialModel {
  import opened Primitives
  import opened FetchRequests

  datatype ServerCredentialData = ServerCredentialData(
    id: string,
    credentialId: string,
    publicKeyJWK: string,
    signCount: int := 0,
    isDiscoverable: bool := false,
    createdAt: Date,
    lastVerified: Option<Date> := None,
    rpId: string,
    userHandle: Bytes,
    algorithm: int := -7,
    protocolVersion: string := "fido2",
    attestationFormat: Option<string> := None,
    aaguid: Option<string> := None,
    backupEligible: Option<bool> := None,
    backupState: Option<bool> := None,
    emoji: string,
    lastLoginIP: Option<string> := None,
    isEnabled: bool := true,
    isAdmin: bool := false,
    userNumber: Option<int> := None)

  /** The initializer called with only the required arguments (and an explicit emoji). */
  function NewServerCredential(id: string, credentialId: string, publicKeyJWK: string, rpId: string,
                               userHandle: Bytes, emoji: string, now: Date): (c: ServerCredentialData)
    ensures c.id == id && c.credentialId == credentialId && c.publicKeyJWK == publicKeyJWK
    ensures c.rpId == rpId && c.userHandle == userHandle && c.emoji == emoji && c.createdAt == now
    ensures c.signCount == 0 && !c.isDiscoverable
    ensures c.algorithm == -7 && c.protocolVersion == "fido2"
    ensures c.isEnabled && !c.isAdmin
    ensures c.lastVerified.None? && c.attestationFormat.None? && c.aaguid.None?
    ensures c.backupEligible.None? && c.backupState.None? && c.lastLoginIP.None? && c.userNumber.None?
  {
    ServerCredentialData(id := id, credentialId := credentialId, publicKeyJWK := publicKeyJWK,
                         createdAt := now, rpId := rpId, userHandle := userHandle, emoji := emoji)
  }

  /** A copy with the new sign count, verified at `now`; every other field is kept. */
  function WithUpdatedSignCount(c: ServerCredentialData, newCount: int, now: Date): (r: ServerCredentialData)
    ensures r == c.(signCount := newCount, lastVerified := Some(now))
  {
    ServerCredentialData(
      id := c.id,
      credentialId := c.credentialId,
      publicKeyJWK := c.publicKeyJWK,
      signCount := newCount,
      isDiscoverable := c.isDiscoverable,
      createdAt := c.createdAt,
      lastVerified := Some(now),
      rpId := c.rpId,
      userHandle := c.userHandle,
      algorithm := c.algorithm,
      protocolVersion := c.protocolVersion,
      attestationFormat := c.attestationFormat,
      aaguid := c.aaguid,
      backupEligible := c.backupEligible,
      backupState := c.backupState,
      emoji := c.emoji,
      lastLoginIP := c.lastLoginIP,
      isEnabled := c.isEnabled,
      isAdmin := c.isAdmin,
      userNumber := c.userNumber)
  }

  /** A copy verified at `date`; the sign count and every other field are kept. */
  function WithUpdatedVerification(c: ServerCredentialData, date: Date): (r: ServerCredentialData)
    ensures r == c.(lastVerified := Some(date))
  {
    ServerCredentialData(
      id := c.id,
      credentialId := c.credentialId,
      publicKeyJWK := c.publicKeyJWK,
      signCount := c.signCount,
      isDiscoverable := c.isDiscoverable,
      createdAt := c.createdAt,
      lastVerified := Some(date),
      rpId := c.rpId,
      userHandle := c.userHandle,
      algorithm := c.algorithm,
      protocolVersion := c.protocolVersion,
      attestationFormat := c.attestationFormat,
      aaguid := c.aaguid,
      backupEligible := c.backupEligible,
      backupState := c.backupState,
      emoji := c.emoji,
      lastLoginIP := c.lastLoginIP,
      isEnabled := c.isEnabled,
      isAdmin := c.isAdmin,
      userNumber := c.userNumber)
  }

  /** A server credential's attributes by name, as fetch predicates and sort descriptors see them. */
  function Field(c: ServerCredentialData, key: string): FieldValue {
    if key == "id" then Text(c.id)
    else if key == "credentialId" then Text(c.credentialId)
    else if key == "rpId" then Text(c.rpId)
    else if key == "createdAt" then Stamp(Some(c.createdAt))
    else if key == "lastVerified" then Stamp(c.lastVerified)
    else if key == "signCount" then Number(c.signCount)
    else if key == "isDiscoverable" then Flag(c.isDiscoverable)
    else if key == "isEnabled" then Flag(c.isEnabled)
    else if key == "isAdmin" then Flag(c.isAdmin)
    else Other
  }

  /** Ordering by creation time. */
  function CreatedAtKey(c: ServerCredentialData): SortKey {
    At(c.createdAt)
  }

  /** Ordering by last verification; never-verified credentials come first. */
  function LastVerifiedKey(c: ServerCredentialData): SortKey {
    if c.lastVerified.Some? then At(c.lastVerified.value) else Missing
  }
}
