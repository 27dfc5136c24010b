/**
 * A WebAuthn client credential as an immutable value, with the two
 * copy-with-update helpers. Time stamps the source reads from the clock
 * are passed in as `now`.
 */
module CredentialModel {
  import opened Primitives
  import opened FetchRequests

  datatype CredentialData = CredentialData(
    id: string,
    rpId: string,
    userHandle: Bytes,
    publicKey: Bytes,
    privateKeyRef: Option<string> := None,
    createdAt: Date,
    lastUsed: Option<Date> := None,
    signCount: int := 0,
    isResident: bool := false,
    userDisplayName: Option<string> := None,
    credentialType: string := "public-key")

  /** The initializer called with only the required arguments (`createdAt` is the clock's `now`). */
  function NewCredential(id: string, rpId: string, userHandle: Bytes, publicKey: Bytes, now: Date): (c: CredentialData)
    ensures c.id == id && c.rpId == rpId && c.userHandle == userHandle && c.publicKey == publicKey
    ensures c.createdAt == now
    ensures c.privateKeyRef.None? && c.lastUsed.None? && c.userDisplayName.None?
    ensures c.signCount == 0 && !c.isResident && c.credentialType == "public-key"
  {
    CredentialData(id := id, rpId := rpId, userHandle := userHandle, publicKey := publicKey, createdAt := now)
  }

  /** A copy with the new sign count, marked as used at `now`; every other field is kept. */
  function WithUpdatedSignCount(c: CredentialData, newCount: int, now: Date): (r: CredentialData)
    ensures r == c.(signCount := newCount, lastUsed := Some(now))
  {
    CredentialData(
      id := c.id,
      rpId := c.rpId,
      userHandle := c.userHandle,
      publicKey := c.publicKey,
      privateKeyRef := c.privateKeyRef,
      createdAt := c.createdAt,
      lastUsed := Some(now),
      signCount := newCount,
      isResident := c.isResident,
      userDisplayName := c.userDisplayName,
      credentialType := c.credentialType)
  }

  /** A copy marked as used at `date`; the sign count and every other field are kept. */
  function WithUpdatedLastUsed(c: CredentialData, date: Date): (r: CredentialData)
    ensures r == c.(lastUsed := Some(date))
  {
    CredentialData(
      id := c.id,
      rpId := c.rpId,
      userHandle := c.userHandle,
      publicKey := c.publicKey,
      privateKeyRef := c.privateKeyRef,
      createdAt := c.createdAt,
      lastUsed := Some(date),
      signCount := c.signCount,
      isResident := c.isResident,
      userDisplayName := c.userDisplayName,
      credentialType := c.credentialType)
  }

  /**
   * The two helpers agree on everything but the sign count: refreshing the
   * sign count is refreshing the last-used date and then setting the count.
   */
  lemma SignCountUpdateIsLastUsedUpdatePlusCount(c: CredentialData, n: int, now: Date)
    ensures WithUpdatedSignCount(c, n, now) == WithUpdatedLastUsed(c, now).(signCount := n)
    ensures WithUpdatedSignCount(c, n, now).id == c.id && WithUpdatedSignCount(c, n, now).createdAt == c.createdAt
  {
  }

  /** A credential's attributes by name, as fetch predicates and sort descriptors see them. */
  function Field(c: CredentialData, key: string): FieldValue {
    if key == "id" then Text(c.id)
    else if key == "rpId" then Text(c.rpId)
    else if key == "credentialType" then Text(c.credentialType)
    else if key == "createdAt" then Stamp(Some(c.createdAt))
    else if key == "lastUsed" then Stamp(c.lastUsed)
    else if key == "signCount" then Number(c.signCount)
    else if key == "isResident" then Flag(c.isResident)
    else Other
  }

  /** Ordering by creation time. */
  function CreatedAtKey(c: CredentialData): SortKey {
    At(c.createdAt)
  }
}
