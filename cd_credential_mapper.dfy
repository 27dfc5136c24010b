/**
 * Conversion between the credential value and its Core Data row. Reading
 * widens the 32-bit sign count; writing narrows it, so only credentials
 * whose count fits can be written.
 */
module CDCredentialMapper {
  import opened Primitives
  import opened CredentialModel
  import opened CDWebAuthnCredentialEntity

  /** A credential a Core Data row can hold. */
  predicate Storable(c: CredentialData) {
    FitsInt32(c.signCount)
  }

  /** `toCredentialData`: every column, the sign count widened; what comes back can always be written again. */
  function ToCredentialData(row: CDWebAuthnCredential): (c: CredentialData)
    reads row
    ensures Storable(c)
  {
    CredentialData(
      id := row.id,
      rpId := row.rpId,
      userHandle := row.userHandle,
      publicKey := row.publicKey,
      privateKeyRef := row.privateKeyRef,
      createdAt := row.createdAt,
      lastUsed := row.lastUsed,
      signCount := row.signCount as int,
      isResident := row.isResident,
      userDisplayName := row.userDisplayName,
      credentialType := row.credentialType)
  }

  /** `fromCredentialData`: always a new row, never a lookup; reading it back gives the credential. */
  method FromCredentialData(c: CredentialData) returns (row: CDWebAuthnCredential)
    requires Storable(c)
    ensures fresh(row)
    ensures ToCredentialData(row) == c
  {
    row := new CDWebAuthnCredential(c.id, c.rpId, c.userHandle, c.publicKey, c.privateKeyRef, c.createdAt,
                                    c.lastUsed, c.signCount, c.isResident, c.userDisplayName, c.credentialType);
  }

  /** `updateCredential`: overwrites all eleven columns, `id` and `createdAt` included. */
  method UpdateCDCredential(row: CDWebAuthnCredential, c: CredentialData)
    requires Storable(c)
    modifies row
    ensures ToCredentialData(row) == c
  {
    row.id := c.id;
    row.rpId := c.rpId;
    row.userHandle := c.userHandle;
    row.publicKey := c.publicKey;
    row.privateKeyRef := c.privateKeyRef;
    row.createdAt := c.createdAt;
    row.lastUsed := c.lastUsed;
    row.signCount := ToInt32(c.signCount);
    row.isResident := c.isResident;
    row.userDisplayName := c.userDisplayName;
    row.credentialType := c.credentialType;
  }

  /** `toCredentialDataArray`: one value per row, in the same order. */
  function ToCredentialDataArray(rows: seq<CDWebAuthnCredential>): (r: seq<CredentialData>)
    reads rows
    ensures |r| == |rows|
    ensures forall i :: 0 <= i < |rows| ==> r[i] == ToCredentialData(rows[i])
  {
    if rows == [] then [] else [ToCredentialData(rows[0])] + ToCredentialDataArray(rows[1..])
  }
}
