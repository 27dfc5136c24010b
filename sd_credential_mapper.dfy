/**
 * Conversion between the credential value and its SwiftData model object:
 * a field-for-field copy in both directions, with no bounds to respect.
 */
module SDCredentialMapper {
  import opened Primitives
  import opened CredentialModel
  import opened SDWebAuthnCredentialEntity

  /** `fromSwiftData`: every field copied. */
  function FromSwiftData(model: SDWebAuthnCredential): (c: CredentialData)
    reads model
    ensures c.id == model.id && c.createdAt == model.createdAt && c.signCount == model.signCount
  {
    CredentialData(
      id := model.id,
      rpId := model.rpId,
      userHandle := model.userHandle,
      publicKey := model.publicKey,
      privateKeyRef := model.privateKeyRef,
      createdAt := model.createdAt,
      lastUsed := model.lastUsed,
      signCount := model.signCount,
      isResident := model.isResident,
      userDisplayName := model.userDisplayName,
      credentialType := model.credentialType)
  }

  /** `toSwiftData`: a new model object that reads back as exactly the credential. */
  method ToSwiftData(c: CredentialData) returns (model: SDWebAuthnCredential)
    ensures fresh(model)
    ensures FromSwiftData(model) == c
  {
    model := new SDWebAuthnCredential(c.id, c.rpId, c.userHandle, c.publicKey, c.privateKeyRef, c.createdAt,
                                      c.lastUsed, c.signCount, c.isResident, c.userDisplayName, c.credentialType);
  }

  /** `updateSwiftData`: every field but `id` overwritten, so the object reads back as `c` under its own id. */
  method UpdateSwiftData(model: SDWebAuthnCredential, c: CredentialData)
    modifies model
    ensures model.id == old(model.id)
    ensures FromSwiftData(model) == c.(id := old(model.id))
  {
    model.rpId := c.rpId;
    model.userHandle := c.userHandle;
    model.publicKey := c.publicKey;
    model.privateKeyRef := c.privateKeyRef;
    model.createdAt := c.createdAt;
    model.lastUsed := c.lastUsed;
    model.signCount := c.signCount;
    model.isResident := c.isResident;
    model.userDisplayName := c.userDisplayName;
    model.credentialType := c.credentialType;
  }
}
