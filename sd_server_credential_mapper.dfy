/**
 * Conversion between the server-credential value and its SwiftData model
 * object. All twenty fields are copied as they are, optional ones
 * included, so nothing is normalized on the way.
 */
module SDServerCredentialMapper {
  import opened Primitives
  import opened ServerCredentialModel
  import opened SDServerCredentialEntity

  /** `fromSwiftData`: every field copied, absent flags and user number staying absent. */
  function FromSwiftData(model: SDServerCredential): (c: ServerCredentialData)
    reads model
    ensures c.id == model.id && c.createdAt == model.createdAt
    ensures c.backupEligible == model.backupEligible && c.backupState == model.backupState
    ensures c.userNumber == model.userNumber
  {
    ServerCredentialData(
      id := model.id,
      credentialId := model.credentialId,
      publicKeyJWK := model.publicKeyJWK,
      signCount := model.signCount,
      isDiscoverable := model.isDiscoverable,
      createdAt := model.createdAt,
      lastVerified := model.lastVerified,
      rpId := model.rpId,
      userHandle := model.userHandle,
      algorithm := model.algorithm,
      protocolVersion := model.protocolVersion,
      attestationFormat := model.attestationFormat,
      aaguid := model.aaguid,
      backupEligible := model.backupEligible,
      backupState := model.backupState,
      emoji := model.emoji,
      lastLoginIP := model.lastLoginIP,
      isEnabled := model.isEnabled,
      isAdmin := model.isAdmin,
      userNumber := model.userNumber)
  }

  /** `toSwiftData`: a new model object that reads back as exactly the credential. */
  method ToSwiftData(c: ServerCredentialData) returns (model: SDServerCredential)
    ensures fresh(model)
    ensures FromSwiftData(model) == c
  {
    model := new SDServerCredential(c.id, c.credentialId, c.publicKeyJWK, c.signCount, c.isDiscoverable,
                                    c.createdAt, c.lastVerified, c.rpId, c.userHandle, c.algorithm,
                                    c.protocolVersion, c.attestationFormat, c.aaguid, c.backupEligible,
                                    c.backupState, c.emoji, c.lastLoginIP, c.isEnabled, c.isAdmin, c.userNumber);
  }

  /** The model's fields other than `id` hold those of `c`. */
  predicate HoldsFieldsOf(model: SDServerCredential, c: ServerCredentialData)
    reads model
  {
    && model.credentialId == c.credentialId && model.publicKeyJWK == c.publicKeyJWK
    && model.signCount == c.signCount && model.isDiscoverable == c.isDiscoverable
    && model.createdAt == c.createdAt && model.lastVerified == c.lastVerified
    && model.rpId == c.rpId && model.userHandle == c.userHandle
    && model.algorithm == c.algorithm && model.protocolVersion == c.protocolVersion
    && model.attestationFormat == c.attestationFormat && model.aaguid == c.aaguid
    && model.backupEligible == c.backupEligible && model.backupState == c.backupState
    && model.emoji == c.emoji && model.lastLoginIP == c.lastLoginIP
    && model.isEnabled == c.isEnabled && model.isAdmin == c.isAdmin && model.userNumber == c.userNumber
  }

  /** A model holding the fields of `c` reads back as `c` under the model's own id. */
  lemma ReadBackIsValue(model: SDServerCredential, c: ServerCredentialData)
    requires HoldsFieldsOf(model, c)
    ensures FromSwiftData(model) == c.(id := model.id)
  {
  }

  /**
   * `updateSwiftData`: every field but `id` overwritten, `createdAt`
   * included, so the object reads back as `c` under its own id.
   */
  method UpdateSwiftData(model: SDServerCredential, c: ServerCredentialData)
    modifies model
    ensures model.id == old(model.id)
    ensures HoldsFieldsOf(model, c)
  {
    WriteKeyFields(model, c);
    WriteProtocolFields(model, c);
    WriteAccountFields(model, c);
  }

  /** The first seven fields `updateSwiftData` assigns. */
  method WriteKeyFields(model: SDServerCredential, c: ServerCredentialData)
    modifies model`credentialId, model`publicKeyJWK, model`signCount, model`isDiscoverable, model`createdAt,
             model`lastVerified, model`rpId
    ensures model.credentialId == c.credentialId && model.publicKeyJWK == c.publicKeyJWK
    ensures model.signCount == c.signCount && model.isDiscoverable == c.isDiscoverable
    ensures model.createdAt == c.createdAt && model.lastVerified == c.lastVerified && model.rpId == c.rpId
  {
    model.credentialId := c.credentialId;
    model.publicKeyJWK := c.publicKeyJWK;
    model.signCount := c.signCount;
    model.isDiscoverable := c.isDiscoverable;
    model.createdAt := c.createdAt;
    model.lastVerified := c.lastVerified;
    model.rpId := c.rpId;
  }

  /** The next six fields. */
  method WriteProtocolFields(model: SDServerCredential, c: ServerCredentialData)
    modifies model`userHandle, model`algorithm, model`protocolVersion, model`attestationFormat, model`aaguid,
             model`backupEligible
    ensures model.userHandle == c.userHandle && model.algorithm == c.algorithm
    ensures model.protocolVersion == c.protocolVersion && model.attestationFormat == c.attestationFormat
    ensures model.aaguid == c.aaguid && model.backupEligible == c.backupEligible
  {
    model.userHandle := c.userHandle;
    model.algorithm := c.algorithm;
    model.protocolVersion := c.protocolVersion;
    model.attestationFormat := c.attestationFormat;
    model.aaguid := c.aaguid;
    model.backupEligible := c.backupEligible;
  }

  /** The last six fields, the optional ones copied without coalescing. */
  method WriteAccountFields(model: SDServerCredential, c: ServerCredentialData)
    modifies model`backupState, model`emoji, model`lastLoginIP, model`isEnabled, model`isAdmin, model`userNumber
    ensures model.backupState == c.backupState && model.emoji == c.emoji
    ensures model.lastLoginIP == c.lastLoginIP && model.isEnabled == c.isEnabled
    ensures model.isAdmin == c.isAdmin && model.userNumber == c.userNumber
  {
    model.backupState := c.backupState;
    model.emoji := c.emoji;
    model.lastLoginIP := c.lastLoginIP;
    model.isEnabled := c.isEnabled;
    model.isAdmin := c.isAdmin;
    model.userNumber := c.userNumber;
  }
}
