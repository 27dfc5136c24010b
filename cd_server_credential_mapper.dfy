/**
 * Conversion between the server-credential value and its Core Data row.
 * The row has no optional backup flags and no optional user number, so
 * writing and reading back normalizes them: absent flags come back as
 * `false`, and a user number of 0 comes back as absent.
 */
module CDServerCredentialMapper {
  import opened Primitives
  import opened ServerCredentialModel
  import opened CDServerCredentialEntity

  /** A server credential a Core Data row can hold: its three integers fit 32 bits. */
  predicate Storable(c: ServerCredentialData) {
    FitsInt32(c.signCount) && FitsInt32(c.algorithm) && FitsInt32(c.userNumber.OrElse(0))
  }

  /** Reading the user-number column: 0 means there is none. */
  function UserNumberFromColumn(column: Int32): (n: Option<int>)
    ensures n.None? <==> column == 0
    ensures n.Some? ==> n.value == column as int
  {
    if column == 0 then None else Some(column as int)
  }

  /** Writing the user-number column: an absent number is stored as 0. */
  function UserNumberColumn(n: Option<int>): (column: Int32)
    requires FitsInt32(n.OrElse(0))
    ensures n.None? ==> column == 0
    ensures n.Some? ==> column as int == n.value
  {
    ToInt32(n.OrElse(0))
  }

  /** Stored user numbers round-trip, except 0, which comes back as absent. */
  lemma UserNumberRoundTrip(n: Option<int>)
    requires FitsInt32(n.OrElse(0))
    ensures UserNumberFromColumn(UserNumberColumn(n)) == (if n == Some(0) then None else n)
  {
  }

  /**
   * What a Core Data row gives back for `c`: absent backup flags become
   * `false`, a user number of 0 becomes absent, everything else is kept.
   * Nothing changes exactly when both flags are present and the user
   * number is not 0.
   */
  function StoredForm(c: ServerCredentialData): (r: ServerCredentialData)
    ensures r == c.(backupEligible := r.backupEligible, backupState := r.backupState, userNumber := r.userNumber)
    ensures r.backupEligible == (if c.backupEligible.Some? then c.backupEligible else Some(false))
    ensures r.backupState == (if c.backupState.Some? then c.backupState else Some(false))
    ensures r.userNumber == (if c.userNumber == Some(0) then None else c.userNumber)
    ensures r == c <==> c.backupEligible.Some? && c.backupState.Some? && c.userNumber != Some(0)
  {
    c.(backupEligible := Some(c.backupEligible.OrElse(false)),
       backupState := Some(c.backupState.OrElse(false)),
       userNumber := if c.userNumber == Some(0) then None else c.userNumber)
  }

  /** Normalizing twice is normalizing once. */
  lemma StoredFormIdempotent(c: ServerCredentialData)
    ensures StoredForm(StoredForm(c)) == StoredForm(c)
  {
  }

  /** `toServerCredentialData`: the integers widened, the user number 0 read as absent; the result is already in stored form. */
  function ToServerCredentialData(row: CDServerCredential): (c: ServerCredentialData)
    reads row
    ensures Storable(c)
    ensures StoredForm(c) == c
  {
    ServerCredentialData(
      id := row.id,
      credentialId := row.credentialId,
      publicKeyJWK := row.publicKeyJWK,
      signCount := row.signCount as int,
      isDiscoverable := row.isDiscoverable,
      createdAt := row.createdAt,
      lastVerified := row.lastVerified,
      rpId := row.rpId,
      userHandle := row.userHandle,
      algorithm := row.algorithm as int,
      protocolVersion := row.protocolVersion,
      attestationFormat := row.attestationFormat,
      aaguid := row.aaguid,
      backupEligible := Some(row.backupEligible),
      backupState := Some(row.backupState),
      emoji := row.emoji,
      lastLoginIP := row.lastLoginIP,
      isEnabled := row.isEnabled,
      isAdmin := row.isAdmin,
      userNumber := UserNumberFromColumn(row.userNumber))
  }

  /** The row's columns, other than `id` and `createdAt`, hold what the mappers write for `c`. */
  predicate HoldsColumnsOf(row: CDServerCredential, c: ServerCredentialData)
    reads row
  {
    && row.credentialId == c.credentialId && row.publicKeyJWK == c.publicKeyJWK
    && row.signCount as int == c.signCount && row.isDiscoverable == c.isDiscoverable
    && row.lastVerified == c.lastVerified && row.rpId == c.rpId && row.userHandle == c.userHandle
    && row.algorithm as int == c.algorithm && row.protocolVersion == c.protocolVersion
    && row.attestationFormat == c.attestationFormat && row.aaguid == c.aaguid
    && row.backupEligible == c.backupEligible.OrElse(false) && row.backupState == c.backupState.OrElse(false)
    && row.emoji == c.emoji && row.lastLoginIP == c.lastLoginIP
    && row.isEnabled == c.isEnabled && row.isAdmin == c.isAdmin
    && row.userNumber as int == c.userNumber.OrElse(0)
  }

  /** A row holding the columns written for `c` reads back as the stored form of `c`, with the row's own `id` and `createdAt`. */
  lemma ReadBackIsStoredForm(row: CDServerCredential, c: ServerCredentialData)
    requires HoldsColumnsOf(row, c)
    ensures ToServerCredentialData(row) == StoredForm(c).(id := row.id, createdAt := row.createdAt)
  {
    var r := ToServerCredentialData(row);
    var s := StoredForm(c).(id := row.id, createdAt := row.createdAt);
    assert r.backupEligible == s.backupEligible;
    assert r.backupState == s.backupState;
    assert r.userNumber == s.userNumber;
  }

  /** `fromServerCredentialData`: always a new row; reading it back gives the credential's stored form. */
  method FromServerCredentialData(c: ServerCredentialData) returns (row: CDServerCredential)
    requires Storable(c)
    ensures fresh(row)
    ensures ToServerCredentialData(row) == StoredForm(c)
  {
    row := new CDServerCredential(c.id, c.credentialId, c.publicKeyJWK, c.signCount, c.isDiscoverable,
                                  c.createdAt, c.lastVerified, c.rpId, c.userHandle, c.algorithm,
                                  c.protocolVersion, c.attestationFormat, c.aaguid, c.backupEligible,
                                  c.backupState, c.emoji, c.lastLoginIP, c.isEnabled, c.isAdmin, c.userNumber);
    ReadBackIsStoredForm(row, c);
  }

  /**
   * `updateCDServerCredential`: overwrites every column except `id` and
   * `createdAt`, absent flags as `false` and an absent user number as 0,
   * so the row then reads back as the stored form of `c` under its old
   * `id` and `createdAt`.
   */
  method UpdateCDServerCredential(row: CDServerCredential, c: ServerCredentialData)
    requires Storable(c)
    modifies row
    ensures row.id == old(row.id) && row.createdAt == old(row.createdAt)
    ensures HoldsColumnsOf(row, c)
  {
    WriteKeyColumns(row, c);
    WriteProtocolColumns(row, c);
    WriteAccountColumns(row, c);
  }

  /** The first six columns `updateCDServerCredential` assigns. */
  method WriteKeyColumns(row: CDServerCredential, c: ServerCredentialData)
    requires FitsInt32(c.signCount)
    modifies row`credentialId, row`publicKeyJWK, row`signCount, row`isDiscoverable, row`lastVerified, row`rpId
    ensures row.credentialId == c.credentialId && row.publicKeyJWK == c.publicKeyJWK
    ensures row.signCount as int == c.signCount && row.isDiscoverable == c.isDiscoverable
    ensures row.lastVerified == c.lastVerified && row.rpId == c.rpId
  {
    row.credentialId := c.credentialId;
    row.publicKeyJWK := c.publicKeyJWK;
    row.signCount := ToInt32(c.signCount);
    row.isDiscoverable := c.isDiscoverable;
    row.lastVerified := c.lastVerified;
    row.rpId := c.rpId;
  }

  /** The next six columns, the first backup flag coalesced to `false`. */
  method WriteProtocolColumns(row: CDServerCredential, c: ServerCredentialData)
    requires FitsInt32(c.algorithm)
    modifies row`userHandle, row`algorithm, row`protocolVersion, row`attestationFormat, row`aaguid, row`backupEligible
    ensures row.userHandle == c.userHandle && row.algorithm as int == c.algorithm
    ensures row.protocolVersion == c.protocolVersion && row.attestationFormat == c.attestationFormat
    ensures row.aaguid == c.aaguid && row.backupEligible == c.backupEligible.OrElse(false)
  {
    row.userHandle := c.userHandle;
    row.algorithm := ToInt32(c.algorithm);
    row.protocolVersion := c.protocolVersion;
    row.attestationFormat := c.attestationFormat;
    row.aaguid := c.aaguid;
    row.backupEligible := c.backupEligible.OrElse(false);
  }

  /** The last six columns, the second backup flag coalesced to `false` and the user number to 0. */
  method WriteAccountColumns(row: CDServerCredential, c: ServerCredentialData)
    requires FitsInt32(c.userNumber.OrElse(0))
    modifies row`backupState, row`emoji, row`lastLoginIP, row`isEnabled, row`isAdmin, row`userNumber
    ensures row.backupState == c.backupState.OrElse(false) && row.emoji == c.emoji
    ensures row.lastLoginIP == c.lastLoginIP && row.isEnabled == c.isEnabled
    ensures row.isAdmin == c.isAdmin && row.userNumber as int == c.userNumber.OrElse(0)
  {
    row.backupState := c.backupState.OrElse(false);
    row.emoji := c.emoji;
    row.lastLoginIP := c.lastLoginIP;
    row.isEnabled := c.isEnabled;
    row.isAdmin := c.isAdmin;
    row.userNumber := UserNumberColumn(c.userNumber);
  }

  /** `toServerCredentialDataArray`: one value per row, in the same order. */
  function ToServerCredentialDataArray(rows: seq<CDServerCredential>): (r: seq<ServerCredentialData>)
    reads rows
    ensures |r| == |rows|
    ensures forall i :: 0 <= i < |rows| ==> r[i] == ToServerCredentialData(rows[i])
  {
    if rows == [] then [] else [ToServerCredentialData(rows[0])] + ToServerCredentialDataArray(rows[1..])
  }
}
