/**
 * A virtual hardware key as an immutable value, with its optional
 * key-derivation parameters and copy-with-update helpers.
 */
module VirtualKeyModel {
  import opened Primitives
  import opened FetchRequests

  datatype KeyDerivationInfo = KeyDerivationInfo(algorithm: string, iterations: int, salt: Bytes, keyLength: int)

  datatype VirtualKeyData = VirtualKeyData(
    id: string,
    name: string,
    encryptedPrivateKey: Bytes,
    publicKey: Bytes,
    algorithm: string,
    keySize: int,
    createdAt: Date,
    lastUsed: Option<Date> := None,
    isActive: bool := true,
    keyDerivationInfo: Option<KeyDerivationInfo> := None)

  /** The initializer called with only the required arguments. */
  function NewVirtualKey(id: string, name: string, encryptedPrivateKey: Bytes, publicKey: Bytes,
                         algorithm: string, keySize: int, now: Date): (v: VirtualKeyData)
    ensures v.id == id && v.name == name && v.encryptedPrivateKey == encryptedPrivateKey
    ensures v.publicKey == publicKey && v.algorithm == algorithm && v.keySize == keySize && v.createdAt == now
    ensures v.lastUsed.None? && v.isActive && v.keyDerivationInfo.None?
  {
    VirtualKeyData(id := id, name := name, encryptedPrivateKey := encryptedPrivateKey, publicKey := publicKey,
                   algorithm := algorithm, keySize := keySize, createdAt := now)
  }

  /** A copy marked as used at `date`; every other field is kept. */
  function WithUpdatedLastUsed(v: VirtualKeyData, date: Date): (r: VirtualKeyData)
    ensures r == v.(lastUsed := Some(date))
  {
    VirtualKeyData(
      id := v.id,
      name := v.name,
      encryptedPrivateKey := v.encryptedPrivateKey,
      publicKey := v.publicKey,
      algorithm := v.algorithm,
      keySize := v.keySize,
      createdAt := v.createdAt,
      lastUsed := Some(date),
      isActive := v.isActive,
      keyDerivationInfo := v.keyDerivationInfo)
  }

  /** A copy with the given active flag; every other field is kept. */
  function WithActiveStatus(v: VirtualKeyData, isActive: bool): (r: VirtualKeyData)
    ensures r == v.(isActive := isActive)
  {
    VirtualKeyData(
      id := v.id,
      name := v.name,
      encryptedPrivateKey := v.encryptedPrivateKey,
      publicKey := v.publicKey,
      algorithm := v.algorithm,
      keySize := v.keySize,
      createdAt := v.createdAt,
      lastUsed := v.lastUsed,
      isActive := isActive,
      keyDerivationInfo := v.keyDerivationInfo)
  }

  /**
   * A copy with a new encrypted key. New key-derivation info replaces the old
   * one; when none is given the old one is kept, so this helper never clears it.
   */
  function WithUpdatedEncryptedKey(v: VirtualKeyData, newEncryptedKey: Bytes,
                                   keyDerivationInfo: Option<KeyDerivationInfo> := None): (r: VirtualKeyData)
    ensures r.encryptedPrivateKey == newEncryptedKey
    ensures keyDerivationInfo.Some? ==> r.keyDerivationInfo == keyDerivationInfo
    ensures keyDerivationInfo.None? ==> r.keyDerivationInfo == v.keyDerivationInfo
    ensures v.keyDerivationInfo.Some? ==> r.keyDerivationInfo.Some?
    ensures r == v.(encryptedPrivateKey := r.encryptedPrivateKey, keyDerivationInfo := r.keyDerivationInfo)
  {
    VirtualKeyData(
      id := v.id,
      name := v.name,
      encryptedPrivateKey := newEncryptedKey,
      publicKey := v.publicKey,
      algorithm := v.algorithm,
      keySize := v.keySize,
      createdAt := v.createdAt,
      lastUsed := v.lastUsed,
      isActive := v.isActive,
      keyDerivationInfo := if keyDerivationInfo.Some? then keyDerivationInfo else v.keyDerivationInfo)
  }

  /** A virtual key's attributes by name, as fetch predicates and sort descriptors see them. */
  function Field(v: VirtualKeyData, key: string): FieldValue {
    if key == "id" then Text(v.id)
    else if key == "name" then Text(v.name)
    else if key == "algorithm" then Text(v.algorithm)
    else if key == "createdAt" then Stamp(Some(v.createdAt))
    else if key == "lastUsed" then Stamp(v.lastUsed)
    else if key == "keySize" then Number(v.keySize)
    else if key == "isActive" then Flag(v.isActive)
    else Other
  }

  lemma CreatedAtField(v: VirtualKeyData)
    ensures Field(v, "createdAt") == Stamp(Some(v.createdAt))
  {
  }

  lemma IsActiveField(v: VirtualKeyData)
    ensures Field(v, "isActive") == Flag(v.isActive)
  {
  }

  /** Ordering by creation time. */
  function CreatedAtKey(v: VirtualKeyData): SortKey {
    At(v.createdAt)
  }

  /** Ordering by last use; never-used keys come first. */
  function LastUsedKey(v: VirtualKeyData): SortKey {
    if v.lastUsed.Some? then At(v.lastUsed.value) else Missing
  }
}
