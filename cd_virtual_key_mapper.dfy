/**
 * Conversion between the virtual-key value and its Core Data row. The
 * key-derivation info is spread over four columns; absent integers are
 * written as 0, and reading rebuilds the info only when both integers are
 * positive, so info with zero iterations or key length is lost.
 */
module CDVirtualKeyMapper {
  import opened Primitives
  import opened VirtualKeyModel
  import opened CDVirtualKeyEntity

  /** A key a Core Data row can hold: the key size and the derivation integers fit 32 bits. */
  predicate Storable(v: VirtualKeyData) {
    && FitsInt32(v.keySize)
    && (v.keyDerivationInfo.Some? ==>
          FitsInt32(v.keyDerivationInfo.value.iterations) && FitsInt32(v.keyDerivationInfo.value.keyLength))
  }

  /** `info?.algorithm`. */
  function KdfAlgorithmColumn(info: Option<KeyDerivationInfo>): Option<string> {
    if info.Some? then Some(info.value.algorithm) else None
  }

  /** `info?.salt`. */
  function KdfSaltColumn(info: Option<KeyDerivationInfo>): Option<Bytes> {
    if info.Some? then Some(info.value.salt) else None
  }

  /** `info?.iterations ?? 0`. */
  function KdfIterationsColumn(info: Option<KeyDerivationInfo>): int {
    if info.Some? then info.value.iterations else 0
  }

  /** `info?.keyLength ?? 0`. */
  function KdfKeyLengthColumn(info: Option<KeyDerivationInfo>): int {
    if info.Some? then info.value.keyLength else 0
  }

  /** The guard in `toVirtualKeyData`: info is rebuilt only from a full set of columns with positive integers. */
  function KeyDerivationFromColumns(algorithm: Option<string>, iterations: Int32, salt: Option<Bytes>,
                                   keyLength: Int32): (r: Option<KeyDerivationInfo>)
    ensures r.Some? <==> algorithm.Some? && salt.Some? && iterations > 0 && keyLength > 0
    ensures r.Some? ==> r.value == KeyDerivationInfo(algorithm.value, iterations as int, salt.value, keyLength as int)
  {
    if algorithm.Some? && salt.Some? && iterations > 0 && keyLength > 0 then
      Some(KeyDerivationInfo(algorithm.value, iterations as int, salt.value, keyLength as int))
    else
      None
  }

  /** What survives a round trip through the columns: info with a non-positive integer is dropped. */
  function StoredKeyDerivation(info: Option<KeyDerivationInfo>): (r: Option<KeyDerivationInfo>)
    ensures r.Some? ==> r == info
    ensures r == info <==> info.None? || (info.value.iterations > 0 && info.value.keyLength > 0)
  {
    if info.Some? && info.value.iterations > 0 && info.value.keyLength > 0 then info else None
  }

  /** Writing the four columns and reading them back yields the stored form of the info. */
  lemma KeyDerivationColumnsRoundTrip(info: Option<KeyDerivationInfo>)
    requires FitsInt32(KdfIterationsColumn(info)) && FitsInt32(KdfKeyLengthColumn(info))
    ensures KeyDerivationFromColumns(KdfAlgorithmColumn(info), ToInt32(KdfIterationsColumn(info)),
                                     KdfSaltColumn(info), ToInt32(KdfKeyLengthColumn(info)))
            == StoredKeyDerivation(info)
  {
  }

  /** What a Core Data row gives back for `v`. */
  function StoredForm(v: VirtualKeyData): (r: VirtualKeyData)
    ensures r == v.(keyDerivationInfo := StoredKeyDerivation(v.keyDerivationInfo))
    ensures r == v <==> v.keyDerivationInfo == StoredKeyDerivation(v.keyDerivationInfo)
  {
    v.(keyDerivationInfo := StoredKeyDerivation(v.keyDerivationInfo))
  }

  /** `toVirtualKeyData`: the integers widened, the info rebuilt under the guard. */
  function ToVirtualKeyData(row: CDVirtualKey): (v: VirtualKeyData)
    reads row
    ensures FitsInt32(v.keySize)
    ensures v.keyDerivationInfo.Some? <==>
      row.kdfAlgorithm.Some? && row.kdfSalt.Some? && row.kdfIterations > 0 && row.kdfKeyLength > 0
    ensures StoredForm(v) == v
  {
    VirtualKeyData(
      id := row.id,
      name := row.name,
      encryptedPrivateKey := row.encryptedPrivateKey,
      publicKey := row.publicKey,
      algorithm := row.algorithm,
      keySize := row.keySize as int,
      createdAt := row.createdAt,
      lastUsed := row.lastUsed,
      isActive := row.isActive,
      keyDerivationInfo := KeyDerivationFromColumns(row.kdfAlgorithm, row.kdfIterations, row.kdfSalt, row.kdfKeyLength))
  }

  /** The row's columns hold what the mappers write for `v`. */
  predicate HoldsColumnsOf(row: CDVirtualKey, v: VirtualKeyData)
    reads row
  {
    && row.id == v.id && row.name == v.name && row.encryptedPrivateKey == v.encryptedPrivateKey
    && row.publicKey == v.publicKey && row.algorithm == v.algorithm && row.keySize as int == v.keySize
    && row.createdAt == v.createdAt && row.lastUsed == v.lastUsed && row.isActive == v.isActive
    && row.kdfAlgorithm == KdfAlgorithmColumn(v.keyDerivationInfo)
    && row.kdfIterations as int == KdfIterationsColumn(v.keyDerivationInfo)
    && row.kdfSalt == KdfSaltColumn(v.keyDerivationInfo)
    && row.kdfKeyLength as int == KdfKeyLengthColumn(v.keyDerivationInfo)
  }

  /** A row holding the columns written for `v` reads back as the stored form of `v`. */
  lemma ReadBackIsStoredForm(row: CDVirtualKey, v: VirtualKeyData)
    requires HoldsColumnsOf(row, v)
    ensures ToVirtualKeyData(row) == StoredForm(v)
  {
    var info := v.keyDerivationInfo;
    assert row.kdfIterations == ToInt32(KdfIterationsColumn(info));
    assert row.kdfKeyLength == ToInt32(KdfKeyLengthColumn(info));
    KeyDerivationColumnsRoundTrip(info);
  }

  /** `fromVirtualKeyData`: always a new row; absent info is written as no algorithm, no salt and zeros. */
  method FromVirtualKeyData(v: VirtualKeyData) returns (row: CDVirtualKey)
    requires Storable(v)
    ensures fresh(row)
    ensures v.keyDerivationInfo.None? ==>
      row.kdfAlgorithm.None? && row.kdfSalt.None? && row.kdfIterations == 0 && row.kdfKeyLength == 0
    ensures HoldsColumnsOf(row, v)
    ensures ToVirtualKeyData(row) == StoredForm(v)
  {
    var info := v.keyDerivationInfo;
    row := new CDVirtualKey(v.id, v.name, v.encryptedPrivateKey, v.publicKey, v.algorithm, v.keySize,
                            v.createdAt, v.lastUsed, v.isActive, KdfAlgorithmColumn(info),
                            KdfIterationsColumn(info), KdfSaltColumn(info), KdfKeyLengthColumn(info));
    ReadBackIsStoredForm(row, v);
  }

  /** `updateVirtualKey`: overwrites every column, `id` and `createdAt` included; absent info clears all four. */
  method UpdateCDVirtualKey(row: CDVirtualKey, v: VirtualKeyData)
    requires Storable(v)
    modifies row
    ensures v.keyDerivationInfo.None? ==>
      row.kdfAlgorithm.None? && row.kdfSalt.None? && row.kdfIterations == 0 && row.kdfKeyLength == 0
    ensures HoldsColumnsOf(row, v)
    ensures ToVirtualKeyData(row) == StoredForm(v)
  {
    WriteKeyColumns(row, v);
    WriteUsageColumns(row, v);
    ReadBackIsStoredForm(row, v);
  }

  /** The first seven columns `updateVirtualKey` assigns. */
  method WriteKeyColumns(row: CDVirtualKey, v: VirtualKeyData)
    requires FitsInt32(v.keySize)
    modifies row`id, row`name, row`encryptedPrivateKey, row`publicKey, row`algorithm, row`keySize, row`createdAt
    ensures row.id == v.id && row.name == v.name && row.encryptedPrivateKey == v.encryptedPrivateKey
    ensures row.publicKey == v.publicKey && row.algorithm == v.algorithm && row.keySize as int == v.keySize
    ensures row.createdAt == v.createdAt
  {
    row.id := v.id;
    row.name := v.name;
    row.encryptedPrivateKey := v.encryptedPrivateKey;
    row.publicKey := v.publicKey;
    row.algorithm := v.algorithm;
    row.keySize := ToInt32(v.keySize);
    row.createdAt := v.createdAt;
  }

  /** The usage columns and the four key-derivation columns. */
  method WriteUsageColumns(row: CDVirtualKey, v: VirtualKeyData)
    requires FitsInt32(KdfIterationsColumn(v.keyDerivationInfo)) && FitsInt32(KdfKeyLengthColumn(v.keyDerivationInfo))
    modifies row`lastUsed, row`isActive, row`kdfAlgorithm, row`kdfIterations, row`kdfSalt, row`kdfKeyLength
    ensures row.lastUsed == v.lastUsed && row.isActive == v.isActive
    ensures row.kdfAlgorithm == KdfAlgorithmColumn(v.keyDerivationInfo)
    ensures row.kdfIterations as int == KdfIterationsColumn(v.keyDerivationInfo)
    ensures row.kdfSalt == KdfSaltColumn(v.keyDerivationInfo)
    ensures row.kdfKeyLength as int == KdfKeyLengthColumn(v.keyDerivationInfo)
  {
    var info := v.keyDerivationInfo;
    row.lastUsed := v.lastUsed;
    row.isActive := v.isActive;
    row.kdfAlgorithm := KdfAlgorithmColumn(info);
    row.kdfIterations := ToInt32(KdfIterationsColumn(info));
    row.kdfSalt := KdfSaltColumn(info);
    row.kdfKeyLength := ToInt32(KdfKeyLengthColumn(info));
  }

  /** `toVirtualKeyDataArray`: one value per row, in the same order. */
  function ToVirtualKeyDataArray(rows: seq<CDVirtualKey>): (r: seq<VirtualKeyData>)
    reads rows
    ensures |r| == |rows|
    ensures forall i :: 0 <= i < |rows| ==> r[i] == ToVirtualKeyData(rows[i])
  {
    if rows == [] then [] else [ToVirtualKeyData(rows[0])] + ToVirtualKeyDataArray(rows[1..])
  }
}
